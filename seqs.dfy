/** The array idioms the source uses: `indexOf` and the first-occurrence filter
    `arr.filter((x, i) => ok(x) && arr.indexOf(x) === i)`. */
module Seqs {

  /** `Array.prototype.indexOf`: the position of the first `x` in `s`, or -1. */
  function IndexOf<T(==)>(s: seq<T>, x: T): (i: int)
    ensures -1 <= i < |s|
    ensures i == -1 <==> x !in s
    ensures 0 <= i ==> s[i] == x && x !in s[..i]
  {
    if |s| == 0 then -1
    else if s[0] == x then 0
    else
      var j := IndexOf(s[1..], x);
      assert 0 <= j ==> s[..j + 1] == [s[0]] + s[1..][..j];
      if j == -1 then -1 else j + 1
  }

  /** No element occurs twice. */
  predicate Distinct<T(==)>(s: seq<T>) {
    forall i, j :: 0 <= i < j < |s| ==> s[i] != s[j]
  }

  /** The elements of `s[..n]` that satisfy `keep` and are the first occurrence of
      their value in the whole of `s`, in their order in `s`. */
  function FilterFirst<T(==,!new)>(s: seq<T>, keep: T -> bool, n: nat): (r: seq<T>)
    requires n <= |s|
    ensures forall x :: x in r <==> x in s[..n] && keep(x)
    decreases n
  {
    if n == 0 then []
    else
      var r := FilterFirst(s, keep, n - 1);
      assert s[..n] == s[..n - 1] + [s[n - 1]];
      if keep(s[n - 1]) && IndexOf(s, s[n - 1]) == n - 1 then
        r + [s[n - 1]]
      else
        assert keep(s[n - 1]) ==> s[n - 1] in s[..n - 1] by {
          var i := IndexOf(s, s[n - 1]);
          if keep(s[n - 1]) { assert s[..n - 1][i] == s[n - 1]; }
        }
        r
  }

  /** The filter never repeats an element. */
  lemma {:induction false} FilterFirstDistinct<T(!new)>(s: seq<T>, keep: T -> bool, n: nat)
    requires n <= |s|
    ensures Distinct(FilterFirst(s, keep, n))
    decreases n
  {
    if n > 0 {
      FilterFirstDistinct(s, keep, n - 1);
      FilterFirstStep(s, keep, n);
      var r := FilterFirst(s, keep, n - 1);
      if keep(s[n - 1]) && s[n - 1] !in s[..n - 1] {
        assert s[n - 1] !in r;
        DistinctConcat(r, [s[n - 1]]);
      }
    }
  }

  /** The first occurrence of each value, in order (`filter` with only the `indexOf` test). */
  function KeepFirst<T(==,!new)>(s: seq<T>): (r: seq<T>)
    ensures forall x :: x in r <==> x in s
    ensures Distinct(r)
    ensures |r| <= |s|
  {
    FilterFirstDistinct(s, _ => true, |s|);
    DistinctLength(FilterFirst(s, _ => true, |s|), s);
    assert s[..|s|] == s;
    FilterFirst(s, _ => true, |s|)
  }

  /** A sequence without repetitions is no longer than any sequence holding all its elements. */
  lemma {:induction false} DistinctLength<T>(r: seq<T>, s: seq<T>)
    requires Distinct(r)
    requires forall x :: x in r ==> x in s
    ensures |r| <= |s|
    decreases |r|
  {
    if |r| > 0 {
      var x := r[|r| - 1];
      var i := IndexOf(s, x);
      var s' := s[..i] + s[i + 1..];
      forall y | y in r[..|r| - 1] ensures y in s' {
        var k :| 0 <= k < |r| - 1 && r[..|r| - 1][k] == y;
        assert r[k] == y && y in r && y != x;
        var j :| 0 <= j < |s| && s[j] == y;
        if j < i { assert s'[j] == y; } else { assert s'[j - 1] == y; }
      }
      assert Distinct(r[..|r| - 1]);
      DistinctLength(r[..|r| - 1], s');
    }
  }

  /** In a sequence without repetitions every element is found at its own position. */
  lemma IndexOfDistinct<T>(s: seq<T>, k: nat)
    requires Distinct(s) && k < |s|
    ensures IndexOf(s, s[k]) == k
  {
    var j := IndexOf(s, s[k]);
    assert s[j] == s[k];
  }

  /** Appending leaves the positions of elements already present unchanged. */
  lemma IndexOfAppend<T>(s: seq<T>, z: T, x: T)
    requires x in s
    ensures IndexOf(s + [z], x) == IndexOf(s, x)
  {
    var i := IndexOf(s, x);
    assert (s + [z])[i] == x;
    assert (s + [z])[..i] == s[..i];
  }

  /** An element appended to a sequence that lacked it is found at the end. */
  lemma IndexOfAppendNew<T>(s: seq<T>, x: T)
    requires x !in s
    ensures IndexOf(s + [x], x) == |s|
  {
    assert (s + [x])[..|s|] == s;
  }

  /** An element absent from `s[..m]` and present at `m` is first found at `m`. */
  lemma IndexOfAt<T>(s: seq<T>, m: nat)
    requires m < |s| && s[m] !in s[..m]
    ensures IndexOf(s, s[m]) == m
  {
  }

  /** Two sequences without repetitions and without common elements concatenate to one. */
  lemma DistinctConcat<T>(a: seq<T>, b: seq<T>)
    requires Distinct(a) && Distinct(b)
    requires forall x :: x in b ==> x !in a
    ensures Distinct(a + b)
  {
    forall i, j | 0 <= i < j < |a + b| ensures (a + b)[i] != (a + b)[j] {
      if i < |a| && j >= |a| { assert b[j - |a|] in b; }
    }
  }

  /** One step of the filter: the `n`-th element is added when it passes `keep` and does not
      occur earlier. */
  lemma FilterFirstStep<T(!new)>(s: seq<T>, keep: T -> bool, n: nat)
    requires 0 < n <= |s|
    ensures FilterFirst(s, keep, n)
            == if keep(s[n - 1]) && s[n - 1] !in s[..n - 1] then FilterFirst(s, keep, n - 1) + [s[n - 1]]
               else FilterFirst(s, keep, n - 1)
  {
    if s[n - 1] !in s[..n - 1] {
      IndexOfAt(s, n - 1);
    } else {
      IndexOfBefore(s, s[n - 1], n - 1);
    }
  }

  /** When `keep` rejects exactly the elements of `pre`, pushing each element of `s` that is
      not yet present onto `pre` followed by the filter so far extends the filter by one step. */
  lemma FilterFirstPush<T(!new)>(s: seq<T>, keep: T -> bool, pre: seq<T>, n: nat)
    requires 0 < n <= |s|
    requires keep(s[n - 1]) <==> s[n - 1] !in pre
    ensures s[n - 1] in pre + FilterFirst(s, keep, n - 1) ==> pre + FilterFirst(s, keep, n - 1) == pre + FilterFirst(s, keep, n)
    ensures s[n - 1] !in pre + FilterFirst(s, keep, n - 1)
            ==> pre + FilterFirst(s, keep, n - 1) + [s[n - 1]] == pre + FilterFirst(s, keep, n)
  {
    FilterFirstStep(s, keep, n);
    var before := FilterFirst(s, keep, n - 1);
    if s[n - 1] !in pre + before {
      assert pre + before + [s[n - 1]] == pre + (before + [s[n - 1]]);
    }
  }

  /** An element of `s[..m]` has its first occurrence before `m`. */
  lemma IndexOfBefore<T>(s: seq<T>, x: T, m: nat)
    requires m <= |s| && x in s[..m]
    ensures 0 <= IndexOf(s, x) < m
  {
    var k :| 0 <= k < m && s[..m][k] == x;
    assert s[k] == x;
  }

  /** The first-occurrence filter keeps the relative order of first occurrences in `s`. */
  lemma {:induction false} FilterFirstOrder<T(!new)>(s: seq<T>, keep: T -> bool, n: nat, x: T, y: T)
    requires n <= |s|
    requires x in FilterFirst(s, keep, n) && y in FilterFirst(s, keep, n)
    ensures IndexOf(FilterFirst(s, keep, n), x) < IndexOf(FilterFirst(s, keep, n), y)
            <==> IndexOf(s, x) < IndexOf(s, y)
    decreases n
  {
    var r := FilterFirst(s, keep, n - 1);
    FilterFirstStep(s, keep, n);
    if keep(s[n - 1]) && s[n - 1] !in s[..n - 1] {
      if x in r && y in r {
        FilterFirstOrder(s, keep, n - 1, x, y);
      }
      AppendOrder(s, r, n - 1, x, y);
    } else {
      FilterFirstOrder(s, keep, n - 1, x, y);
    }
  }

  /** Appending the first occurrence of `s[m]` to a sequence drawn from `s[..m]` that orders its
      elements as `s` does yields a sequence that still orders them as `s` does. */
  lemma AppendOrder<T>(s: seq<T>, r: seq<T>, m: nat, x: T, y: T)
    requires m < |s| && s[m] !in s[..m]
    requires forall w :: w in r ==> w in s[..m]
    requires x in r + [s[m]] && y in r + [s[m]]
    requires x in r && y in r ==> (IndexOf(r, x) < IndexOf(r, y) <==> IndexOf(s, x) < IndexOf(s, y))
    ensures IndexOf(r + [s[m]], x) < IndexOf(r + [s[m]], y) <==> IndexOf(s, x) < IndexOf(s, y)
  {
    var z := s[m];
    assert z !in r;
    IndexOfAt(s, m);
    IndexOfAppendCompare(r, z, x, y);
    if x in r && y !in r {
      IndexOfBefore(s, x, m);
    } else if x !in r && y in r {
      IndexOfBefore(s, y, m);
    }
  }

  /** How appending a new element `z` orders the elements of `r + [z]`. */
  lemma IndexOfAppendCompare<T>(r: seq<T>, z: T, x: T, y: T)
    requires z !in r && x in r + [z] && y in r + [z]
    ensures x in r && y in r ==> (IndexOf(r + [z], x) < IndexOf(r + [z], y) <==> IndexOf(r, x) < IndexOf(r, y))
    ensures x in r && y !in r ==> y == z && IndexOf(r + [z], x) < IndexOf(r + [z], y)
    ensures x !in r && y in r ==> x == z && IndexOf(r + [z], y) < IndexOf(r + [z], x)
    ensures x !in r && y !in r ==> x == z && y == z
  {
    if x in r { IndexOfAppend(r, z, x); } else { IndexOfAppendNew(r, z); }
    if y in r { IndexOfAppend(r, z, y); } else { IndexOfAppendNew(r, z); }
  }

  /** A sequence that already has no repetitions passes the first-occurrence filter unchanged. */
  lemma {:induction false} FilterFirstOfDistinct<T(!new)>(s: seq<T>, n: nat)
    requires n <= |s| && Distinct(s)
    ensures FilterFirst(s, _ => true, n) == s[..n]
    decreases n
  {
    if n > 0 {
      FilterFirstOfDistinct(s, n - 1);
      FilterFirstStep(s, _ => true, n);
      assert s[n - 1] !in s[..n - 1];
      assert s[..n] == s[..n - 1] + [s[n - 1]];
    } else {
      assert FilterFirst(s, _ => true, 0) == [];
    }
  }
}

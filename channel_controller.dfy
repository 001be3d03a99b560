/** The channel endpoints (controllers/channel.server.controller.js): the `$expand` handling of
    `one`, archiving, the invite upsert, the message list's "seen" side effect, leaving, muting,
    the preview list's `$top` bound and degraded entries, and the guards `canAdmin`, `isOwner`
    and `getById`. */
module ChannelController {
  import opened Wrappers
  import opened Seqs
  import opened ChannelModel

  /** How a handler ends: `next()`, an empty 204, or a status with a message key. */
  datatype Reply = Next | NoContent | Refused(status: int, key: string)

  // ---------------------------------------------------------------------------
  // one: `$expand`

  /** `s.split(sep)`: the pieces between separators; never empty (`"".split(",")` is `[""]`). */
  function Split(s: string, sep: char): (r: seq<string>)
    ensures |r| >= 1
    ensures forall k :: 0 <= k < |r| ==> sep !in r[k]
    decreases |s|
  {
    var i := IndexOf(s, sep);
    if i < 0 then [s] else [s[..i]] + Split(s[i + 1..], sep)
  }

  /** Joining the pieces with the separator gives the string back. */
  lemma {:induction false} SplitJoin(s: string, sep: char)
    ensures Join(Split(s, sep), [sep]) == s
    decreases |s|
  {
    var i := IndexOf(s, sep);
    if i >= 0 {
      var head, rest := s[..i], s[i + 1..];
      var pieces := Split(rest, sep);
      SplitCons(s, sep);
      JoinCons(head, pieces, [sep]);
      SplitJoin(rest, sep);
      assert s == head + [sep] + rest;
    }
  }

  /** A string holding the separator splits into the piece before it and the split of the rest. */
  lemma SplitCons(s: string, sep: char)
    requires sep in s
    ensures Split(s, sep) == [s[..IndexOf(s, sep)]] + Split(s[IndexOf(s, sep) + 1..], sep)
  {
  }

  lemma JoinCons(head: string, pieces: seq<string>, sep: string)
    requires |pieces| >= 1
    ensures Join([head] + pieces, sep) == head + sep + Join(pieces, sep)
  {
    assert ([head] + pieces)[1..] == pieces;
  }

  /** The relations `one` can populate. */
  const AllowedExpands: seq<string> := ["users.user", "owner"]

  /** The non-empty, first-occurrence, allowed pieces of `$expand`, in the order they were asked. */
  function Expands(query: string): (r: seq<string>)
    ensures forall e :: e in r <==> e in Split(query, ',') && e in AllowedExpands
    ensures Distinct(r) && |r| <= 2
  {
    var parts := Split(query, ',');
    assert parts[..|parts|] == parts;
    FilterFirstDistinct(parts, e => e != "" && e in AllowedExpands, |parts|);
    DistinctLength(FilterFirst(parts, e => e != "" && e in AllowedExpands, |parts|), AllowedExpands);
    FilterFirst(parts, e => e != "" && e in AllowedExpands, |parts|)
  }

  /** What `one` answers: the channel as loaded, or a re-fetch populating the named relations. */
  datatype OneReply = AsLoaded | Refetched(populate: seq<string>)

  function One(query: string): (r: OneReply)
    ensures r.AsLoaded? <==> forall e :: e in Split(query, ',') ==> e !in AllowedExpands
    ensures r.Refetched? ==> 0 < |r.populate| <= 2 && r.populate == Expands(query)
  {
    var expands := Expands(query);
    if |expands| == 0 then AsLoaded
    else
      assert expands[0] in Split(query, ',') && expands[0] in AllowedExpands;
      Refetched(expands)
  }

  // ---------------------------------------------------------------------------
  // archive / unarchive

  /** `channel.set({ archived })` then `save()`: the path is marked only when the value changes. */
  method SetArchived(channel: Channel, archived: bool)
    modifies channel`archived, channel`modified, channel`version, channel`isNew, channel`users
    ensures channel.archived == archived && channel.modified == {} && !channel.isNew
    ensures var marked := if old(channel.archived) != archived then old(channel.modified) + {ArchivedPath}
                          else old(channel.modified);
            && (marked == {} && !old(channel.isNew) ==> channel.version == old(channel.version))
            && (marked != {} || old(channel.isNew) ==> channel.version == old(channel.SavedVersion()))
            && channel.users == (if marked == {} then old(channel.users) else HookedUsers(old(channel.users), marked))
  {
    if channel.archived != archived {
      channel.modified := channel.modified + {ArchivedPath};
    }
    channel.archived := archived;
    channel.Save();
  }

  // ---------------------------------------------------------------------------
  // invite

  /** One element of the request body `[{ user, isAdmin }]` (an absent `isAdmin` is false). */
  datatype Invitation = Invitation(user: Id, isAdmin: bool)

  /** `body.map(({ user }) => user)`: the invited ids, in request order (the counterpart of
      `Ids` for the request body rather than the member records). */
  function BodyIds(body: seq<Invitation>): (r: seq<Id>)
    ensures |r| == |body|
    ensures forall k :: 0 <= k < |body| ==> r[k] == body[k].user
  {
    seq(|body|, k requires 0 <= k < |body| => body[k].user)
  }

  /** One step of the `forEach`: the first record of the user gets the new `isAdmin`,
      or a record `{ user, isAdmin }` is pushed. */
  function InviteOne(users: seq<Member>, inv: Invitation): (r: seq<Member>)
    ensures inv.user in Ids(users) ==> Ids(r) == Ids(users)
    ensures inv.user !in Ids(users) ==> Ids(r) == Ids(users) + [inv.user]
  {
    var i := IndexOf(Ids(users), inv.user);
    if i < 0 then
      IdsAppend(users, Member(inv.user, inv.isAdmin, false, None));
      users + [Member(inv.user, inv.isAdmin, false, None)]
    else
      var r := users[i := users[i].(isAdmin := inv.isAdmin)];
      assert Ids(r) == Ids(users);
      r
  }

  /** The test the pushed records pass: not already a member. */
  function Newcomer(users: seq<Member>): Id -> bool {
    x => x !in Ids(users)
  }

  /** The users after the first `n` invitations. */
  function InvitedUpTo(users: seq<Member>, body: seq<Invitation>, n: nat): seq<Member>
    requires n <= |body|
    decreases n
  {
    if n == 0 then users else InviteOne(InvitedUpTo(users, body, n - 1), body[n - 1])
  }

  function Invited(users: seq<Member>, body: seq<Invitation>): seq<Member> {
    InvitedUpTo(users, body, |body|)
  }

  /** The `isAdmin` of the last of the first `n` invitations naming `x`. */
  function LastAdmin(body: seq<Invitation>, n: nat, x: Id): (r: Option<bool>)
    requires n <= |body|
    ensures r.Some? <==> x in BodyIds(body)[..n]
    decreases n
  {
    if n == 0 then None
    else
      assert BodyIds(body)[..n] == BodyIds(body)[..n - 1] + [body[n - 1].user];
      if body[n - 1].user == x then Some(body[n - 1].isAdmin) else LastAdmin(body, n - 1, x)
  }

  /** Records already present keep their place and every field but `isAdmin`, and are untouched
      when no invitation names them; pushed records are neither muted nor seen. */
  lemma {:induction false} InvitedKeepsRecords(users: seq<Member>, body: seq<Invitation>, n: nat)
    requires n <= |body|
    ensures var r := InvitedUpTo(users, body, n);
            && |r| >= |users|
            && (forall k :: 0 <= k < |users| ==> r[k] == users[k].(isAdmin := r[k].isAdmin))
            && (forall k :: 0 <= k < |users| && users[k].user !in BodyIds(body)[..n] ==> r[k] == users[k])
            && (forall k :: |users| <= k < |r| ==> !r[k].mute && r[k].lastSeen == None)
    decreases n
  {
    if n > 0 {
      InvitedKeepsRecords(users, body, n - 1);
      var prev := InvitedUpTo(users, body, n - 1);
      var inv := body[n - 1];
      assert BodyIds(body)[..n] == BodyIds(body)[..n - 1] + [inv.user];
      var i := IndexOf(Ids(prev), inv.user);
      if i >= 0 {
        var r := InvitedUpTo(users, body, n);
        assert r == prev[i := prev[i].(isAdmin := inv.isAdmin)];
        forall k | 0 <= k < |users| && users[k].user !in BodyIds(body)[..n]
          ensures r[k] == users[k]
        {
          assert prev[k].user == users[k].user;
          assert Ids(prev)[k] != inv.user;
        }
      }
    }
  }

  /** The pushed records are the newcomers, each once, in the order of their first invitation. */
  lemma {:induction false} InvitedAppendsNewcomers(users: seq<Member>, body: seq<Invitation>, n: nat)
    requires n <= |body|
    ensures Ids(InvitedUpTo(users, body, n))
            == Ids(users) + FilterFirst(BodyIds(body), Newcomer(users), n)
    decreases n
  {
    if n > 0 {
      InvitedAppendsNewcomers(users, body, n - 1);
      assert Ids(InvitedUpTo(users, body, n - 1)) == Ids(users) + FilterFirst(BodyIds(body), Newcomer(users), n - 1);
      InvitedIdsStep(users, body, n);
      FilterFirstPush(BodyIds(body), Newcomer(users), Ids(users), n);
    } else {
      assert Ids(users) + FilterFirst(BodyIds(body), Newcomer(users), 0) == Ids(users);
    }
  }

  /** One invitation pushes its user's id unless the list already holds it. */
  lemma InvitedIdsStep(users: seq<Member>, body: seq<Invitation>, n: nat)
    requires 0 < n <= |body|
    ensures BodyIds(body)[n - 1] in Ids(InvitedUpTo(users, body, n - 1))
            ==> Ids(InvitedUpTo(users, body, n)) == Ids(InvitedUpTo(users, body, n - 1))
    ensures BodyIds(body)[n - 1] !in Ids(InvitedUpTo(users, body, n - 1))
            ==> Ids(InvitedUpTo(users, body, n)) == Ids(InvitedUpTo(users, body, n - 1)) + [BodyIds(body)[n - 1]]
  {
    assert InvitedUpTo(users, body, n) == InviteOne(InvitedUpTo(users, body, n - 1), body[n - 1]);
  }

  /** The record of every invited user carries the `isAdmin` of the last invitation naming it. */
  lemma {:induction false} InvitedLastWins(users: seq<Member>, body: seq<Invitation>, n: nat, x: Id)
    requires n <= |body| && x in BodyIds(body)[..n]
    ensures x in Ids(InvitedUpTo(users, body, n))
    ensures InvitedUpTo(users, body, n)[IndexOf(Ids(InvitedUpTo(users, body, n)), x)].isAdmin
            == LastAdmin(body, n, x).value
    decreases n
  {
    var prev := InvitedUpTo(users, body, n - 1);
    var inv := body[n - 1];
    var r := InvitedUpTo(users, body, n);
    assert r == InviteOne(prev, inv);
    if inv.user == x {
      assert LastAdmin(body, n, x) == Some(inv.isAdmin);
      InviteOneRecord(prev, inv, x);
      assert x in Ids(r) && r[IndexOf(Ids(r), x)].isAdmin == inv.isAdmin;
    } else {
      assert BodyIds(body)[..n] == BodyIds(body)[..n - 1] + [inv.user];
      InvitedLastWins(users, body, n - 1, x);
      assert LastAdmin(body, n, x) == LastAdmin(body, n - 1, x);
      InviteOneRecord(prev, inv, x);
      assert r[IndexOf(Ids(r), x)].isAdmin == prev[IndexOf(Ids(prev), x)].isAdmin;
    }
  }

  /** After one step, the record of the invited user has the invitation's `isAdmin`, and the
      record of any other present user is the one it had. */
  lemma InviteOneRecord(users: seq<Member>, inv: Invitation, x: Id)
    requires x in Ids(users) || x == inv.user
    ensures var r := InviteOne(users, inv);
            && x in Ids(r)
            && r[IndexOf(Ids(r), x)].isAdmin
               == if x == inv.user then inv.isAdmin else users[IndexOf(Ids(users), x)].isAdmin
  {
    var r := InviteOne(users, inv);
    var i := IndexOf(Ids(users), inv.user);
    if i < 0 {
      var m := Member(inv.user, inv.isAdmin, false, None);
      IdsAppend(users, m);
      if inv.user == x {
        IndexOfAppendNew(Ids(users), x);
      } else {
        IndexOfAppend(Ids(users), inv.user, x);
      }
    } else {
      if inv.user != x {
        assert Ids(users)[i] != x;
      }
    }
  }

  /** The whole invite on a list without repeated users (the state every save leaves): the hook
      keeps the list as the `forEach` built it, without repetitions, the present records keep all
      but `isAdmin`, the newcomers follow in invitation order, and the last invitation wins. */
  lemma InviteUpserts(users: seq<Member>, body: seq<Invitation>)
    requires Distinct(Ids(users))
    ensures UniqueUsers(Invited(users, body)) == Invited(users, body)
    ensures Distinct(Ids(Invited(users, body)))
    ensures Ids(Invited(users, body)) == Ids(users) + FilterFirst(BodyIds(body), Newcomer(users), |body|)
    ensures |Invited(users, body)| >= |users|
    ensures forall k :: 0 <= k < |users| ==>
              Invited(users, body)[k] == users[k].(isAdmin := Invited(users, body)[k].isAdmin)
    ensures forall k :: 0 <= k < |users| && users[k].user !in BodyIds(body) ==> Invited(users, body)[k] == users[k]
    ensures forall x :: x in BodyIds(body) ==>
              x in Ids(Invited(users, body))
              && Invited(users, body)[IndexOf(Ids(Invited(users, body)), x)].isAdmin == LastAdmin(body, |body|, x).value
  {
    var ids := BodyIds(body);
    assert ids[..|body|] == ids;
    InvitedKeepsRecords(users, body, |body|);
    InvitedDistinct(users, body);
    forall x | x in ids
      ensures x in Ids(Invited(users, body))
      ensures Invited(users, body)[IndexOf(Ids(Invited(users, body)), x)].isAdmin == LastAdmin(body, |body|, x).value
    {
      InvitedLastWins(users, body, |body|, x);
    }
  }

  /** Invitations never repeat a user in a list without repetitions, so the hook keeps it. */
  lemma InvitedDistinct(users: seq<Member>, body: seq<Invitation>)
    requires Distinct(Ids(users))
    ensures Ids(Invited(users, body)) == Ids(users) + FilterFirst(BodyIds(body), Newcomer(users), |body|)
    ensures Distinct(Ids(Invited(users, body)))
    ensures UniqueUsers(Invited(users, body)) == Invited(users, body)
  {
    var newcomers := FilterFirst(BodyIds(body), Newcomer(users), |body|);
    InvitedAppendsNewcomers(users, body, |body|);
    FilterFirstDistinct(BodyIds(body), Newcomer(users), |body|);
    assert forall x :: x in newcomers ==> Newcomer(users)(x);
    DistinctConcat(Ids(users), newcomers);
    UniqueUsersOfDistinct(Invited(users, body));
  }

  /** Every invited user can open the channel afterwards. */
  lemma InviteGrantsAccess(kind: ChannelType, owner: Id, users: seq<Member>, body: seq<Invitation>, x: Id)
    requires x in BodyIds(body)
    ensures CanAccess(kind, owner, UniqueUsers(Invited(users, body)), Some(x))
  {
    assert BodyIds(body)[..|body|] == BodyIds(body);
    InvitedLastWins(users, body, |body|, x);
    assert x in KeepFirst(Ids(Invited(users, body)));
  }

  /** `invite`: the `forEach` upsert on the loaded users, `markModified('users')`, `save()`. */
  method Invite(channel: Channel, body: seq<Invitation>)
    modifies channel`users, channel`modified, channel`version, channel`isNew
    ensures channel.users == UniqueUsers(Invited(old(channel.users), body))
    ensures channel.modified == {} && !channel.isNew && channel.version == old(channel.SavedVersion())
  {
    ghost var before := channel.users;
    for i := 0 to |body|
      invariant channel.users == InvitedUpTo(before, body, i)
      invariant channel.modified == old(channel.modified) && channel.version == old(channel.version)
      invariant channel.isNew == old(channel.isNew)
    {
      var inv := body[i];
      var found := IndexOf(Ids(channel.users), inv.user);
      if found < 0 {
        channel.users := channel.users + [Member(inv.user, inv.isAdmin, false, None)];
      } else {
        channel.users := channel.users[found := channel.users[found].(isAdmin := inv.isAdmin)];
      }
    }
    channel.modified := channel.modified + {UsersPath};
    channel.Save();
  }

  // ---------------------------------------------------------------------------
  // messages

  /** A numeric query parameter as `parseInt(v, 10)` sees it. */
  datatype QueryNumber = Absent | Parsed(n: int) | NotANumber

  /** `$skip` defaults to 0; only a page starting at 0 marks the channel seen. */
  predicate FirstPage(skip: QueryNumber) {
    skip.Absent? || skip == Parsed(0)
  }

  /** `messages`: the page itself comes from the query layer; on the first page the caller's
      record is stamped seen and the channel saved. */
  method ListMessages(channel: Channel, caller: Option<Id>, skip: QueryNumber, now: int) returns (seen: bool)
    modifies channel`users, channel`modified, channel`version, channel`isNew
    ensures seen <==> FirstPage(skip) && Seen(channel.owner, old(channel.users), caller, now).Some?
    ensures !seen ==> channel.users == old(channel.users) && channel.modified == old(channel.modified)
                      && channel.version == old(channel.version) && channel.isNew == old(channel.isNew)
    ensures seen ==> channel.users == UniqueUsers(Seen(channel.owner, old(channel.users), caller, now).value)
                     && channel.modified == {} && !channel.isNew && channel.version == old(channel.SavedVersion())
  {
    seen := false;
    if FirstPage(skip) {
      seen := channel.Saw(caller, now, true);
    }
  }

  // ---------------------------------------------------------------------------
  // leave

  /** `users.filter(({ user: u }) => uId !== getDocKey(u))`. */
  function Without(users: seq<Member>, u: Id): (r: seq<Member>)
    ensures forall m :: m in r <==> m in users && m.user != u
    ensures |r| <= |users|
  {
    if |users| == 0 then []
    else
      var m := users[|users| - 1];
      assert users == users[..|users| - 1] + [m];
      if m.user == u then Without(users[..|users| - 1], u) else Without(users[..|users| - 1], u) + [m]
  }

  /** A user without a record leaves the list as it was. */
  lemma {:induction false} WithoutNonMember(users: seq<Member>, u: Id)
    requires u !in Ids(users)
    ensures Without(users, u) == users
  {
    if |users| > 0 {
      var init, last := users[..|users| - 1], users[|users| - 1];
      assert users == init + [last];
      IdsAppend(init, last);
      assert u !in Ids(init) && last.user != u;
      WithoutNonMember(init, u);
      assert Without(users, u) == Without(init, u) + [last];
    }
  }

  /** The filter works piecewise, so the remaining records keep their order. */
  lemma {:induction false} WithoutConcat(a: seq<Member>, b: seq<Member>, u: Id)
    ensures Without(a + b, u) == Without(a, u) + Without(b, u)
    decreases |b|
  {
    if |b| > 0 {
      var init := b[..|b| - 1];
      WithoutConcat(a, init, u);
      assert (a + b)[..|a + b| - 1] == a + init;
      assert b[..|b| - 1] == init;
    } else {
      assert a + b == a;
    }
  }

  /** `leave`: refused for a visitor and for the owner; otherwise the caller's records are
      filtered out and the channel saved. */
  method Leave(channel: Channel, caller: Option<Id>) returns (reply: Reply)
    modifies channel`users, channel`modified, channel`version, channel`isNew
    ensures caller.None? || caller.value == old(channel.owner) ==>
              reply == Refused(400, "CHANNEL_CANNOT_LEAVE") && channel.users == old(channel.users)
              && channel.modified == old(channel.modified) && channel.version == old(channel.version)
              && channel.isNew == old(channel.isNew)
    ensures caller.Some? && caller.value != old(channel.owner) ==>
              reply == NoContent && channel.users == UniqueUsers(Without(old(channel.users), caller.value))
              && channel.modified == {} && !channel.isNew && channel.version == old(channel.SavedVersion())
  {
    if caller.None? || caller.value == channel.owner {
      return Refused(400, "CHANNEL_CANNOT_LEAVE");
    }
    channel.users := Without(channel.users, caller.value);
    channel.modified := channel.modified + {UsersPath};
    channel.Save();
    reply := NoContent;
  }

  /** The filter drops exactly the records of `u`: every other user keeps its membership. */
  lemma WithoutIds(users: seq<Member>, u: Id, v: Id)
    ensures u !in Ids(Without(users, u))
    ensures v != u ==> (v in Ids(Without(users, u)) <==> v in Ids(users))
  {
    var w := Without(users, u);
    if v != u && v in Ids(users) {
      var k :| 0 <= k < |users| && Ids(users)[k] == v;
      assert users[k] in w;
      var j :| 0 <= j < |w| && w[j] == users[k];
      assert Ids(w)[j] == v;
    }
    if v in Ids(w) {
      var j :| 0 <= j < |w| && Ids(w)[j] == v;
      assert w[j] in users;
      var k :| 0 <= k < |users| && users[k] == w[j];
      assert Ids(users)[k] == v;
    }
  }

  /** After leaving, the caller can open the channel only if it is internal, while every other
      user keeps its membership. */
  lemma LeaveRevokesAccess(kind: ChannelType, owner: Id, users: seq<Member>, u: Id, v: Id)
    requires u != owner
    ensures var after := UniqueUsers(Without(users, u));
            && (CanAccess(kind, owner, after, Some(u)) <==> kind == Internal)
            && (v != u ==> (v in Ids(after) <==> v in Ids(users)))
  {
    WithoutIds(users, u, v);
    assert Ids(UniqueUsers(Without(users, u))) == KeepFirst(Ids(Without(users, u)));
  }

  // ---------------------------------------------------------------------------
  // mute

  /** `mute`: the model's `mute(user)`, then 204 whether or not a record was found. */
  method MuteChannel(channel: Channel, caller: Option<Id>) returns (reply: Reply)
    modifies channel`users, channel`modified, channel`version, channel`isNew
    ensures reply == NoContent
    ensures Muted(channel.owner, old(channel.users), caller).None? ==>
              channel.users == old(channel.users) && channel.modified == old(channel.modified)
              && channel.version == old(channel.version) && channel.isNew == old(channel.isNew)
    ensures Muted(channel.owner, old(channel.users), caller).Some? ==>
              channel.users == UniqueUsers(Muted(channel.owner, old(channel.users), caller).value)
              && channel.modified == {} && !channel.isNew && channel.version == old(channel.SavedVersion())
  {
    var _ := channel.Mute(caller);
    reply := NoContent;
  }

  // ---------------------------------------------------------------------------
  // listPreview

  /** `$top` defaults to 10; a value that does not parse, or above 100, becomes 100. */
  function PreviewTop(top: QueryNumber): (r: int)
    ensures r <= 100
    ensures top.Absent? ==> r == 10
    ensures top.Parsed? && top.n <= 100 ==> r == top.n
    ensures top.NotANumber? || (top.Parsed? && top.n > 100) ==> r == 100
  {
    match top
    case Absent => 10
    case NotANumber => 100
    case Parsed(n) => if n > 100 then 100 else n
  }

  /** The outcome of `getPreview` for one channel of the page: its preview, or a failure. */
  datatype Attempt = Attempt(id: Id, preview: Option<Preview>)

  /** One entry of the answer: the preview, or `{ _id, message: 'Not available' }` (the `name`
      of the degraded entry is read from the handler's own `this` and carries no channel name). */
  datatype PreviewEntry = Full(preview: Preview) | Unavailable(id: Id, message: string)

  /** The page of previews: one entry per channel, in page order; a failing channel degrades its
      own entry and no other. */
  function PreviewPage(attempts: seq<Attempt>): (r: seq<PreviewEntry>)
    ensures |r| == |attempts|
    ensures forall k :: 0 <= k < |r| ==>
              (attempts[k].preview.Some? ==> r[k] == Full(attempts[k].preview.value))
              && (attempts[k].preview.None? ==> r[k] == Unavailable(attempts[k].id, "Not available"))
  {
    if |attempts| == 0 then []
    else
      var a := attempts[|attempts| - 1];
      PreviewPage(attempts[..|attempts| - 1])
      + [if a.preview.Some? then Full(a.preview.value) else Unavailable(a.id, "Not available")]
  }

  // ---------------------------------------------------------------------------
  // guards

  /** `canAdmin`: refused when `isAdmin(user)` is falsy. */
  function CanAdmin(owner: Id, users: seq<Member>, caller: Option<Id>): (r: Reply)
    ensures r == Next || r == Refused(403, "CHANNEL_CANNOT_ADMINISTRATE")
    ensures r == Next <==> Truthy(IsAdmin(owner, users, caller))
  {
    if Truthy(IsAdmin(owner, users, caller)) then Next else Refused(403, "CHANNEL_CANNOT_ADMINISTRATE")
  }

  /** As written, the guard lets every signed-in user through and refuses only visitors. */
  lemma CanAdminRefusesOnlyVisitors(owner: Id, users: seq<Member>, caller: Option<Id>)
    ensures CanAdmin(owner, users, caller) == Next <==> caller.Some?
  {
    if caller.Some? {
      IsAdminTruthyForEveryone(owner, users, caller.value);
    }
  }

  /** The guard with the intended answer: only the owner and recorded admins pass. */
  function CanAdminIntended(owner: Id, users: seq<Member>, caller: Option<Id>): (r: Reply)
    ensures r == Next <==> caller.Some? && (caller.value == owner || exists m :: m in users && m.user == caller.value && m.isAdmin)
    ensures r != Next ==> r == Refused(403, "CHANNEL_CANNOT_ADMINISTRATE")
  {
    if IsAdminIntended(owner, users, caller) then Next else Refused(403, "CHANNEL_CANNOT_ADMINISTRATE")
  }

  /** `isOwner`: only the owner passes. */
  function IsOwner(owner: Id, caller: Option<Id>): (r: Reply)
    ensures r == Next <==> caller == Some(owner)
    ensures r != Next ==> r == Refused(403, "CHANNEL_UNAUTHORIZED_ACTION")
  {
    if caller.None? || caller.value != owner then Refused(403, "CHANNEL_UNAUTHORIZED_ACTION") else Next
  }

  /** Passing `isOwner` implies passing `canAccess`, for every kind of channel. */
  lemma OwnerCanAccess(kind: ChannelType, owner: Id, users: seq<Member>, caller: Option<Id>)
    requires IsOwner(owner, caller) == Next
    ensures CanAccess(kind, owner, users, caller)
  {
  }

  /** The answer of the `:id` parameter handler: refused, or the channel attached to the request. */
  datatype Access = Denied(status: int, key: string) | Granted(channel: Channel)

  /** `getById`: 400 for an id that is not an ObjectId; 404 when no channel has it or when the
      caller may not open it (the two are indistinguishable); otherwise the channel. */
  method GetById(validId: bool, stored: Option<Channel>, caller: Option<Id>) returns (r: Access)
    ensures !validId ==> r == Denied(400, "CHANNEL_INVALID_ID")
    ensures validId && stored.None? ==> r == Denied(404, "CHANNEL_NOT_FOUND")
    ensures validId && stored.Some? ==>
              var c := stored.value;
              && (r == Granted(c) <==> CanAccess(c.kind, c.owner, c.users, caller))
              && (r != Granted(c) ==> r == Denied(404, "CHANNEL_NOT_FOUND"))
  {
    if !validId {
      return Denied(400, "CHANNEL_INVALID_ID");
    }
    if stored.None? || !CanAccess(stored.value.kind, stored.value.owner, stored.value.users, caller) {
      return Denied(404, "CHANNEL_NOT_FOUND");
    }
    r := Granted(stored.value);
  }
}

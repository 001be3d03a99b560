/** The message document (models/message.server.model.js): the setters that stash the previous
    `text` and `updated_at`, and the pre-save hook that keeps a capped, newest-first history. */
module MessageModel {
  import opened Wrappers

  /** The `type` path of a message (schema enum). */
  datatype MessageType = Plain | Info | Warning | Danger

  /** One history entry `{ text, date }`; either part is unset when its stash was. */
  datatype Version = Version(text: Option<string>, date: Option<int>)

  /** The process-wide settings the hook and the remove controller read. */
  datatype Config = Config(removeMessages: bool, versioning: bool, nbMsgVersions: int)

  /** `list.slice(0, cap)` when `0 <= cap <= |list|`, else the list itself. */
  function Capped<T>(list: seq<T>, cap: int): (r: seq<T>)
    ensures 0 <= cap <= |list| ==> |r| == cap
    ensures !(0 <= cap <= |list|) ==> r == list
    ensures r <= list
  {
    if 0 <= cap <= |list| then list[..cap] else list
  }

  /** The history after one archived edit: `unshift` the entry, then cap the list. */
  function Archive(versions: seq<Version>, entry: Version, cap: int): (r: seq<Version>)
    ensures cap >= 0 ==> |r| <= cap && |r| == (if cap <= |versions| + 1 then cap else |versions| + 1)
    ensures cap < 0 ==> |r| == |versions| + 1
    ensures |r| > 0 ==> r[0] == entry
    ensures forall k :: 1 <= k < |r| ==> r[k] == versions[k - 1]
  {
    Capped([entry] + versions, cap)
  }

  /** The entry an archived edit records: the stashed text and the stashed `updated_at`,
      falling back to the current `updated_at` (`this[updatedAtSymbol] || this.updated_at`). */
  function StashedEntry(stashedText: Option<string>, stashedUpdatedAt: Option<int>, updatedAt: Option<int>): (r: Version)
    ensures r.text == stashedText
    ensures r.date.None? <==> stashedUpdatedAt.None? && updatedAt.None?
    ensures stashedUpdatedAt.Some? ==> r.date == stashedUpdatedAt
  {
    Version(stashedText, if stashedUpdatedAt.Some? then stashedUpdatedAt else updatedAt)
  }

  /** The history after a series of archived edits, the oldest first. */
  function History(versions: seq<Version>, entries: seq<Version>, cap: int): seq<Version>
    decreases |entries|
  {
    if |entries| == 0 then versions
    else Archive(History(versions, entries[..|entries| - 1], cap), entries[|entries| - 1], cap)
  }

  function Reverse<T>(s: seq<T>): (r: seq<T>)
    ensures |r| == |s|
  {
    if |s| == 0 then [] else [s[|s| - 1]] + Reverse(s[..|s| - 1])
  }

  /** The history behaves as a bounded stack: after any series of edits it holds the newest
      entries first, followed by the older history, cut to the cap when the cap applies (a history
      longer than the cap, left by an earlier setting, is cut on the first edit). */
  lemma {:induction false} HistoryIsBoundedStack(versions: seq<Version>, entries: seq<Version>, cap: int)
    requires |entries| > 0
    ensures History(versions, entries, cap) == Capped(Reverse(entries) + versions, cap)
    decreases |entries|
  {
    var init, x := entries[..|entries| - 1], entries[|entries| - 1];
    assert Reverse(entries) == [x] + Reverse(init);
    if |init| > 0 {
      HistoryIsBoundedStack(versions, init, cap);
      var s := Reverse(init) + versions;
      assert Reverse(entries) + versions == [x] + s;
      assert History(versions, entries, cap) == Capped([x] + Capped(s, cap), cap);
      if 0 <= cap <= |s| {
        assert Capped(s, cap) == s[..cap];
        if cap > 0 {
          assert ([x] + s[..cap])[..cap] == ([x] + s)[..cap];
        }
        assert Capped([x] + s[..cap], cap) == ([x] + s)[..cap];
      } else if cap > |s| {
        assert Capped(s, cap) == s;
        if cap == |s| + 1 {
          assert ([x] + s)[..cap] == [x] + s;
        }
        assert Capped([x] + s, cap) == [x] + s;
      }
    }
  }

  /** Consequences of the cap: with a cap of at least 0 the history never exceeds it and a cap of
      0 empties it on every edit; with a negative cap every edit adds exactly one entry. */
  lemma HistoryLength(versions: seq<Version>, entries: seq<Version>, cap: int)
    ensures cap >= 0 && |entries| > 0 ==> |History(versions, entries, cap)| <= cap
    ensures cap == 0 && |entries| > 0 ==> History(versions, entries, cap) == []
    ensures cap < 0 ==> |History(versions, entries, cap)| == |versions| + |entries|
  {
    if |entries| > 0 {
      HistoryIsBoundedStack(versions, entries, cap);
      if cap >= 0 && cap < |Reverse(entries) + versions| {
        assert |History(versions, entries, cap)| == cap;
      }
    }
  }

  /** Two edits of a message, T1 then T2, under a cap of 5: the most recent previous text first. */
  lemma TwoEditsKeepBothTexts(t1: Version, t2: Version)
    ensures History([], [t1, t2], 5) == [t2, t1]
  {
    assert [t1, t2][..1] == [t1];
    assert History([], [t1], 5) == [t1];
  }

  /** The paths `modifiedPaths()` can report. */
  datatype MessagePath = TextPath | TypePath | SenderPath | ChannelPath | RemovedPath | UpdatedAtPath

  class Message {
    var text: string
    var kind: MessageType
    var sender: Option<Id>
    var channel: Id
    var removed: bool
    var versions: seq<Version>
    var updatedAt: Option<int>
    var isNew: bool
    var modified: set<MessagePath>
    var stashedText: Option<string>      // this[Symbol.for('text')]
    var stashedUpdatedAt: Option<int>    // this[Symbol.for('updated_at')]

    /** `new ChatMessage({ channel, text, sender })`: the text setter runs while `text` is unset. */
    constructor Create(text: string, sender: Option<Id>, channel: Id)
      ensures this.text == text && this.sender == sender && this.channel == channel
      ensures kind == Plain && !removed && versions == [] && updatedAt == None
      ensures isNew && modified == {TextPath, SenderPath, ChannelPath}
      ensures stashedText == None && stashedUpdatedAt == None
    {
      this.text := text;
      this.sender := sender;
      this.channel := channel;
      kind := Plain;
      removed := false;
      versions := [];
      updatedAt := None;
      isNew := true;
      modified := {TextPath, SenderPath, ChannelPath};
      stashedText := None;
      stashedUpdatedAt := None;
    }

    /** A stored message as a query returns it: nothing modified, nothing stashed. */
    constructor Load(text: string, kind: MessageType, sender: Option<Id>, channel: Id, removed: bool,
                     versions: seq<Version>, updatedAt: Option<int>)
      ensures this.text == text && this.kind == kind && this.sender == sender && this.channel == channel
      ensures this.removed == removed && this.versions == versions && this.updatedAt == updatedAt
      ensures !isNew && modified == {} && stashedText == None && stashedUpdatedAt == None
    {
      this.text := text;
      this.kind := kind;
      this.sender := sender;
      this.channel := channel;
      this.removed := removed;
      this.versions := versions;
      this.updatedAt := updatedAt;
      isNew := false;
      modified := {};
      stashedText := None;
      stashedUpdatedAt := None;
    }

    /** The `text` setter: stashes the current text and returns the assigned value unchanged;
        the path counts as modified when the document is new or the value differs. */
    method SetText(v: string) returns (r: string)
      modifies this`text, this`stashedText, this`modified
      ensures r == v && text == v
      ensures stashedText == Some(old(text))
      ensures modified == if isNew || v != old(text) then old(modified) + {TextPath} else old(modified)
    {
      stashedText := Some(text);
      r := v;
      if isNew || r != text {
        modified := modified + {TextPath};
      }
      text := r;
    }

    /** The `updated_at` setter: stashes the current value and returns the assigned value unchanged. */
    method SetUpdatedAt(v: int) returns (r: int)
      modifies this`updatedAt, this`stashedUpdatedAt, this`modified
      ensures r == v && updatedAt == Some(v)
      ensures stashedUpdatedAt == old(updatedAt)
      ensures modified == old(modified) + {UpdatedAtPath}
    {
      stashedUpdatedAt := updatedAt;
      r := v;
      updatedAt := Some(r);
      modified := modified + {UpdatedAtPath};
    }

    /** The pre-save hook: on an edit of `text` of a stored message, with versioning on, the
        stashed entry is put in front of `versions` and the list is capped. */
    method PreSave(cfg: Config)
      modifies this`versions
      ensures isNew || TextPath !in modified || !cfg.versioning ==> versions == old(versions)
      ensures !isNew && TextPath in modified && cfg.versioning ==>
                versions == Archive(old(versions), StashedEntry(stashedText, stashedUpdatedAt, updatedAt), cfg.nbMsgVersions)
    {
      if !isNew && TextPath in modified && cfg.versioning {
        var entry := StashedEntry(stashedText, stashedUpdatedAt, updatedAt);
        versions := [entry] + versions;
        if cfg.nbMsgVersions >= 0 && cfg.nbMsgVersions <= |versions| {
          versions := versions[..cfg.nbMsgVersions];
        }
      }
    }

    /** `save()`: the timestamps step stamps `updated_at := now` (through its setter) when the
        document is new or modified, then the hook runs; afterwards the document is stored. */
    method Save(cfg: Config, now: int)
      modifies this
      ensures var stamped := old(isNew) || old(modified) != {};
              && updatedAt == (if stamped then Some(now) else old(updatedAt))
              && stashedUpdatedAt == (if stamped then old(updatedAt) else old(stashedUpdatedAt))
      ensures !old(isNew) && TextPath in old(modified) && cfg.versioning ==>
                versions == Archive(old(versions),
                                    Version(old(stashedText), if old(updatedAt).Some? then old(updatedAt) else Some(now)),
                                    cfg.nbMsgVersions)
      ensures old(isNew) || TextPath !in old(modified) || !cfg.versioning ==> versions == old(versions)
      ensures !isNew && modified == {}
      ensures text == old(text) && kind == old(kind) && sender == old(sender) && channel == old(channel)
      ensures removed == old(removed) && stashedText == old(stashedText)
    {
      if isNew || modified != {} {
        var _ := SetUpdatedAt(now);
      }
      PreSave(cfg);
      isNew := false;
      modified := {};
    }
  }
}

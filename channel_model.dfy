/** The channel document (models/channel.server.model.js): membership records,
    the access predicates, the per-member bookkeeping, the pre-save hook and the preview. */
module ChannelModel {
  import opened Wrappers
  import opened Seqs

  /** The `type` path of a channel (schema enum). */
  datatype ChannelType = Private | Internal | Public | P2P

  /** The string the schema stores for a type; also the room suffix and the preview name. */
  function TypeName(t: ChannelType): string {
    match t
    case Private => "private"
    case Internal => "internal"
    case Public => "public"
    case P2P => "p2p"
  }

  /** `['public', 'internal'].includes(type)`. */
  predicate IsBroadcast(t: ChannelType) {
    t == Public || t == Internal
  }

  /** One entry of `users`; an unset `isAdmin` or `mute` reads as false. */
  datatype Member = Member(user: Id, isAdmin: bool, mute: bool, lastSeen: Option<int>)

  /** `users.map(({ user }) => getDocKey(user))`. */
  function Ids(users: seq<Member>): (r: seq<Id>)
    ensures |r| == |users|
    ensures forall k :: 0 <= k < |users| ==> r[k] == users[k].user
  {
    seq(|users|, k requires 0 <= k < |users| => users[k].user)
  }

  lemma IdsAppend(users: seq<Member>, m: Member)
    ensures Ids(users + [m]) == Ids(users) + [m.user]
  {
  }

  // ---------------------------------------------------------------------------
  // isAdmin

  /** What `isAdmin` returns in JavaScript: a boolean, or the array built by `filter`. */
  datatype AdminAnswer = Flag(b: bool) | Records(matches: seq<Member>)

  /** JavaScript truthiness of that answer: every array, even an empty one, is truthy. */
  predicate Truthy(a: AdminAnswer) {
    a.Records? || a.b
  }

  /** The records of `u` whose `isAdmin` is set, in order. */
  function AdminRecords(users: seq<Member>, u: Id): (r: seq<Member>)
    ensures forall m :: m in r <==> m in users && m.user == u && m.isAdmin
  {
    if |users| == 0 then []
    else
      (if users[0].user == u && users[0].isAdmin then [users[0]] else [])
      + AdminRecords(users[1..], u)
  }

  /** `isAdmin(u)` as written: false for an absent user, true for the owner,
      otherwise the (always truthy) array of matching admin records. */
  function IsAdmin(owner: Id, users: seq<Member>, u: Option<Id>): (r: AdminAnswer)
    ensures u.None? ==> r == Flag(false)
    ensures u == Some(owner) ==> r == Flag(true)
    ensures u.Some? && u.value != owner ==> r.Records? && forall m :: m in r.matches <==> m in users && m.user == u.value && m.isAdmin
  {
    if u.None? then Flag(false)
    else if u.value == owner then Flag(true)
    else Records(AdminRecords(users, u.value))
  }

  /** As written, every present caller is an administrator. */
  lemma IsAdminTruthyForEveryone(owner: Id, users: seq<Member>, u: Id)
    ensures Truthy(IsAdmin(owner, users, Some(u)))
  {
  }

  /** The evidently intended check: the array result counts only when it is non-empty.
      It grants exactly the owner and the members flagged as administrators. */
  function IsAdminIntended(owner: Id, users: seq<Member>, u: Option<Id>): (r: bool)
    ensures r <==> u.Some? && (u.value == owner || exists m :: m in users && m.user == u.value && m.isAdmin)
  {
    match IsAdmin(owner, users, u)
    case Flag(b) => b
    case Records(ms) => (assert |ms| > 0 ==> ms[0] in ms; |ms| > 0)
  }

  /** A stranger on a channel without admin records: as written an administrator, as intended not. */
  lemma IsAdminCounterexample()
    ensures Truthy(IsAdmin("owner", [], Some("stranger")))
    ensures !IsAdminIntended("owner", [], Some("stranger"))
  {
  }

  // ---------------------------------------------------------------------------
  // canAccess

  /** `canAccess(user)`: anonymous callers reach only public channels, any caller reaches
      internal channels, everything else needs the owner or a listed member. */
  function CanAccess(kind: ChannelType, owner: Id, users: seq<Member>, user: Option<Id>): (r: bool)
    ensures user.None? ==> (r <==> kind == Public)
    ensures user.Some? ==> (r <==> kind == Internal || user.value == owner || user.value in Ids(users))
  {
    if user.None? then kind == Public
    else if kind == Internal then true
    else user.value in [owner] + Ids(users)
  }

  /** A signed-in non-member is refused a public channel that an anonymous caller may read. */
  lemma PublicRefusesSignedInStranger(owner: Id, users: seq<Member>, u: Id)
    requires u != owner && u !in Ids(users)
    ensures CanAccess(Public, owner, users, None)
    ensures !CanAccess(Public, owner, users, Some(u))
  {
  }

  // ---------------------------------------------------------------------------
  // findUser

  /** The member list after a lookup, and the position of the record found (the JS result). */
  datatype Lookup = Lookup(users: seq<Member>, index: Option<nat>)

  /** The record `findUser` appends for an owner who is not listed. */
  function OwnerRecord(owner: Id): Member {
    Member(owner, true, false, None)
  }

  /** `findUser(user)`: the first record of `user`; for an unlisted owner a new admin record
      appended to the list; otherwise nothing. */
  function EnsureMember(owner: Id, users: seq<Member>, user: Option<Id>): (r: Lookup)
    ensures r.index.None? <==> user.None? || (user.value !in Ids(users) && user.value != owner)
    ensures r.index.Some? ==> r.index.value < |r.users| && r.index.value == IndexOf(Ids(r.users), user.value)
    ensures r.users == users
            || (user == Some(owner) && owner !in Ids(users) && r.users == users + [OwnerRecord(owner)])
    ensures r.index.Some? && r.users != users ==> r.index.value == |users|
  {
    if user.None? then Lookup(users, None)
    else
      var i := IndexOf(Ids(users), user.value);
      if i >= 0 then Lookup(users, Some(i))
      else if user.value == owner then
        IdsAppend(users, OwnerRecord(owner));
        IndexOfAppendNew(Ids(users), owner);
        Lookup(users + [OwnerRecord(owner)], Some(|users|))
      else Lookup(users, None)
  }

  /** The record a lookup found, if any. */
  function Found(loc: Lookup): Option<Member> {
    if loc.index.Some? && loc.index.value < |loc.users| then Some(loc.users[loc.index.value]) else None
  }

  /** A second lookup finds the record the first one found or created: the list grows by at most one. */
  lemma EnsureMemberIdempotent(owner: Id, users: seq<Member>, user: Option<Id>)
    ensures var first := EnsureMember(owner, users, user);
            EnsureMember(owner, first.users, user) == first
    ensures |EnsureMember(owner, users, user).users| <= |users| + 1
  {
    var first := EnsureMember(owner, users, user);
    if first.index.Some? {
      assert Ids(first.users)[first.index.value] == user.value;
    }
  }

  // ---------------------------------------------------------------------------
  // saw and mute

  /** The list after `saw(user)` sets `last_seen := now` on the record found, or None when
      `saw` returns false. */
  function Seen(owner: Id, users: seq<Member>, user: Option<Id>, now: int): (r: Option<seq<Member>>)
    ensures var loc := EnsureMember(owner, users, user);
            r.None? <==> loc.index.None?
    ensures var loc := EnsureMember(owner, users, user);
            r.Some? ==> |r.value| == |loc.users| && Ids(r.value) == Ids(loc.users)
                        && r.value[loc.index.value] == loc.users[loc.index.value].(lastSeen := Some(now))
                        && forall k :: 0 <= k < |r.value| && k != loc.index.value ==> r.value[k] == loc.users[k]
  {
    var loc := EnsureMember(owner, users, user);
    match loc.index
    case None => None
    case Some(i) => Some(loc.users[i := loc.users[i].(lastSeen := Some(now))])
  }

  /** The list after `mute(user)` sets `mute := true` on the record found, or None when
      `mute` returns false. */
  function Muted(owner: Id, users: seq<Member>, user: Option<Id>): (r: Option<seq<Member>>)
    ensures var loc := EnsureMember(owner, users, user);
            r.None? <==> loc.index.None?
    ensures var loc := EnsureMember(owner, users, user);
            r.Some? ==> |r.value| == |loc.users| && Ids(r.value) == Ids(loc.users)
                        && r.value[loc.index.value] == loc.users[loc.index.value].(mute := true)
                        && forall k :: 0 <= k < |r.value| && k != loc.index.value ==> r.value[k] == loc.users[k]
  {
    var loc := EnsureMember(owner, users, user);
    match loc.index
    case None => None
    case Some(i) => Some(loc.users[i := loc.users[i].(mute := true)])
  }

  // ---------------------------------------------------------------------------
  // pre('save'): deduplication of users

  function UniqueUsersUpTo(users: seq<Member>, n: nat): (r: seq<Member>)
    requires n <= |users|
    ensures Ids(r) == FilterFirst(Ids(users), _ => true, n)
    decreases n
  {
    if n == 0 then []
    else
      var r := UniqueUsersUpTo(users, n - 1);
      FilterFirstStep(Ids(users), _ => true, n);
      if IndexOf(Ids(users), users[n - 1].user) == n - 1 then
        IdsAppend(r, users[n - 1]);
        r + [users[n - 1]]
      else
        r
  }

  /** Every kept record is the first record of its id. */
  lemma {:induction false} UniqueUsersUpToRecords(users: seq<Member>, n: nat)
    requires n <= |users|
    ensures forall k :: 0 <= k < |UniqueUsersUpTo(users, n)| ==>
              UniqueUsersUpTo(users, n)[k].user in Ids(users)
              && UniqueUsersUpTo(users, n)[k] == users[IndexOf(Ids(users), UniqueUsersUpTo(users, n)[k].user)]
    decreases n
  {
    if n > 0 {
      UniqueUsersUpToRecords(users, n - 1);
      var r := UniqueUsersUpTo(users, n - 1);
      var m := users[n - 1];
      if IndexOf(Ids(users), m.user) == n - 1 {
        assert UniqueUsersUpTo(users, n) == r + [m];
        forall k | 0 <= k < |r| + 1
          ensures (r + [m])[k].user in Ids(users) && (r + [m])[k] == users[IndexOf(Ids(users), (r + [m])[k].user)]
        {
          if k < |r| {
            assert (r + [m])[k] == r[k];
          } else {
            assert Ids(users)[n - 1] == m.user;
          }
        }
      } else {
        assert UniqueUsersUpTo(users, n) == r;
      }
    }
  }

  /** `users.filter(({ user }, i, arr) => arr.findIndex(...) === i)`: the first record of each id. */
  function UniqueUsers(users: seq<Member>): (r: seq<Member>)
    ensures Ids(r) == KeepFirst(Ids(users))
    ensures Distinct(Ids(r))
    ensures forall k :: 0 <= k < |r| ==> r[k].user in Ids(users) && r[k] == users[IndexOf(Ids(users), r[k].user)]
  {
    UniqueUsersUpToRecords(users, |users|);
    UniqueUsersUpTo(users, |users|)
  }

  /** Deduplication keeps the relative order of the records it keeps. */
  lemma UniqueUsersOrder(users: seq<Member>, a: Id, b: Id)
    requires a in Ids(UniqueUsers(users)) && b in Ids(UniqueUsers(users))
    ensures IndexOf(Ids(UniqueUsers(users)), a) < IndexOf(Ids(UniqueUsers(users)), b)
            <==> IndexOf(Ids(users), a) < IndexOf(Ids(users), b)
  {
    FilterFirstOrder(Ids(users), _ => true, |users|, a, b);
  }

  /** A list without repeated ids is left as it is. */
  lemma UniqueUsersOfDistinct(users: seq<Member>)
    requires Distinct(Ids(users))
    ensures UniqueUsers(users) == users
  {
    var r := UniqueUsers(users);
    FilterFirstOfDistinct(Ids(users), |users|);
    assert Ids(users)[..|users|] == Ids(users);
    assert |r| == |users|;
    forall k | 0 <= k < |r| ensures r[k] == users[k] {
      assert r[k].user == Ids(r)[k] == Ids(users)[k];
      IndexOfDistinct(Ids(users), k);
    }
  }

  /** The users list the hook leaves behind, given the modified paths. */
  function HookedUsers(users: seq<Member>, modified: set<Path>): seq<Member> {
    if UsersPath in modified then UniqueUsers(users) else users
  }

  // ---------------------------------------------------------------------------
  // getPreview

  /** The projection of the last message the preview fetches. */
  datatype MessageSummary = MessageSummary(sender: Option<Id>, text: string, createdAt: int)

  /** The preview returned to a viewer. */
  datatype Preview = Preview(id: Id, kind: ChannelType, name: string, read: bool, muted: bool,
                             message: Option<MessageSummary>)

  /** First names of the members other than the viewer whose populated user has a first name;
      `names` maps a user id to the first name population resolves for it. */
  function NamedOthers(users: seq<Member>, viewer: Option<Id>, names: map<Id, string>): (r: seq<string>)
    ensures |r| <= |users|
    ensures forall k :: 0 <= k < |r| ==> r[k] != ""
    ensures forall x :: x in r <==>
              exists m :: m in users && Some(m.user) != viewer && m.user in names && names[m.user] == x && x != ""
  {
    if |users| == 0 then []
    else
      var u := users[0].user;
      assert forall m :: m in users <==> m == users[0] || m in users[1..];
      (if Some(u) != viewer && u in names && names[u] != "" then [names[u]] else [])
      + NamedOthers(users[1..], viewer, names)
  }

  /** The names follow the order of the records: the names of a concatenation are the names
      of its first part followed by those of its second. */
  lemma {:induction false} NamedOthersConcat(a: seq<Member>, b: seq<Member>, viewer: Option<Id>,
                                             names: map<Id, string>)
    ensures NamedOthers(a + b, viewer, names) == NamedOthers(a, viewer, names) + NamedOthers(b, viewer, names)
  {
    if |a| == 0 {
      assert a + b == b;
    } else {
      assert (a + b)[1..] == a[1..] + b;
      NamedOthersConcat(a[1..], b, viewer, names);
    }
  }

  /** `parts.join(sep)`. */
  function Join(parts: seq<string>, sep: string): string {
    if |parts| == 0 then ""
    else if |parts| == 1 then parts[0]
    else parts[0] + sep + Join(parts[1..], sep)
  }

  /** The names shown and whether `"..."` follows them. */
  datatype NameParts = NameParts(shown: seq<string>, ellipsis: bool)

  /** `.slice(0, 3)` of the named others, and the `"..."` test against the member count
      (minus one when the viewer's record was found). */
  function MemberNames(users: seq<Member>, viewer: Option<Id>, found: bool, names: map<Id, string>): (r: NameParts)
    ensures |r.shown| <= 3
    ensures r.shown <= NamedOthers(users, viewer, names)
    ensures |r.shown| == 3 || r.shown == NamedOthers(users, viewer, names)
    ensures r.ellipsis <==> 0 < |r.shown| < (if found then |users| - 1 else |users|)
  {
    var named := NamedOthers(users, viewer, names);
    var shown := if |named| <= 3 then named else named[..3];
    NameParts(shown, 0 < |shown| && |shown| < (if found then |users| - 1 else |users|))
  }

  /** The `name` of the preview. */
  function PreviewName(name: string, kind: ChannelType, users: seq<Member>, viewer: Option<Id>,
                       found: bool, names: map<Id, string>): (r: string)
    ensures r != ""
    ensures name != "" ==> r == name
    ensures name == "" && IsBroadcast(kind) ==> r == TypeName(kind)
  {
    if name != "" then name
    else if IsBroadcast(kind) then TypeName(kind)
    else
      var parts := MemberNames(users, viewer, found, names);
      var joined := Join(parts.shown, " & ") + (if parts.ellipsis then "..." else "");
      if joined == "" then "Untitled" else joined
  }

  lemma {:induction false} JoinNonEmpty(parts: seq<string>, sep: string)
    requires |parts| > 0 && forall k :: 0 <= k < |parts| ==> parts[k] != ""
    ensures Join(parts, sep) != ""
    decreases |parts|
  {
    if |parts| > 1 {
      JoinNonEmpty(parts[1..], sep);
    }
  }

  /** An unnamed direct channel is called after up to three other named members, with `"..."`
      when fewer are shown than there are members; "Untitled" only when nobody is named. */
  lemma PreviewNameOfDirectChannel(kind: ChannelType, users: seq<Member>, viewer: Option<Id>,
                                   found: bool, names: map<Id, string>)
    requires !IsBroadcast(kind)
    ensures var parts := MemberNames(users, viewer, found, names);
            var r := PreviewName("", kind, users, viewer, found, names);
            && (|parts.shown| == 0 ==> r == "Untitled")
            && (|parts.shown| > 0 ==> r == Join(parts.shown, " & ") + (if parts.ellipsis then "..." else ""))
  {
    var parts := MemberNames(users, viewer, found, names);
    var named := NamedOthers(users, viewer, names);
    if |parts.shown| > 0 {
      forall k | 0 <= k < |parts.shown| ensures parts.shown[k] != "" {
        assert parts.shown[k] == named[k];
      }
      JoinNonEmpty(parts.shown, " & ");
    }
  }

  /** The `read` flag: false without the viewer's record; otherwise true iff there is no
      last message or it was created before the record's `last_seen`. */
  function ReadFlag(found: Option<Member>, message: Option<MessageSummary>): (r: bool)
    ensures found.None? ==> !r
    ensures found.Some? && message.None? ==> r
    ensures found.Some? && message.Some? ==>
              (r <==> found.value.lastSeen.Some? && message.value.createdAt < found.value.lastSeen.value)
  {
    if found.None? then false
    else message.None? || (found.value.lastSeen.Some? && message.value.createdAt < found.value.lastSeen.value)
  }

  /** After `saw(user)` at `now` and a save, the user's record is still the one found, and a
      message created before `now` reads as read. */
  lemma SeenThenSavedIsRead(owner: Id, users: seq<Member>, user: Id, now: int, modified: set<Path>,
                            message: MessageSummary)
    requires Seen(owner, users, Some(user), now).Some?
    requires message.createdAt < now
    ensures var saved := HookedUsers(Seen(owner, users, Some(user), now).value, modified);
            var loc := EnsureMember(owner, saved, Some(user));
            loc.users == saved && Found(loc).Some? && Found(loc).value.lastSeen == Some(now)
            && ReadFlag(Found(loc), Some(message))
  {
    var loc0 := EnsureMember(owner, users, Some(user));
    var i := loc0.index.value;
    var seen := Seen(owner, users, Some(user), now).value;
    assert Ids(seen)[i] == user;
    assert IndexOf(Ids(seen), user) == i;
    var saved := HookedUsers(seen, modified);
    assert user in Ids(saved) by {
      if UsersPath in modified { assert user in KeepFirst(Ids(seen)); }
    }
    var loc := EnsureMember(owner, saved, Some(user));
    var j := loc.index.value;
    assert Ids(saved)[j] == user;
    if UsersPath in modified {
      assert saved[j] == seen[IndexOf(Ids(seen), saved[j].user)];
    }
  }

  // ---------------------------------------------------------------------------
  // The channel document

  /** The paths `modifiedPaths()` can report. */
  datatype Path = NamePath | OwnerPath | TypePath | ArchivedPath | UsersPath | LastMsgPath

  class Channel {
    const id: Id
    var name: string          // "" when unset
    var owner: Id
    var kind: ChannelType
    var archived: bool
    var version: int          // the counter `increment()` bumps
    var users: seq<Member>
    var lastMsg: Option<int>
    var modified: set<Path>   // paths changed since the last save
    var isNew: bool           // not stored yet: the next save is an insert

    /** `new ChatChannel({ owner, type, users })`: a new document whose given paths count as modified. */
    constructor (id: Id, owner: Id, kind: ChannelType, users: seq<Member>)
      ensures this.id == id && this.owner == owner && this.kind == kind && this.users == users
      ensures name == "" && !archived && version == 0 && lastMsg == None
      ensures modified == {OwnerPath, TypePath, UsersPath} && isNew
    {
      this.id := id;
      this.owner := owner;
      this.kind := kind;
      this.users := users;
      name := "";
      archived := false;
      version := 0;
      lastMsg := None;
      modified := {OwnerPath, TypePath, UsersPath};
      isNew := true;
    }

    /** The version a save that writes the document leaves: an insert stores 0 whatever the
        hook did, an update applies the hook's `increment()`. */
    function SavedVersion(): int
      reads this
    {
      if isNew then 0 else version + 1
    }

    /** The pre-save hook: nothing when no path was modified; otherwise one version increment,
        and when `users` was modified only the first record of each user id is kept. */
    method PreSave()
      modifies this`version, this`users
      ensures modified == {} ==> version == old(version) && users == old(users)
      ensures modified != {} ==> version == old(version) + 1 && users == HookedUsers(old(users), modified)
    {
      if modified == {} {
        return;
      }
      version := version + 1;
      if UsersPath in modified {
        users := UniqueUsers(users);
      }
    }

    /** `save()`: the hook, then the document is inserted or updated and no path counts as
        modified. An update with nothing modified leaves the version alone. */
    method Save()
      modifies this`version, this`users, this`modified, this`isNew
      ensures modified == {} && !isNew
      ensures old(modified) == {} && !old(isNew) ==> version == old(version) && users == old(users)
      ensures old(modified) != {} || old(isNew) ==>
                version == old(SavedVersion()) && users == HookedUsers(old(users), old(modified))
    {
      var insert := isNew;
      PreSave();
      if insert {
        version := 0;
      }
      isNew := false;
      modified := {};
    }

    /** `touch(isSave)`: `last_msg := now`, saved only when asked. */
    method Touch(now: int, isSave: bool)
      modifies this`lastMsg, this`modified, this`version, this`users, this`isNew
      ensures lastMsg == Some(now)
      ensures !isSave ==> modified == old(modified) + {LastMsgPath} && version == old(version) && users == old(users)
                          && isNew == old(isNew)
      ensures isSave ==> modified == {} && !isNew && version == old(SavedVersion())
                         && users == HookedUsers(old(users), old(modified) + {LastMsgPath})
    {
      lastMsg := Some(now);
      modified := modified + {LastMsgPath};
      if isSave {
        Save();
      }
    }

    /** `findUser(user)`: the first record of the user, or an admin record appended for an
        unlisted owner (which marks `users` modified). */
    method FindUser(user: Option<Id>) returns (found: Option<nat>)
      modifies this`users, this`modified
      ensures Lookup(users, found) == EnsureMember(owner, old(users), user)
      ensures modified == if users == old(users) then old(modified) else old(modified) + {UsersPath}
    {
      if user.None? {
        return None;
      }
      var i := IndexOf(Ids(users), user.value);
      if i >= 0 {
        found := Some(i);
      } else if user.value == owner {
        users := users + [OwnerRecord(owner)];
        modified := modified + {UsersPath};
        found := Some(|users| - 1);
      } else {
        found := None;
      }
    }

    /** `saw(user, isSave)`: false and no change when the record cannot be located; otherwise
        `last_seen := now` on that record, `users` marked modified, saved only when asked. */
    method Saw(user: Option<Id>, now: int, isSave: bool) returns (ok: bool)
      modifies this`users, this`modified, this`version, this`isNew
      ensures ok <==> Seen(owner, old(users), user, now).Some?
      ensures !ok ==> users == old(users) && modified == old(modified) && version == old(version) && isNew == old(isNew)
      ensures ok && !isSave ==> users == Seen(owner, old(users), user, now).value
                                && modified == old(modified) + {UsersPath} && version == old(version) && isNew == old(isNew)
      ensures ok && isSave ==> users == UniqueUsers(Seen(owner, old(users), user, now).value)
                               && modified == {} && !isNew && version == old(SavedVersion())
    {
      if user.None? {
        return false;
      }
      var found := FindUser(user);
      if found.None? {
        return false;
      }
      var i := found.value;
      users := users[i := users[i].(lastSeen := Some(now))];
      modified := modified + {UsersPath};
      if isSave {
        Save();
      }
      ok := true;
    }

    /** `mute(user)`: false and no change when the record cannot be located; otherwise
        `mute := true` on that record, and the channel is saved. */
    method Mute(user: Option<Id>) returns (ok: bool)
      modifies this`users, this`modified, this`version, this`isNew
      ensures ok <==> Muted(owner, old(users), user).Some?
      ensures !ok ==> users == old(users) && modified == old(modified) && version == old(version) && isNew == old(isNew)
      ensures ok ==> users == UniqueUsers(Muted(owner, old(users), user).value)
                     && modified == {} && !isNew && version == old(SavedVersion())
    {
      if user.None? {
        return false;
      }
      var found := FindUser(user);
      if found.None? {
        return false;
      }
      var i := found.value;
      users := users[i := users[i].(mute := true)];
      modified := modified + {UsersPath};
      Save();
      ok := true;
    }

    /** `getPreview(viewer)`: looks the viewer up (which may append the owner's record), then
        names the channel and computes the read and muted flags against the last message. */
    method GetPreview(viewer: Option<Id>, names: map<Id, string>, message: Option<MessageSummary>)
      returns (p: Preview)
      modifies this`users, this`modified
      ensures var loc := EnsureMember(owner, old(users), viewer);
              && users == loc.users
              && p == Preview(id, kind, PreviewName(name, kind, users, viewer, loc.index.Some?, names),
                              ReadFlag(Found(loc), message),
                              Found(loc).Some? && Found(loc).value.mute, message)
      ensures modified == if users == old(users) then old(modified) else old(modified) + {UsersPath}
    {
      var found: Option<nat> := None;
      if viewer.Some? {
        found := FindUser(viewer);
      }
      var muted := false;
      var read := false;
      if found.Some? {
        muted := users[found.value].mute;
        read := ReadFlag(Some(users[found.value]), message);
      }
      p := Preview(id, kind, PreviewName(name, kind, users, viewer, found.Some?, names), read, muted, message);
    }
  }
}

/** The message endpoints (controllers/message.server.controller.js): recipient normalisation and
    channel resolution for a direct message, the notification fan-out of `send`, the author guard
    and message removal. The document store is a sequence of channels; the socket library is the
    list of rooms a message is emitted to. */
module MessageController {
  import opened Wrappers
  import opened Seqs
  import opened ChannelModel
  import opened MessageModel

  /** A refusal answered with an HTTP status and a message key. */
  datatype Failure = Failure(status: int, key: string)

  // ---------------------------------------------------------------------------
  // createChannel

  /** `body.to.filter((u, i, arr) => Boolean(u) && u !== cUserId && arr.indexOf(u) === i)`;
      the empty string stands for every falsy entry. */
  function Recipients(to: seq<Id>, caller: Option<Id>): (r: seq<Id>)
    ensures forall u :: u in r <==> u in to && u != "" && Some(u) != caller
    ensures Distinct(r)
    ensures |r| <= |to|
  {
    assert to[..|to|] == to;
    FilterFirstDistinct(to, u => u != "" && Some(u) != caller, |to|);
    DistinctLength(FilterFirst(to, u => u != "" && Some(u) != caller, |to|), to);
    FilterFirst(to, u => u != "" && Some(u) != caller, |to|)
  }

  /** The recipients keep the order of their first occurrence in the request. */
  lemma RecipientsOrder(to: seq<Id>, caller: Option<Id>, a: Id, b: Id)
    requires a in Recipients(to, caller) && b in Recipients(to, caller)
    ensures IndexOf(Recipients(to, caller), a) < IndexOf(Recipients(to, caller), b)
            <==> IndexOf(to, a) < IndexOf(to, b)
  {
    FilterFirstOrder(to, u => u != "" && Some(u) != caller, |to|, a, b);
  }

  /** The two refusals, checked in this order: no recipient left, then an anonymous caller
      writing to several recipients. */
  function Precheck(caller: Option<Id>, recipients: seq<Id>): (r: Option<Failure>)
    ensures |recipients| == 0 ==> r == Some(Failure(400, "EMPTY_RECIPIENTS"))
    ensures |recipients| > 1 && caller.None? ==> r == Some(Failure(400, "UNAUTHORIZED_GUEST_MULTIPLE_RECEIVERS"))
    ensures r.None? <==> |recipients| == 1 || (|recipients| > 1 && caller.Some?)
  {
    if |recipients| == 0 then Some(Failure(400, "EMPTY_RECIPIENTS"))
    else if caller.None? && |recipients| > 1 then Some(Failure(400, "UNAUTHORIZED_GUEST_MULTIPLE_RECEIVERS"))
    else None
  }

  /** Writing only to oneself (or to nobody) is refused as an empty recipient list. */
  lemma SendingToSelfFails(to: seq<Id>, caller: Id)
    requires forall u :: u in to ==> u == "" || u == caller
    ensures Recipients(to, Some(caller)) == []
    ensures Precheck(Some(caller), Recipients(to, Some(caller))) == Some(Failure(400, "EMPTY_RECIPIENTS"))
  {
    var r := Recipients(to, Some(caller));
    DistinctLength(r, []);
  }

  /** The p2p lookup: type p2p, owner in {recipient, caller}, some member in that pair,
      and one or two members. A match is open to one of the two, through its owner. */
  function P2PMatch(kind: ChannelType, owner: Id, users: seq<Member>, recipient: Id, caller: Id): (r: bool)
    ensures r ==> kind == P2P && 1 <= |users| <= 2
    ensures r ==> CanAccess(kind, owner, users, Some(recipient)) || CanAccess(kind, owner, users, Some(caller))
    ensures r ==> recipient in Ids(users) || caller in Ids(users)
  {
    MembersListed(users);
    && kind == P2P
    && (owner == recipient || owner == caller)
    && (exists m :: m in users && (m.user == recipient || m.user == caller))
    && 1 <= |users| <= 2
  }

  /** The private lookup: type private, owned by the caller, some member among the recipients,
      and as many members as recipients. A match is open to the caller and to some recipient. */
  function PrivateMatch(kind: ChannelType, owner: Id, users: seq<Member>, recipients: seq<Id>, caller: Id): (r: bool)
    ensures r ==> kind == Private && |users| == |recipients|
    ensures r ==> CanAccess(kind, owner, users, Some(caller))
    ensures r ==> exists u :: u in recipients && u in Ids(users) && CanAccess(kind, owner, users, Some(u))
  {
    MembersListed(users);
    && kind == Private
    && owner == caller
    && (exists m :: m in users && m.user in recipients)
    && |users| == |recipients|
  }

  /** The query `createChannel` runs for a signed-in caller. A reused channel has the type a new
      one would get and is open to the caller or to the single recipient. */
  function Reusable(kind: ChannelType, owner: Id, users: seq<Member>, recipients: seq<Id>, caller: Id): (r: bool)
    requires |recipients| > 0
    ensures r ==> kind == NewKind(recipients)
    ensures r ==> CanAccess(kind, owner, users, Some(caller)) || CanAccess(kind, owner, users, Some(recipients[0]))
  {
    if |recipients| == 1 then P2PMatch(kind, owner, users, recipients[0], caller)
    else PrivateMatch(kind, owner, users, recipients, caller)
  }

  /** A p2p channel that the recipient owns alone matches, although the caller may not use it. */
  lemma P2PMatchMayShutOutCaller(caller: Id, recipient: Id)
    requires caller != recipient
    ensures P2PMatch(P2P, recipient, [Member(recipient, false, false, None)], recipient, caller)
    ensures !CanAccess(P2P, recipient, [Member(recipient, false, false, None)], Some(caller))
  {
    assert Member(recipient, false, false, None) in [Member(recipient, false, false, None)];
  }

  /** The p2p match is loose: a channel between the caller and a third user, where the
      recipient is not even a member, is reused. */
  lemma P2PMatchIsLoose(caller: Id, recipient: Id, third: Id)
    requires third != recipient
    ensures P2PMatch(P2P, caller, [Member(caller, false, false, None), Member(third, false, false, None)], recipient, caller)
  {
    assert Member(caller, false, false, None) in [Member(caller, false, false, None), Member(third, false, false, None)];
  }

  /** The private match is loose: a channel with a different member set of the same size is reused. */
  lemma PrivateMatchIsLoose(caller: Id, a: Id, b: Id, c: Id)
    requires c != a && c != b
    ensures PrivateMatch(Private, caller, [Member(a, false, false, None), Member(c, false, false, None)], [a, b], caller)
  {
    assert Member(a, false, false, None) in [Member(a, false, false, None), Member(c, false, false, None)];
  }

  /** Every record's user id is among the ids. */
  lemma MembersListed(users: seq<Member>)
    ensures forall m :: m in users ==> m.user in Ids(users)
  {
    forall m | m in users ensures m.user in Ids(users) {
      var k :| 0 <= k < |users| && users[k] == m;
      assert Ids(users)[k] == m.user;
    }
  }

  /** The member list of a new channel: each recipient, in order, not an admin. */
  function Invitees(recipients: seq<Id>): (r: seq<Member>)
    ensures Ids(r) == recipients
    ensures forall k :: 0 <= k < |r| ==> r[k] == Member(recipients[k], false, false, None)
  {
    seq(|recipients|, k requires 0 <= k < |recipients| => Member(recipients[k], false, false, None))
  }

  /** `type: body.to.length === 1 ? 'p2p' : 'private'`. */
  function NewKind(recipients: seq<Id>): (t: ChannelType)
    ensures t == P2P <==> |recipients| == 1
    ensures t == P2P || t == Private
  {
    if |recipients| == 1 then P2P else Private
  }

  /** A channel created for a caller and a list of recipients is the one the same request finds
      the next time: creation and reuse agree. */
  lemma CreatedChannelIsReusable(caller: Id, recipients: seq<Id>)
    requires |recipients| > 0 && Distinct(recipients)
    ensures UniqueUsers(Invitees(recipients)) == Invitees(recipients)
    ensures Reusable(NewKind(recipients), caller, Invitees(recipients), recipients, caller)
  {
    UniqueUsersOfDistinct(Invitees(recipients));
    var users := Invitees(recipients);
    assert users[0] in users && users[0].user == recipients[0];
  }

  /** Some channel of the store answers the query. */
  predicate AnyReusable(store: seq<Channel>, recipients: seq<Id>, caller: Id)
    requires |recipients| > 0
    reads set c | c in store
  {
    exists c :: c in store && Reusable(c.kind, c.owner, c.users, recipients, caller)
  }

  /** `new ChatChannel({ owner, type, users })` followed by `save()`. */
  method SaveNewChannel(id: Id, owner: Id, kind: ChannelType, users: seq<Member>) returns (c: Channel)
    requires Distinct(Ids(users))
    ensures fresh(c)
    ensures c.id == id && c.owner == owner && c.kind == kind && c.users == users
    ensures c.version == 0 && !c.isNew && c.modified == {} && c.lastMsg == None && !c.archived
  {
    c := new Channel(id, owner, kind, users);
    UniqueUsersOfDistinct(users);
    assert HookedUsers(users, c.modified) == users;
    c.Save();
  }

  /** The outcome of `createChannel`: a refusal, or the channel the message goes to. */
  datatype Resolution = Rejected(failure: Failure) | Resolved(channel: Channel)

  /** `createChannel`: normalise the recipients, refuse, then reuse a matching channel of the
      store (any one: `findOne` promises no order) or create and save a new one. An anonymous
      caller always gets a new private channel owned by the recipient, with no members. */
  method CreateChannel(store: seq<Channel>, caller: Option<Id>, to: seq<Id>, newId: Id) returns (r: Resolution)
    ensures var rs := Recipients(to, caller);
            Precheck(caller, rs).Some? ==> r == Rejected(Precheck(caller, rs).value)
    ensures var rs := Recipients(to, caller);
            Precheck(caller, rs).None? && caller.None? ==>
              && r.Resolved? && fresh(r.channel)
              && r.channel.kind == Private && r.channel.owner == rs[0] && r.channel.users == []
              && r.channel.version == 0 && !r.channel.isNew && r.channel.modified == {}
    ensures var rs := Recipients(to, caller);
            Precheck(caller, rs).None? && caller.Some? && AnyReusable(store, rs, caller.value) ==>
              && r.Resolved? && r.channel in store
              && Reusable(r.channel.kind, r.channel.owner, r.channel.users, rs, caller.value)
    ensures var rs := Recipients(to, caller);
            Precheck(caller, rs).None? && caller.Some? && !AnyReusable(store, rs, caller.value) ==>
              && r.Resolved? && fresh(r.channel)
              && r.channel.kind == NewKind(rs) && r.channel.owner == caller.value
              && r.channel.users == Invitees(rs)
              && r.channel.version == 0 && !r.channel.isNew && r.channel.modified == {}
  {
    var rs := Recipients(to, caller);
    var failure := Precheck(caller, rs);
    if failure.Some? {
      return Rejected(failure.value);
    }
    if caller.None? {
      var guest := SaveNewChannel(newId, rs[0], Private, []);
      return Resolved(guest);
    }
    if AnyReusable(store, rs, caller.value) {
      var c :| c in store && Reusable(c.kind, c.owner, c.users, rs, caller.value);
      return Resolved(c);
    }
    var created := SaveNewChannel(newId, caller.value, NewKind(rs), Invitees(rs));
    r := Resolved(created);
  }

  // ---------------------------------------------------------------------------
  // send: notification fan-out

  /** A socket room a new message is emitted to. */
  datatype Room = TypeRoom(kind: ChannelType) | UserRoom(user: Id)

  /** Reading a property of a member record as a JavaScript object: the record has the
      properties `mute` and `isAdmin`; any other key is undefined. */
  function Property(m: Member, key: string): Option<bool> {
    if key == "mute" then Some(m.mute)
    else if key == "isAdmin" then Some(m.isAdmin)
    else None
  }

  /** `users.filter(({ [key]: v = false }) => !v)`. */
  function Unmuted(users: seq<Member>, key: string): (r: seq<Member>)
    ensures forall m :: m in r <==> m in users && !(if Property(m, key).Some? then Property(m, key).value else false)
  {
    if |users| == 0 then []
    else
      var m := users[0];
      var v := if Property(m, key).Some? then Property(m, key).value else false;
      (if !v then [m] else []) + Unmuted(users[1..], key)
  }

  /** The list built before deduplication: the ids of the members that pass the filter on
      `key`, then the owner when set. */
  function RecipientList(users: seq<Member>, owner: Id, key: string): seq<Id> {
    Ids(Unmuted(users, key)) + (if owner != "" then [owner] else [])
  }

  /** One room per id, in order. */
  function UserRooms(ids: seq<Id>): (r: seq<Room>)
    ensures |r| == |ids|
    ensures forall k :: 0 <= k < |ids| ==> r[k] == UserRoom(ids[k])
  {
    seq(|ids|, k requires 0 <= k < |ids| => UserRoom(ids[k]))
  }

  /** The emit block of `send` for a filter on the member property `key`: the type room of a
      public or internal channel, otherwise one room per id of the list, repeats dropped. */
  function FanOut(kind: ChannelType, owner: Id, users: seq<Member>, key: string): (r: seq<Room>)
    ensures IsBroadcast(kind) ==> r == [TypeRoom(kind)]
    ensures !IsBroadcast(kind) ==> Distinct(r) && forall room :: room in r ==> room.UserRoom?
    ensures !IsBroadcast(kind) ==>
              forall u :: UserRoom(u) in r <==> u in RecipientList(users, owner, key)
  {
    if IsBroadcast(kind) then [TypeRoom(kind)]
    else
      UserRoomsDistinct(KeepFirst(RecipientList(users, owner, key)));
      UserRooms(KeepFirst(RecipientList(users, owner, key)))
  }

  /** The rooms `send` emits to, as written: the filter reads `muted`, a property member records
      do not have. */
  function Notifications(kind: ChannelType, owner: Id, users: seq<Member>): seq<Room> {
    FanOut(kind, owner, users, "muted")
  }

  /** The rooms of a corrected fan-out that reads the member's `mute` property. */
  function NotificationsIntended(kind: ChannelType, owner: Id, users: seq<Member>): seq<Room> {
    FanOut(kind, owner, users, "mute")
  }

  /** The room of a user sits where the user's id sits. */
  lemma UserRoomsIndex(ids: seq<Id>, u: Id)
    ensures IndexOf(UserRooms(ids), UserRoom(u)) == IndexOf(ids, u)
  {
    var r := UserRooms(ids);
    var i := IndexOf(ids, u);
    if i < 0 {
      forall k | 0 <= k < |r| ensures r[k] != UserRoom(u) {
        assert ids[k] in ids;
      }
    } else {
      forall k | 0 <= k < i ensures r[k] != UserRoom(u) {
        assert ids[..i][k] == ids[k];
      }
      assert r[i] !in r[..i];
      IndexOfAt(r, i);
    }
  }

  /** The user rooms of a private or p2p channel are notified in the order in which the ids
      first occur in the list (member ids, then the owner). */
  lemma NotificationsOrder(kind: ChannelType, owner: Id, users: seq<Member>, a: Id, b: Id)
    requires !IsBroadcast(kind)
    requires UserRoom(a) in Notifications(kind, owner, users) && UserRoom(b) in Notifications(kind, owner, users)
    ensures IndexOf(Notifications(kind, owner, users), UserRoom(a)) < IndexOf(Notifications(kind, owner, users), UserRoom(b))
            <==> IndexOf(RecipientList(users, owner, "muted"), a) < IndexOf(RecipientList(users, owner, "muted"), b)
  {
    var list := RecipientList(users, owner, "muted");
    var kept := KeepFirst(list);
    assert Notifications(kind, owner, users) == UserRooms(kept);
    UserRoomsIndex(kept, a);
    UserRoomsIndex(kept, b);
    assert list[..|list|] == list;
    FilterFirstOrder(list, _ => true, |list|, a, b);
  }

  lemma UserRoomsDistinct(ids: seq<Id>)
    requires Distinct(ids)
    ensures Distinct(UserRooms(ids))
    ensures forall u :: UserRoom(u) in UserRooms(ids) <==> u in ids
  {
    var r := UserRooms(ids);
    forall u | u in ids ensures UserRoom(u) in r {
      var k :| 0 <= k < |ids| && ids[k] == u;
      assert r[k] == UserRoom(u);
    }
  }

  /** As written, a private or p2p channel notifies every member, muted or not, and the owner,
      each exactly once; a public or internal channel notifies its type room once. */
  lemma NotificationsReachEveryMember(kind: ChannelType, owner: Id, users: seq<Member>)
    requires owner != ""
    ensures IsBroadcast(kind) ==> Notifications(kind, owner, users) == [TypeRoom(kind)]
    ensures !IsBroadcast(kind) ==> Distinct(Notifications(kind, owner, users))
    ensures !IsBroadcast(kind) ==>
              forall u :: UserRoom(u) in Notifications(kind, owner, users) <==> u in Ids(users) || u == owner
  {
    if !IsBroadcast(kind) {
      var list := RecipientList(users, owner, "muted");
      UserRoomsDistinct(KeepFirst(list));
      forall u ensures u in list <==> u in Ids(users) || u == owner {
        if u in Ids(users) {
          var k :| 0 <= k < |users| && Ids(users)[k] == u;
          assert users[k] in Unmuted(users, "muted");
          var j :| 0 <= j < |Unmuted(users, "muted")| && Unmuted(users, "muted")[j] == users[k];
          assert Ids(Unmuted(users, "muted"))[j] == u;
        }
        if u in Ids(Unmuted(users, "muted")) {
          var j :| 0 <= j < |Unmuted(users, "muted")| && Ids(Unmuted(users, "muted"))[j] == u;
          var m := Unmuted(users, "muted")[j];
          assert m in users;
          var k :| 0 <= k < |users| && users[k] == m;
          assert Ids(users)[k] == u;
        }
      }
    }
  }

  /** A muted member who is not the owner: as written notified, as intended not. */
  lemma MutedMemberCounterexample(owner: Id, u: Id)
    requires owner != "" && u != owner
    ensures UserRoom(u) in Notifications(Private, owner, [Member(u, false, true, None)])
    ensures UserRoom(u) !in NotificationsIntended(Private, owner, [Member(u, false, true, None)])
  {
    NotificationsReachEveryMember(Private, owner, [Member(u, false, true, None)]);
    var list := RecipientList([Member(u, false, true, None)], owner, "mute");
    assert Unmuted([Member(u, false, true, None)], "mute") == [];
    assert list == [owner];
    assert NotificationsIntended(Private, owner, [Member(u, false, true, None)]) == UserRooms(KeepFirst(list));
    UserRoomsDistinct(KeepFirst(list));
  }

  /** The corrected fan-out notifies the owner and every member with an unmuted record, each once,
      and no one else: a muted member who is not the owner never receives the push. */
  lemma NotificationsIntendedSkipMuted(kind: ChannelType, owner: Id, users: seq<Member>)
    requires owner != "" && !IsBroadcast(kind)
    ensures Distinct(NotificationsIntended(kind, owner, users))
    ensures forall u :: UserRoom(u) in NotificationsIntended(kind, owner, users)
                        <==> u == owner || exists m :: m in users && m.user == u && !m.mute
  {
    var unmuted := Unmuted(users, "mute");
    var list := RecipientList(users, owner, "mute");
    UserRoomsDistinct(KeepFirst(list));
    forall u ensures u in Ids(unmuted) <==> exists m :: m in users && m.user == u && !m.mute {
      if u in Ids(unmuted) {
        var j :| 0 <= j < |unmuted| && Ids(unmuted)[j] == u;
        assert unmuted[j] in unmuted;
      }
      if exists m :: m in users && m.user == u && !m.mute {
        var m :| m in users && m.user == u && !m.mute;
        assert m in unmuted;
        var j :| 0 <= j < |unmuted| && unmuted[j] == m;
        assert Ids(unmuted)[j] == u;
      }
    }
  }

  /** The emit block of `send`: one type room for a public or internal channel; otherwise the
      list of member ids passing the mute filter plus the owner, deduplicated, one room each. */
  method Emit(kind: ChannelType, owner: Id, users: seq<Member>) returns (emitted: seq<Room>)
    ensures emitted == Notifications(kind, owner, users)
  {
    if IsBroadcast(kind) {
      return [TypeRoom(kind)];
    }
    var list := Ids(Unmuted(users, "muted"));
    if owner != "" {
      list := list + [owner];
    }
    NotificationsOfList(kind, owner, users, list);
    emitted := EmitEach(KeepFirst(list));
  }

  /** The `forEach` over the deduplicated ids: one emit to each user's room, in order. */
  method EmitEach(targets: seq<Id>) returns (emitted: seq<Room>)
    ensures emitted == UserRooms(targets)
  {
    emitted := [];
    for i := 0 to |targets|
      invariant |emitted| == i
      invariant forall k :: 0 <= k < i ==> emitted[k] == UserRoom(targets[k])
    {
      emitted := emitted + [UserRoom(targets[i])];
    }
  }

  /** The rooms of a private or p2p channel are those of the list the emit block builds. */
  lemma NotificationsOfList(kind: ChannelType, owner: Id, users: seq<Member>, list: seq<Id>)
    requires !IsBroadcast(kind)
    requires list == Ids(Unmuted(users, "muted")) + (if owner != "" then [owner] else [])
    ensures Notifications(kind, owner, users) == UserRooms(KeepFirst(list))
  {
  }

  /** `new ChatMessage({ channel, text, sender })` followed by `save()`. */
  method SaveNewMessage(text: string, sender: Option<Id>, channel: Id, cfg: Config, now: int) returns (msg: Message)
    ensures fresh(msg)
    ensures msg.text == text && msg.sender == sender && msg.channel == channel && !msg.isNew
    ensures msg.versions == [] && msg.updatedAt == Some(now)
  {
    msg := new Message.Create(text, sender, channel);
    msg.Save(cfg, now);
  }

  /** `send`: the message is created and saved, the rooms are notified one by one, then the
      channel is touched and marked seen by the caller and saved (the save is not awaited). */
  method Send(channel: Channel, caller: Option<Id>, text: string, now: int, cfg: Config)
    returns (msg: Message, emitted: seq<Room>)
    modifies channel`lastMsg, channel`modified, channel`version, channel`isNew, channel`users
    ensures fresh(msg)
    ensures msg.text == text && msg.sender == caller && msg.channel == channel.id && !msg.isNew
    ensures msg.versions == [] && msg.updatedAt == Some(now)
    ensures emitted == Notifications(channel.kind, channel.owner, old(channel.users))
    ensures channel.lastMsg == Some(now) && channel.modified == {} && !channel.isNew && channel.version == old(channel.SavedVersion())
    ensures Seen(channel.owner, old(channel.users), caller, now).Some? ==>
              channel.users == UniqueUsers(Seen(channel.owner, old(channel.users), caller, now).value)
    ensures Seen(channel.owner, old(channel.users), caller, now).None? ==>
              channel.users == HookedUsers(old(channel.users), old(channel.modified))
  {
    msg := SaveNewMessage(text, caller, channel.id, cfg, now);
    emitted := Emit(channel.kind, channel.owner, channel.users);
    TouchAndSee(channel, caller, now);
  }

  /** The tail of `send`: `touch(false)`, `saw(user, false)`, then one `save()`. */
  method TouchAndSee(channel: Channel, caller: Option<Id>, now: int)
    modifies channel`lastMsg, channel`modified, channel`version, channel`isNew, channel`users
    ensures channel.lastMsg == Some(now) && channel.modified == {} && !channel.isNew && channel.version == old(channel.SavedVersion())
    ensures Seen(channel.owner, old(channel.users), caller, now).Some? ==>
              channel.users == UniqueUsers(Seen(channel.owner, old(channel.users), caller, now).value)
    ensures Seen(channel.owner, old(channel.users), caller, now).None? ==>
              channel.users == HookedUsers(old(channel.users), old(channel.modified))
  {
    channel.Touch(now, false);
    var seen := channel.Saw(caller, now, false);
    ghost var marked := channel.modified;
    assert channel.isNew == old(channel.isNew) && channel.version == old(channel.version);
    assert LastMsgPath in marked;
    assert seen ==> UsersPath in marked;
    assert !seen ==> (UsersPath in marked <==> UsersPath in old(channel.modified));
    channel.Save();
  }

  // ---------------------------------------------------------------------------
  // isMine and remove

  /** `isMine`: 403 unless the sender's key equals the caller's; two absent keys are equal. */
  function IsMine(sender: Option<Id>, caller: Option<Id>): (r: Option<Failure>)
    ensures r.None? <==> sender == caller
    ensures r.Some? ==> r.value == Failure(403, "NOT_MINE")
  {
    if sender != caller then Some(Failure(403, "NOT_MINE")) else None
  }

  /** An anonymous caller passes the guard on a message without sender. */
  lemma IsMineAbsentKeysMatch()
    ensures IsMine(None, None).None?
    ensures forall u: Id :: IsMine(None, Some(u)).Some? && IsMine(Some(u), None).Some?
  {
  }

  /** How `remove` answered: 204 after deleting the document, or the soft-removed document. */
  datatype Removal = Deleted | SoftRemoved

  /** `remove`: with `removeMessages` the document is deleted and left as it was; otherwise
      `set({ text: '', removed: true })` and a save, so an edit of a non-empty text of a stored
      message is archived like any other edit. */
  method Remove(message: Message, cfg: Config, now: int) returns (outcome: Removal)
    modifies message
    ensures cfg.removeMessages ==> outcome == Deleted && unchanged(message)
    ensures !cfg.removeMessages ==>
              && outcome == SoftRemoved
              && message.text == "" && message.removed
              && message.kind == old(message.kind) && message.sender == old(message.sender)
              && message.channel == old(message.channel)
              && !message.isNew && message.modified == {}
    ensures !cfg.removeMessages && (old(message.isNew) || old(message.modified) != {}
                                    || old(message.text) != "" || !old(message.removed)) ==>
              message.updatedAt == Some(now)
    ensures !cfg.removeMessages && !old(message.isNew) && old(message.modified) == {}
            && old(message.text) == "" && old(message.removed) ==>
              message.updatedAt == old(message.updatedAt)
    ensures !cfg.removeMessages && (old(message.isNew) || !cfg.versioning
                                    || (old(message.text) == "" && TextPath !in old(message.modified))) ==>
              message.versions == old(message.versions)
    ensures !cfg.removeMessages && !old(message.isNew) && cfg.versioning
            && (old(message.text) != "" || TextPath in old(message.modified)) ==>
              message.versions == Archive(old(message.versions),
                                          Version(Some(old(message.text)),
                                                  if old(message.updatedAt).Some? then old(message.updatedAt) else Some(now)),
                                          cfg.nbMsgVersions)
  {
    if cfg.removeMessages {
      return Deleted;
    }
    var _ := message.SetText("");
    if message.isNew || !message.removed {
      message.modified := message.modified + {RemovedPath};
    }
    message.removed := true;
    message.Save(cfg, now);
    outcome := SoftRemoved;
  }
}

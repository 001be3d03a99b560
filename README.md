# chat-fm: channel membership and messages, in Dafny

This project models the rules of the chat-fm plugin that decide who belongs to a channel and who may use it, and how messages are created, versioned, fanned out and removed. It covers:

- **The channel document** (`ChannelModel`, file `channel_model.dfy`). A `Channel` class holds the owner, the type (`kind`, since `type` is a Dafny keyword), the archived flag, the version counter, the member records and the set of modified paths. The pure predicates `isAdmin` and `canAccess` are module-level functions. The same goes for the member lookup of `findUser` (`EnsureMember`), the updates of `saw` and `mute` (`Seen`, `Muted`), the de-duplication of the pre-save hook (`UniqueUsers`) and the name and read rules of `getPreview`. The class methods (`FindUser`, `Saw`, `Mute`, `Touch`, `PreSave`, `Save`, `GetPreview`) update the fields in place and are proved against those functions.
- **The message document** (`MessageModel`, file `message_model.dfy`). A `Message` class has the `text` and `updated_at` setters, which stash the previous value, and a pre-save hook. On an edit of a stored message the hook puts the previous text in front of `versions` and caps the list. `History` follows a series of edits, and `HistoryIsBoundedStack` proves that the list behaves as a bounded stack.
- **The message endpoints** (`MessageController`, file `message_controller.dfy`). This part covers recipient normalisation and the refusals of `createChannel`. It also covers the decision to reuse a channel of the store or create one, and the type of a new channel. The rest is the notification fan-out of `send`, the `isMine` guard, and soft and hard removal.
- **The channel endpoints** (`ChannelController`, file `channel_controller.dfy`). This part covers the invite upsert loop, `leave`, `mute`, archiving, the `$expand` filter of `one`, the `$top` bound and degraded entries of `listPreview`, and the rule that marks a channel seen when its messages are listed. It also has the guards `canAdmin`, `isOwner` and `getById`.
- `Wrappers` (`Option`, `Id`) and `Seqs` (JavaScript's `indexOf` and the first-occurrence filter `arr.filter((x, i) => … && arr.indexOf(x) === i)`) are shared helpers.

Conventions:
- User and channel ids are strings. An absent user (no `req.user`, or a falsy key) is `None`. In the raw recipient list, `""` stands for every falsy entry.
- The clock is a parameter `now`. The process settings (`removeMessages`, `versionning`, `nbMsgVersions`) are a `Config` value. Whether an id is a valid ObjectId is a boolean parameter.
- The document store is a sequence of channels. `findOne` is a choice of any element that matches the query, because the query promises no order.
- The socket library is replaced by the list of rooms a message is emitted to.
- Mongoose behaviour is modelled as follows. A new document counts the paths it was built with as modified. Assigning a path marks it modified when the document is new or the value differs. `markModified` marks a path unconditionally. `save()` runs the timestamps step (which stamps `updated_at` through its setter when anything is modified), then the pre-save hook, then clears the modified paths. A document that was never stored is inserted with version 0, whatever the hook did. On an update, `increment()` in the hook adds one to the version. `Channel.SavedVersion` names the version a writing save leaves: 0 for a channel not yet stored, one more than the current version otherwise. Every method that saves a channel also states that it is stored afterwards.

Behaviour of the code worth knowing:
- `canAccess` refuses a public channel to a signed-in user who is neither its owner nor a member, although an anonymous caller may read it (`ChannelModel.PublicRefusesSignedInStranger`).
- The preview appends `"..."` when fewer names are shown than there are members (minus the viewer when found). Members without a first name count too, so `"..."` can follow a list that already holds every named member (`ChannelModel.MemberNames`).
- The fan-out of `send` notifies muted members, and `isAdmin` answers truthy for every signed-in user. See "## Findings".

## Model

| member | source | states |
|---|---|---|
| ChannelModel.IsAdmin | models/channel.server.model.js:57-68 | false without a user key, true for the owner, and for anyone else the list of that user's admin records (the `filter` result, not a boolean) |
| ChannelModel.IsAdminTruthyForEveryone | models/channel.server.model.js:66-67 | the answer is truthy for every signed-in caller, admin or not |
| ChannelModel.IsAdminIntended | models/channel.server.model.js:57-68 | corrected predicate: true iff a caller is present and is the owner or holds an admin record |
| ChannelModel.IsAdminCounterexample | models/channel.server.model.js:66-67 | a stranger to a channel with no members: truthy as written, false as intended |
| ChannelModel.CanAccess | models/channel.server.model.js:193-206 | anonymous callers reach only public channels; signed-in callers reach internal channels, and otherwise only as owner or listed member |
| ChannelModel.PublicRefusesSignedInStranger | models/channel.server.model.js:193-206 | a public channel opens to an anonymous visitor but not to a signed-in non-member |
| ChannelModel.EnsureMember | models/channel.server.model.js:115-141 | no record for an absent user or a stranger; otherwise the position of the user's first record; the list changes only for an unlisted owner, by one admin record appended at the end |
| ChannelModel.EnsureMemberIdempotent | models/channel.server.model.js:124-134 | a second lookup finds the same record and changes nothing, so the list grows by at most one |
| ChannelModel.Seen | models/channel.server.model.js:147-166 | fails exactly when the lookup fails; otherwise only the found record changes, and only its `last_seen` (set to now) |
| ChannelModel.Muted | models/channel.server.model.js:172-187 | fails exactly when the lookup fails; otherwise only the found record changes, and only its `mute` (set to true) |
| ChannelModel.UniqueUsers | models/channel.server.model.js:301-310 | the ids are the first occurrences of the input ids in input order, none repeated, and each kept record is the first record of its id |
| ChannelModel.UniqueUsersUpToRecords | models/channel.server.model.js:303-309 | every record the filter keeps among the first n is the first record of its id |
| ChannelModel.UniqueUsersOrder | models/channel.server.model.js:303-309 | kept records keep their relative order |
| ChannelModel.UniqueUsersOfDistinct | models/channel.server.model.js:303-309 | a list without repeated ids passes unchanged |
| ChannelModel.NamedOthers | models/channel.server.model.js:236-245 | a name is listed iff some record of a user other than the viewer has it as a non-empty first name; never longer than the list |
| ChannelModel.NamedOthersConcat | models/channel.server.model.js:236-245 | the filter works record by record, so the names follow the order of the records |
| ChannelModel.MemberNames | models/channel.server.model.js:236-252 | at most 3 names, a prefix of the named others; `"..."` iff at least one is shown and fewer than the member count (minus the viewer when found) |
| ChannelModel.PreviewName | models/channel.server.model.js:279-281 | never empty; an explicit name is kept; an unnamed public or internal channel is named by its type |
| ChannelModel.PreviewNameOfDirectChannel | models/channel.server.model.js:235-253 | an unnamed private or p2p channel is named by the shown names joined with `" & "` (plus `"..."`), and is "Untitled" only when none is shown |
| ChannelModel.ReadFlag | models/channel.server.model.js:268-274 | false without the viewer's record; with it, true iff there is no last message or it predates `last_seen` |
| ChannelModel.SeenThenSavedIsRead | models/channel.server.model.js:268-274 | after `saw` at now and the save hook, the viewer's record carries now and any message created before now reads as read |
| ChannelModel.Channel.constructor | models/channel.server.model.js:17-52 | a new, unstored channel: unnamed, not archived, version 0, the given owner, type and members, with those paths modified |
| ChannelModel.Channel.PreSave | models/channel.server.model.js:291-312 | nothing when no path is modified; otherwise one version increment, and the users de-duplicated when `users` is modified |
| ChannelModel.Channel.Save | models/channel.server.model.js:291-312 | the hook's de-duplication; an insert stores version 0, an update with modified paths one more than before, an update with none the same; afterwards stored and nothing modified |
| ChannelModel.Channel.Touch | models/channel.server.model.js:73-79 | `last_msg` becomes now; saved (and then stored, at `SavedVersion`) only when asked, otherwise only `last_msg` is marked and nothing else changes |
| ChannelModel.Channel.FindUser | models/channel.server.model.js:115-141 | the new users and the returned position are those of `EnsureMember`; `users` is marked modified only when a record was appended |
| ChannelModel.Channel.Saw | models/channel.server.model.js:147-166 | false and no change iff `Seen` fails; otherwise the users are `Seen`'s, saved (de-duplicated, stored, at `SavedVersion`) only when asked |
| ChannelModel.Channel.Mute | models/channel.server.model.js:172-187 | false and no change iff `Muted` fails; otherwise the users are `Muted`'s, always saved, so the channel is stored at `SavedVersion` |
| ChannelModel.Channel.GetPreview | models/channel.server.model.js:211-286 | the preview carries the id, type, `PreviewName`, `ReadFlag` of the viewer's record and its `mute`; the only state change is the owner record the lookup may append, which also marks `users` modified |
| MessageModel.StashedEntry | models/message.server.model.js:64-65 | the entry an edit archives holds the stashed text and the stashed `updated_at`, else the current one; it has a date whenever either is set |
| MessageModel.Capped | models/message.server.model.js:69-74 | the cap applies only when 0 <= cap <= length, and keeps a prefix of exactly cap entries |
| MessageModel.Archive | models/message.server.model.js:67-74 | the new entry comes first, older entries follow shifted by one, and the length is capped (or grows by one under a negative cap) |
| MessageModel.HistoryIsBoundedStack | models/message.server.model.js:57-76 | after any non-empty series of edits the history is the edits newest first, then the older history, cut to the cap |
| MessageModel.HistoryLength | models/message.server.model.js:69-74 | with a cap >= 0 the history never exceeds it and a cap of 0 empties it; with a negative cap every edit adds exactly one entry |
| MessageModel.TwoEditsKeepBothTexts | models/message.server.model.js:64-67 | two edits under a cap of 5 leave the two previous texts, the most recent first |
| MessageModel.Message.Create | controllers/message.server.controller.js:119-123 | a new message: the given text, sender and channel, type message, not removed, no history, those paths modified |
| MessageModel.Message.Load | models/message.server.model.js:16-50 | a stored message: the given fields, nothing modified, nothing stashed |
| MessageModel.Message.SetText | models/message.server.model.js:21-24 | returns the assigned value unchanged and stashes the previous text; the path is modified when new or changed |
| MessageModel.Message.SetUpdatedAt | models/message.server.model.js:52-55 | returns the assigned value unchanged and stashes the previous `updated_at` |
| MessageModel.Message.PreSave | models/message.server.model.js:57-76 | `versions` untouched when new, when `text` is unmodified or when versioning is off; otherwise `Archive` of the stashed text and date |
| MessageModel.Message.Save | models/message.server.model.js:57-76 | `updated_at` stamped when new or modified, the archived date falls back to the current `updated_at`, only `versions` and the timestamps change |
| MessageController.Recipients | controllers/message.server.controller.js:27-32 | exactly the non-falsy ids of the request other than the caller's, each once |
| MessageController.RecipientsOrder | controllers/message.server.controller.js:27-32 | the recipients keep the order of their first occurrence |
| MessageController.Precheck | controllers/message.server.controller.js:34-44 | 400 EMPTY_RECIPIENTS first, then 400 UNAUTHORIZED_GUEST_MULTIPLE_RECEIVERS for an anonymous caller with several recipients |
| MessageController.SendingToSelfFails | tests/messages.server.test.js:78-88 | writing only to oneself leaves no recipient and is refused with EMPTY_RECIPIENTS |
| MessageController.P2PMatch | controllers/message.server.controller.js:47-53 | a match is a p2p channel of one or two records, one of them the caller's or the recipient's, and one of the two can open it as owner |
| MessageController.PrivateMatch | controllers/message.server.controller.js:54-69 | a match is a private channel with as many records as recipients, open to the caller and to some recipient who has a record |
| MessageController.Reusable | controllers/message.server.controller.js:47-69 | a reused channel has the type a new one would get and is open to the caller or to the single recipient |
| MessageController.P2PMatchMayShutOutCaller | controllers/message.server.controller.js:47-53 | a p2p channel the recipient owns alone matches, although the caller cannot open it |
| MessageController.P2PMatchIsLoose | controllers/message.server.controller.js:47-53 | a p2p channel of the caller and a third user, without the recipient, matches |
| MessageController.PrivateMatchIsLoose | controllers/message.server.controller.js:54-69 | a private channel with a different member set of the same size matches |
| MessageController.Invitees | controllers/message.server.controller.js:87 | one non-admin record per recipient, in order |
| MessageController.NewKind | controllers/message.server.controller.js:85 | p2p iff exactly one recipient, private otherwise |
| MessageController.CreatedChannelIsReusable | controllers/message.server.controller.js:47-94 | a channel created for a caller and recipients is matched by the same request later, and the save hook keeps its members |
| MessageController.SaveNewChannel | controllers/message.server.controller.js:84-90 | a fresh, saved channel with the given owner, type and members at version 0, stored and with nothing modified |
| MessageController.CreateChannel | controllers/message.server.controller.js:21-98 | refusals as `Precheck`; an anonymous caller gets a new private channel owned by the recipient with no members; a signed-in caller gets a matching stored channel if any, else a new one of `NewKind` owned by the caller with `Invitees` |
| MessageController.Unmuted | controllers/message.server.controller.js:161 | keeps exactly the records whose value under the given key is not true |
| MessageController.FanOut | controllers/message.server.controller.js:157-173 | public or internal: the type room only; otherwise user rooms without repeats, one for each id of the list built from the records passing the filter on the given key plus the owner; `Notifications` is its instance for `muted` (as written), `NotificationsIntended` for `mute` (corrected) |
| MessageController.NotificationsOrder | controllers/message.server.controller.js:159-172 | two users are notified in the order in which their ids first occur in the list |
| MessageController.UserRooms | controllers/message.server.controller.js:168-172 | one user room per id, in order |
| MessageController.UserRoomsDistinct | controllers/message.server.controller.js:168-172 | distinct ids give distinct rooms, and a user's room is there iff the user is |
| MessageController.NotificationsReachEveryMember | controllers/message.server.controller.js:157-173 | public or internal: one emit to the type room; otherwise exactly one emit per member and for the owner, muted or not |
| MessageController.MutedMemberCounterexample | controllers/message.server.controller.js:160-162 | a muted member is notified as written and not as intended |
| MessageController.NotificationsIntendedSkipMuted | controllers/message.server.controller.js:160-162 | corrected fan-out: exactly the owner and the members with an unmuted record, each once |
| MessageController.Emit | controllers/message.server.controller.js:157-173 | the emit loop produces exactly `Notifications` |
| MessageController.EmitEach | controllers/message.server.controller.js:168-172 | the `forEach` loop emits to each target's user room, one per target, in order |
| MessageController.SaveNewMessage | controllers/message.server.controller.js:119-129 | a fresh, stored message with the given text, sender and channel, no history and `updated_at` now |
| MessageController.Send | controllers/message.server.controller.js:107-181 | the saved message has the text, sender and channel, no history and `updated_at` now; the emits are `Notifications`; the channel's `last_msg` is now and the caller's record is seen, then saved, so it is stored at `SavedVersion` |
| MessageController.TouchAndSee | controllers/message.server.controller.js:175-177 | `last_msg` is now, the caller's record is seen when the lookup succeeds, and one save de-duplicates and stores the channel at `SavedVersion` |
| MessageController.IsMine | controllers/message.server.controller.js:190-203 | 403 NOT_MINE iff the sender key differs from the caller key |
| MessageController.IsMineAbsentKeysMatch | controllers/message.server.controller.js:193-196 | an anonymous caller passes on a message without sender, and only then does an absent key match |
| MessageController.Remove | controllers/message.server.controller.js:231-253 | with removeMessages a delete and the document untouched; otherwise text "" and removed, other fields kept, and a previous non-empty text archived like any edit; `updated_at` is stamped now unless the message was stored, already removed, empty and unmodified, in which case it is kept |
| ChannelController.Split | controllers/channel.server.controller.js:68 | at least one piece, none containing the separator |
| ChannelController.SplitJoin | controllers/channel.server.controller.js:68 | joining the pieces with the separator gives the query back |
| ChannelController.Expands | controllers/channel.server.controller.js:68-72 | exactly the pieces that are `users.user` or `owner`, each once, so at most two |
| ChannelController.One | controllers/channel.server.controller.js:64-95 | the loaded channel iff no piece is an allowed relation; otherwise a refetch populating `Expands` |
| ChannelController.SetArchived | controllers/channel.server.controller.js:142-169 | `archived` takes the value; a stored channel's version goes up by one only when something was modified |
| ChannelController.InviteOne | controllers/channel.server.controller.js:183-193 | a listed user keeps the id list unchanged; an unlisted user is appended at the end |
| ChannelController.LastAdmin | controllers/channel.server.controller.js:182-194 | defined iff the body names the user |
| ChannelController.InvitedKeepsRecords | controllers/channel.server.controller.js:182-194 | present records keep their place and every field but `isAdmin`; records not named are untouched; pushed records are neither muted nor seen |
| ChannelController.InvitedAppendsNewcomers | controllers/channel.server.controller.js:189-190 | the pushed ids are the unlisted users of the body, each once, in body order |
| ChannelController.InviteOneRecord | controllers/channel.server.controller.js:183-193 | after one step the invited user's record has the invitation's `isAdmin`, other records keep theirs |
| ChannelController.InvitedLastWins | controllers/channel.server.controller.js:182-194 | every named user's record has the `isAdmin` of the last invitation naming it |
| ChannelController.InvitedDistinct | controllers/channel.server.controller.js:196-199 | on a list without repeats the upsert adds none, so the save hook keeps the list |
| ChannelController.InviteUpserts | controllers/channel.server.controller.js:178-204 | the whole upsert: no repeats, present records change only in `isAdmin`, unnamed records untouched, newcomers in order, last invitation wins |
| ChannelController.InviteGrantsAccess | controllers/channel.server.controller.js:182-194 | every invited user can open the channel afterwards |
| ChannelController.Invite | controllers/channel.server.controller.js:178-204 | the loop leaves `Invited` of the old users, then the save de-duplicates and stores the channel at `SavedVersion` |
| ChannelController.ListMessages | controllers/channel.server.controller.js:213-234 | the caller's record is stamped seen and the channel saved (stored, at `SavedVersion`) iff `$skip` is absent or parses to 0 and the lookup succeeds; otherwise users, modified paths, version and stored state are unchanged |
| ChannelController.Without | controllers/channel.server.controller.js:256 | exactly the records of other users |
| ChannelController.WithoutNonMember | controllers/channel.server.controller.js:256 | a user without a record leaves the list as it was |
| ChannelController.WithoutConcat | controllers/channel.server.controller.js:256 | the filter works piecewise, so the remaining records keep their order |
| ChannelController.WithoutIds | controllers/channel.server.controller.js:256 | the leaving user has no record afterwards, and every other user keeps its membership |
| ChannelController.Leave | controllers/channel.server.controller.js:243-265 | 400 CHANNEL_CANNOT_LEAVE and no change (users, modified paths, version, stored state) for an anonymous caller or the owner; otherwise 204 with the caller's records removed and the channel saved and stored at `SavedVersion` |
| ChannelController.LeaveRevokesAccess | controllers/channel.server.controller.js:250-257 | after leaving, the caller can open the channel iff it is internal, and every other user keeps its membership |
| ChannelController.MuteChannel | controllers/channel.server.controller.js:274-283 | always 204; when the lookup succeeds the users are `Muted`'s and the channel is saved and stored at `SavedVersion`; otherwise users, modified paths, version and stored state are unchanged |
| ChannelController.PreviewTop | controllers/channel.server.controller.js:294-297 | at most 100; 10 when absent; 100 for a value that does not parse or exceeds 100; otherwise the parsed value, 0 and negatives included |
| ChannelController.PreviewPage | controllers/channel.server.controller.js:304-317 | one entry per channel in page order; a failing preview becomes "Not available" for its own channel only |
| ChannelController.CanAdmin | controllers/channel.server.controller.js:331-341 | passes iff `isAdmin` is truthy, else 403 CHANNEL_CANNOT_ADMINISTRATE |
| ChannelController.CanAdminRefusesOnlyVisitors | controllers/channel.server.controller.js:331-341 | as written the guard refuses exactly the anonymous callers |
| ChannelController.CanAdminIntended | controllers/channel.server.controller.js:331-341 | with the corrected `isAdmin`: only the owner and recorded admins pass |
| ChannelController.IsOwner | controllers/channel.server.controller.js:350-364 | passes iff the caller is present and is the owner, else 403 CHANNEL_UNAUTHORIZED_ACTION |
| ChannelController.OwnerCanAccess | controllers/channel.server.controller.js:350-364 | whoever passes `isOwner` passes `canAccess` for every type |
| ChannelController.GetById | controllers/channel.server.controller.js:373-398 | 400 CHANNEL_INVALID_ID for a malformed id; 404 CHANNEL_NOT_FOUND when the channel is missing or `canAccess` refuses; otherwise the channel |

## Left out

- The Mongoose query layer: `populate`, `paginate`, `sort`, `findById`, `execPopulate`, `$where`, `$elemMatch` and `$size`. The reuse queries are predicates over a store. First names are a map from id to name. The message page, the preview page and the last message are inputs.
- `userChannels` (models/channel.server.model.js:85-110), which builds the filter of channels a user may see, is not part of this model. Neither are the handlers `list`, `create`, `edit` and `remove` of the channel controller, nor `update` and `getById` of the message controller with their own 400 and 404 answers.
- The post-remove cascade (models/channel.server.model.js:317-320) is a fire-and-forget delete whose errors are only logged.
- The `$expand` populations of `send` (controllers/message.server.controller.js:131-154) change the message that is returned and emitted. The model does not carry the emitted payload, only the rooms it goes to, and nothing stored depends on it.
- socket.io: an emit is a `Room` value in the returned list, and `sockets/channel.server.socket.js` is not part of this model. Neither are the IAM tables (`iam/*.js`), `app.config.js`, the bootstrap or the helper `getDocKey`. Ids are compared as keys.
- The clock, `Types.ObjectId.isValid` and thrown errors (`next(e)`). Errors from the store or from a save are not modelled, and every save succeeds.
- Asynchrony: the un-awaited `channel.save()` of `send` and the concurrent previews of `listPreview` run in program order. The loop over the page that calls `getPreview` is not modelled; `PreviewPage` takes each channel's outcome as input.
- Schema validation and casting: `trim`, `required` (whether the empty text of a soft remove is accepted), and enum checks. Member fields left undefined are false, and an absent `isAdmin` in an invitation is false.
- ChannelModel.Channel.GetPreview: the `muted` flag is false when the viewer's record has no `mute` value, where the code would report it as undefined.
- ChannelController.Leave: `channel.set({ users })` is treated as always marking `users` modified, even when no record was removed.
- MessageController.Send: the `$expand` refetch is not modelled; the message returned is the saved one, and the payload of the emits is not carried.

## Findings

| source | as written | input that shows it | evidently intended | confidence | as-written member | corrected member |
|---|---|---|---|---|---|---|
| models/channel.server.model.js:66-67 | returns the `filter` array, which is truthy even when empty, so `canAdmin` lets every signed-in user through | owner "owner", no members, caller "stranger" | true only for the owner and for members whose record has `isAdmin` | not executed; high (an array is always truthy in JavaScript) | ChannelModel.IsAdminCounterexample | ChannelModel.IsAdminIntended |
| controllers/message.server.controller.js:161 | destructures `muted`, but member records hold `mute` (models/channel.server.model.js:44), so no member is ever filtered out | private channel owned by "o" with one record for "u" whose `mute` is true | muted members are not pushed the message | not executed; high | MessageController.MutedMemberCounterexample | MessageController.NotificationsIntendedSkipMuted |

`Send` and `CanAdmin` keep the behaviour as written. `NotificationsIntended` and `CanAdminIntended` give the corrected behaviour.

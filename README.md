# Bifröst bridge core: a Dafny model

Bifröst bridges Matrix and the chat networks a libpurple-style backend
reaches (XMPP, IRC and others). This project models the two handlers at its
heart:

- `MatrixEventHandler` handles what happens on the Matrix side. It routes
  every Matrix event the homeserver pushes to the bridge (`onEvent`). It
  answers the bot's invites and keeps a per-user admin room whose text
  messages are commands (`protocols`, `accounts add`, `accounts
  enable/disable`, `accounts add-existing`, `join`, `help`). It plumbs
  existing Matrix rooms into remote chats with `!purple bridge`. It relays
  messages and memberships of bridged IM and group rooms to the sender's
  remote account, resolved by `getAccountForMxid` and joined to the chat
  now or once the account signs on (`joinOrDefer`). It also creates portal
  rooms for configured room aliases.
- `MatrixRoomHandler` handles what arrives from the backend. Incoming IMs,
  chat messages and chat invites find their Matrix room by a canonical key
  (`createOrGetIMRoom`, `createOrGetGroupChatRoom`), or create and link one,
  then post the message as the remote sender's ghost user.

How the model is built:

- Each network side effect (a join, a notice, a room creation, a message
  sent to the backend) is appended to an `actions` log of `Action` values.
- Both handlers share a `Store` object holding the room entries and the
  account links.
- Answers the handlers await from the homeserver or the backend are
  parameters of the modelled operations. These are the joined members,
  the power levels, the messages sent before a join, the result of a
  plumbing join and the id the homeserver gives a new room.
- Helpers whose code lies outside the two handlers are given functions in
  a `Hooks` value. These are property sanitizing, `ProtoHacks`, the ghost
  user id for a remote user and `isRemoteUser`.

Modules:

- `Wrappers`: `Option` and `Result`.
- `Text`: JavaScript `split`, `trim`, `startsWith` and `endsWith`.
- `ChatParams`: the join-parameter parser `getJoinParametersForCommand`.
- `Model`: the shared values.
- `RoomStore`: the store and its queries.
- `Accounts`: `getAccountForMxid` and the validations of the account
  commands.
- `Routing`: `onEvent` as a pure dispatch function, the parsing of admin
  commands, the plumbing power-level gate and the classification of a bot
  invite.
- `SignOnListeners`: the `account-signed-on` listeners that a deferred
  join leaves behind.
- `EventHandling`: the class `MatrixEventHandler`.
- `RoomHandling`: the class `MatrixRoomHandler`.

Where the prose description of the bridge and its code differ, the model
follows the code:

- The `!purple` plumbing command is recognised in rooms of every type, not
  only in rooms the store does not know. It ends the processing of the
  event in every case.
- `handleAddExistingAccount` never consults the protocol's
  `canAddExisting`. Only `handleEnableAccount` does.
- `getAccountForMxid` consults only the user's first stored link for the
  protocol.

## Model

| member | source | states |
|---|---|---|
| Text.IndexOf | src/MatrixEventHandler.ts:725 | the index found holds the separator, and no earlier character does |
| Text.Split | src/MatrixEventHandler.ts:180 | `split` yields at least one part, exactly one iff the separator is absent, and the first part is the text before the first separator |
| Text.SplitPartsAreFree | src/MatrixEventHandler.ts:725-729 | no part of a split contains the separator |
| Text.JoinSplit | src/MatrixEventHandler.ts:180 | joining the parts of a split with the separator gives back the input, so splitting loses no character |
| Text.SplitAfterFreePart | src/MatrixEventHandler.ts:180 | a separator-free prefix followed by the separator splits off as the first part |
| Text.SplitJoin | src/MatrixEventHandler.ts:180 | splitting the join of separator-free parts gives back exactly those parts (the inverse of `JoinSplit`) |
| Text.TrimStart | src/MatrixEventHandler.ts:188 | the result is a suffix of the input that does not start with white space, and only white space was removed |
| Text.TrimEnd | src/MatrixEventHandler.ts:188 | the result is a prefix of the input that does not end with white space, and only white space was removed |
| Text.Trim | src/MatrixEventHandler.ts:188 | the trimmed body is a slice of the body with only white space before and after it, and it neither starts nor ends with white space |
| ChatParams.Drop | src/MatrixEventHandler.ts:704 | `slice(n)`: the words from position n on, in order, and none past the end |
| ChatParams.Normalized | src/MatrixEventHandler.ts:669-675 | every parameter keeps its identifier and required flag, and its label loses one leading `_` and one trailing `:` |
| ChatParams.HelpListsEveryParameter | src/MatrixEventHandler.ts:669-681 | the help has one entry per parameter, and each parameter is named in it: required ones by label, optional ones by identifier |
| ChatParams.ShowHelp | src/MatrixEventHandler.ts:666-699 | the help branch rewrites the labels of the array in place and returns the required labels and optional identifiers in parameter order |
| ChatParams.RequiredOf | src/MatrixEventHandler.ts:702 | the filter keeps exactly the required parameters |
| ChatParams.RequiredOfCounts | src/MatrixEventHandler.ts:702 | the filter keeps every copy of a required parameter and no copy of an optional one |
| ChatParams.RequiredOfAppend | src/MatrixEventHandler.ts:702 | filtering a concatenation is the concatenation of the filtered parts, so order is kept |
| ChatParams.PositionalKeys | src/MatrixEventHandler.ts:706-715 | the positional loop enters exactly the required identifiers other than `handle` |
| ChatParams.PositionalValue | src/MatrixEventHandler.ts:706-715 | required parameter i (not `handle`, not repeated later) receives positional word i, or `undefined` past the end |
| ChatParams.AssignPositional | src/MatrixEventHandler.ts:705-715 | the loop builds the positional parameter set entry by entry |
| ChatParams.OptionalWordParts | src/MatrixEventHandler.ts:725-729 | an optional word's key is the text before its first `=` and its value the text up to the next `=` or the end |
| ChatParams.ApplyOptionalsSucceeds | src/MatrixEventHandler.ts:724-730 | the optionals succeed iff every trailing word contains `=`, and otherwise fail with the wrong-format error |
| ChatParams.ApplyOptionalsKeys | src/MatrixEventHandler.ts:724-730 | after the optionals the keys are the positional keys plus each word's key |
| ChatParams.ApplyOptionalsKeepsUnboundKeys | src/MatrixEventHandler.ts:724-730 | a key no word names keeps its positional value |
| ChatParams.ApplyOptionalsLastWordWins | src/MatrixEventHandler.ts:724-730 | a key named by several words takes the value of the last of them |
| ChatParams.AddOptionals | src/MatrixEventHandler.ts:724-730 | the `forEach` over the optional words stops at the first word without `=` and otherwise applies them left to right |
| ChatParams.GetJoinParametersForCommand | src/MatrixEventHandler.ts:663-733 | the parser's outcome, and its parameter array is changed only by the help branch, which normalises the labels |
| ChatParams.HelpBranch | src/MatrixEventHandler.ts:666-700 | a lone protocol name gives help listing every parameter and never a parameter set |
| ChatParams.TooFewArguments | src/MatrixEventHandler.ts:717-721 | the command fails with the count error iff fewer words are given than distinct non-`handle` required identifiers |
| ChatParams.DistinctIdsCount | src/MatrixEventHandler.ts:717 | with distinct identifiers and no `handle`, the required count equals the number of required parameters |
| ChatParams.WellFormedCommand | src/MatrixEventHandler.ts:702-732 | with distinct required identifiers and fresh `name=value` words, required parameter i gets word i+1 and the command yields a parameter set |
| ChatParams.PositionalSurvivesOptionals | src/MatrixEventHandler.ts:714-729 | a positional entry whose key no optional word names keeps its word |
| ChatParams.TrailingHandleExample | src/MatrixEventHandler.ts:709-713 | a trailing required `handle` takes no entry and needs no word |
| ChatParams.LeadingHandleExample | src/MatrixEventHandler.ts:706-721 | a leading required `handle` is skipped without shifting the words, so the next required parameter reads the second word and is `undefined` when the handle is left out |
| Accounts.GetAccountForMxid | src/MatrixEventHandler.ts:760-787 | with no link: autoregistration or one of its two errors. With a link: the backend account of the first link if it exists and is enabled, else "not found" or "not enabled". `newAcct` holds iff there was no link |
| Accounts.FirstLinkDecides | src/MatrixEventHandler.ts:762 | links after the first never change the outcome |
| Accounts.FindProtocol | src/MatrixEventHandler.ts:457 | a protocol is found iff a name is given and the backend knows it |
| Accounts.NewAccountCheck | src/MatrixEventHandler.ts:455-470 | `accounts add` proceeds iff the protocol exists, can create accounts, and a username and a password are given. Each failure has its own error, checked in that order: the username is reported missing iff the protocol passes and no username is given, the password iff a username is given but no password |
| Accounts.AddExistingCheck | src/MatrixEventHandler.ts:479-491 | `add-existing` proceeds iff a protocol and a name are given and the protocol is known, and each failure has its own error (no protocol, no name, unknown protocol). It does not consult `canAddExisting` |
| Accounts.EnableAccountCheck | src/MatrixEventHandler.ts:498-510 | enabling proceeds iff the protocol exists, accepts existing accounts, and the sender's backend account with that username exists |
| RoomStore.Store.StoreRoom | src/store/Store.ts:50-51 | one entry per Matrix room id, a later store replaces it, and the links are untouched |
| RoomStore.Store.RemoveRoomByRoomId | src/store/Store.ts:46 | the room's entry is removed and nothing else changes |
| RoomStore.WithLink | src/store/Store.ts:45 | storing a link gives the stored links plus that link, each once, with earlier links kept in place, and keeps the links distinct |
| RoomStore.StoringALinkTwice | src/store/Store.ts:45 | storing the same link again changes nothing |
| RoomStore.Store.StoreAccount | src/store/Store.ts:45 | the link is added unless it is already stored, and the rooms are untouched |
| RoomStore.EntryFor | src/store/Store.ts:48 | the entry of a stored room, and nothing for an unknown one |
| RoomStore.AccountsForMatrixUser | src/store/Store.ts:31 | the user's links for one protocol are no more than all links |
| RoomStore.AccountsForMatrixUserMembers | src/store/Store.ts:31 | a link is returned iff it belongs to that user and protocol |
| RoomStore.RemoteUsersForMatrixId | src/store/Store.ts:33 | a user's links are no more than all links |
| RoomStore.RemoteUsersForMatrixIdMembers | src/store/Store.ts:33 | a link is returned iff it names the user |
| RoomStore.MatrixUsersForRemote | src/MatrixRoomHandler.ts:43-45 | the users of a remote account are no more than all links, and no user is listed twice |
| RoomStore.MatrixUsersForRemoteMembers | src/MatrixRoomHandler.ts:43-45 | a user is returned iff some link joins that user to the account |
| Routing.InviteSteps | src/MatrixEventHandler.ts:124-171 | an invite into an unknown room reaches only the bot-invite or direct-invite handler, the latter only with a state key |
| Routing.RoomSteps | src/MatrixEventHandler.ts:174-231 | after the invite stage, every handler call fits the event and the room type, and none is an invite or join-wait step |
| Routing.PlumbSteps | src/MatrixEventHandler.ts:174-184 | `!purple` reaches the plumbing handler only with the space-split words of the body |
| Routing.AdminSteps | src/MatrixEventHandler.ts:186-196 | in an admin room only a command (the trimmed body's words) or a leave is handled |
| Routing.BridgedStepsFit | src/MatrixEventHandler.ts:205-231 | the bridged handlers fit the room type and the event |
| Routing.BridgedSteps | src/MatrixEventHandler.ts:205-231 | group handlers only in group rooms, the IM handler only in IM rooms, and join/leave only for joins and leaves |
| Routing.Dispatch | src/MatrixEventHandler.ts:112-232 | `!purple` ends processing and reaches plumbing iff it is enabled. Admin rooms never reach the bridged handlers, unknown rooms get no room handler, and ghost member events in group rooms are ignored |
| Routing.DispatchReachesHandlers | src/MatrixEventHandler.ts:129-231 | only messages reach the message handlers. An IM message reaches exactly the IM handler. A group message reaches the group handler, after the state handler when it has a state key. The bot-invite handler is reached iff a bot invite arrives for an unknown room |
| Routing.ParseAdminCommand | src/MatrixEventHandler.ts:235-339 | each command iff its words match, first match wins, with the argument positions each branch reads; anything else is unrecognised |
| Routing.AbsentDefaultPassesGateAsWritten | src/MatrixEventHandler.ts:344-355 | with no level for the invoker and no `users_default`, the gate as written lets anyone through |
| Routing.PowerLevel | src/MatrixEventHandler.ts:348-352 | the invoker's entry, else `users_default`, else 0 |
| Routing.PlumbingGate | src/MatrixEventHandler.ts:344-355 | the corrected gate passes iff the first word is `!purple` and the invoker's level reaches the required level |
| Routing.GatesAgreeWhenLevelStated | src/MatrixEventHandler.ts:344-355 | the corrected and as-written gates differ iff no level is stated and the requirement is positive |
| Routing.GroupInviteBecomesAdminRoomAsWritten | src/MatrixEventHandler.ts:424-426 | as written, an invite into a room of any size makes it an admin room |
| Routing.ClassifyBotInvite | src/MatrixEventHandler.ts:424-438 | a room of at most two members becomes an admin room. A larger room is left when plumbing is enabled and kept otherwise |
| SignOnListeners.Remaining | src/MatrixEventHandler.ts:740-750 | a sign-on never adds listeners |
| SignOnListeners.RemainingMembers | src/MatrixEventHandler.ts:741-746 | a sign-on keeps exactly the listeners of other accounts |
| SignOnListeners.MatchingMembers | src/MatrixEventHandler.ts:741-746 | a sign-on fires exactly the listeners of its own account |
| SignOnListeners.UnrelatedSignOnChangesNothing | src/MatrixEventHandler.ts:741-742 | a sign-on no listener waits for fires nothing and removes nothing |
| SignOnListeners.SecondSignOnFiresNothing | src/MatrixEventHandler.ts:746 | fired listeners remove themselves, so a second sign-on of the same account fires nothing |
| SignOnListeners.OneJoinPerMatchingListener | src/MatrixEventHandler.ts:744-746 | a sign-on performs one chat join per matching listener |
| SignOnListeners.DeferredJoinFiresOnItsAccount | src/MatrixEventHandler.ts:740-748 | a listener fires on its own account's sign-on with its original join properties, then removes itself |
| EventHandling.ChatSend | src/MatrixEventHandler.ts:563-576 | a chat send ends with the send, preceded only by a deduplicator insert when the backend needs one |
| EventHandling.Listings | src/MatrixEventHandler.ts:255-278 | the `accounts` listing has one line per link, in store order |
| EventHandling.DirectInviteEntry | src/MatrixEventHandler.ts:141-158 | a direct invite stores an IM room for the inviter, the ghost's protocol and username, under the matching remote id |
| EventHandling.SecondAliasQueryFindsPortal | src/MatrixEventHandler.ts:60-69 | once a portal is stored, a second query for its alias finds it |
| EventHandling.RoomTypeOf | src/MatrixEventHandler.ts:124 | a room has a type iff it is stored, and the type is its entry's |
| EventHandling.MatrixEventHandler.constructor | src/MatrixEventHandler.ts:31-50 | no pending aliases, no listeners and no actions yet |
| EventHandling.MatrixEventHandler.OnAliasQuery | src/MatrixEventHandler.ts:52-91 | an unconfigured alias is an error. An alias whose chat already has a portal is refused. Otherwise the alias is remembered with its sanitized properties and answered with a public room |
| EventHandling.MatrixEventHandler.OnAliasQueried | src/MatrixEventHandler.ts:93-110 | the pending alias is forgotten and its room stored as a group portal; an alias that is not pending changes nothing |
| EventHandling.MatrixEventHandler.JoinOrDefer | src/MatrixEventHandler.ts:735-758 | a connected account joins and records the properties now; otherwise one listener is added and nothing is done yet |
| EventHandling.MatrixEventHandler.OnAccountSignedOn | src/MatrixEventHandler.ts:740-750 | the sign-on fires the matching listeners in order and keeps only the others |
| EventHandling.MatrixEventHandler.ResolveAccount | src/MatrixEventHandler.ts:760-787 | the result of `getAccountForMxid` on the store's links, logging an autoregistration when one happened |
| EventHandling.MatrixEventHandler.RunJoinParameters | src/MatrixEventHandler.ts:663-700 | the parser's outcome, help iff only the protocol is given, with the help notice sent to the room |
| EventHandling.MatrixEventHandler.HandleInviteForBot | src/MatrixEventHandler.ts:420-453 | the bot joins. A room of at most two members is stored as the inviter's admin room. A larger room is left when plumbing is enabled |
| EventHandling.MatrixEventHandler.HandleImMessage | src/MatrixEventHandler.ts:513-527 | the sender's account sends the body to the room's recipient; without an account nothing happens |
| EventHandling.MatrixEventHandler.HandleDirectInvite | src/MatrixEventHandler.ts:137-171 | the ghost joins, the room is stored as an IM room, and the missed messages are relayed in order |
| EventHandling.MatrixEventHandler.ReplayMissed | src/MatrixEventHandler.ts:162-170 | the loop relays each missed message as the IM handler would, in order |
| EventHandling.MatrixEventHandler.JoinCommand | src/MatrixEventHandler.ts:637-661 | no protocol or an unknown one is an error. A failed command and the help answer never join. A join uses the sender's resolved account and the complete parameter set |
| EventHandling.MatrixEventHandler.HandleJoin | src/MatrixEventHandler.ts:637-661 | the `join` command's actions and error |
| EventHandling.MatrixEventHandler.HandleCommand | src/MatrixEventHandler.ts:235-339 | each command's notice or error, and the actions and links `AdminCommand` gives for the words. Only `accounts add` and `add-existing` add a link, only after their checks pass, and never one already stored. Rooms never change |
| EventHandling.MatrixEventHandler.AdminCommandKeepsLinksDistinct | src/MatrixEventHandler.ts:235-339 | a command keeps every stored link and never stores a link twice |
| EventHandling.MatrixEventHandler.MemberSyncRegistersOnlyMember | src/MatrixEventHandler.ts:392-408 | one member's sync registers nobody but that member, and does nothing for the bot |
| EventHandling.MatrixEventHandler.SyncSkipsBot | src/MatrixEventHandler.ts:392-408 | the member sync never registers an account for the bridge bot |
| EventHandling.MatrixEventHandler.SyncJoinsComeFromMembers | src/MatrixEventHandler.ts:392-408 | every join of the sync belongs to a joined member other than the bot |
| EventHandling.MatrixEventHandler.SyncMembers | src/MatrixEventHandler.ts:392-408 | the loop syncs every member in order |
| EventHandling.MatrixEventHandler.SyncMember | src/MatrixEventHandler.ts:396-406 | one member: resolve or register the account, then join with the command's parameters |
| EventHandling.MatrixEventHandler.BridgeOutcome | src/MatrixEventHandler.ts:357-417 | a missing or unknown protocol is an error. A failed bridge stores nothing. A stored portal is a plumbed group room for the chat the invoker's account joined |
| EventHandling.MatrixEventHandler.HandlePlumbingCommand | src/MatrixEventHandler.ts:341-418 | nothing happens unless the gate passes and the subcommand is `bridge`; otherwise the bridge result is applied and a failure is reported |
| EventHandling.MatrixEventHandler.BridgeRoom | src/MatrixEventHandler.ts:357-379 | the bridge with the invoker's resolved account, or the account error |
| EventHandling.MatrixEventHandler.BridgeWithAccount | src/MatrixEventHandler.ts:366-410 | join with the parameters, then store the portal and sync the members |
| EventHandling.MatrixEventHandler.StoreAndSync | src/MatrixEventHandler.ts:381-408 | the portal is stored under the room, then every member is synced |
| EventHandling.MatrixEventHandler.HandleGroupMessage | src/MatrixEventHandler.ts:529-580 | a gateway room passes the message on. Otherwise the sender's account joins first when not in the chat, now or on sign-on, and only then sends. Without an account nothing happens. The actions and listeners gain exactly `GroupMessageEffect` |
| EventHandling.MatrixEventHandler.HandleJoinLeaveGroup | src/MatrixEventHandler.ts:582-622 | a gateway room passes the membership on. A join without an account kicks the user. A join joins now or on sign-on. A leave rejects the chat and updates the deduplicator. The actions and listeners gain exactly `JoinLeaveEffect` |
| EventHandling.MatrixEventHandler.HandleStateEvent | src/MatrixEventHandler.ts:624-635 | only gateway rooms pass state events on |
| EventHandling.MatrixEventHandler.OnEvent | src/MatrixEventHandler.ts:112-232 | the handler calls made are `Dispatch`'s for the event and its stored room type, and the new state is exactly what those handlers do, one after the other (`Ran`). Actions and listeners are only appended. Bridged-room calls never change the store. No call means no action |
| EventHandling.MatrixEventHandler.NoteJoin | src/MatrixEventHandler.ts:120-122 | a join, and only a join, is noted with the deduplicator, and nothing else changes |
| EventHandling.MatrixEventHandler.InviteStage | src/MatrixEventHandler.ts:124-171 | the invite handlers run as `InviteSteps` prescribes, and the state changes by exactly their effects |
| EventHandling.MatrixEventHandler.BotInviteCall | src/MatrixEventHandler.ts:131-136 | the bot-invite handler runs and the state changes by exactly its effect: the bot joins, and the room becomes an admin room or is left as the invite's classification says |
| EventHandling.MatrixEventHandler.DirectInviteCall | src/MatrixEventHandler.ts:137-171 | the direct-invite handler runs and the state changes by exactly its effect: the ghost joins, the IM room is stored and the missed messages are relayed |
| EventHandling.MatrixEventHandler.RoomStage | src/MatrixEventHandler.ts:174-231 | the room handlers run as `RoomSteps` prescribes, and the state changes by exactly their effects |
| EventHandling.MatrixEventHandler.PlumbCall | src/MatrixEventHandler.ts:174-184 | the plumbing handler runs on the body's words and the state changes by exactly its effect |
| EventHandling.MatrixEventHandler.AdminStage | src/MatrixEventHandler.ts:186-196 | a text message runs the command of its trimmed words: the actions and links become the command's (`AdminCommand`) and rooms are untouched. Otherwise a leave removes the room, keeps the links and makes the bot leave. The state changes by exactly these effects |
| EventHandling.MatrixEventHandler.BridgedStage | src/MatrixEventHandler.ts:205-231 | the bridged handlers run as `BridgedSteps` prescribes. The actions and listeners gain exactly the membership, state-event and message handlers' effects, in that order (`BridgedEffects`) |
| EventHandling.MatrixEventHandler.MemberCall | src/MatrixEventHandler.ts:205-212 | a join or leave in a group room runs the membership handler and appends its effect; anything else changes nothing |
| EventHandling.MatrixEventHandler.StateCall | src/MatrixEventHandler.ts:214-216 | a state event in a group room runs the state handler, which passes it on only in a gateway room |
| EventHandling.MatrixEventHandler.MessageCall | src/MatrixEventHandler.ts:218-231 | a message runs the IM handler in an IM room and the group handler in a group room, appending that handler's effect; anything else changes nothing |
| EventHandling.MatrixEventHandler.EffectsAppend | src/MatrixEventHandler.ts:112-232 | running two lists of handler calls one after the other has the effect of running their concatenation |
| EventHandling.MatrixEventHandler.RanFacts | src/MatrixEventHandler.ts:112-232 | a run only appends actions and listeners, a run of bridged-room handlers keeps the store, and an empty run changes nothing |
| EventHandling.MatrixEventHandler.BridgedStepsKeepStore | src/MatrixEventHandler.ts:205-231 | the bridged-room handlers never change the rooms or the links |
| EventHandling.MatrixEventHandler.BridgedStepsEffects | src/MatrixEventHandler.ts:205-231 | the effect of the calls `BridgedSteps` prescribes is `BridgedEffects`, with the store unchanged |
| RoomHandling.MatrixUserForAccount | src/MatrixRoomHandler.ts:42-55 | an owner is found iff exactly one Matrix user is linked to the account |
| RoomHandling.OwnerIffOnlyUser | src/MatrixRoomHandler.ts:42-55 | `u` is the owner iff `u` is linked to the account and no other user is, however many links there are |
| RoomHandling.DistinctUsersCount | src/MatrixRoomHandler.ts:43-51 | a list of distinct users is as long as the set of its users, so a count of one means one user |
| RoomHandling.UniqueOwner | src/MatrixRoomHandler.ts:42-55 | the owner found is linked to the account and is its only user |
| RoomHandling.NoUniqueOwner | src/MatrixRoomHandler.ts:46-53 | two links to different users give no owner |
| RoomHandling.FindOrCreate | src/MatrixRoomHandler.ts:69-105 | no match creates, one match is reused, several matches bail out |
| RoomHandling.ImEntry | src/MatrixRoomHandler.ts:70-96 | a new IM room is linked with exactly its lookup key |
| RoomHandling.ImRoomCreation | src/MatrixRoomHandler.ts:69-97 | with no IM room, the ghost creates a direct room named after the sender that invites the owner. It is stored as an IM room under the key, and other rooms are untouched |
| RoomHandling.ImReuse | src/MatrixRoomHandler.ts:103 | one IM room for the key is reused with no creation and no store change |
| RoomHandling.ImAmbiguity | src/MatrixRoomHandler.ts:99-102 | two IM rooms for one key give nothing and change nothing |
| RoomHandling.ImSecondCallReuses | src/MatrixRoomHandler.ts:57-106 | after a creation, a second call with the same key reuses that room |
| RoomHandling.ImCreationKeepsOtherKeys | src/MatrixRoomHandler.ts:57-106 | creating an IM room leaves the lookup of every other key as it was |
| RoomHandling.StripPassword | src/MatrixRoomHandler.ts:119-122 | the copy holds every property but the password, and no password |
| RoomHandling.GroupEntry | src/MatrixRoomHandler.ts:132-161 | a new group room is linked with its lookup key |
| RoomHandling.GroupSecondCallReuses | src/MatrixRoomHandler.ts:108-171 | after a creation, the same chat finds exactly that room |
| RoomHandling.PasswordNeverStored | src/MatrixRoomHandler.ts:119-122 | stored properties never hold a password, and a chat message stores none |
| RoomHandling.GroupKeyIgnoresProperties | src/MatrixRoomHandler.ts:124-129 | the group lookup depends on the protocol and room name only |
| RoomHandling.MatrixRoomHandler.constructor | src/MatrixRoomHandler.ts:19-23 | no actions yet |
| RoomHandling.MatrixRoomHandler.GroupRoomCreation | src/MatrixRoomHandler.ts:131-161 | with no group room, one named after the chat is created, inviting the user only when one is supplied. It is stored as a group room with the password-free properties |
| RoomHandling.MatrixRoomHandler.CreateOrGetIMRoom | src/MatrixRoomHandler.ts:57-106 | the room, store and creation the IM find-or-create decides |
| RoomHandling.MatrixRoomHandler.CreateOrGetGroupChatRoom | src/MatrixRoomHandler.ts:108-171 | the room, store and creation the group find-or-create decides |
| RoomHandling.MatrixRoomHandler.IncomingImBailOuts | src/MatrixRoomHandler.ts:176-184 | no unique owner or an unknown protocol: nothing is created or sent |
| RoomHandling.MatrixRoomHandler.IncomingImReachesItsRoom | src/MatrixRoomHandler.ts:186-211 | every IM is sent as the sender's ghost to the owner's IM room for that sender |
| RoomHandling.MatrixRoomHandler.AmbiguousImSendsToNoRoomAsWritten | src/MatrixRoomHandler.ts:99-102 | as written, two IM rooms for one key still lead to a send to no room |
| RoomHandling.MatrixRoomHandler.IncomingChatMsgBailOut | src/MatrixRoomHandler.ts:217-221 | an unknown protocol: nothing is created or sent |
| RoomHandling.MatrixRoomHandler.IncomingChatMsgDelivery | src/MatrixRoomHandler.ts:222-240 | a chat message invites nobody and stores no properties. It is sent as the sender's ghost to a group room of its chat |
| RoomHandling.MatrixRoomHandler.IncomingChatInviteBailOuts | src/MatrixRoomHandler.ts:246-254 | no unique owner or an unknown protocol: nothing is created or sent |
| RoomHandling.MatrixRoomHandler.IncomingChatInviteDelivery | src/MatrixRoomHandler.ts:255-277 | a chat invite's room invites the owner and stores the properties without the password. Text is forwarded exactly when the invite has a message |
| RoomHandling.MatrixRoomHandler.IncomingChatInviteForwardsMessage | src/MatrixRoomHandler.ts:272-277 | a delivered invite with a message forwards it to the room found or created |
| RoomHandling.MatrixRoomHandler.AmbiguousChatSendsToNoRoomAsWritten | src/MatrixRoomHandler.ts:164-167 | as written, two group rooms for one chat still lead to a send to no room |
| RoomHandling.MatrixRoomHandler.DeliveriesAlwaysHaveARoom | src/MatrixRoomHandler.ts:208-211 | the corrected handlers never send to a missing room |
| RoomHandling.MatrixRoomHandler.HandleIncomingIM | src/MatrixRoomHandler.ts:173-212 | the delivery the IM rules decide, and the links are untouched |
| RoomHandling.MatrixRoomHandler.HandleIncomingChatMsg | src/MatrixRoomHandler.ts:214-241 | the delivery the chat-message rules decide |
| RoomHandling.MatrixRoomHandler.HandleChatInvite | src/MatrixRoomHandler.ts:243-278 | the delivery the chat-invite rules decide |

## Left out

- Network transport, the Matrix intents and the backend are not modelled. Their calls are `Action` values in a log, and the answers the handlers await are parameters.
- Concurrency and the interleaving of `await`s are not modelled. Each handler runs to completion. The plumbing member sync (`Promise.all`) runs one member after another, and a failing member is skipped.
- Message formatting (`MessageFormatter`, markdown of the help notice) and the wording of notices and errors are not modelled. Notices are datatype values.
- `Util.sanitizeProperties`, `desanitizeProperties`, `ProtoHacks.addJoinProps`, `getRoomNameFromProps`, `getRoomNameForInvite`, `getUsernameFromMxid`, `getMxIdForProtocol` and `isRemoteUser` are taken as given functions.
- Text.Trim: removes ASCII white space only, because JavaScript `trim` also removes Unicode spaces.
- The `joinChat` timeout and the conversation a plumbing join reaches are not modelled; that conversation is a parameter (none when the join failed).
- The nickname lookup through `getConversation` and `getNickForChat` is reduced to a per-chat nickname map.
- Display names fetched with `getProfileInfo` in gateway rooms are not modelled; the gateway receives the membership only.
- The null-protocol check of `onEvent` is not modelled separately: every stored IM and group entry has a protocol id, and an unstored room has no type.
- Store exceptions are not modelled, and neither is the `try`/`catch` around the find-or-create calls. A store call always succeeds.
- `setMatrixRoom` followed by `linkRooms` is one `StoreRoom`.
- The id the homeserver gives a new room is a parameter.
- The profile sync of `handleIncomingIM` is an `UpdateProfile` action only.
- Log-only branches are not modelled. Neither is `MatrixRoomHandler.onAliasQueried`, which only logs.
- The welcome message of `handleInviteForBot` is not modelled: it is commented out in the code.
- JoinOrDefer: the promise a deferred join returns is not modelled. What the awaiting caller does after the join is the listener's `resume` actions.
- RoomStore.AccountsForMatrixUser: states only the length bound in its own contract; membership is stated by `AccountsForMatrixUserMembers`.
- RoomStore.RemoteUsersForMatrixId: states only the length bound in its own contract; membership is stated by `RemoteUsersForMatrixIdMembers`.
- RoomStore.MatrixUsersForRemote: states only the length bound and that no user is listed twice in its own contract; membership is stated by `MatrixUsersForRemoteMembers`.
- SignOnListeners.Remaining: states only that no listener is added; which listeners remain is stated by `RemainingMembers`.
- EventHandling.MatrixEventHandler.HandleInviteForBot: follows the corrected member count (`ClassifyBotInvite`), so a room of more than two members is not made an admin room. The code as written makes every invited room an admin room (first row of Findings).
- EventHandling.MatrixEventHandler.HandlePlumbingCommand: follows the corrected gate (`PlumbingAllowed` on `PowerLevel`), where an absent `users_default` counts as 0. The code as written lets an invoker with no level through (second row of Findings).
- RoomHandling.MatrixRoomHandler.HandleIncomingIM: stops when the IM room lookup is ambiguous. The code as written still updates the profile and sends the message with no room (third row of Findings).
- RoomHandling.MatrixRoomHandler.HandleIncomingChatMsg: stops when the group room lookup is ambiguous. The code as written still sends the message with no room (fourth row of Findings).
- RoomHandling.MatrixRoomHandler.HandleChatInvite: stops when the group room lookup is ambiguous. The code as written still forwards the invite's text with no room (fourth row of Findings).

## Findings

| source | as written | input that shows it | evidently intended | confidence | as-written member | corrected member |
|---|---|---|---|---|---|---|
| src/MatrixEventHandler.ts:425-426 | `getJoinedMembers` returns an object keyed by user id, which has no `length`, so `members.length > 2` is always false | any invite of the bot into a room with three joined members | a room of more than two members is kept (or left) for plumbing and not made an admin room, as the member sync at lines 392-393 counts with `Object.keys` | high (not executed) | Routing.GroupInviteBecomesAdminRoomAsWritten | Routing.ClassifyBotInvite |
| src/MatrixEventHandler.ts:348-352 | with no entry for the invoker and no `users_default`, the level is `undefined`, and `undefined < requiredUserPL` is false, so the gate passes | `requiredUserPL` 100, power levels `{users: {}}`, any sender | an absent `users_default` counts as 0, as the Matrix power-level rules define, so the invoker is refused | medium (not executed) | Routing.AbsentDefaultPassesGateAsWritten | Routing.PlumbingGate |
| src/MatrixRoomHandler.ts:99-102 with 208-211 | when two rooms match the key, the find-or-create returns `undefined`, and the caller still sends the message with an `undefined` room id | two stored IM rooms for the same user, protocol and remote sender, then an incoming IM from that sender | a lookup that bails out stops the delivery | high (not executed) | RoomHandling.MatrixRoomHandler.AmbiguousImSendsToNoRoomAsWritten | RoomHandling.MatrixRoomHandler.DeliveriesAlwaysHaveARoom |
| src/MatrixRoomHandler.ts:164-167 with 237-240 and 272-277 | when two rooms match a chat's key, the group find-or-create returns `undefined`, and the chat message (or the invite's text) is still sent with an `undefined` room id | two stored group rooms for the same protocol and room name, then an incoming chat message in that chat | a lookup that bails out stops the delivery | high (not executed) | RoomHandling.MatrixRoomHandler.AmbiguousChatSendsToNoRoomAsWritten | RoomHandling.MatrixRoomHandler.DeliveriesAlwaysHaveARoom |

/**
 * The pure decision logic of the event handler: which handlers an inbound
 * event reaches, how an admin-room command is read, the plumbing
 * permission gate and the classification of a bot invite.
 */
module Routing {
  import opened Wrappers
  import opened Text
  import opened ChatParams
  import opened Model

  predicate IsTextMessage(ev: Event) {
    ev.eventType == MessageEvent && ev.msgtype == Some(TextMsgtype)
  }

  predicate IsPlumbingCommand(ev: Event) {
    IsTextMessage(ev) && StartsWith(ev.body, PlumbPrefix)
  }

  predicate IsMembership(ev: Event, membership: string) {
    ev.eventType == MemberEvent && ev.membership == Some(membership)
  }

  /** One handler call `onEvent` makes, in the order it makes them. */
  datatype Step =
    | NoteJoinPending            // deduplicator.waitForJoinResolve
    | InviteForBot               // handleInviteForBot
    | DirectInvite               // a ghost invited to a direct chat
    | Plumb(args: seq<string>)   // handlePlumbingCommand
    | Admin(args: seq<string>)   // handleCommand
    | AdminLeave                 // forget the admin room and leave it
    | JoinLeaveGroup             // handleJoinLeaveGroup
    | GroupStateEvent            // handleStateEv
    | ImMessage                  // handleImMessage
    | GroupMessage               // handleGroupMessage

  /** Steps that act only in rooms already stored as IM or group rooms. */
  predicate BridgedRoomStep(s: Step) {
    s.NoteJoinPending? || s.JoinLeaveGroup? || s.GroupStateEvent? || s.ImMessage? || s.GroupMessage?
  }

  /** What an invite into a room the store does not know leads to. */
  function InviteSteps(ev: Event, roomType: Option<RoomType>, botUserId: UserId,
                       isRemoteUser: UserId -> bool): (steps: seq<Step>)
    ensures forall s :: s in steps ==> s == InviteForBot || (s == DirectInvite && ev.stateKey.Some?)
  {
    if roomType.None? && IsMembership(ev, "invite") then
      if ev.stateKey == Some(botUserId) then [InviteForBot]
      else if ev.isDirect && ev.stateKey.Some? && isRemoteUser(ev.stateKey.value) then [DirectInvite]
      else []
    else []
  }

  /** What each handler call may rely on about the event and its room. */
  predicate StepFits(s: Step, ev: Event, roomType: Option<RoomType>) {
    && (s.JoinLeaveGroup? || s.GroupStateEvent? || s.GroupMessage? ==> roomType == Some(Group))
    && (s.ImMessage? ==> roomType == Some(IM))
    && (s.DirectInvite? ==> ev.stateKey.Some?)
    && (s.JoinLeaveGroup? ==> ev.membership == Some("join") || ev.membership == Some("leave"))
    && (s.Admin? ==> s.args == Split(Trim(ev.body), ' '))
    && (s.Plumb? ==> s.args == Split(ev.body, ' '))
  }

  /** The handlers after the invite stage; every `return` of `onEvent` ends the sequence. */
  function RoomSteps(ev: Event, roomType: Option<RoomType>, isRemoteUser: UserId -> bool,
                     enablePlumbing: bool): (steps: seq<Step>)
    ensures forall s :: s in steps ==>
              StepFits(s, ev, roomType) && !s.NoteJoinPending? && !s.InviteForBot? && !s.DirectInvite?
  {
    if IsPlumbingCommand(ev) then
      PlumbSteps(ev, enablePlumbing)
    else if roomType == Some(UAdmin) then
      AdminSteps(ev)
    else if roomType.None? then
      []
    else if ev.eventType == MemberEvent && roomType == Some(Group) && isRemoteUser(ev.sender) then
      []
    else
      BridgedStepsFit(ev, roomType.value);
      BridgedSteps(ev, roomType.value)
  }

  /** A `!purple` command reaches plumbing only when it is enabled, with the words of the body. */
  function PlumbSteps(ev: Event, enablePlumbing: bool): (steps: seq<Step>)
    ensures forall s :: s in steps ==> s == Plumb(Split(ev.body, ' '))
  {
    if enablePlumbing then [Plumb(Split(ev.body, ' '))] else []
  }

  /** In an admin room a text message is a command (its trimmed words) and a leave forgets the room. */
  function AdminSteps(ev: Event): (steps: seq<Step>)
    ensures forall s :: s in steps ==> s == Admin(Split(Trim(ev.body), ' ')) || s == AdminLeave
  {
    if IsTextMessage(ev) then [Admin(Split(Trim(ev.body), ' '))]
    else if ev.membership == Some("leave") then [AdminLeave]
    else []
  }

  lemma BridgedStepsFit(ev: Event, roomType: RoomType)
    requires roomType != UAdmin
    ensures forall s :: s in BridgedSteps(ev, roomType) ==>
              StepFits(s, ev, Some(roomType)) && !s.NoteJoinPending? && !s.InviteForBot? && !s.DirectInvite?
  {
    forall s | s in BridgedSteps(ev, roomType)
      ensures StepFits(s, ev, Some(roomType)) && !s.NoteJoinPending? && !s.InviteForBot? && !s.DirectInvite?
    {
      assert BridgedRoomStep(s);
    }
  }

  /** The handlers an event in a stored IM or group room reaches. */
  function BridgedSteps(ev: Event, roomType: RoomType): (steps: seq<Step>)
    requires roomType != UAdmin
    ensures forall s :: s in steps ==>
              && BridgedRoomStep(s) && !s.NoteJoinPending?
              && (s.JoinLeaveGroup? || s.GroupStateEvent? || s.GroupMessage? ==> roomType == Group)
              && (s.ImMessage? ==> roomType == IM)
              && (s.JoinLeaveGroup? ==> ev.membership == Some("join") || ev.membership == Some("leave"))
  {
    var memberSteps :=
      if ev.eventType == MemberEvent && roomType == Group
         && (ev.membership == Some("join") || ev.membership == Some("leave"))
      then [JoinLeaveGroup] else [];
    var stateSteps := if roomType == Group && ev.stateKey.Some? then [GroupStateEvent] else [];
    var messageSteps :=
      if ev.eventType != MessageEvent then []
      else if roomType == IM then [ImMessage]
      else [GroupMessage];
    assert forall s :: s in memberSteps ==>
             s == JoinLeaveGroup && roomType == Group && (ev.membership == Some("join") || ev.membership == Some("leave"));
    assert forall s :: s in stateSteps ==> s == GroupStateEvent && roomType == Group;
    assert forall s :: s in messageSteps ==> (s == ImMessage && roomType == IM) || (s == GroupMessage && roomType == Group);
    memberSteps + stateSteps + messageSteps
  }

  /**
   * `onEvent`: the handler calls an event leads to, given the stored type
   * of its room (`None` for a room the store does not know).
   */
  function Dispatch(ev: Event, roomType: Option<RoomType>, botUserId: UserId,
                    isRemoteUser: UserId -> bool, enablePlumbing: bool): (steps: seq<Step>)
    // a `!purple` text message ends processing, and reaches plumbing only when it is enabled
    ensures IsPlumbingCommand(ev) ==>
              steps == (if enablePlumbing then [Plumb(Split(ev.body, ' '))] else [])
    // admin rooms never reach the IM or group handlers
    ensures roomType == Some(UAdmin) ==> forall s :: s in steps ==> !BridgedRoomStep(s) || s.NoteJoinPending?
    // rooms the store does not know get no room handler
    ensures roomType.None? ==>
              forall s :: s in steps ==> s.NoteJoinPending? || s.InviteForBot? || s.DirectInvite? || s.Plumb?
    // member events of ghosts in group rooms are ignored
    ensures roomType == Some(Group) && ev.eventType == MemberEvent && isRemoteUser(ev.sender) ==>
              steps == (if IsMembership(ev, "join") then [NoteJoinPending] else [])
    // what each handler may rely on
    ensures forall s :: s in steps ==> StepFits(s, ev, roomType)
  {
    (if IsMembership(ev, "join") then [NoteJoinPending] else [])
    + InviteSteps(ev, roomType, botUserId, isRemoteUser)
    + RoomSteps(ev, roomType, isRemoteUser, enablePlumbing)
  }

  /** Messages reach the message handlers of their room's type, and only the bot's own invite reaches `handleInviteForBot`. */
  lemma DispatchReachesHandlers(ev: Event, roomType: Option<RoomType>, botUserId: UserId,
                                isRemoteUser: UserId -> bool, enablePlumbing: bool)
    // only message events reach the message handlers
    ensures var steps := Dispatch(ev, roomType, botUserId, isRemoteUser, enablePlumbing);
      ev.eventType != MessageEvent ==> ImMessage !in steps && GroupMessage !in steps
    // every other message in a bridged room reaches its handler
    ensures ev.eventType == MessageEvent && !IsPlumbingCommand(ev) && roomType == Some(IM) ==>
              Dispatch(ev, roomType, botUserId, isRemoteUser, enablePlumbing) == [ImMessage]
    ensures ev.eventType == MessageEvent && !IsPlumbingCommand(ev) && roomType == Some(Group) ==>
              Dispatch(ev, roomType, botUserId, isRemoteUser, enablePlumbing)
              == (if ev.stateKey.Some? then [GroupStateEvent] else []) + [GroupMessage]
    ensures InviteForBot in Dispatch(ev, roomType, botUserId, isRemoteUser, enablePlumbing) <==>
              roomType.None? && IsMembership(ev, "invite") && ev.stateKey == Some(botUserId)
    ensures (roomType == Some(IM) || roomType == Some(Group)) && !IsPlumbingCommand(ev) ==>
              forall s :: s in Dispatch(ev, roomType, botUserId, isRemoteUser, enablePlumbing) ==> BridgedRoomStep(s)
  {
    var join := if IsMembership(ev, "join") then [NoteJoinPending] else [];
    var invite := InviteSteps(ev, roomType, botUserId, isRemoteUser);
    var room := RoomSteps(ev, roomType, isRemoteUser, enablePlumbing);
    assert Dispatch(ev, roomType, botUserId, isRemoteUser, enablePlumbing) == join + invite + room;
    assert InviteForBot !in join && InviteForBot !in room;
  }

  /** The commands of the admin room. */
  datatype Command =
    | ListProtocols
    | DescribeProtocol
    | ListAccounts
    | AddAccount(protocol: Option<string>, options: seq<string>)
    | SetAccountEnabled(protocol: Option<string>, username: Option<string>, enable: bool)
    | AddExistingAccount(protocol: Option<string>, name: Option<string>)
    | JoinCommand(args: seq<string>)
    | ShowUsage
    | Unrecognized

  /** `handleCommand`'s branch selection, first match wins. */
  function ParseAdminCommand(args: seq<string>): (c: Command)
    ensures c == ListProtocols <==> args == ["protocols"]
    ensures c == DescribeProtocol <==> |args| == 2 && args[0] == "protocols"
    ensures c == ListAccounts <==> args == ["accounts"]
    ensures c.AddAccount? <==> |args| >= 2 && args[0] == "accounts" && args[1] == "add"
    ensures c.AddAccount? ==> c.protocol == At(args, 2) && c.options == Drop(args, 3)
    ensures c.SetAccountEnabled? <==> |args| >= 2 && args[0] == "accounts" && args[1] in {"enable", "disable"}
    ensures c.SetAccountEnabled? ==> c == SetAccountEnabled(At(args, 2), At(args, 3), args[1] == "enable")
    ensures c.AddExistingAccount? <==> |args| >= 2 && args[0] == "accounts" && args[1] == "add-existing"
    ensures c.AddExistingAccount? ==> c == AddExistingAccount(At(args, 2), At(args, 3))
    ensures c.JoinCommand? <==> |args| >= 1 && args[0] == "join"
    ensures c.JoinCommand? ==> c.args == args[1..]
    ensures c == ShowUsage <==> |args| >= 1 && args[0] == "help"
    ensures |args| == 0 || args[0] !in {"protocols", "accounts", "join", "help"} ==> c == Unrecognized
  {
    var first := At(args, 0);
    var second := At(args, 1);
    if first == Some("protocols") && |args| == 1 then ListProtocols
    else if first == Some("protocols") && |args| == 2 then DescribeProtocol
    else if first == Some("accounts") && |args| == 1 then ListAccounts
    else if first == Some("accounts") && second == Some("add") then AddAccount(At(args, 2), Drop(args, 3))
    else if first == Some("accounts") && (second == Some("enable") || second == Some("disable")) then
      SetAccountEnabled(At(args, 2), At(args, 3), second == Some("enable"))
    else if first == Some("accounts") && second == Some("add-existing") then AddExistingAccount(At(args, 2), At(args, 3))
    else if first == Some("join") then JoinCommand(Drop(args, 1))
    else if first == Some("help") then ShowUsage
    else Unrecognized
  }

  // ---- The plumbing permission gate ----

  /**
   * The invoker's level as the gate reads it: the user's entry, else
   * `users_default`, which may be absent (`undefined`).
   */
  function PowerLevelAsWritten(pl: PowerLevels, sender: UserId): Option<int> {
    if sender in pl.users then Some(pl.users[sender]) else pl.usersDefault
  }

  /** The gate as written: `undefined < requiredPl` is false, so an absent level passes. */
  predicate PlumbingAllowedAsWritten(args: seq<string>, pl: PowerLevels, sender: UserId, requiredPl: int) {
    At(args, 0) == Some(PlumbPrefix)
    && !(PowerLevelAsWritten(pl, sender).Some? && PowerLevelAsWritten(pl, sender).value < requiredPl)
  }

  /** With neither an entry for the invoker nor a default, the gate as written lets anyone through. */
  lemma AbsentDefaultPassesGateAsWritten(args: seq<string>, pl: PowerLevels, sender: UserId, requiredPl: int)
    requires At(args, 0) == Some(PlumbPrefix)
    requires sender !in pl.users && pl.usersDefault.None?
    ensures PlumbingAllowedAsWritten(args, pl, sender, requiredPl)
  {
  }

  /**
   * The invoker's power level under the `m.room.power_levels` rules of the
   * Matrix client-server API: the user's entry, else `users_default`, which
   * itself defaults to 0.
   */
  function PowerLevel(pl: PowerLevels, sender: UserId): (level: int)
    ensures PowerLevelAsWritten(pl, sender).Some? ==> level == PowerLevelAsWritten(pl, sender).value
    ensures PowerLevelAsWritten(pl, sender).None? ==> level == 0
  {
    if sender in pl.users then pl.users[sender]
    else if pl.usersDefault.Some? then pl.usersDefault.value
    else 0
  }

  predicate PlumbingAllowed(args: seq<string>, pl: PowerLevels, sender: UserId, requiredPl: int) {
    At(args, 0) == Some(PlumbPrefix) && PowerLevel(pl, sender) >= requiredPl
  }

  /** The corrected gate: exactly `!purple` and a level of at least `requiredPl`. */
  lemma PlumbingGate(args: seq<string>, pl: PowerLevels, sender: UserId, requiredPl: int)
    ensures PlumbingAllowed(args, pl, sender, requiredPl) <==>
              |args| > 0 && args[0] == PlumbPrefix
              && (sender in pl.users ==> pl.users[sender] >= requiredPl)
              && (sender !in pl.users && pl.usersDefault.Some? ==> pl.usersDefault.value >= requiredPl)
              && (sender !in pl.users && pl.usersDefault.None? ==> 0 >= requiredPl)
  {
  }

  /** The two gates differ only when no level is stated and the requirement is positive. */
  lemma GatesAgreeWhenLevelStated(args: seq<string>, pl: PowerLevels, sender: UserId, requiredPl: int)
    ensures PlumbingAllowed(args, pl, sender, requiredPl) != PlumbingAllowedAsWritten(args, pl, sender, requiredPl) <==>
              At(args, 0) == Some(PlumbPrefix) && sender !in pl.users && pl.usersDefault.None? && requiredPl > 0
  {
  }

  // ---- Invites for the bridge bot ----

  /** What the bot does with a room it was invited to. */
  datatype InviteOutcome =
    | BecomeAdminRoom      // store the room as the inviter's admin room
    | StayForPlumbing      // keep the bot joined for a later plumbing command
    | LeaveForPlumbing     // plumbing is enabled: the bot need not stay

  /**
   * `members.length` on the object that maps each joined user id to its
   * profile. User ids begin with `@`, so the object never has a `length`
   * property and the value is `undefined`.
   */
  function MembersLengthAsWritten(memberIds: seq<UserId>): Option<int> {
    None
  }

  function ClassifyBotInviteAsWritten(memberIds: seq<UserId>, enablePlumbing: bool): InviteOutcome {
    var len := MembersLengthAsWritten(memberIds);
    if len.Some? && len.value > 2 then (if enablePlumbing then LeaveForPlumbing else StayForPlumbing)
    else BecomeAdminRoom
  }

  /** As written, an invite into a room of any size makes that room an admin room. */
  lemma GroupInviteBecomesAdminRoomAsWritten(memberIds: seq<UserId>, enablePlumbing: bool)
    requires |memberIds| > 2
    ensures ClassifyBotInviteAsWritten(memberIds, enablePlumbing) == BecomeAdminRoom
  {
  }

  /**
   * The classification counting the joined members (the keys of that
   * object, as the plumbing member sync reads them): only a room of at
   * most two members becomes an admin room.
   */
  function ClassifyBotInvite(memberIds: seq<UserId>, enablePlumbing: bool): (o: InviteOutcome)
    ensures o == BecomeAdminRoom <==> |memberIds| <= 2
    ensures o == LeaveForPlumbing <==> |memberIds| > 2 && enablePlumbing
    ensures o == StayForPlumbing <==> |memberIds| > 2 && !enablePlumbing
  {
    if |memberIds| > 2 then (if enablePlumbing then LeaveForPlumbing else StayForPlumbing)
    else BecomeAdminRoom
  }
}

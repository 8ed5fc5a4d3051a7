/**
 * The Matrix side of the bridge: `MatrixEventHandler` routes every inbound
 * Matrix event to its handler, runs the admin-room commands and the
 * plumbing command, relays messages and memberships of bridged rooms to
 * the backend, and creates portal rooms for configured aliases.
 */
module EventHandling {
  import opened Wrappers
  import opened Text
  import opened ChatParams
  import opened Model
  import opened RoomStore
  import opened Accounts
  import opened Routing
  import opened SignOnListeners

  /** What the alias configuration yields for an alias localpart. */
  datatype PortalOpts = PortalOpts(protocol: Protocol, properties: JoinProps)

  /** A portal waiting for the homeserver to create its room. */
  datatype PendingAlias = PendingAlias(protocol: Protocol, props: JoinProps)

  /** The creation options of a portal room: its alias localpart and a join rule. */
  datatype RoomCreationOpts = RoomCreationOpts(roomAliasName: string, joinRule: string)

  const PublicJoinRule: string := "public"

  datatype AliasError = NoProtocolForAlias

  /** The answers of the homeserver and the backend that handling one event consults. */
  datatype Environment = Environment(
    purple: Purple,
    joinedMembers: seq<UserId>,            // the user ids of the room's joined members
    powerLevels: PowerLevels,              // the room's `m.room.power_levels` content
    missedMessages: seq<Event>,            // messages sent before a ghost joined a direct chat
    plumbedConversation: Option<string>)   // the chat a plumbing join reached; None when it failed

  /** The notices and backend calls of a command, and the error it reports. */
  datatype CommandEffects = CommandEffects(actions: seq<Action>, error: Option<CommandError>)

  /** The outcome of `!purple bridge`: what it did, its error, and the room entry it stores. */
  datatype BridgeResult = BridgeResult(actions: seq<Action>, error: Option<CommandError>, stored: Option<RoomEntry>)

  /** What an admin-room command adds to the log, and the account links after it. */
  datatype CommandOutcome = CommandOutcome(actions: seq<Action>, links: seq<AccountLink>)

  /** What a handler of a bridged room adds to the log and to the sign-on listeners. */
  datatype Appended = Appended(actions: seq<Action>, waiters: seq<Waiter>)

  /**
   * What a run of handler calls leaves behind: the actions and listeners it
   * adds, and the store's rooms and account links after it.
   */
  datatype Effect = Effect(actions: seq<Action>, waiters: seq<Waiter>, rooms: map<RoomId, RoomEntry>,
                           links: seq<AccountLink>)

  /** The part of the handler's state that handling an event changes: its log, its listeners and the store. */
  datatype State = State(actions: seq<Action>, listeners: seq<Waiter>, rooms: map<RoomId, RoomEntry>,
                         links: seq<AccountLink>)

  /** `joinOrDefer`: a connected account joins now, otherwise one listener waits for its sign-on. */
  function Deferred(acct: Account, name: string, props: JoinProps, resume: seq<Action>): Appended {
    if acct.connected then Appended(JoinActions(acct.Ref(), name, props, resume), [])
    else Appended([], [Waiter(acct.Ref(), name, props, resume)])
  }

  function Registered(r: Result<Resolution, AccountError>, protocolId: string, user: UserId): seq<Action> {
    if r.Ok? && r.value.newAcct then [AutoRegister(protocolId, user)] else []
  }

  function FailureNotice(roomId: RoomId, kind: FailureKind, error: Option<CommandError>): seq<Action> {
    if error.Some? then [SendNotice(roomId, Failure(kind, error.value))] else []
  }

  /** `Object.assign({}, properties)`: an absent property set reads as empty. */
  function PropsOrEmpty(props: Option<JoinProps>): JoinProps {
    if props.Some? then props.value else map[]
  }

  /** The nickname the account uses in a chat, falling back to the account name. */
  function Nick(acct: Account, roomName: string): string {
    if roomName in acct.chatNicks && acct.chatNicks[roomName] != "" then acct.chatNicks[roomName] else acct.name
  }

  /** Sending into a chat: the deduplicator learns the message first when the backend needs it. */
  function ChatSend(roomProtocol: string, acct: Account, roomName: string, body: string, needsDedupe: bool)
    : (r: seq<Action>)
    ensures |r| >= 1 && r[|r| - 1] == SendChat(acct.Ref(), roomName, body)
    ensures forall i :: 0 <= i < |r| - 1 ==> r[i].DedupeInsert? && needsDedupe
  {
    (if needsDedupe then [DedupeInsert(roomName, SenderRef(roomProtocol, acct.Ref(), Nick(acct, roomName), roomName), body)]
     else [])
    + [SendChat(acct.Ref(), roomName, body)]
  }

  function Listing(link: AccountLink, purple: Purple, mxid: UserId): AccountListing {
    var q := AccountQuery(link.username, link.protocolId, mxid);
    if q in purple.accounts then
      Listed(purple.accounts[q].protocol.name, link.username, purple.accounts[q].enabled, purple.accounts[q].connected)
    else ProtocolNotEnabled(link.protocolId, link.username)
  }

  /** The `accounts` listing: one line per linked account, in store order. */
  function Listings(links: seq<AccountLink>, purple: Purple, mxid: UserId): (r: seq<AccountListing>)
    ensures |r| == |links|
    ensures forall i :: 0 <= i < |links| ==> r[i] == Listing(links[i], purple, mxid)
  {
    seq(|links|, i requires 0 <= i < |links| => Listing(links[i], purple, mxid))
  }

  function AdminEntry(owner: UserId): RoomEntry {
    RoomEntry(AdminRemoteId(owner), AdminRoomData(owner))
  }

  /** The IM room entry a direct invite of a ghost stores: inviter, protocol and remote user. */
  function DirectInviteEntry(hooks: Hooks, ev: Event): (e: RoomEntry)
    requires ev.stateKey.Some?
    ensures e.remote.DirectData? && e.remote.matrixUser == ev.sender
    ensures var named := hooks.usernameFromMxid(ev.stateKey.value);
            e.remote.recipient == named.0 && e.remote.protocolId == named.1
    ensures e.remoteId == DirectRemoteId(e.remote.matrixUser, e.remote.protocolId, e.remote.recipient)
  {
    var named := hooks.usernameFromMxid(ev.stateKey.value);
    RoomEntry(DirectRemoteId(ev.sender, named.1, named.0), DirectData(ev.sender, named.1, named.0))
  }

  /** The group room entry of a portal created for an alias. */
  function AliasRoomEntry(hooks: Hooks, pending: PendingAlias): RoomEntry {
    var name := hooks.roomNameFromProps(pending.protocol.id, pending.props);
    RoomEntry(GroupRemoteId(pending.protocol.id, name),
              GroupData(pending.protocol.id, name, Some(hooks.sanitize(pending.props)), false, false))
  }

  /** The group room entry a successful plumbing command stores. */
  function PlumbedEntry(protocolId: string, conversation: string, props: JoinProps): RoomEntry {
    RoomEntry(GroupRemoteId(protocolId, conversation), GroupData(protocolId, conversation, Some(props), true, false))
  }

  /**
   * When sanitizing is idempotent, a second query for an alias whose portal
   * was stored finds that portal and creates nothing.
   */
  lemma SecondAliasQueryFindsPortal(hooks: Hooks, rooms: map<RoomId, RoomEntry>, roomId: RoomId,
                                    opts: PortalOpts)
    requires hooks.sanitize(hooks.sanitize(opts.properties)) == hooks.sanitize(opts.properties)
    ensures var pending := PendingAlias(opts.protocol, hooks.sanitize(opts.properties));
            HasRoomWithProperties(rooms[roomId := AliasRoomEntry(hooks, pending)], opts.protocol.id,
                                  hooks.sanitize(opts.properties))
  {
    var pending := PendingAlias(opts.protocol, hooks.sanitize(opts.properties));
    var after := rooms[roomId := AliasRoomEntry(hooks, pending)];
    assert roomId in after && after[roomId].remote.properties == Some(hooks.sanitize(opts.properties));
  }

  /** Appending to a log in two steps or one gives the same log. */
  lemma AppendAssoc<T>(a: seq<T>, b: seq<T>, c: seq<T>)
    ensures (a + b) + c == a + (b + c)
  {
  }

  class MatrixEventHandler {
    const store: Store
    const config: Config
    const autoReg: Option<AutoRegistration>
    const hooks: Hooks
    const botUserId: UserId
    var pendingRoomAliases: map<string, PendingAlias>
    var listeners: seq<Waiter>
    var actions: seq<Action>

    constructor (store: Store, config: Config, autoReg: Option<AutoRegistration>, hooks: Hooks, botUserId: UserId)
      ensures this.store == store && this.config == config && this.autoReg == autoReg
      ensures this.hooks == hooks && this.botUserId == botUserId
      ensures pendingRoomAliases == map[] && listeners == [] && actions == []
    {
      this.store := store;
      this.config := config;
      this.autoReg := autoReg;
      this.hooks := hooks;
      this.botUserId := botUserId;
      pendingRoomAliases := map[];
      listeners := [];
      actions := [];
    }

    /** `getAccountForMxid` against the links `links` of the store. */
    function Resolve(links: seq<AccountLink>, sender: UserId, protocolId: string, purple: Purple)
      : Result<Resolution, AccountError>
    {
      GetAccountForMxid(sender, protocolId, AccountsForMatrixUser(links, sender, protocolId), autoReg, purple.accounts)
    }

    // ------------------------------------------------------------ aliases

    /**
     * `onAliasQuery`: a configured alias whose chat has no portal yet is
     * remembered and answered with creation options; an existing portal
     * refuses the alias.
     */
    method OnAliasQuery(alias: string, aliasLocalpart: string, opts: Option<PortalOpts>)
      returns (r: Result<Option<RoomCreationOpts>, AliasError>)
      modifies this`pendingRoomAliases
      ensures opts.None? ==> r == Err(NoProtocolForAlias) && pendingRoomAliases == old(pendingRoomAliases)
      ensures opts.Some? &&
              HasRoomWithProperties(store.rooms, opts.value.protocol.id, hooks.sanitize(opts.value.properties)) ==>
                r == Ok(None) && pendingRoomAliases == old(pendingRoomAliases)
      ensures opts.Some? &&
              !HasRoomWithProperties(store.rooms, opts.value.protocol.id, hooks.sanitize(opts.value.properties)) ==>
                && r == Ok(Some(RoomCreationOpts(aliasLocalpart, PublicJoinRule)))
                && pendingRoomAliases == old(pendingRoomAliases)[alias :=
                     PendingAlias(opts.value.protocol, hooks.sanitize(opts.value.properties))]
    {
      if opts.None? {
        return Err(NoProtocolForAlias);
      }
      var protocol := opts.value.protocol;
      var properties := hooks.sanitize(opts.value.properties);
      if HasRoomWithProperties(store.rooms, protocol.id, properties) {
        return Ok(None);
      }
      pendingRoomAliases := pendingRoomAliases[alias := PendingAlias(protocol, properties)];
      return Ok(Some(RoomCreationOpts(aliasLocalpart, PublicJoinRule)));
    }

    /**
     * `onAliasQueried`: the created room is stored as the portal of the
     * pending alias, which is then forgotten. An alias that is not pending
     * stops the handler before it changes anything.
     */
    method OnAliasQueried(alias: string, roomId: RoomId) returns (found: bool)
      modifies this`pendingRoomAliases, store
      ensures found <==> alias in old(pendingRoomAliases)
      ensures !found ==> pendingRoomAliases == old(pendingRoomAliases) && store.rooms == old(store.rooms)
      ensures found ==>
                && pendingRoomAliases == old(pendingRoomAliases) - {alias}
                && alias !in pendingRoomAliases
                && store.rooms == old(store.rooms)[roomId := AliasRoomEntry(hooks, old(pendingRoomAliases)[alias])]
      ensures store.accounts == old(store.accounts)
    {
      if alias !in pendingRoomAliases {
        return false;
      }
      var pending := pendingRoomAliases[alias];
      pendingRoomAliases := pendingRoomAliases - {alias};
      store.StoreRoom(roomId, AliasRoomEntry(hooks, pending));
      return true;
    }

    // ------------------------------------------------------ deferred joins

    /**
     * `joinOrDefer`: a connected account joins at once; otherwise a
     * listener waits for that account to sign on.
     */
    method JoinOrDefer(acct: Account, name: string, props: JoinProps, resume: seq<Action>)
      modifies this`listeners, this`actions
      ensures acct.connected ==>
                listeners == old(listeners) && actions == old(actions) + JoinActions(acct.Ref(), name, props, resume)
      ensures !acct.connected ==>
                listeners == old(listeners) + [Waiter(acct.Ref(), name, props, resume)] && actions == old(actions)
    {
      if !acct.connected {
        listeners := listeners + [Waiter(acct.Ref(), name, props, resume)];
      } else {
        actions := actions + JoinActions(acct.Ref(), name, props, resume);
      }
    }

    /** An `account-signed-on` event: every listener for that account fires and is removed. */
    method OnAccountSignedOn(username: string, protocolId: string)
      modifies this`listeners, this`actions
      ensures listeners == Remaining(old(listeners), username, protocolId)
      ensures actions == old(actions) + Fired(old(listeners), username, protocolId)
    {
      var ws := listeners;
      var kept: seq<Waiter> := [];
      var i := 0;
      while i < |ws|
        invariant 0 <= i <= |ws|
        invariant kept == Remaining(ws[..i], username, protocolId)
        invariant actions == old(actions) + Fired(ws[..i], username, protocolId)
      {
        var w := ws[i];
        ghost var upTo := ws[..i + 1];
        assert upTo[..|upTo| - 1] == ws[..i] && upTo[|upTo| - 1] == w;
        if SignedOnMatches(w, username, protocolId) {
          AppendAssoc(old(actions), Fired(ws[..i], username, protocolId), Fire(w));
          actions := actions + Fire(w);
        } else {
          kept := kept + [w];
        }
        i := i + 1;
      }
      assert ws[..|ws|] == ws;
      listeners := kept;
    }

    // ---------------------------------------------------- account lookup

    method ResolveAccount(sender: UserId, protocolId: string, purple: Purple)
      returns (r: Result<Resolution, AccountError>)
      modifies this`actions
      ensures r == Resolve(store.accounts, sender, protocolId, purple)
      ensures actions == old(actions) + Registered(r, protocolId, sender)
    {
      var linked := AccountsForMatrixUser(store.accounts, sender, protocolId);
      r := GetAccountForMxid(sender, protocolId, linked, autoReg, purple.accounts);
      if r.Ok? && r.value.newAcct {
        actions := actions + [AutoRegister(protocolId, sender)];
      }
    }

    /**
     * The join parameters for a command, on a fresh copy of the protocol's
     * parameter objects; the help branch answers with a notice.
     */
    method RunJoinParameters(chatParams: seq<ChatParam>, args: seq<string>, roomId: RoomId)
      returns (outcome: JoinOutcome)
      modifies this`actions
      ensures outcome == JoinParameters(chatParams, args)
      ensures outcome.Help? <==> |args| == 1
      ensures actions == old(actions) +
                (if outcome.Help? then [SendNotice(roomId, JoinHelp(outcome.required, outcome.optional))] else [])
    {
      var params := new ChatParam[|chatParams|](i requires 0 <= i < |chatParams| => chatParams[i]);
      assert params[..] == chatParams;
      outcome := GetJoinParametersForCommand(params, args);
      if outcome.Help? {
        actions := actions + [SendNotice(roomId, JoinHelp(outcome.required, outcome.optional))];
      }
    }

    // ----------------------------------------------------------- invites

    /**
     * `handleInviteForBot`: the bot joins; a room of at most two members
     * becomes the inviter's admin room, a larger one is kept for plumbing
     * (or left when plumbing is enabled).
     */
    method HandleInviteForBot(ev: Event, memberIds: seq<UserId>)
      modifies this`actions, store
      ensures var o := ClassifyBotInvite(memberIds, config.enablePlumbing);
              && actions == old(actions) + [BotJoin(ev.roomId)] + (if o == LeaveForPlumbing then [BotLeave(ev.roomId)] else [])
              && store.rooms == (if o == BecomeAdminRoom then old(store.rooms)[ev.roomId := AdminEntry(ev.sender)]
                                 else old(store.rooms))
      ensures store.accounts == old(store.accounts)
    {
      actions := actions + [BotJoin(ev.roomId)];
      var outcome := ClassifyBotInvite(memberIds, config.enablePlumbing);
      if outcome != BecomeAdminRoom {
        if outcome == LeaveForPlumbing {
          actions := actions + [BotLeave(ev.roomId)];
        }
        return;
      }
      store.StoreRoom(ev.roomId, AdminEntry(ev.sender));
    }

    /** What relaying one message of an IM room does. */
    function ImMessageEffects(links: seq<AccountLink>, remote: RemoteData, ev: Event, purple: Purple): seq<Action>
      requires remote.DirectData?
    {
      var r := Resolve(links, ev.sender, remote.protocolId, purple);
      Registered(r, remote.protocolId, ev.sender)
      + (if r.Ok? then [SendIM(r.value.acct.Ref(), remote.recipient, ev.body)] else [])
    }

    /** Relaying missed messages, in order. */
    function Replay(links: seq<AccountLink>, remote: RemoteData, missed: seq<Event>, purple: Purple): seq<Action>
      requires remote.DirectData?
    {
      if missed == [] then []
      else Replay(links, remote, missed[..|missed| - 1], purple)
           + ImMessageEffects(links, remote, missed[|missed| - 1], purple)
    }

    /**
     * `handleImMessage`: the sender's account sends the message to the
     * room's remote user; without an account nothing is sent.
     */
    method HandleImMessage(remote: RemoteData, ev: Event, purple: Purple)
      requires remote.DirectData?
      modifies this`actions
      ensures actions == old(actions) + ImMessageEffects(store.accounts, remote, ev, purple)
      ensures var r := Resolve(store.accounts, ev.sender, remote.protocolId, purple);
              && (r.Err? ==> actions == old(actions))
              && (r.Ok? ==> actions[|actions| - 1] == SendIM(r.value.acct.Ref(), remote.recipient, ev.body))
    {
      var r := ResolveAccount(ev.sender, remote.protocolId, purple);
      if r.Err? {
        return;
      }
      actions := actions + [SendIM(r.value.acct.Ref(), remote.recipient, ev.body)];
    }

    /**
     * A ghost invited to a direct chat: it joins, the room is stored as an
     * IM room, and the messages sent before the join are relayed in order.
     */
    method HandleDirectInvite(ev: Event, purple: Purple, missed: seq<Event>)
      requires ev.stateKey.Some?
      modifies this`actions, store
      ensures store.rooms == old(store.rooms)[ev.roomId := DirectInviteEntry(hooks, ev)]
      ensures store.accounts == old(store.accounts)
      ensures actions == old(actions) + [GhostJoin(ev.stateKey.value, ev.roomId)]
                         + Replay(store.accounts, DirectInviteEntry(hooks, ev).remote, missed, purple)
    {
      var entry := DirectInviteEntry(hooks, ev);
      actions := actions + [GhostJoin(ev.stateKey.value, ev.roomId)];
      store.StoreRoom(ev.roomId, entry);
      ReplayMissed(entry.remote, missed, purple);
    }

    /** The loop over the messages a ghost missed before joining. */
    method ReplayMissed(remote: RemoteData, missed: seq<Event>, purple: Purple)
      requires remote.DirectData?
      modifies this`actions
      ensures actions == old(actions) + Replay(store.accounts, remote, missed, purple)
    {
      var i := 0;
      while i < |missed|
        invariant 0 <= i <= |missed|
        invariant actions == old(actions) + Replay(store.accounts, remote, missed[..i], purple)
      {
        ghost var upTo := missed[..i + 1];
        assert upTo[..|upTo| - 1] == missed[..i] && upTo[|upTo| - 1] == missed[i];
        AppendAssoc(old(actions), Replay(store.accounts, remote, missed[..i], purple),
                    ImMessageEffects(store.accounts, remote, missed[i], purple));
        HandleImMessage(remote, missed[i], purple);
        i := i + 1;
      }
      assert missed[..|missed|] == missed;
    }

    // ---------------------------------------------------------- commands

    /** The `join` command of the admin room. */
    function JoinCommand(links: seq<AccountLink>, args: seq<string>, ev: Event, purple: Purple): (e: CommandEffects)
      ensures !Truthy(At(args, 0)) ==> e == CommandEffects([], Some(ProtocolNotSupplied))
      ensures Truthy(At(args, 0)) && FindProtocol(purple, At(args, 0)).None? ==>
                e == CommandEffects([], Some(ProtocolNotFound))
      // a failed command and the help answer never join a chat
      ensures e.error.Some? || |args| == 1 ==> forall a :: a in e.actions ==> !a.JoinChat?
      // a join uses the sender's resolved account and the complete parameter set
      ensures forall a :: a in e.actions && a.JoinChat? ==>
                && FindProtocol(purple, At(args, 0)).Some?
                && var protocol := FindProtocol(purple, At(args, 0)).value;
                   var r := Resolve(links, ev.sender, protocol.id, purple);
                   && r.Ok? && a.account == r.value.acct.Ref()
                   && var outcome := JoinParameters(r.value.acct.protocol.chatParams, args);
                      outcome.ParamSet? && a.props == hooks.addJoinProps(protocol.id, outcome.props, ev.sender)
    {
      var p := FindProtocol(purple, At(args, 0));
      if !Truthy(At(args, 0)) then CommandEffects([], Some(ProtocolNotSupplied))
      else if p.None? then CommandEffects([], Some(ProtocolNotFound))
      else
        var r := Resolve(links, ev.sender, p.value.id, purple);
        if r.Err? then CommandEffects([], Some(FailedToGetAccount))
        else
          var reg := Registered(r, p.value.id, ev.sender);
          match JoinParameters(r.value.acct.protocol.chatParams, args)
          case Failed(_) => CommandEffects(reg, Some(FailedToGetAccount))
          case Help(required, optional) => CommandEffects(reg + [SendNotice(ev.roomId, JoinHelp(required, optional))], None)
          case ParamSet(props) =>
            CommandEffects(reg + [JoinChat(r.value.acct.Ref(), hooks.addJoinProps(p.value.id, props, ev.sender))], None)
    }

    /** `handleJoin`. */
    method HandleJoin(args: seq<string>, ev: Event, purple: Purple) returns (err: Option<CommandError>)
      modifies this`actions
      ensures actions == old(actions) + JoinCommand(store.accounts, args, ev, purple).actions
      ensures err == JoinCommand(store.accounts, args, ev, purple).error
    {
      if !Truthy(At(args, 0)) {
        return Some(ProtocolNotSupplied);
      }
      var protocol := FindProtocol(purple, At(args, 0));
      if protocol.None? {
        return Some(ProtocolNotFound);
      }
      var r := ResolveAccount(ev.sender, protocol.value.id, purple);
      if r.Err? {
        return Some(FailedToGetAccount);
      }
      var outcome := RunJoinParameters(r.value.acct.protocol.chatParams, args, ev.roomId);
      if outcome.Failed? {
        return Some(FailedToGetAccount);
      }
      if outcome.ParamSet? {
        actions := actions + [JoinChat(r.value.acct.Ref(), hooks.addJoinProps(protocol.value.id, outcome.props, ev.sender))];
      }
      return None;
    }

    /** What `handleCommand` does with the words `args` of a command sent by `ev.sender`. */
    function AdminCommand(links: seq<AccountLink>, args: seq<string>, ev: Event, purple: Purple): CommandOutcome {
      match ParseAdminCommand(args)
      case ListProtocols => CommandOutcome([SendNotice(ev.roomId, ProtocolList(purple.protocols))], links)
      case DescribeProtocol => CommandOutcome([SendNotice(ev.roomId, ProtocolPlaceholder)], links)
      case ListAccounts =>
        CommandOutcome([SendNotice(ev.roomId, AccountList(Listings(RemoteUsersForMatrixId(links, ev.sender), purple,
                                                                   ev.sender)))], links)
      case AddAccount(protocol, options) =>
        var check := NewAccountCheck(purple, protocol, options);
        if check.Err? then CommandOutcome(FailureNotice(ev.roomId, AddAccountFailed, Some(check.error)), links)
        else CommandOutcome([CreateAccount(check.value.username, check.value.protocol.id, check.value.password),
                             SendNotice(ev.roomId, CreatedNewAccount)],
                            WithLink(links, AccountLink(ev.sender, check.value.protocol.id, check.value.username)))
      case SetAccountEnabled(protocol, username, enable) =>
        var check := EnableAccountCheck(purple, protocol, username, ev.sender);
        if check.Err? then CommandOutcome(FailureNotice(ev.roomId, EnableAccountFailed, Some(check.error)), links)
        else CommandOutcome([SetEnabled(check.value.Ref(), enable)], links)
      case AddExistingAccount(protocol, name) =>
        var check := AddExistingCheck(purple, protocol, name);
        if check.Err? then CommandOutcome(FailureNotice(ev.roomId, EnableAccountFailed, Some(check.error)), links)
        else CommandOutcome([SendNotice(ev.roomId, LinkedExistingAccount)],
                            WithLink(links, AccountLink(ev.sender, check.value.0.id, check.value.1)))
      case JoinCommand(joinArgs) =>
        var e := JoinCommand(links, joinArgs, ev, purple);
        CommandOutcome(e.actions + FailureNotice(ev.roomId, JoinChatFailed, e.error), links)
      case ShowUsage => CommandOutcome([SendNotice(ev.roomId, Usage)], links)
      case Unrecognized => CommandOutcome([], links)
    }

    /**
     * A command never stores a link twice, so every link it leaves names a
     * distinct Matrix user and remote account pair.
     */
    lemma AdminCommandKeepsLinksDistinct(links: seq<AccountLink>, args: seq<string>, ev: Event, purple: Purple)
      requires DistinctLinks(links)
      ensures DistinctLinks(AdminCommand(links, args, ev, purple).links)
      ensures forall l :: l in links ==> l in AdminCommand(links, args, ev, purple).links
    {
    }

    /**
     * `handleCommand`: one admin-room command, answered in the room. Only
     * the account commands change the store, and only its account links.
     */
    method HandleCommand(args: seq<string>, ev: Event, purple: Purple)
      modifies this`actions, store
      ensures store.rooms == old(store.rooms) && old(actions) <= actions
      ensures var o := AdminCommand(old(store.accounts), args, ev, purple);
              actions == old(actions) + o.actions && store.accounts == o.links
      ensures var c := ParseAdminCommand(args);
              && (c == ListProtocols ==>
                    actions == old(actions) + [SendNotice(ev.roomId, ProtocolList(purple.protocols))])
              && (c == DescribeProtocol ==> actions == old(actions) + [SendNotice(ev.roomId, ProtocolPlaceholder)])
              && (c == ListAccounts ==>
                    actions == old(actions) + [SendNotice(ev.roomId, AccountList(
                      Listings(RemoteUsersForMatrixId(old(store.accounts), ev.sender), purple, ev.sender)))])
              && (c == ShowUsage ==> actions == old(actions) + [SendNotice(ev.roomId, Usage)])
              && (c == Unrecognized ==> actions == old(actions))
              && (!c.AddAccount? && !c.AddExistingAccount? ==> store.accounts == old(store.accounts))
      ensures var c := ParseAdminCommand(args);
              c.AddAccount? ==>
                var check := NewAccountCheck(purple, c.protocol, c.options);
                && (check.Err? ==> store.accounts == old(store.accounts)
                                   && actions == old(actions) + FailureNotice(ev.roomId, AddAccountFailed, Some(check.error)))
                && (check.Ok? ==>
                      && store.accounts == WithLink(old(store.accounts),
                                                    AccountLink(ev.sender, check.value.protocol.id, check.value.username))
                      && actions == old(actions) + [CreateAccount(check.value.username, check.value.protocol.id,
                                                                  check.value.password),
                                                    SendNotice(ev.roomId, CreatedNewAccount)])
      ensures var c := ParseAdminCommand(args);
              c.SetAccountEnabled? ==>
                var check := EnableAccountCheck(purple, c.protocol, c.username, ev.sender);
                && (check.Err? ==> actions == old(actions) + FailureNotice(ev.roomId, EnableAccountFailed, Some(check.error)))
                && (check.Ok? ==> actions == old(actions) + [SetEnabled(check.value.Ref(), c.enable)])
      ensures var c := ParseAdminCommand(args);
              c.AddExistingAccount? ==>
                var check := AddExistingCheck(purple, c.protocol, c.name);
                && (check.Err? ==> store.accounts == old(store.accounts)
                                   && actions == old(actions) + FailureNotice(ev.roomId, EnableAccountFailed, Some(check.error)))
                && (check.Ok? ==>
                      && store.accounts == WithLink(old(store.accounts), AccountLink(ev.sender, check.value.0.id, check.value.1))
                      && actions == old(actions) + [SendNotice(ev.roomId, LinkedExistingAccount)])
      ensures var c := ParseAdminCommand(args);
              c.JoinCommand? ==>
                var e := JoinCommand(old(store.accounts), c.args, ev, purple);
                actions == old(actions) + e.actions + FailureNotice(ev.roomId, JoinChatFailed, e.error)
    {
      var c := ParseAdminCommand(args);
      match c
      case ListProtocols =>
        actions := actions + [SendNotice(ev.roomId, ProtocolList(purple.protocols))];
      case DescribeProtocol =>
        actions := actions + [SendNotice(ev.roomId, ProtocolPlaceholder)];
      case ListAccounts =>
        var links := RemoteUsersForMatrixId(store.accounts, ev.sender);
        actions := actions + [SendNotice(ev.roomId, AccountList(Listings(links, purple, ev.sender)))];
      case AddAccount(protocol, options) =>
        var check := NewAccountCheck(purple, protocol, options);
        if check.Err? {
          actions := actions + FailureNotice(ev.roomId, AddAccountFailed, Some(check.error));
        } else {
          var req := check.value;
          actions := actions + [CreateAccount(req.username, req.protocol.id, req.password)];
          store.StoreAccount(ev.sender, req.protocol.id, req.username);
          actions := actions + [SendNotice(ev.roomId, CreatedNewAccount)];
        }
      case SetAccountEnabled(protocol, username, enable) =>
        var check := EnableAccountCheck(purple, protocol, username, ev.sender);
        if check.Err? {
          actions := actions + FailureNotice(ev.roomId, EnableAccountFailed, Some(check.error));
        } else {
          actions := actions + [SetEnabled(check.value.Ref(), enable)];
        }
      case AddExistingAccount(protocol, name) =>
        var check := AddExistingCheck(purple, protocol, name);
        if check.Err? {
          actions := actions + FailureNotice(ev.roomId, EnableAccountFailed, Some(check.error));
        } else {
          store.StoreAccount(ev.sender, check.value.0.id, check.value.1);
          actions := actions + [SendNotice(ev.roomId, LinkedExistingAccount)];
        }
      case JoinCommand(joinArgs) =>
        var err := HandleJoin(joinArgs, ev, purple);
        ghost var e := JoinCommand(old(store.accounts), joinArgs, ev, purple);
        AppendAssoc(old(actions), e.actions, FailureNotice(ev.roomId, JoinChatFailed, err));
        actions := actions + FailureNotice(ev.roomId, JoinChatFailed, err);
      case ShowUsage =>
        actions := actions + [SendNotice(ev.roomId, Usage)];
      case Unrecognized =>
    }

    // ---------------------------------------------------------- plumbing

    /** What the member sync does for one joined member of a freshly plumbed room. */
    function MemberSync(links: seq<AccountLink>, userId: UserId, cmdArgs: seq<string>, protocolId: string,
                        purple: Purple, roomId: RoomId): seq<Action>
    {
      if userId == botUserId then []
      else
        var r := Resolve(links, userId, protocolId, purple);
        Registered(r, protocolId, userId)
        + (if r.Err? then []
           else match JoinParameters(r.value.acct.protocol.chatParams, cmdArgs)
                case ParamSet(props) => [JoinChat(r.value.acct.Ref(), hooks.addJoinProps(protocolId, props, userId))]
                case Help(required, optional) => [SendNotice(roomId, JoinHelp(required, optional))]
                case Failed(_) => [])
    }

    function SyncEffects(links: seq<AccountLink>, memberIds: seq<UserId>, cmdArgs: seq<string>, protocolId: string,
                         purple: Purple, roomId: RoomId): seq<Action>
    {
      if memberIds == [] then []
      else SyncEffects(links, memberIds[..|memberIds| - 1], cmdArgs, protocolId, purple, roomId)
           + MemberSync(links, memberIds[|memberIds| - 1], cmdArgs, protocolId, purple, roomId)
    }

    /** One member's part of the sync registers nobody but that member, and nothing for the bot. */
    lemma MemberSyncRegistersOnlyMember(links: seq<AccountLink>, userId: UserId, cmdArgs: seq<string>,
                                        protocolId: string, purple: Purple, roomId: RoomId)
      ensures userId == botUserId ==> MemberSync(links, userId, cmdArgs, protocolId, purple, roomId) == []
      ensures forall a :: a in MemberSync(links, userId, cmdArgs, protocolId, purple, roomId) && a.AutoRegister? ==>
                a.user == userId
    {
    }

    /** The member sync never registers an account for the bridge bot. */
    lemma {:induction false} SyncSkipsBot(links: seq<AccountLink>, memberIds: seq<UserId>, cmdArgs: seq<string>,
                                          protocolId: string, purple: Purple, roomId: RoomId)
      ensures forall a :: a in SyncEffects(links, memberIds, cmdArgs, protocolId, purple, roomId) ==>
                !(a.AutoRegister? && a.user == botUserId)
    {
      if memberIds != [] {
        var init := memberIds[..|memberIds| - 1];
        SyncSkipsBot(links, init, cmdArgs, protocolId, purple, roomId);
        MemberSyncRegistersOnlyMember(links, memberIds[|memberIds| - 1], cmdArgs, protocolId, purple, roomId);
      }
    }

    /** Every join of the member sync is the join of one of the room's members other than the bot. */
    lemma {:induction false} SyncJoinsComeFromMembers(links: seq<AccountLink>, memberIds: seq<UserId>,
                                                      cmdArgs: seq<string>, protocolId: string, purple: Purple,
                                                      roomId: RoomId)
      ensures forall a :: a in SyncEffects(links, memberIds, cmdArgs, protocolId, purple, roomId) && a.JoinChat? ==>
                exists i :: 0 <= i < |memberIds| && memberIds[i] != botUserId
                  && a in MemberSync(links, memberIds[i], cmdArgs, protocolId, purple, roomId)
    {
      if memberIds != [] {
        var init := memberIds[..|memberIds| - 1];
        var last := memberIds[|memberIds| - 1];
        SyncJoinsComeFromMembers(links, init, cmdArgs, protocolId, purple, roomId);
        MemberSyncRegistersOnlyMember(links, last, cmdArgs, protocolId, purple, roomId);
        forall a | a in SyncEffects(links, memberIds, cmdArgs, protocolId, purple, roomId) && a.JoinChat?
          ensures exists i :: 0 <= i < |memberIds| && memberIds[i] != botUserId
                    && a in MemberSync(links, memberIds[i], cmdArgs, protocolId, purple, roomId)
        {
          if a in SyncEffects(links, init, cmdArgs, protocolId, purple, roomId) {
            var i :| 0 <= i < |init| && init[i] != botUserId
                     && a in MemberSync(links, init[i], cmdArgs, protocolId, purple, roomId);
            assert memberIds[i] == init[i];
          } else {
            assert a in MemberSync(links, last, cmdArgs, protocolId, purple, roomId);
          }
        }
      }
    }

    /** The member sync: every joined member but the bot, one at a time; a failing member is skipped. */
    method SyncMembers(memberIds: seq<UserId>, cmdArgs: seq<string>, protocolId: string, purple: Purple, roomId: RoomId)
      modifies this`actions
      ensures actions == old(actions) + SyncEffects(store.accounts, memberIds, cmdArgs, protocolId, purple, roomId)
    {
      var i := 0;
      while i < |memberIds|
        invariant 0 <= i <= |memberIds|
        invariant actions == old(actions) + SyncEffects(store.accounts, memberIds[..i], cmdArgs, protocolId, purple, roomId)
      {
        ghost var upTo := memberIds[..i + 1];
        assert upTo[..|upTo| - 1] == memberIds[..i] && upTo[|upTo| - 1] == memberIds[i];
        ghost var done := SyncEffects(store.accounts, memberIds[..i], cmdArgs, protocolId, purple, roomId);
        AppendAssoc(old(actions), done, MemberSync(store.accounts, memberIds[i], cmdArgs, protocolId, purple, roomId));
        SyncMember(memberIds[i], cmdArgs, protocolId, purple, roomId);
        i := i + 1;
      }
      assert memberIds[..|memberIds|] == memberIds;
    }

    /** One member of the sync: resolve (or register) the member's account, then join it to the chat. */
    method SyncMember(userId: UserId, cmdArgs: seq<string>, protocolId: string, purple: Purple, roomId: RoomId)
      modifies this`actions
      ensures actions == old(actions) + MemberSync(store.accounts, userId, cmdArgs, protocolId, purple, roomId)
    {
      if userId != botUserId {
        var r := ResolveAccount(userId, protocolId, purple);
        if r.Ok? {
          var outcome := RunJoinParameters(r.value.acct.protocol.chatParams, cmdArgs, roomId);
          ghost var tail := match outcome
                            case ParamSet(props) => [JoinChat(r.value.acct.Ref(), hooks.addJoinProps(protocolId, props, userId))]
                            case Help(required, optional) => [SendNotice(roomId, JoinHelp(required, optional))]
                            case Failed(_) => [];
          AppendAssoc(old(actions), Registered(r, protocolId, userId), tail);
          if outcome.ParamSet? {
            actions := actions + [JoinChat(r.value.acct.Ref(), hooks.addJoinProps(protocolId, outcome.props, userId))];
          }
        }
      }
    }

    /** `!purple bridge <protocol> <params…>`. */
    function Bridge(links: seq<AccountLink>, cmdArgs: seq<string>, ev: Event, env: Environment): BridgeResult
    {
      var p := FindProtocol(env.purple, At(cmdArgs, 0));
      if !Truthy(At(cmdArgs, 0)) then BridgeResult([], Some(ProtocolNotSupplied), None)
      else if p.None? then BridgeResult([], Some(ProtocolNotFound), None)
      else
        var r := Resolve(links, ev.sender, p.value.id, env.purple);
        if r.Err? then BridgeResult([], Some(AccountUnavailable(r.error)), None)
        else
          var rest := BridgeAs(links, r.value.acct, p.value.id, cmdArgs, ev, env);
          BridgeResult(Registered(r, p.value.id, ev.sender) + rest.actions, rest.error, rest.stored)
    }

    /** The `bridge` subcommand once the invoker's account is known. */
    function BridgeAs(links: seq<AccountLink>, acct: Account, protocolId: string, cmdArgs: seq<string>, ev: Event,
                      env: Environment): BridgeResult
    {
      match JoinParameters(acct.protocol.chatParams, cmdArgs)
      case Failed(e) => BridgeResult([], Some(BadParameters(e)), None)
      case Help(required, optional) => BridgeResult([SendNotice(ev.roomId, JoinHelp(required, optional))], None, None)
      case ParamSet(ps) =>
        var props := hooks.addJoinProps(protocolId, ps, ev.sender);
        if env.plumbedConversation.None? then BridgeResult([JoinChat(acct.Ref(), props)], Some(JoinFailed), None)
        else
          var entry := PlumbedEntry(acct.protocol.id, env.plumbedConversation.value, hooks.sanitize(props));
          BridgeResult([JoinChat(acct.Ref(), props)]
                       + SyncEffects(links, env.joinedMembers, cmdArgs, protocolId, env.purple, ev.roomId),
                       None, Some(entry))
    }

    /** What a `bridge` subcommand can and cannot end in. */
    lemma BridgeOutcome(links: seq<AccountLink>, cmdArgs: seq<string>, ev: Event, env: Environment)
      ensures var b := Bridge(links, cmdArgs, ev, env);
              && (!Truthy(At(cmdArgs, 0)) ==> b == BridgeResult([], Some(ProtocolNotSupplied), None))
              && (Truthy(At(cmdArgs, 0)) && FindProtocol(env.purple, At(cmdArgs, 0)).None? ==>
                    b == BridgeResult([], Some(ProtocolNotFound), None))
              // a failed bridge stores nothing
              && (b.error.Some? ==> b.stored.None?)
      ensures var b := Bridge(links, cmdArgs, ev, env);
              // a stored portal is a plumbed group room for the chat the join reached ...
              b.stored.Some? ==>
                && env.plumbedConversation.Some?
                && b.stored.value.remote.GroupData?
                && b.stored.value.remote.roomName == env.plumbedConversation.value
                && b.stored.value.remote.plumbed && !b.stored.value.remote.gateway
                && b.stored.value.remoteId == GroupRemoteId(b.stored.value.remote.protocolId, env.plumbedConversation.value)
                // ... and the invoker's account joined that chat
                && var r := Resolve(links, ev.sender, FindProtocol(env.purple, At(cmdArgs, 0)).value.id, env.purple);
                   r.Ok? && exists a :: a in b.actions && a.JoinChat? && a.account == r.value.acct.Ref()
    {
      var b := Bridge(links, cmdArgs, ev, env);
      if b.stored.Some? {
        var p := FindProtocol(env.purple, At(cmdArgs, 0)).value;
        var r := Resolve(links, ev.sender, p.id, env.purple);
        var reg := Registered(r, p.id, ev.sender);
        var rest := BridgeAs(links, r.value.acct, p.id, cmdArgs, ev, env);
        assert rest.actions[0].JoinChat? && rest.actions[0].account == r.value.acct.Ref();
        assert b.actions[|reg|] == rest.actions[0];
      }
    }

    /**
     * `handlePlumbingCommand`: only `!purple` from a member whose power
     * level reaches `requiredUserPL`, and only its `bridge` subcommand; a
     * failed bridge is reported in the room.
     */
    method HandlePlumbingCommand(args: seq<string>, ev: Event, env: Environment)
      modifies this`actions, store
      ensures store.accounts == old(store.accounts) && old(actions) <= actions
      ensures !PlumbingAllowed(args, env.powerLevels, ev.sender, config.requiredUserPL) || At(args, 1) != Some("bridge") ==>
                actions == old(actions) && store.rooms == old(store.rooms)
      ensures PlumbingAllowed(args, env.powerLevels, ev.sender, config.requiredUserPL) && At(args, 1) == Some("bridge") ==>
                var b := Bridge(old(store.accounts), Drop(args, 2), ev, env);
                && actions == old(actions) + b.actions + FailureNotice(ev.roomId, BridgeFailed, b.error)
                && store.rooms == (if b.stored.Some? then old(store.rooms)[ev.roomId := b.stored.value] else old(store.rooms))
    {
      if At(args, 0) != Some(PlumbPrefix) {
        return;
      }
      if PowerLevel(env.powerLevels, ev.sender) < config.requiredUserPL {
        return;
      }
      if At(args, 1) != Some("bridge") {
        return;
      }
      var err := BridgeRoom(Drop(args, 2), ev, env);
      actions := actions + FailureNotice(ev.roomId, BridgeFailed, err);
    }

    /** The `bridge` subcommand: resolve the invoker's account, then bridge with it. */
    method BridgeRoom(cmdArgs: seq<string>, ev: Event, env: Environment) returns (err: Option<CommandError>)
      modifies this`actions, store
      ensures store.accounts == old(store.accounts)
      ensures var b := Bridge(old(store.accounts), cmdArgs, ev, env);
              && err == b.error
              && actions == old(actions) + b.actions
              && store.rooms == (if b.stored.Some? then old(store.rooms)[ev.roomId := b.stored.value] else old(store.rooms))
    {
      if !Truthy(At(cmdArgs, 0)) {
        return Some(ProtocolNotSupplied);
      }
      var protocol := FindProtocol(env.purple, At(cmdArgs, 0));
      if protocol.None? {
        return Some(ProtocolNotFound);
      }
      ghost var links := store.accounts;
      var r := ResolveAccount(ev.sender, protocol.value.id, env.purple);
      if r.Err? {
        return Some(AccountUnavailable(r.error));
      }
      ghost var rest := BridgeAs(links, r.value.acct, protocol.value.id, cmdArgs, ev, env);
      assert Bridge(links, cmdArgs, ev, env)
             == BridgeResult(Registered(r, protocol.value.id, ev.sender) + rest.actions, rest.error, rest.stored);
      ghost var mid := actions;
      assert mid == old(actions) + Registered(r, protocol.value.id, ev.sender);
      err := BridgeWithAccount(r.value.acct, protocol.value.id, cmdArgs, ev, env);
      AppendAssoc(old(actions), Registered(r, protocol.value.id, ev.sender), rest.actions);
    }

    /** Join the chat with the parameters given, store the portal, then sync the room's members. */
    method BridgeWithAccount(acct: Account, protocolId: string, cmdArgs: seq<string>, ev: Event, env: Environment)
      returns (err: Option<CommandError>)
      modifies this`actions, store
      ensures store.accounts == old(store.accounts)
      ensures var b := BridgeAs(old(store.accounts), acct, protocolId, cmdArgs, ev, env);
              && err == b.error
              && actions == old(actions) + b.actions
              && store.rooms == (if b.stored.Some? then old(store.rooms)[ev.roomId := b.stored.value] else old(store.rooms))
    {
      var outcome := RunJoinParameters(acct.protocol.chatParams, cmdArgs, ev.roomId);
      if outcome.Failed? {
        return Some(BadParameters(outcome.error));
      }
      if outcome.Help? {
        return None;
      }
      var props := hooks.addJoinProps(protocolId, outcome.props, ev.sender);
      actions := actions + [JoinChat(acct.Ref(), props)];
      if env.plumbedConversation.None? {
        return Some(JoinFailed);
      }
      ghost var sync := SyncEffects(store.accounts, env.joinedMembers, cmdArgs, protocolId, env.purple, ev.roomId);
      var entry := PlumbedEntry(acct.protocol.id, env.plumbedConversation.value, hooks.sanitize(props));
      ghost var b := BridgeAs(store.accounts, acct, protocolId, cmdArgs, ev, env);
      assert b == BridgeResult([JoinChat(acct.Ref(), props)] + sync, None, Some(entry));
      ghost var joined := actions;
      assert joined == old(actions) + [JoinChat(acct.Ref(), props)];
      StoreAndSync(entry, cmdArgs, protocolId, ev, env);
      AppendAssoc(old(actions), [JoinChat(acct.Ref(), props)], sync);
      return None;
    }

    /** Store the plumbed portal, then join the room's members to its chat. */
    method StoreAndSync(entry: RoomEntry, cmdArgs: seq<string>, protocolId: string, ev: Event, env: Environment)
      modifies this`actions, store
      ensures store.rooms == old(store.rooms)[ev.roomId := entry] && store.accounts == old(store.accounts)
      ensures actions == old(actions)
                         + SyncEffects(store.accounts, env.joinedMembers, cmdArgs, protocolId, env.purple, ev.roomId)
    {
      store.StoreRoom(ev.roomId, entry);
      SyncMembers(env.joinedMembers, cmdArgs, protocolId, env.purple, ev.roomId);
    }

    // ------------------------------------------------------- group rooms

    /** What relaying one message of a group room adds to the log and the listeners. */
    function GroupMessageEffect(links: seq<AccountLink>, remote: RemoteData, ev: Event, purple: Purple): Appended
      requires remote.GroupData?
    {
      if remote.gateway then Appended([GatewayMessage(remote.roomName, ev.sender, ev.body)], [])
      else
        var r := Resolve(links, ev.sender, remote.protocolId, purple);
        if r.Err? then Appended([], [])
        else
          var acct := r.value.acct;
          var send := ChatSend(remote.protocolId, acct, remote.roomName, ev.body, purple.needsDedupe);
          var reg := Registered(r, remote.protocolId, ev.sender);
          if remote.roomName in acct.joinedRooms then Appended(reg + send, [])
          else
            var props := hooks.addJoinProps(acct.protocol.id, hooks.desanitize(PropsOrEmpty(remote.properties)), ev.sender);
            var d := Deferred(acct, remote.roomName, props, send);
            Appended(reg + d.actions, d.waiters)
    }

    /** What relaying a join or a leave of a group room adds to the log and the listeners. */
    function JoinLeaveEffect(links: seq<AccountLink>, remote: RemoteData, ev: Event, purple: Purple): Appended
      requires remote.GroupData?
      requires ev.membership == Some("join") || ev.membership == Some("leave")
    {
      if remote.gateway then Appended([GatewayMembership(remote.roomName, ev.sender, ev.membership.value)], [])
      else
        var r := Resolve(links, ev.sender, remote.protocolId, purple);
        var props := hooks.desanitize(PropsOrEmpty(remote.properties));
        if r.Err? then Appended(if ev.membership == Some("join") then [Kick(ev.roomId, ev.sender)] else [], [])
        else
          var acct := r.value.acct;
          var reg := Registered(r, remote.protocolId, ev.sender);
          if ev.membership == Some("join") then
            var d := Deferred(acct, remote.roomName, hooks.addJoinProps(acct.protocol.id, props, ev.sender), []);
            Appended(reg + d.actions, d.waiters)
          else
            Appended(reg + [RejectChat(acct.Ref(), props), RemoveChosenOne(remote.roomName, acct.Ref()),
                            DecrementRoomUsers(remote.roomName)], [])
    }

    /**
     * `handleGroupMessage`: a gateway room hands the message to the
     * gateway. Otherwise the sender's account joins the chat first when it
     * is not in it yet (now, or once the account signs on), and only then
     * is the message fingerprinted and sent.
     */
    method HandleGroupMessage(remote: RemoteData, ev: Event, purple: Purple)
      requires remote.GroupData?
      modifies this`actions, this`listeners
      ensures old(actions) <= actions && old(listeners) <= listeners
      ensures var a := GroupMessageEffect(store.accounts, remote, ev, purple);
              actions == old(actions) + a.actions && listeners == old(listeners) + a.waiters
      ensures remote.gateway ==>
                listeners == old(listeners) && actions == old(actions) + [GatewayMessage(remote.roomName, ev.sender, ev.body)]
      ensures !remote.gateway ==>
                var r := Resolve(store.accounts, ev.sender, remote.protocolId, purple);
                && (r.Err? ==> listeners == old(listeners) && actions == old(actions))
                && (r.Ok? ==>
                      var acct := r.value.acct;
                      var send := ChatSend(remote.protocolId, acct, remote.roomName, ev.body, purple.needsDedupe);
                      var props := hooks.addJoinProps(acct.protocol.id, hooks.desanitize(PropsOrEmpty(remote.properties)),
                                                      ev.sender);
                      var before := old(actions) + Registered(r, remote.protocolId, ev.sender);
                      && (remote.roomName in acct.joinedRooms ==>
                            listeners == old(listeners) && actions == before + send)
                      && (remote.roomName !in acct.joinedRooms && acct.connected ==>
                            listeners == old(listeners) && actions == before + JoinActions(acct.Ref(), remote.roomName, props, send))
                      && (remote.roomName !in acct.joinedRooms && !acct.connected ==>
                            listeners == old(listeners) + [Waiter(acct.Ref(), remote.roomName, props, send)]
                            && actions == before))
    {
      if remote.gateway {
        actions := actions + [GatewayMessage(remote.roomName, ev.sender, ev.body)];
        return;
      }
      var r := ResolveAccount(ev.sender, remote.protocolId, purple);
      if r.Err? {
        return;
      }
      var acct := r.value.acct;
      var send := ChatSend(remote.protocolId, acct, remote.roomName, ev.body, purple.needsDedupe);
      ghost var reg := Registered(r, remote.protocolId, ev.sender);
      if remote.roomName !in acct.joinedRooms {
        var props := hooks.addJoinProps(acct.protocol.id, hooks.desanitize(PropsOrEmpty(remote.properties)), ev.sender);
        AppendAssoc(old(actions), reg, Deferred(acct, remote.roomName, props, send).actions);
        JoinOrDefer(acct, remote.roomName, props, send);
      } else {
        AppendAssoc(old(actions), reg, send);
        actions := actions + send;
      }
    }

    /**
     * `handleJoinLeaveGroup`: a Matrix user joining a bridged chat joins it
     * with their account, or is kicked when they have none; leaving leaves.
     */
    method HandleJoinLeaveGroup(remote: RemoteData, ev: Event, purple: Purple)
      requires remote.GroupData?
      requires ev.membership == Some("join") || ev.membership == Some("leave")
      modifies this`actions, this`listeners
      ensures old(actions) <= actions && old(listeners) <= listeners
      ensures var a := JoinLeaveEffect(store.accounts, remote, ev, purple);
              actions == old(actions) + a.actions && listeners == old(listeners) + a.waiters
      ensures remote.gateway ==>
                listeners == old(listeners)
                && actions == old(actions) + [GatewayMembership(remote.roomName, ev.sender, ev.membership.value)]
      ensures !remote.gateway ==>
                var r := Resolve(store.accounts, ev.sender, remote.protocolId, purple);
                var props := hooks.desanitize(PropsOrEmpty(remote.properties));
                && (r.Err? ==> listeners == old(listeners)
                               && actions == old(actions) + (if ev.membership == Some("join") then [Kick(ev.roomId, ev.sender)] else []))
                && (r.Ok? && ev.membership == Some("join") ==>
                      var acct := r.value.acct;
                      var joinProps := hooks.addJoinProps(acct.protocol.id, props, ev.sender);
                      var before := old(actions) + Registered(r, remote.protocolId, ev.sender);
                      && (acct.connected ==> listeners == old(listeners)
                                             && actions == before + JoinActions(acct.Ref(), remote.roomName, joinProps, []))
                      && (!acct.connected ==> listeners == old(listeners) + [Waiter(acct.Ref(), remote.roomName, joinProps, [])]
                                              && actions == before))
                && (r.Ok? && ev.membership == Some("leave") ==>
                      var ref := r.value.acct.Ref();
                      listeners == old(listeners)
                      && actions == old(actions) + Registered(r, remote.protocolId, ev.sender)
                                    + [RejectChat(ref, props), RemoveChosenOne(remote.roomName, ref),
                                       DecrementRoomUsers(remote.roomName)])
    {
      if remote.gateway {
        actions := actions + [GatewayMembership(remote.roomName, ev.sender, ev.membership.value)];
        return;
      }
      var r := ResolveAccount(ev.sender, remote.protocolId, purple);
      if r.Err? {
        if ev.membership == Some("join") {
          actions := actions + [Kick(ev.roomId, ev.sender)];
        }
        return;
      }
      var acct := r.value.acct;
      var props := hooks.desanitize(PropsOrEmpty(remote.properties));
      if ev.membership == Some("join") {
        JoinOrDefer(acct, remote.roomName, hooks.addJoinProps(acct.protocol.id, props, ev.sender), []);
      } else {
        actions := actions + [RejectChat(acct.Ref(), props), RemoveChosenOne(remote.roomName, acct.Ref()),
                              DecrementRoomUsers(remote.roomName)];
      }
    }

    /** `handleStateEv`: only gateway rooms pass state events on. */
    method HandleStateEvent(remote: RemoteData, ev: Event)
      requires remote.GroupData?
      modifies this`actions
      ensures actions == old(actions) + (if remote.gateway then [GatewayStateEvent(remote.roomName, ev.sender)] else [])
    {
      if remote.gateway {
        actions := actions + [GatewayStateEvent(remote.roomName, ev.sender)];
      }
    }

    // ------------------------------------------------------------ routing

    /**
     * What one handler call of `onEvent` does, from the store's rooms and
     * links before it; `ctx` is the entry of the event's room as it was
     * when the event arrived.
     */
    function StepEffect(s: Step, ev: Event, env: Environment, ctx: Option<RoomEntry>,
                        rooms: map<RoomId, RoomEntry>, links: seq<AccountLink>): Effect
    {
      match s
      case NoteJoinPending => Effect([WaitForJoinResolve(ev.roomId, ev.sender)], [], rooms, links)
      case InviteForBot =>
        var o := ClassifyBotInvite(env.joinedMembers, config.enablePlumbing);
        Effect([BotJoin(ev.roomId)] + (if o == LeaveForPlumbing then [BotLeave(ev.roomId)] else []), [],
               if o == BecomeAdminRoom then rooms[ev.roomId := AdminEntry(ev.sender)] else rooms, links)
      case DirectInvite =>
        if ev.stateKey.None? then Effect([], [], rooms, links)
        else
          var entry := DirectInviteEntry(hooks, ev);
          Effect([GhostJoin(ev.stateKey.value, ev.roomId)] + Replay(links, entry.remote, env.missedMessages, env.purple),
                 [], rooms[ev.roomId := entry], links)
      case Plumb(args) =>
        if PlumbingAllowed(args, env.powerLevels, ev.sender, config.requiredUserPL) && At(args, 1) == Some("bridge") then
          var b := Bridge(links, Drop(args, 2), ev, env);
          Effect(b.actions + FailureNotice(ev.roomId, BridgeFailed, b.error), [],
                 if b.stored.Some? then rooms[ev.roomId := b.stored.value] else rooms, links)
        else Effect([], [], rooms, links)
      case Admin(args) =>
        var o := AdminCommand(links, args, ev, env.purple);
        Effect(o.actions, [], rooms, o.links)
      case AdminLeave => Effect([BotLeave(ev.roomId)], [], rooms - {ev.roomId}, links)
      case JoinLeaveGroup =>
        if ctx.Some? && ctx.value.remote.GroupData? && (ev.membership == Some("join") || ev.membership == Some("leave")) then
          var a := JoinLeaveEffect(links, ctx.value.remote, ev, env.purple);
          Effect(a.actions, a.waiters, rooms, links)
        else Effect([], [], rooms, links)
      case GroupStateEvent =>
        if ctx.Some? && ctx.value.remote.GroupData? && ctx.value.remote.gateway then
          Effect([GatewayStateEvent(ctx.value.remote.roomName, ev.sender)], [], rooms, links)
        else Effect([], [], rooms, links)
      case ImMessage =>
        if ctx.Some? && ctx.value.remote.DirectData? then
          Effect(ImMessageEffects(links, ctx.value.remote, ev, env.purple), [], rooms, links)
        else Effect([], [], rooms, links)
      case GroupMessage =>
        if ctx.Some? && ctx.value.remote.GroupData? then
          var a := GroupMessageEffect(links, ctx.value.remote, ev, env.purple);
          Effect(a.actions, a.waiters, rooms, links)
        else Effect([], [], rooms, links)
    }

    /** The handler calls `steps` made one after the other, each on the store the previous ones left. */
    function Effects(steps: seq<Step>, ev: Event, env: Environment, ctx: Option<RoomEntry>,
                     rooms: map<RoomId, RoomEntry>, links: seq<AccountLink>): Effect
    {
      if steps == [] then Effect([], [], rooms, links)
      else
        var before := Effects(steps[..|steps| - 1], ev, env, ctx, rooms, links);
        var last := StepEffect(steps[|steps| - 1], ev, env, ctx, before.rooms, before.links);
        Effect(before.actions + last.actions, before.waiters + last.waiters, last.rooms, last.links)
    }

    /** The handler's current `State`. */
    function Now(): State
      reads this, store
    {
      State(actions, listeners, store.rooms, store.accounts)
    }

    /** Going from `before` to `after` is exactly what the handler calls `steps` do. */
    predicate Ran(steps: seq<Step>, ev: Event, env: Environment, ctx: Option<RoomEntry>, before: State, after: State) {
      var e := Effects(steps, ev, env, ctx, before.rooms, before.links);
      && after.actions == before.actions + e.actions && after.listeners == before.listeners + e.waiters
      && after.rooms == e.rooms && after.links == e.links
    }

    /** Two runs of handler calls, one after the other, are one run of both records. */
    lemma RanThen(a: seq<Step>, b: seq<Step>, ev: Event, env: Environment, ctx: Option<RoomEntry>,
                  s0: State, s1: State, s2: State)
      requires Ran(a, ev, env, ctx, s0, s1) && Ran(b, ev, env, ctx, s1, s2)
      ensures Ran(a + b, ev, env, ctx, s0, s2)
    {
      EffectsAppend(a, b, ev, env, ctx, s0.rooms, s0.links);
      var first := Effects(a, ev, env, ctx, s0.rooms, s0.links);
      var second := Effects(b, ev, env, ctx, s1.rooms, s1.links);
      AppendAssoc(s0.actions, first.actions, second.actions);
      AppendAssoc(s0.listeners, first.waiters, second.waiters);
    }

    /**
     * A run only appends to the log and the listeners; a run of bridged-room
     * handlers leaves the store as it was, and an empty run changes nothing.
     */
    lemma RanFacts(steps: seq<Step>, ev: Event, env: Environment, ctx: Option<RoomEntry>, before: State, after: State)
      requires Ran(steps, ev, env, ctx, before, after)
      ensures before.actions <= after.actions && before.listeners <= after.listeners
      ensures (forall s :: s in steps ==> BridgedRoomStep(s)) ==> after.rooms == before.rooms && after.links == before.links
      ensures steps == [] ==> after == before
    {
      if forall s :: s in steps ==> BridgedRoomStep(s) {
        BridgedStepsKeepStore(steps, ev, env, ctx, before.rooms, before.links);
      }
    }

    lemma OneStep(s: Step, ev: Event, env: Environment, ctx: Option<RoomEntry>,
                  rooms: map<RoomId, RoomEntry>, links: seq<AccountLink>)
      ensures Effects([s], ev, env, ctx, rooms, links) == StepEffect(s, ev, env, ctx, rooms, links)
    {
      assert [s][..0] == [];
    }

    /** Running `a` and then `b` has the effect of running `a + b`. */
    lemma {:induction false} EffectsAppend(a: seq<Step>, b: seq<Step>, ev: Event, env: Environment,
                                           ctx: Option<RoomEntry>, rooms: map<RoomId, RoomEntry>,
                                           links: seq<AccountLink>)
      ensures var first := Effects(a, ev, env, ctx, rooms, links);
              var second := Effects(b, ev, env, ctx, first.rooms, first.links);
              Effects(a + b, ev, env, ctx, rooms, links)
              == Effect(first.actions + second.actions, first.waiters + second.waiters, second.rooms, second.links)
      decreases |b|
    {
      var first := Effects(a, ev, env, ctx, rooms, links);
      if b == [] {
        assert a + b == a;
      } else {
        var init := b[..|b| - 1];
        EffectsAppend(a, init, ev, env, ctx, rooms, links);
        assert (a + b)[..|a + b| - 1] == a + init;
        assert (a + b)[|a + b| - 1] == b[|b| - 1];
        var mid := Effects(init, ev, env, ctx, first.rooms, first.links);
        var last := StepEffect(b[|b| - 1], ev, env, ctx, mid.rooms, mid.links);
        AppendAssoc(first.actions, mid.actions, last.actions);
        AppendAssoc(first.waiters, mid.waiters, last.waiters);
      }
    }

    lemma InviteForBotEffect(ev: Event, env: Environment, ctx: Option<RoomEntry>,
                             rooms: map<RoomId, RoomEntry>, links: seq<AccountLink>)
      ensures var o := ClassifyBotInvite(env.joinedMembers, config.enablePlumbing);
              Effects([InviteForBot], ev, env, ctx, rooms, links)
              == Effect([BotJoin(ev.roomId)] + (if o == LeaveForPlumbing then [BotLeave(ev.roomId)] else []), [],
                        if o == BecomeAdminRoom then rooms[ev.roomId := AdminEntry(ev.sender)] else rooms, links)
    {
      OneStep(InviteForBot, ev, env, ctx, rooms, links);
    }

    lemma DirectInviteEffect(ev: Event, env: Environment, ctx: Option<RoomEntry>,
                             rooms: map<RoomId, RoomEntry>, links: seq<AccountLink>)
      requires ev.stateKey.Some?
      ensures var entry := DirectInviteEntry(hooks, ev);
              Effects([DirectInvite], ev, env, ctx, rooms, links)
              == Effect([GhostJoin(ev.stateKey.value, ev.roomId)] + Replay(links, entry.remote, env.missedMessages, env.purple),
                        [], rooms[ev.roomId := entry], links)
    {
      OneStep(DirectInvite, ev, env, ctx, rooms, links);
    }

    lemma PlumbEffect(args: seq<string>, ev: Event, env: Environment, ctx: Option<RoomEntry>,
                      rooms: map<RoomId, RoomEntry>, links: seq<AccountLink>)
      ensures Effects([Plumb(args)], ev, env, ctx, rooms, links)
              == if PlumbingAllowed(args, env.powerLevels, ev.sender, config.requiredUserPL) && At(args, 1) == Some("bridge")
                 then var b := Bridge(links, Drop(args, 2), ev, env);
                      Effect(b.actions + FailureNotice(ev.roomId, BridgeFailed, b.error), [],
                             if b.stored.Some? then rooms[ev.roomId := b.stored.value] else rooms, links)
                 else Effect([], [], rooms, links)
    {
      OneStep(Plumb(args), ev, env, ctx, rooms, links);
    }

    lemma AdminEffect(args: seq<string>, ev: Event, env: Environment, ctx: Option<RoomEntry>,
                      rooms: map<RoomId, RoomEntry>, links: seq<AccountLink>)
      ensures var o := AdminCommand(links, args, ev, env.purple);
              Effects([Admin(args)], ev, env, ctx, rooms, links) == Effect(o.actions, [], rooms, o.links)
    {
      OneStep(Admin(args), ev, env, ctx, rooms, links);
    }

    lemma LeaveEffect(ev: Event, env: Environment, ctx: Option<RoomEntry>,
                      rooms: map<RoomId, RoomEntry>, links: seq<AccountLink>)
      ensures Effects([AdminLeave], ev, env, ctx, rooms, links) == Effect([BotLeave(ev.roomId)], [], rooms - {ev.roomId}, links)
    {
      OneStep(AdminLeave, ev, env, ctx, rooms, links);
    }

    /** The handlers of stored IM and group rooms change neither the rooms nor the account links. */
    lemma {:induction false} BridgedStepsKeepStore(steps: seq<Step>, ev: Event, env: Environment,
                                                   ctx: Option<RoomEntry>, rooms: map<RoomId, RoomEntry>,
                                                   links: seq<AccountLink>)
      requires forall s :: s in steps ==> BridgedRoomStep(s)
      ensures Effects(steps, ev, env, ctx, rooms, links).rooms == rooms
      ensures Effects(steps, ev, env, ctx, rooms, links).links == links
    {
      if steps != [] {
        var init := steps[..|steps| - 1];
        assert forall s :: s in init ==> s in steps;
        BridgedStepsKeepStore(init, ev, env, ctx, rooms, links);
        assert BridgedRoomStep(steps[|steps| - 1]);
      }
    }

    /**
     * `onEvent`. The ghost `calls` lists the handler calls in the order
     * they are made, each added where its handler runs; it is the routing
     * `Dispatch` prescribes for the event and the stored type of its room,
     * read once before any handler runs, and the new log, listeners and
     * store are what those calls do.
     */
    method OnEvent(ev: Event, env: Environment) returns (ghost calls: seq<Step>)
      modifies this`actions, this`listeners, store
      ensures calls == Dispatch(ev, RoomTypeOf(old(store.rooms), ev.roomId), botUserId, hooks.isRemoteUser,
                                config.enablePlumbing)
      ensures Ran(calls, ev, env, EntryFor(old(store.rooms), ev.roomId), old(Now()), Now())
      ensures old(actions) <= actions && old(listeners) <= listeners
      ensures (forall s :: s in calls ==> BridgedRoomStep(s)) ==>
                store.rooms == old(store.rooms) && store.accounts == old(store.accounts)
      ensures calls == [] ==> actions == old(actions) && listeners == old(listeners)
    {
      var ctx := EntryFor(store.rooms, ev.roomId);
      var roomType := RoomTypeOf(store.rooms, ev.roomId);
      ghost var start := Now();
      calls := NoteJoin(ev, env, ctx);
      ghost var joined := Now();
      ghost var invited := InviteStage(ev, env, roomType, ctx);
      RanThen(calls, invited, ev, env, ctx, start, joined, Now());
      calls := calls + invited;
      ghost var afterInvites := Now();
      ghost var handled := RoomStage(ev, env, roomType, ctx);
      RanThen(calls, handled, ev, env, ctx, start, afterInvites, Now());
      calls := calls + handled;
      RanFacts(calls, ev, env, ctx, start, Now());
    }

    /** A join is first noted with the deduplicator, whatever room it is in. */
    method NoteJoin(ev: Event, env: Environment, ctx: Option<RoomEntry>) returns (ghost calls: seq<Step>)
      modifies this`actions
      ensures calls == if IsMembership(ev, "join") then [NoteJoinPending] else []
      ensures Ran(calls, ev, env, ctx, old(Now()), Now())
    {
      calls := [];
      if IsMembership(ev, "join") {
        OneStep(NoteJoinPending, ev, env, ctx, store.rooms, store.accounts);
        actions := actions + [WaitForJoinResolve(ev.roomId, ev.sender)];
        calls := [NoteJoinPending];
      }
    }

    /** The invite handling of `onEvent`, for rooms the store does not know. */
    method InviteStage(ev: Event, env: Environment, roomType: Option<RoomType>, ctx: Option<RoomEntry>)
      returns (ghost calls: seq<Step>)
      modifies this`actions, store
      ensures calls == InviteSteps(ev, roomType, botUserId, hooks.isRemoteUser)
      ensures Ran(calls, ev, env, ctx, old(Now()), Now())
    {
      calls := [];
      if roomType.None? && IsMembership(ev, "invite") {
        if ev.stateKey == Some(botUserId) {
          calls := BotInviteCall(ev, env, ctx);
        } else if ev.isDirect && ev.stateKey.Some? && hooks.isRemoteUser(ev.stateKey.value) {
          calls := DirectInviteCall(ev, env, ctx);
        }
      }
    }

    method BotInviteCall(ev: Event, env: Environment, ctx: Option<RoomEntry>) returns (ghost calls: seq<Step>)
      modifies this`actions, store
      ensures calls == [InviteForBot]
      ensures Ran(calls, ev, env, ctx, old(Now()), Now())
    {
      InviteForBotEffect(ev, env, ctx, store.rooms, store.accounts);
      HandleInviteForBot(ev, env.joinedMembers);
      calls := [InviteForBot];
    }

    method DirectInviteCall(ev: Event, env: Environment, ctx: Option<RoomEntry>) returns (ghost calls: seq<Step>)
      requires ev.stateKey.Some?
      modifies this`actions, store
      ensures calls == [DirectInvite]
      ensures Ran(calls, ev, env, ctx, old(Now()), Now())
    {
      DirectInviteEffect(ev, env, ctx, store.rooms, store.accounts);
      ghost var links := store.accounts;
      HandleDirectInvite(ev, env.purple, env.missedMessages);
      calls := [DirectInvite];
      assert store.accounts == links && listeners == old(listeners) + [];
    }

    /** The rest of `onEvent`: plumbing, admin rooms, then the handlers of bridged rooms. */
    method RoomStage(ev: Event, env: Environment, roomType: Option<RoomType>, ctx: Option<RoomEntry>)
      returns (ghost calls: seq<Step>)
      requires roomType.Some? ==> ctx.Some? && ctx.value.remote.Type() == roomType.value
      modifies this`actions, this`listeners, store
      ensures calls == RoomSteps(ev, roomType, hooks.isRemoteUser, config.enablePlumbing)
      ensures Ran(calls, ev, env, ctx, old(Now()), Now())
    {
      calls := [];
      if IsPlumbingCommand(ev) {
        if config.enablePlumbing {
          calls := PlumbCall(Split(ev.body, ' '), ev, env, ctx);
          assert !BridgedRoomStep(calls[0]);
        }
        return;
      }
      if roomType == Some(UAdmin) {
        calls := AdminStage(ev, env, ctx);
        assert calls != [] ==> calls[0] in calls;
        return;
      }
      if roomType.None? {
        return;
      }
      if ev.eventType == MemberEvent && roomType == Some(Group) && hooks.isRemoteUser(ev.sender) {
        return;
      }
      calls := BridgedStage(ev, env, roomType.value, ctx);
    }

    /** The plumbing command, recorded as the one handler call it is. */
    method PlumbCall(args: seq<string>, ev: Event, env: Environment, ctx: Option<RoomEntry>) returns (ghost calls: seq<Step>)
      modifies this`actions, store
      ensures calls == [Plumb(args)]
      ensures Ran(calls, ev, env, ctx, old(Now()), Now())
    {
      PlumbEffect(args, ev, env, ctx, store.rooms, store.accounts);
      HandlePlumbingCommand(args, ev, env);
      calls := [Plumb(args)];
    }

    /** An admin room: a text message is a command, the owner leaving makes the bot leave and forget the room. */
    method AdminStage(ev: Event, env: Environment, ctx: Option<RoomEntry>) returns (ghost calls: seq<Step>)
      modifies this`actions, store
      ensures calls == AdminSteps(ev)
      ensures Ran(calls, ev, env, ctx, old(Now()), Now())
      ensures IsTextMessage(ev) ==>
                var o := AdminCommand(old(store.accounts), Split(Trim(ev.body), ' '), ev, env.purple);
                && store.rooms == old(store.rooms)
                && actions == old(actions) + o.actions && store.accounts == o.links
      ensures !IsTextMessage(ev) && ev.membership == Some("leave") ==>
                && store.rooms == old(store.rooms) - {ev.roomId}
                && store.accounts == old(store.accounts)
                && actions == old(actions) + [BotLeave(ev.roomId)]
    {
      calls := [];
      if IsTextMessage(ev) {
        var args := Split(Trim(ev.body), ' ');
        AdminEffect(args, ev, env, ctx, store.rooms, store.accounts);
        HandleCommand(args, ev, env.purple);
        calls := [Admin(args)];
      } else if ev.membership == Some("leave") {
        LeaveEffect(ev, env, ctx, store.rooms, store.accounts);
        store.RemoveRoomByRoomId(ev.roomId);
        actions := actions + [BotLeave(ev.roomId)];
        calls := [AdminLeave];
      }
    }

    /**
     * What the handlers of a stored IM or group room add to the log and the
     * listeners: the join or leave, then the state event, then the message.
     */
    function BridgedEffects(links: seq<AccountLink>, remote: RemoteData, ev: Event, purple: Purple): Appended
      requires !remote.AdminRoomData?
    {
      var member :=
        if ev.eventType == MemberEvent && remote.GroupData? && (ev.membership == Some("join") || ev.membership == Some("leave"))
        then JoinLeaveEffect(links, remote, ev, purple) else Appended([], []);
      var state :=
        if remote.GroupData? && ev.stateKey.Some? && remote.gateway then [GatewayStateEvent(remote.roomName, ev.sender)]
        else [];
      var message :=
        if ev.eventType != MessageEvent then Appended([], [])
        else if remote.DirectData? then Appended(ImMessageEffects(links, remote, ev, purple), [])
        else GroupMessageEffect(links, remote, ev, purple);
      Appended(member.actions + state + message.actions, member.waiters + message.waiters)
    }

    /** The handlers of a stored IM or group room, in the order `onEvent` tries them. */
    method BridgedStage(ev: Event, env: Environment, roomType: RoomType, ctx: Option<RoomEntry>)
      returns (ghost calls: seq<Step>)
      requires ctx.Some? && roomType != UAdmin && ctx.value.remote.Type() == roomType
      modifies this`actions, this`listeners
      ensures calls == BridgedSteps(ev, roomType)
      ensures var a := BridgedEffects(store.accounts, ctx.value.remote, ev, env.purple);
              actions == old(actions) + a.actions && listeners == old(listeners) + a.waiters
      ensures Ran(calls, ev, env, ctx, old(Now()), Now())
    {
      var remote := ctx.value.remote;
      calls := MemberCall(ev, env.purple, remote);
      ghost var afterMember := actions;
      ghost var stateCalls := StateCall(ev, remote);
      calls := calls + stateCalls;
      ghost var afterState := actions;
      ghost var waiting := listeners;
      ghost var messageCalls := MessageCall(ev, env.purple, remote);
      calls := calls + messageCalls;
      ChainBridged(old(actions), afterMember, afterState, actions, old(listeners), waiting, listeners,
                   store.accounts, remote, ev, env.purple);
      BridgedRan(ev, env, ctx, old(Now()), Now());
    }

    /** The membership handler of a stored group room. */
    method MemberCall(ev: Event, purple: Purple, remote: RemoteData) returns (ghost calls: seq<Step>)
      requires !remote.AdminRoomData?
      modifies this`actions, this`listeners
      ensures calls == if ev.eventType == MemberEvent && remote.GroupData? && (ev.membership == Some("join") || ev.membership == Some("leave"))
                       then [JoinLeaveGroup] else []
      ensures var member :=
                if ev.eventType == MemberEvent && remote.GroupData? && (ev.membership == Some("join") || ev.membership == Some("leave"))
                then JoinLeaveEffect(store.accounts, remote, ev, purple) else Appended([], []);
              actions == old(actions) + member.actions && listeners == old(listeners) + member.waiters
    {
      calls := [];
      if ev.eventType == MemberEvent && remote.GroupData? && (ev.membership == Some("join") || ev.membership == Some("leave")) {
        HandleJoinLeaveGroup(remote, ev, purple);
        calls := [JoinLeaveGroup];
      }
    }

    /** The state-event handler of a stored group room. */
    method StateCall(ev: Event, remote: RemoteData) returns (ghost calls: seq<Step>)
      modifies this`actions
      ensures calls == if remote.GroupData? && ev.stateKey.Some? then [GroupStateEvent] else []
      ensures actions == old(actions) + (if remote.GroupData? && ev.stateKey.Some? && remote.gateway
                                         then [GatewayStateEvent(remote.roomName, ev.sender)] else [])
    {
      calls := [];
      if remote.GroupData? && ev.stateKey.Some? {
        HandleStateEvent(remote, ev);
        calls := [GroupStateEvent];
      }
    }

    /** The message handler of a stored IM or group room. */
    method MessageCall(ev: Event, purple: Purple, remote: RemoteData) returns (ghost calls: seq<Step>)
      requires !remote.AdminRoomData?
      modifies this`actions, this`listeners
      ensures calls == if ev.eventType != MessageEvent then [] else if remote.DirectData? then [ImMessage] else [GroupMessage]
      ensures var message := if ev.eventType != MessageEvent then Appended([], [])
                             else if remote.DirectData? then Appended(ImMessageEffects(store.accounts, remote, ev, purple), [])
                             else GroupMessageEffect(store.accounts, remote, ev, purple);
              actions == old(actions) + message.actions && listeners == old(listeners) + message.waiters
    {
      calls := [];
      if ev.eventType == MessageEvent {
        if remote.DirectData? {
          HandleImMessage(remote, ev, purple);
          calls := [ImMessage];
        } else {
          HandleGroupMessage(remote, ev, purple);
          calls := [GroupMessage];
        }
      }
    }

    /** The three handler groups of a bridged room, one after the other, add up to `BridgedEffects`. */
    lemma ChainBridged(a0: seq<Action>, a1: seq<Action>, a2: seq<Action>, a3: seq<Action>,
                       w0: seq<Waiter>, w1: seq<Waiter>, w2: seq<Waiter>,
                       links: seq<AccountLink>, remote: RemoteData, ev: Event, purple: Purple)
      requires !remote.AdminRoomData?
      requires var member :=
                 if ev.eventType == MemberEvent && remote.GroupData? && (ev.membership == Some("join") || ev.membership == Some("leave"))
                 then JoinLeaveEffect(links, remote, ev, purple) else Appended([], []);
               a1 == a0 + member.actions && w1 == w0 + member.waiters
      requires a2 == a1 + (if remote.GroupData? && ev.stateKey.Some? && remote.gateway
                           then [GatewayStateEvent(remote.roomName, ev.sender)] else [])
      requires var message :=
                 if ev.eventType != MessageEvent then Appended([], [])
                 else if remote.DirectData? then Appended(ImMessageEffects(links, remote, ev, purple), [])
                 else GroupMessageEffect(links, remote, ev, purple);
               a3 == a2 + message.actions && w2 == w1 + message.waiters
      ensures var a := BridgedEffects(links, remote, ev, purple);
              a3 == a0 + a.actions && w2 == w0 + a.waiters
    {
      var member :=
        if ev.eventType == MemberEvent && remote.GroupData? && (ev.membership == Some("join") || ev.membership == Some("leave"))
        then JoinLeaveEffect(links, remote, ev, purple) else Appended([], []);
      var state := a2[|a1|..];
      var message :=
        if ev.eventType != MessageEvent then Appended([], [])
        else if remote.DirectData? then Appended(ImMessageEffects(links, remote, ev, purple), [])
        else GroupMessageEffect(links, remote, ev, purple);
      assert BridgedEffects(links, remote, ev, purple)
             == Appended(member.actions + state + message.actions, member.waiters + message.waiters);
      AppendAssoc(a0, member.actions, state);
      AppendAssoc(a0, member.actions + state, message.actions);
      AppendAssoc(w0, member.waiters, message.waiters);
    }

    /** A state change that appends `BridgedEffects` and keeps the store is a run of `BridgedSteps`. */
    lemma BridgedRan(ev: Event, env: Environment, ctx: Option<RoomEntry>, before: State, after: State)
      requires ctx.Some? && !ctx.value.remote.AdminRoomData?
      requires after.rooms == before.rooms && after.links == before.links
      requires var a := BridgedEffects(before.links, ctx.value.remote, ev, env.purple);
               after.actions == before.actions + a.actions && after.listeners == before.listeners + a.waiters
      ensures Ran(BridgedSteps(ev, ctx.value.remote.Type()), ev, env, ctx, before, after)
    {
      BridgedStepsEffects(ev, env, ctx, before.rooms, before.links);
    }

    /** The record of a bridged room's handler calls has the effect `BridgedEffects` states. */
    lemma BridgedStepsEffects(ev: Event, env: Environment, ctx: Option<RoomEntry>,
                              rooms: map<RoomId, RoomEntry>, links: seq<AccountLink>)
      requires ctx.Some? && !ctx.value.remote.AdminRoomData?
      ensures var a := BridgedEffects(links, ctx.value.remote, ev, env.purple);
              Effects(BridgedSteps(ev, ctx.value.remote.Type()), ev, env, ctx, rooms, links)
              == Effect(a.actions, a.waiters, rooms, links)
    {
      var remote := ctx.value.remote;
      var roomType := remote.Type();
      var member :=
        if ev.eventType == MemberEvent && roomType == Group && (ev.membership == Some("join") || ev.membership == Some("leave"))
        then [JoinLeaveGroup] else [];
      var state := if roomType == Group && ev.stateKey.Some? then [GroupStateEvent] else [];
      var message :=
        if ev.eventType != MessageEvent then []
        else if roomType == IM then [ImMessage]
        else [GroupMessage];
      assert BridgedSteps(ev, roomType) == member + state + message;
      var e1 := MemberStepEffect(member, ev, env, ctx, rooms, links);
      var e2 := StateStepEffect(state, ev, env, ctx, rooms, links);
      var e3 := MessageStepEffect(message, ev, env, ctx, rooms, links);
      EffectsJoin(member, state, e1, e2, ev, env, ctx, rooms, links);
      EffectsJoin(member + state, message, Effect(e1.actions + e2.actions, e1.waiters + e2.waiters, rooms, links), e3,
                  ev, env, ctx, rooms, links);
    }

    /** Two step records that each keep the store run one after the other. */
    lemma EffectsJoin(a: seq<Step>, b: seq<Step>, ea: Effect, eb: Effect, ev: Event, env: Environment,
                      ctx: Option<RoomEntry>, rooms: map<RoomId, RoomEntry>, links: seq<AccountLink>)
      requires ea == Effects(a, ev, env, ctx, rooms, links) && ea.rooms == rooms && ea.links == links
      requires eb == Effects(b, ev, env, ctx, rooms, links)
      ensures Effects(a + b, ev, env, ctx, rooms, links) == Effect(ea.actions + eb.actions, ea.waiters + eb.waiters, eb.rooms, eb.links)
    {
      EffectsAppend(a, b, ev, env, ctx, rooms, links);
    }

    lemma MemberStepEffect(member: seq<Step>, ev: Event, env: Environment, ctx: Option<RoomEntry>,
                           rooms: map<RoomId, RoomEntry>, links: seq<AccountLink>) returns (e: Effect)
      requires ctx.Some? && !ctx.value.remote.AdminRoomData?
      requires member == if ev.eventType == MemberEvent && ctx.value.remote.GroupData?
                              && (ev.membership == Some("join") || ev.membership == Some("leave"))
                         then [JoinLeaveGroup] else []
      ensures e == Effects(member, ev, env, ctx, rooms, links)
      ensures var a := if member != [] then JoinLeaveEffect(links, ctx.value.remote, ev, env.purple) else Appended([], []);
              e == Effect(a.actions, a.waiters, rooms, links)
    {
      e := Effects(member, ev, env, ctx, rooms, links);
      if member != [] {
        OneStep(JoinLeaveGroup, ev, env, ctx, rooms, links);
      }
    }

    lemma StateStepEffect(state: seq<Step>, ev: Event, env: Environment, ctx: Option<RoomEntry>,
                          rooms: map<RoomId, RoomEntry>, links: seq<AccountLink>) returns (e: Effect)
      requires ctx.Some? && !ctx.value.remote.AdminRoomData?
      requires state == if ctx.value.remote.GroupData? && ev.stateKey.Some? then [GroupStateEvent] else []
      ensures e == Effects(state, ev, env, ctx, rooms, links)
      ensures var remote := ctx.value.remote;
              e == Effect(if remote.GroupData? && ev.stateKey.Some? && remote.gateway
                          then [GatewayStateEvent(remote.roomName, ev.sender)] else [], [], rooms, links)
    {
      e := Effects(state, ev, env, ctx, rooms, links);
      if state != [] {
        OneStep(GroupStateEvent, ev, env, ctx, rooms, links);
      }
    }

    lemma MessageStepEffect(message: seq<Step>, ev: Event, env: Environment, ctx: Option<RoomEntry>,
                            rooms: map<RoomId, RoomEntry>, links: seq<AccountLink>) returns (e: Effect)
      requires ctx.Some? && !ctx.value.remote.AdminRoomData?
      requires message == if ev.eventType != MessageEvent then []
                          else if ctx.value.remote.DirectData? then [ImMessage] else [GroupMessage]
      ensures e == Effects(message, ev, env, ctx, rooms, links)
      ensures var remote := ctx.value.remote;
              var a := if ev.eventType != MessageEvent then Appended([], [])
                       else if remote.DirectData? then Appended(ImMessageEffects(links, remote, ev, env.purple), [])
                       else GroupMessageEffect(links, remote, ev, env.purple);
              e == Effect(a.actions, a.waiters, rooms, links)
    {
      e := Effects(message, ev, env, ctx, rooms, links);
      if message != [] {
        OneStep(message[0], ev, env, ctx, rooms, links);
      }
    }
  }

  /** The stored type of a room, `None` for a room the store does not know. */
  function RoomTypeOf(rooms: map<RoomId, RoomEntry>, roomId: RoomId): (t: Option<RoomType>)
    ensures t.Some? <==> roomId in rooms
    ensures t.Some? ==> t.value == rooms[roomId].remote.Type()
  {
    if roomId in rooms then Some(rooms[roomId].remote.Type()) else None
  }
}

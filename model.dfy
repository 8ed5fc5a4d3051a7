/**
 * The values both handlers share: room entries and their remote halves,
 * account links and backend accounts, inbound Matrix events, and the
 * `Action` log through which every network side effect is recorded.
 */
module Model {
  import opened Wrappers
  import opened ChatParams

  type UserId = string
  type RoomId = string

  /** The `type` a bridged Matrix room is stored with. */
  datatype RoomType = UAdmin | IM | Group

  /**
   * The remote half of a room entry. Its variant is the room's type, so an
   * entry cannot carry a type that disagrees with its data.
   */
  datatype RemoteData =
    | AdminRoomData(owner: UserId)
    | DirectData(matrixUser: UserId, protocolId: string, recipient: string)
    | GroupData(protocolId: string, roomName: string, properties: Option<JoinProps>,
                plumbed: bool, gateway: bool)
  {
    function Type(): RoomType {
      match this
      case AdminRoomData(_) => UAdmin
      case DirectData(_, _, _) => IM
      case GroupData(_, _, _, _, _) => Group
    }
  }

  /**
   * A remote room id. The bridge stores base64 of the colon-joined fields
   * (or `UADMIN-<owner>`); the model keeps the fields, so ids are injective.
   */
  datatype RemoteId =
    | AdminRemoteId(owner: UserId)
    | DirectRemoteId(matrixUser: UserId, protocolId: string, recipient: string)
    | GroupRemoteId(protocolId: string, roomName: string)

  /** A stored Matrix room and the remote room it is linked to. */
  datatype RoomEntry = RoomEntry(remoteId: RemoteId, remote: RemoteData)

  /** A stored link from a Matrix user to a remote account. */
  datatype AccountLink = AccountLink(mxid: UserId, protocolId: string, username: string)

  /** A backend protocol plugin. */
  datatype Protocol = Protocol(id: string, name: string, canCreateNew: bool, canAddExisting: bool,
                               chatParams: seq<ChatParam>)

  /** A remote account's identity (what `Util.createRemoteId(protocol, username)` encodes). */
  datatype AccountRef = AccountRef(username: string, protocolId: string)

  /**
   * A live backend account: enabled/connected flags, the chats it is in and
   * its nickname in each of them.
   */
  datatype Account = Account(name: string, protocol: Protocol, enabled: bool, connected: bool,
                             joinedRooms: set<string>, chatNicks: map<string, string>)
  {
    function Ref(): AccountRef {
      AccountRef(name, protocol.id)
    }
  }

  /** The arguments of `purple.getAccount(username, protocolId, mxid)`. */
  datatype AccountQuery = AccountQuery(username: string, protocolId: string, mxid: UserId)

  /** A snapshot of the backend the handlers consult. */
  datatype Purple = Purple(
    protocols: seq<Protocol>,                  // getProtocols()
    findProtocol: map<string, Protocol>,       // findProtocol(nameOrId)
    getProtocol: map<string, Protocol>,        // getProtocol(id)
    accounts: map<AccountQuery, Account>,      // getAccount(username, protocolId, mxid)
    needsDedupe: bool)                         // needsDedupe()

  /** The autoregistration collaborator: which protocols it serves and what it registers. */
  datatype AutoRegistration = AutoRegistration(supported: set<string>,
                                               registerUser: (string, UserId) -> Account)

  /** Helpers whose code is not part of this model, taken as given functions. */
  datatype Hooks = Hooks(
    isRemoteUser: UserId -> bool,                          // bridge bot: is this one of our ghosts?
    usernameFromMxid: UserId -> (string, string),          // ghost mxid -> (username, protocol id)
    sanitize: JoinProps -> JoinProps,                      // Util.sanitizeProperties
    desanitize: JoinProps -> JoinProps,                    // Util.desanitizeProperties
    addJoinProps: (string, JoinProps, UserId) -> JoinProps, // ProtoHacks.addJoinProps
    roomNameFromProps: (string, JoinProps) -> string,      // ProtoHacks.getRoomNameFromProps
    roomNameForInvite: (string, string, JoinProps) -> string, // ProtoHacks.getRoomNameForInvite
    ghostFor: (string, string) -> UserId)                  // Util.getMxIdForProtocol

  /** The provisioning settings the router consults. */
  datatype Config = Config(enablePlumbing: bool, requiredUserPL: int)

  const MemberEvent: string := "m.room.member"
  const MessageEvent: string := "m.room.message"
  const TextMsgtype: string := "m.text"
  const PlumbPrefix: string := "!purple"

  /** The fields of an inbound Matrix event the handlers read. */
  datatype Event = Event(
    roomId: RoomId,
    sender: UserId,
    eventType: string,
    stateKey: Option<string>,
    membership: Option<string>,   // content.membership
    msgtype: Option<string>,      // content.msgtype
    body: string,                 // content.body
    isDirect: bool)               // content.is_direct

  /** The `m.room.power_levels` content the plumbing gate reads. */
  datatype PowerLevels = PowerLevels(users: map<UserId, int>, usersDefault: Option<int>)

  /** Why no usable backend account could be found for a Matrix user. */
  datatype AccountError =
    | AutoregistrationUnsupported   // no autoregistration configured
    | CannotAutoregister(protocolId: string)
    | AccountNotFound
    | AccountNotEnabled

  /** The errors a command reports back in its room. */
  datatype CommandError =
    | ProtocolNotSupplied
    | ProtocolNotFound
    | CannotCreateNew
    | UsernameMissing
    | PasswordMissing
    | NameMissing
    | CannotAddExisting
    | NoSuchAccount
    | FailedToGetAccount
    | AccountUnavailable(reason: AccountError)
    | BadParameters(paramError: ParamError)
    | JoinFailed

  /** The prefix a failure notice starts with. */
  datatype FailureKind = AddAccountFailed | EnableAccountFailed | JoinChatFailed | BridgeFailed

  /** One line of the `accounts` listing. */
  datatype AccountListing =
    | Listed(protocolName: string, username: string, enabled: bool, connected: bool)
    | ProtocolNotEnabled(protocolId: string, username: string)

  /** The `m.notice` messages the bridge bot sends (their wording is not modelled). */
  datatype Notice =
    | ProtocolList(protocols: seq<Protocol>)
    | ProtocolPlaceholder
    | AccountList(entries: seq<AccountListing>)
    | CreatedNewAccount
    | LinkedExistingAccount
    | Usage
    | JoinHelp(required: seq<string>, optional: seq<string>)
    | Failure(kind: FailureKind, error: CommandError)

  /** The identity the deduplicator fingerprints an outgoing chat message by. */
  datatype SenderRef = SenderRef(protocolId: string, account: AccountRef, nick: string, roomName: string)

  /** A side effect on the Matrix homeserver, the backend or a collaborator. */
  datatype Action =
    // Matrix side
    | BotJoin(roomId: RoomId)
    | BotLeave(roomId: RoomId)
    | GhostJoin(user: UserId, roomId: RoomId)
    | Kick(roomId: RoomId, user: UserId)
    | SendNotice(roomId: RoomId, notice: Notice)
    | CreateRoom(creator: UserId, asClient: bool, isDirect: bool, name: string, invite: seq<UserId>)
    | SendMessage(sender: UserId, room: Option<RoomId>, body: string)
    // backend accounts
    | AutoRegister(protocolId: string, user: UserId)
    | CreateAccount(username: string, protocolId: string, password: string)
    | SetEnabled(account: AccountRef, enable: bool)
    | JoinChat(account: AccountRef, props: JoinProps)
    | SetJoinProperties(account: AccountRef, roomName: string, props: JoinProps)
    | RejectChat(account: AccountRef, props: JoinProps)
    | SendIM(account: AccountRef, recipient: string, body: string)
    | SendChat(account: AccountRef, roomName: string, body: string)
    | UpdateProfile(protocolId: string, remoteUser: string)
    // deduplicator and gateway
    | WaitForJoinResolve(roomId: RoomId, sender: UserId)
    | DedupeInsert(roomName: string, from: SenderRef, body: string)
    | RemoveChosenOne(roomName: string, account: AccountRef)
    | DecrementRoomUsers(roomName: string)
    | GatewayMessage(roomName: string, sender: UserId, body: string)
    | GatewayMembership(roomName: string, sender: UserId, membership: string)
    | GatewayStateEvent(roomName: string, sender: UserId)

  /** JavaScript truthiness of an optional string: present and non-empty. */
  predicate Truthy(s: Option<string>) {
    s.Some? && s.value != ""
  }
}

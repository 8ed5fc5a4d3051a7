/**
 * The backend side of the bridge: `MatrixRoomHandler` turns IMs, chat
 * messages and chat invites arriving from the backend into Matrix rooms
 * and messages. Each remote conversation is found in the room store by a
 * canonical key, or a room is created and linked for it; a key that
 * matches more than one room is a bail-out.
 */
module RoomHandling {
  import opened Wrappers
  import opened ChatParams
  import opened Model
  import opened RoomStore

  /** `received-im-msg`: an IM to one of the bridged accounts. */
  datatype ReceivedIm = ReceivedIm(account: AccountRef, sender: string, message: string)

  /** `received-chat-msg`: a message in a chat one of the bridged accounts is in. */
  datatype ReceivedChatMsg = ReceivedChatMsg(account: AccountRef, sender: string, convName: string, message: string)

  /** `chat-invite`: a bridged account is invited to a chat, perhaps with a message. */
  datatype ChatInvite = ChatInvite(account: AccountRef, sender: string, roomName: string, joinProperties: JoinProps,
                                   message: Option<string>)

  // ------------------------------------------------------------ owners

  /**
   * `getMatrixUserForAccount`: the Matrix user a remote account belongs to,
   * found only when exactly one link names the account.
   */
  function MatrixUserForAccount(links: seq<AccountLink>, account: AccountRef): (r: Option<UserId>)
    ensures r.Some? <==> |MatrixUsersForRemote(links, account.protocolId, account.username)| == 1
  {
    var users := MatrixUsersForRemote(links, account.protocolId, account.username);
    if |users| == 0 || |users| > 1 then None else Some(users[0])
  }

  /** The owner found is linked to the account, and is its only link. */
  lemma UniqueOwner(links: seq<AccountLink>, account: AccountRef, u: UserId)
    requires MatrixUserForAccount(links, account) == Some(u)
    ensures AccountLink(u, account.protocolId, account.username) in links
    ensures forall v :: AccountLink(v, account.protocolId, account.username) in links ==> v == u
  {
    var users := MatrixUsersForRemote(links, account.protocolId, account.username);
    MatrixUsersForRemoteMembers(links, account.protocolId, account.username);
    assert users == [u];
  }

  /**
   * The owner is found exactly when one Matrix user, however many times
   * linked, is linked to the account.
   */
  lemma OwnerIffOnlyUser(links: seq<AccountLink>, account: AccountRef, u: UserId)
    ensures MatrixUserForAccount(links, account) == Some(u) <==>
              && AccountLink(u, account.protocolId, account.username) in links
              && forall v :: AccountLink(v, account.protocolId, account.username) in links ==> v == u
  {
    var users := MatrixUsersForRemote(links, account.protocolId, account.username);
    MatrixUsersForRemoteMembers(links, account.protocolId, account.username);
    if AccountLink(u, account.protocolId, account.username) in links
       && forall v :: AccountLink(v, account.protocolId, account.username) in links ==> v == u
    {
      assert (set x | x in users) == {u};
      DistinctUsersCount(users);
    }
  }

  /** A list of distinct users is as long as the set of its users. */
  lemma {:induction false} DistinctUsersCount(users: seq<UserId>)
    requires forall i, j :: 0 <= i < j < |users| ==> users[i] != users[j]
    ensures |set x | x in users| == |users|
  {
    if users != [] {
      var init, last := users[..|users| - 1], users[|users| - 1];
      DistinctUsersCount(init);
      assert users == init + [last];
      assert (set x | x in users) == (set x | x in init) + {last};
      assert last !in init;
    }
  }

  /** With no link, or with two links to different users, an account has no owner. */
  lemma NoUniqueOwner(links: seq<AccountLink>, account: AccountRef, u: UserId, v: UserId)
    requires AccountLink(u, account.protocolId, account.username) in links
    requires AccountLink(v, account.protocolId, account.username) in links
    requires u != v
    ensures MatrixUserForAccount(links, account).None?
  {
    var users := MatrixUsersForRemote(links, account.protocolId, account.username);
    MatrixUsersForRemoteMembers(links, account.protocolId, account.username);
    assert u in users && v in users;
  }

  // ----------------------------------------------------- find or create

  /** What a find-or-create does with the rooms matching its key. */
  datatype Lookup =
    | Created(roomId: RoomId, creation: Action, entry: RoomEntry)   // no match: a new room, linked to the key
    | Reused(roomId: RoomId)                                       // one match: that room
    | Ambiguous                                                    // several matches: bail out

  /** The one element of a singleton set. */
  function Only(s: set<RoomId>): (r: RoomId)
    requires |s| == 1
    ensures s == {r}
  {
    var r :| r in s;
    assert s == {r} by {
      assert s == (s - {r}) + {r};
      assert |s - {r}| == 0;
    }
    r
  }

  /**
   * The decision shared by both find-or-creates: no match creates
   * `newRoomId` (the id the homeserver gives the new room), one match is
   * reused, several matches give nothing.
   */
  function FindOrCreate(matches: set<RoomId>, newRoomId: RoomId, creation: Action, entry: RoomEntry): (l: Lookup)
    ensures l.Created? <==> matches == {}
    ensures l.Created? ==> l == Created(newRoomId, creation, entry)
    ensures l.Reused? <==> |matches| == 1
    ensures l.Reused? ==> matches == {l.roomId}
    ensures l.Ambiguous? <==> |matches| > 1
  {
    if |matches| == 0 then Created(newRoomId, creation, entry)
    else if |matches| > 1 then Ambiguous
    else Reused(Only(matches))
  }

  /** The room a lookup hands back; `undefined` when it bailed out. */
  function RoomOf(l: Lookup): Option<RoomId> {
    if l.Ambiguous? then None else Some(l.roomId)
  }

  /** The room store after a lookup: a created room is stored with its entry. */
  function RoomsAfter(rooms: map<RoomId, RoomEntry>, l: Lookup): map<RoomId, RoomEntry> {
    if l.Created? then rooms[l.roomId := l.entry] else rooms
  }

  /** The homeserver call a lookup makes. */
  function CreationOf(l: Lookup): seq<Action> {
    if l.Created? then [l.creation] else []
  }

  // ---------------------------------------------------------- IM rooms

  /** The canonical key of an IM room: (matrixUser, protocol_id, recipient). */
  predicate ImMatch(e: RoomEntry, matrixUser: UserId, protocolId: string, recipient: string) {
    e.remote.DirectData? && e.remote.matrixUser == matrixUser && e.remote.protocolId == protocolId
    && e.remote.recipient == recipient
  }

  /** `getEntriesByRemoteRoomData` for an IM key. */
  function ImMatches(rooms: map<RoomId, RoomEntry>, matrixUser: UserId, protocolId: string, recipient: string)
    : set<RoomId>
  {
    set r | r in rooms && ImMatch(rooms[r], matrixUser, protocolId, recipient)
  }

  /** The entry a new IM room is linked with: exactly the lookup key. */
  function ImEntry(matrixUser: UserId, protocolId: string, recipient: string): (e: RoomEntry)
    ensures ImMatch(e, matrixUser, protocolId, recipient) && e.remote.Type() == IM
  {
    RoomEntry(DirectRemoteId(matrixUser, protocolId, recipient), DirectData(matrixUser, protocolId, recipient))
  }

  /** `createOrGetIMRoom`, as a decision on the store. */
  function ImLookup(rooms: map<RoomId, RoomEntry>, data: ReceivedIm, matrixUser: UserId, ghostUser: UserId,
                    newRoomId: RoomId): Lookup
  {
    FindOrCreate(ImMatches(rooms, matrixUser, data.account.protocolId, data.sender), newRoomId,
                 CreateRoom(ghostUser, true, true, data.sender, [matrixUser]),
                 ImEntry(matrixUser, data.account.protocolId, data.sender))
  }

  /**
   * With no IM room for the key, the ghost creates a direct room named
   * after the remote sender that invites the owner, and the room is stored
   * as an IM room linked with exactly the key.
   */
  lemma ImRoomCreation(rooms: map<RoomId, RoomEntry>, data: ReceivedIm, matrixUser: UserId, ghostUser: UserId,
                       newRoomId: RoomId)
    requires ImMatches(rooms, matrixUser, data.account.protocolId, data.sender) == {}
    ensures var l := ImLookup(rooms, data, matrixUser, ghostUser, newRoomId);
            && RoomOf(l) == Some(newRoomId)
            && CreationOf(l) == [CreateRoom(ghostUser, true, true, data.sender, [matrixUser])]
            && var after := RoomsAfter(rooms, l);
               && newRoomId in after && after[newRoomId].remote.Type() == IM
               && after[newRoomId].remote == DirectData(matrixUser, data.account.protocolId, data.sender)
               && forall r :: r in rooms && r != newRoomId ==> r in after && after[r] == rooms[r]
  {
  }

  /** One IM room for the key is reused: no creation and no store change. */
  lemma ImReuse(rooms: map<RoomId, RoomEntry>, data: ReceivedIm, matrixUser: UserId, ghostUser: UserId,
                newRoomId: RoomId, existing: RoomId)
    requires ImMatches(rooms, matrixUser, data.account.protocolId, data.sender) == {existing}
    ensures var l := ImLookup(rooms, data, matrixUser, ghostUser, newRoomId);
            RoomOf(l) == Some(existing) && CreationOf(l) == [] && RoomsAfter(rooms, l) == rooms
  {
    assert |{existing}| == 1;
  }

  /** Two IM rooms for one key: nothing is returned, created or stored. */
  lemma ImAmbiguity(rooms: map<RoomId, RoomEntry>, data: ReceivedIm, matrixUser: UserId, ghostUser: UserId,
                    newRoomId: RoomId, r1: RoomId, r2: RoomId)
    requires r1 != r2 && r1 in rooms && r2 in rooms
    requires ImMatch(rooms[r1], matrixUser, data.account.protocolId, data.sender)
    requires ImMatch(rooms[r2], matrixUser, data.account.protocolId, data.sender)
    ensures var l := ImLookup(rooms, data, matrixUser, ghostUser, newRoomId);
            RoomOf(l).None? && CreationOf(l) == [] && RoomsAfter(rooms, l) == rooms
  {
    var m := ImMatches(rooms, matrixUser, data.account.protocolId, data.sender);
    assert {r1, r2} <= m;
    assert |{r1, r2}| == 2;
    SubsetSize({r1, r2}, m);
  }

  lemma SubsetSize(a: set<RoomId>, b: set<RoomId>)
    requires a <= b
    ensures |a| <= |b|
  {
    assert b == a + (b - a);
  }

  /**
   * Sequential calls: after an IM room was created for a key (under an id
   * the store did not hold), a second call with the same key reuses it and
   * creates nothing.
   */
  lemma {:induction false} ImSecondCallReuses(rooms: map<RoomId, RoomEntry>, data: ReceivedIm, matrixUser: UserId,
                                              ghostUser: UserId, newRoomId: RoomId, laterRoomId: RoomId)
    requires ImMatches(rooms, matrixUser, data.account.protocolId, data.sender) == {}
    requires newRoomId !in rooms
    ensures var after := RoomsAfter(rooms, ImLookup(rooms, data, matrixUser, ghostUser, newRoomId));
            ImLookup(after, data, matrixUser, ghostUser, laterRoomId) == Reused(newRoomId)
  {
    var pid, recipient := data.account.protocolId, data.sender;
    var after := rooms[newRoomId := ImEntry(matrixUser, pid, recipient)];
    assert RoomsAfter(rooms, ImLookup(rooms, data, matrixUser, ghostUser, newRoomId)) == after;
    forall r ensures r in ImMatches(after, matrixUser, pid, recipient) <==>
                       r in ImMatches(rooms, matrixUser, pid, recipient) || r == newRoomId {
      if r != newRoomId && r in rooms {
        assert after[r] == rooms[r];
      }
    }
    assert newRoomId in ImMatches(after, matrixUser, pid, recipient);
    assert ImMatches(after, matrixUser, pid, recipient) == {newRoomId};
  }

  /** Creating an IM room leaves the lookup of every other IM key as it was. */
  lemma {:induction false} ImCreationKeepsOtherKeys(rooms: map<RoomId, RoomEntry>, matrixUser: UserId,
                                                    protocolId: string, recipient: string, newRoomId: RoomId,
                                                    otherUser: UserId, otherProtocol: string, otherRecipient: string)
    requires newRoomId !in rooms
    requires (otherUser, otherProtocol, otherRecipient) != (matrixUser, protocolId, recipient)
    ensures ImMatches(rooms[newRoomId := ImEntry(matrixUser, protocolId, recipient)],
                      otherUser, otherProtocol, otherRecipient)
            == ImMatches(rooms, otherUser, otherProtocol, otherRecipient)
  {
    var after := rooms[newRoomId := ImEntry(matrixUser, protocolId, recipient)];
    assert !ImMatch(after[newRoomId], otherUser, otherProtocol, otherRecipient);
    forall r | r in ImMatches(rooms, otherUser, otherProtocol, otherRecipient)
      ensures r in ImMatches(after, otherUser, otherProtocol, otherRecipient)
    {
      assert r != newRoomId && after[r] == rooms[r];
    }
  }

  // ------------------------------------------------------- group rooms

  /** The canonical key of a group room: (protocol_id, room_name); the stored properties play no part. */
  predicate GroupMatch(e: RoomEntry, protocolId: string, roomName: string) {
    e.remote.GroupData? && e.remote.protocolId == protocolId && e.remote.roomName == roomName
  }

  /** `getEntriesByRemoteRoomData` for a group key. */
  function GroupMatches(rooms: map<RoomId, RoomEntry>, protocolId: string, roomName: string): set<RoomId> {
    set r | r in rooms && GroupMatch(rooms[r], protocolId, roomName)
  }

  /** A copy of the join properties without the password, which is never stored. */
  function StripPassword(props: JoinProps): (r: JoinProps)
    ensures "password" !in r
    ensures forall k :: k in props && k != "password" ==> k in r && r[k] == props[k]
    ensures forall k :: k in r ==> k in props
  {
    props - {"password"}
  }

  /** What the backend reports a group conversation with. */
  datatype GroupSource =
    | FromChatMsg(msg: ReceivedChatMsg)
    | FromInvite(invite: ChatInvite)

  function SourceAccount(src: GroupSource): AccountRef {
    if src.FromChatMsg? then src.msg.account else src.invite.account
  }

  /** The stored properties: a password-free copy of an invite's join properties; none for a chat message. */
  function StoredProperties(src: GroupSource): Option<JoinProps> {
    if src.FromInvite? then Some(StripPassword(src.invite.joinProperties)) else None
  }

  /** The entry a new group room is linked with. */
  function GroupEntry(protocolId: string, roomName: string, props: Option<JoinProps>): (e: RoomEntry)
    ensures GroupMatch(e, protocolId, roomName) && e.remote.Type() == Group
  {
    RoomEntry(GroupRemoteId(protocolId, roomName), GroupData(protocolId, roomName, props, false, false))
  }

  /** Who a new group room invites: the Matrix user, when one is supplied. */
  function InviteList(matrixUser: Option<UserId>): seq<UserId> {
    if matrixUser.Some? then [matrixUser.value] else []
  }

  lemma {:induction false} GroupSecondCallReuses(rooms: map<RoomId, RoomEntry>, protocolId: string, roomName: string,
                                                 props: Option<JoinProps>, newRoomId: RoomId)
    requires GroupMatches(rooms, protocolId, roomName) == {}
    requires newRoomId !in rooms
    ensures GroupMatches(rooms[newRoomId := GroupEntry(protocolId, roomName, props)], protocolId, roomName)
            == {newRoomId}
  {
    var after := rooms[newRoomId := GroupEntry(protocolId, roomName, props)];
    forall r ensures r in GroupMatches(after, protocolId, roomName) <==>
                       r in GroupMatches(rooms, protocolId, roomName) || r == newRoomId {
      if r != newRoomId && r in rooms {
        assert after[r] == rooms[r];
      }
    }
    assert newRoomId in GroupMatches(after, protocolId, roomName);
  }

  /** A stored password-free copy of the join properties never holds a password. */
  lemma PasswordNeverStored(src: GroupSource)
    ensures StoredProperties(src).Some? ==> "password" !in StoredProperties(src).value
    ensures src.FromChatMsg? ==> StoredProperties(src).None?
  {
  }

  /** Two sources with the same protocol and room name find the same rooms, whatever their properties. */
  lemma GroupKeyIgnoresProperties(rooms: map<RoomId, RoomEntry>, protocolId: string, roomName: string, r: RoomId,
                                  p1: Option<JoinProps>, p2: Option<JoinProps>)
    ensures r in GroupMatches(rooms[r := GroupEntry(protocolId, roomName, p1)], protocolId, roomName)
    ensures GroupMatches(rooms[r := GroupEntry(protocolId, roomName, p1)], protocolId, roomName)
            == GroupMatches(rooms[r := GroupEntry(protocolId, roomName, p2)], protocolId, roomName)
  {
  }

  /** The outcome of handling one backend event: the actions taken and the room store afterwards. */
  datatype Delivery = Delivery(actions: seq<Action>, rooms: map<RoomId, RoomEntry>)

  class MatrixRoomHandler {
    const store: Store
    const hooks: Hooks
    var actions: seq<Action>

    constructor (store: Store, hooks: Hooks)
      ensures this.store == store && this.hooks == hooks && actions == []
    {
      this.store := store;
      this.hooks := hooks;
      actions := [];
    }

    /** The room name of a group conversation: the invite's name as the protocol shapes it, or the chat's name. */
    function RoomNameOf(src: GroupSource): string {
      if src.FromInvite? then
        hooks.roomNameForInvite(src.invite.account.protocolId, src.invite.roomName, src.invite.joinProperties)
      else src.msg.convName
    }

    /** `createOrGetGroupChatRoom`, as a decision on the store. */
    function GroupLookup(rooms: map<RoomId, RoomEntry>, src: GroupSource, ghostUser: UserId,
                         matrixUser: Option<UserId>, newRoomId: RoomId): Lookup
    {
      var pid, name := SourceAccount(src).protocolId, RoomNameOf(src);
      FindOrCreate(GroupMatches(rooms, pid, name), newRoomId,
                   CreateRoom(ghostUser, false, false, name, InviteList(matrixUser)),
                   GroupEntry(pid, name, StoredProperties(src)))
    }

    /**
     * With no group room for the key, the ghost creates a room named after
     * the chat that invites the Matrix user only when one is supplied, and
     * the room is stored as a group room with the password-free properties.
     */
    lemma GroupRoomCreation(rooms: map<RoomId, RoomEntry>, src: GroupSource, ghostUser: UserId,
                            matrixUser: Option<UserId>, newRoomId: RoomId)
      requires GroupMatches(rooms, SourceAccount(src).protocolId, RoomNameOf(src)) == {}
      ensures var l := GroupLookup(rooms, src, ghostUser, matrixUser, newRoomId);
              && RoomOf(l) == Some(newRoomId)
              && CreationOf(l) == [CreateRoom(ghostUser, false, false, RoomNameOf(src), InviteList(matrixUser))]
              && (matrixUser.None? ==> CreationOf(l)[0].invite == [])
              && var after := RoomsAfter(rooms, l);
                 && newRoomId in after && after[newRoomId].remote.Type() == Group
                 && after[newRoomId].remote.roomName == RoomNameOf(src)
                 && after[newRoomId].remote.properties == StoredProperties(src)
                 && !after[newRoomId].remote.plumbed
    {
    }

    // ------------------------------------------------------ find-or-create

    /** `createOrGetIMRoom`; `newRoomId` is the id the homeserver gives a room it creates. */
    method CreateOrGetIMRoom(data: ReceivedIm, matrixUser: UserId, ghostUser: UserId, newRoomId: RoomId)
      returns (roomId: Option<RoomId>)
      modifies this`actions, store
      ensures var l := ImLookup(old(store.rooms), data, matrixUser, ghostUser, newRoomId);
              && roomId == RoomOf(l)
              && store.rooms == RoomsAfter(old(store.rooms), l)
              && actions == old(actions) + CreationOf(l)
      ensures store.accounts == old(store.accounts)
    {
      var matches := ImMatches(store.rooms, matrixUser, data.account.protocolId, data.sender);
      if |matches| == 0 {
        actions := actions + [CreateRoom(ghostUser, true, true, data.sender, [matrixUser])];
        store.StoreRoom(newRoomId, ImEntry(matrixUser, data.account.protocolId, data.sender));
        return Some(newRoomId);
      }
      if |matches| > 1 {
        return None;
      }
      return Some(Only(matches));
    }

    /** `createOrGetGroupChatRoom`; `matrixUser` is supplied for invites only. */
    method CreateOrGetGroupChatRoom(src: GroupSource, ghostUser: UserId, matrixUser: Option<UserId>, newRoomId: RoomId)
      returns (roomId: Option<RoomId>)
      modifies this`actions, store
      ensures var l := GroupLookup(old(store.rooms), src, ghostUser, matrixUser, newRoomId);
              && roomId == RoomOf(l)
              && store.rooms == RoomsAfter(old(store.rooms), l)
              && actions == old(actions) + CreationOf(l)
      ensures store.accounts == old(store.accounts)
    {
      var pid := SourceAccount(src).protocolId;
      var name := RoomNameOf(src);
      var props := StoredProperties(src);
      var matches := GroupMatches(store.rooms, pid, name);
      if |matches| == 0 {
        actions := actions + [CreateRoom(ghostUser, false, false, name, InviteList(matrixUser))];
        store.StoreRoom(newRoomId, GroupEntry(pid, name, props));
        return Some(newRoomId);
      }
      if |matches| > 1 {
        return None;
      }
      return Some(Only(matches));
    }

    // ------------------------------------------------------ incoming events

    /**
     * `handleIncomingIM`: find the account's owner and the protocol, find or
     * create the IM room, update the sender's profile, then send the message
     * as the sender's ghost. An ambiguous room stops the delivery.
     */
    function IncomingIm(links: seq<AccountLink>, rooms: map<RoomId, RoomEntry>, purple: Purple, data: ReceivedIm,
                        newRoomId: RoomId): Delivery
    {
      var owner := MatrixUserForAccount(links, data.account);
      if owner.None? || data.account.protocolId !in purple.getProtocol then Delivery([], rooms)
      else
        var ghostUser := hooks.ghostFor(data.account.protocolId, data.sender);
        var l := ImLookup(rooms, data, owner.value, ghostUser, newRoomId);
        if l.Ambiguous? then Delivery([], rooms)
        else Delivery(CreationOf(l) + [UpdateProfile(data.account.protocolId, data.sender),
                                       SendMessage(ghostUser, Some(l.roomId), data.message)],
                      RoomsAfter(rooms, l))
    }

    /** `handleIncomingIM` exactly as the source has it: the bail-out of the lookup does not stop the send. */
    function IncomingImAsWritten(links: seq<AccountLink>, rooms: map<RoomId, RoomEntry>, purple: Purple,
                                 data: ReceivedIm, newRoomId: RoomId): Delivery
    {
      var owner := MatrixUserForAccount(links, data.account);
      if owner.None? || data.account.protocolId !in purple.getProtocol then Delivery([], rooms)
      else
        var ghostUser := hooks.ghostFor(data.account.protocolId, data.sender);
        var l := ImLookup(rooms, data, owner.value, ghostUser, newRoomId);
        Delivery(CreationOf(l) + [UpdateProfile(data.account.protocolId, data.sender),
                                  SendMessage(ghostUser, RoomOf(l), data.message)],
                 RoomsAfter(rooms, l))
    }

    /** An IM without a unique owner, or for an unknown protocol, creates no room and sends nothing. */
    lemma IncomingImBailOuts(links: seq<AccountLink>, rooms: map<RoomId, RoomEntry>, purple: Purple,
                             data: ReceivedIm, newRoomId: RoomId)
      requires |MatrixUsersForRemote(links, data.account.protocolId, data.account.username)| != 1
               || data.account.protocolId !in purple.getProtocol
      ensures IncomingIm(links, rooms, purple, data, newRoomId) == Delivery([], rooms)
    {
    }

    /**
     * Every message an IM delivers goes, as the sender's ghost, to the IM
     * room of the account's owner for that sender, which the store then holds.
     */
    lemma IncomingImReachesItsRoom(links: seq<AccountLink>, rooms: map<RoomId, RoomEntry>, purple: Purple,
                                   data: ReceivedIm, newRoomId: RoomId)
      ensures var d := IncomingIm(links, rooms, purple, data, newRoomId);
              forall a :: a in d.actions && a.SendMessage? ==>
                && a.sender == hooks.ghostFor(data.account.protocolId, data.sender)
                && a.body == data.message
                && a.room.Some? && a.room.value in d.rooms
                && MatrixUserForAccount(links, data.account).Some?
                && ImMatch(d.rooms[a.room.value], MatrixUserForAccount(links, data.account).value,
                           data.account.protocolId, data.sender)
    {
      var d := IncomingIm(links, rooms, purple, data, newRoomId);
      var owner := MatrixUserForAccount(links, data.account);
      if owner.Some? && data.account.protocolId in purple.getProtocol {
        var ghostUser := hooks.ghostFor(data.account.protocolId, data.sender);
        var l := ImLookup(rooms, data, owner.value, ghostUser, newRoomId);
        var m := ImMatches(rooms, owner.value, data.account.protocolId, data.sender);
        if l.Reused? {
          assert l.roomId in m;
        }
      }
    }

    /** As written, two IM rooms for one key still lead to a message sent to no room at all. */
    lemma AmbiguousImSendsToNoRoomAsWritten(purple: Purple, data: ReceivedIm, newRoomId: RoomId, owner: UserId)
      requires data.account.protocolId in purple.getProtocol
      ensures var links := [AccountLink(owner, data.account.protocolId, data.account.username)];
              var e := ImEntry(owner, data.account.protocolId, data.sender);
              var rooms := map["!a:hs" := e, "!b:hs" := e];
              SendMessage(hooks.ghostFor(data.account.protocolId, data.sender), None, data.message)
                in IncomingImAsWritten(links, rooms, purple, data, newRoomId).actions
    {
      var links := [AccountLink(owner, data.account.protocolId, data.account.username)];
      assert MatrixUsersForRemote(links, data.account.protocolId, data.account.username) == [owner] by {
        assert links[..0] == [];
      }
      var e := ImEntry(owner, data.account.protocolId, data.sender);
      var rooms := map["!a:hs" := e, "!b:hs" := e];
      ImAmbiguity(rooms, data, owner, hooks.ghostFor(data.account.protocolId, data.sender), newRoomId,
                  "!a:hs", "!b:hs");
    }

    /**
     * `handleIncomingChatMsg`: with a known protocol, find or create the
     * chat's room (inviting nobody), then send the message as the sender's
     * ghost. An ambiguous room stops the delivery.
     */
    function IncomingChatMsg(rooms: map<RoomId, RoomEntry>, purple: Purple, data: ReceivedChatMsg,
                             newRoomId: RoomId): Delivery
    {
      if data.account.protocolId !in purple.getProtocol then Delivery([], rooms)
      else
        var ghostUser := hooks.ghostFor(data.account.protocolId, data.sender);
        var l := GroupLookup(rooms, FromChatMsg(data), ghostUser, None, newRoomId);
        if l.Ambiguous? then Delivery([], rooms)
        else Delivery(CreationOf(l) + [SendMessage(ghostUser, Some(l.roomId), data.message)], RoomsAfter(rooms, l))
    }

    /** `handleIncomingChatMsg` exactly as the source has it: the bail-out of the lookup does not stop the send. */
    function IncomingChatMsgAsWritten(rooms: map<RoomId, RoomEntry>, purple: Purple, data: ReceivedChatMsg,
                                      newRoomId: RoomId): Delivery
    {
      if data.account.protocolId !in purple.getProtocol then Delivery([], rooms)
      else
        var ghostUser := hooks.ghostFor(data.account.protocolId, data.sender);
        var l := GroupLookup(rooms, FromChatMsg(data), ghostUser, None, newRoomId);
        Delivery(CreationOf(l) + [SendMessage(ghostUser, RoomOf(l), data.message)], RoomsAfter(rooms, l))
    }

    /**
     * `handleChatInvite`: find the account's owner and the protocol, find or
     * create the chat's room inviting the owner, then forward the invite's
     * text only when it has one. An ambiguous room stops the delivery.
     */
    function IncomingChatInvite(links: seq<AccountLink>, rooms: map<RoomId, RoomEntry>, purple: Purple,
                                data: ChatInvite, newRoomId: RoomId): Delivery
    {
      var owner := MatrixUserForAccount(links, data.account);
      if owner.None? || data.account.protocolId !in purple.getProtocol then Delivery([], rooms)
      else
        var ghostUser := hooks.ghostFor(data.account.protocolId, data.sender);
        var l := GroupLookup(rooms, FromInvite(data), ghostUser, owner, newRoomId);
        if l.Ambiguous? then Delivery([], rooms)
        else Delivery(CreationOf(l)
                      + (if Truthy(data.message) then [SendMessage(ghostUser, Some(l.roomId), data.message.value)] else []),
                      RoomsAfter(rooms, l))
    }

    /** `handleChatInvite` exactly as the source has it: the bail-out of the lookup does not stop the send. */
    function IncomingChatInviteAsWritten(links: seq<AccountLink>, rooms: map<RoomId, RoomEntry>, purple: Purple,
                                         data: ChatInvite, newRoomId: RoomId): Delivery
    {
      var owner := MatrixUserForAccount(links, data.account);
      if owner.None? || data.account.protocolId !in purple.getProtocol then Delivery([], rooms)
      else
        var ghostUser := hooks.ghostFor(data.account.protocolId, data.sender);
        var l := GroupLookup(rooms, FromInvite(data), ghostUser, owner, newRoomId);
        Delivery(CreationOf(l)
                 + (if Truthy(data.message) then [SendMessage(ghostUser, RoomOf(l), data.message.value)] else []),
                 RoomsAfter(rooms, l))
    }

    /** A chat message for an unknown protocol creates no room and sends nothing. */
    lemma IncomingChatMsgBailOut(rooms: map<RoomId, RoomEntry>, purple: Purple, data: ReceivedChatMsg,
                                 newRoomId: RoomId)
      requires data.account.protocolId !in purple.getProtocol
      ensures IncomingChatMsg(rooms, purple, data, newRoomId) == Delivery([], rooms)
    {
    }

    /**
     * A chat message never invites anyone into the room it creates, stores
     * no join properties, and is sent as its sender's ghost to a group room
     * of its chat.
     */
    lemma IncomingChatMsgDelivery(rooms: map<RoomId, RoomEntry>, purple: Purple, data: ReceivedChatMsg,
                                  newRoomId: RoomId)
      ensures var d := IncomingChatMsg(rooms, purple, data, newRoomId);
              && (forall a :: a in d.actions && a.CreateRoom? ==> a.invite == [] && !a.isDirect)
              && (forall a :: a in d.actions && a.SendMessage? ==>
                    && a.sender == hooks.ghostFor(data.account.protocolId, data.sender)
                    && a.body == data.message
                    && a.room.Some? && a.room.value in d.rooms
                    && GroupMatch(d.rooms[a.room.value], data.account.protocolId, data.convName))
              && (forall r :: r in d.rooms && r !in rooms ==> d.rooms[r].remote.properties.None?)
    {
      if data.account.protocolId in purple.getProtocol {
        var ghostUser := hooks.ghostFor(data.account.protocolId, data.sender);
        var l := GroupLookup(rooms, FromChatMsg(data), ghostUser, None, newRoomId);
        if l.Reused? {
          assert l.roomId in GroupMatches(rooms, data.account.protocolId, data.convName);
        }
      }
    }

    /** A chat invite without a unique owner, or for an unknown protocol, creates no room and sends nothing. */
    lemma IncomingChatInviteBailOuts(links: seq<AccountLink>, rooms: map<RoomId, RoomEntry>, purple: Purple,
                                     data: ChatInvite, newRoomId: RoomId)
      requires |MatrixUsersForRemote(links, data.account.protocolId, data.account.username)| != 1
               || data.account.protocolId !in purple.getProtocol
      ensures IncomingChatInvite(links, rooms, purple, data, newRoomId) == Delivery([], rooms)
    {
    }

    /**
     * A chat invite creates a room that invites the account's owner, stores
     * the join properties without the password, and forwards text exactly
     * when the invite carries a message.
     */
    lemma IncomingChatInviteDelivery(links: seq<AccountLink>, rooms: map<RoomId, RoomEntry>, purple: Purple,
                                     data: ChatInvite, newRoomId: RoomId)
      ensures var d := IncomingChatInvite(links, rooms, purple, data, newRoomId);
              && (forall a :: a in d.actions && a.CreateRoom? ==>
                    MatrixUserForAccount(links, data.account).Some?
                    && a.invite == [MatrixUserForAccount(links, data.account).value])
              && (forall r :: r in d.rooms && r !in rooms ==>
                    d.rooms[r].remote.properties == Some(StripPassword(data.joinProperties))
                    && "password" !in d.rooms[r].remote.properties.value)
              && (forall a :: a in d.actions && a.SendMessage? ==>
                    Truthy(data.message) && a.body == data.message.value && a.room.Some? && a.room.value in d.rooms)
              && (!Truthy(data.message) ==> forall a :: a in d.actions ==> !a.SendMessage?)
    {
      var owner := MatrixUserForAccount(links, data.account);
      if owner.Some? && data.account.protocolId in purple.getProtocol {
        var ghostUser := hooks.ghostFor(data.account.protocolId, data.sender);
        var l := GroupLookup(rooms, FromInvite(data), ghostUser, owner, newRoomId);
        if l.Reused? {
          assert l.roomId in GroupMatches(rooms, data.account.protocolId, RoomNameOf(FromInvite(data)));
        }
      }
    }

    /** A delivered chat invite with a message forwards it to the room it found or created. */
    lemma IncomingChatInviteForwardsMessage(links: seq<AccountLink>, rooms: map<RoomId, RoomEntry>, purple: Purple,
                                           data: ChatInvite, newRoomId: RoomId)
      requires MatrixUserForAccount(links, data.account).Some? && data.account.protocolId in purple.getProtocol
      requires !GroupLookup(rooms, FromInvite(data), hooks.ghostFor(data.account.protocolId, data.sender),
                            MatrixUserForAccount(links, data.account), newRoomId).Ambiguous?
      requires Truthy(data.message)
      ensures var l := GroupLookup(rooms, FromInvite(data), hooks.ghostFor(data.account.protocolId, data.sender),
                                   MatrixUserForAccount(links, data.account), newRoomId);
              SendMessage(hooks.ghostFor(data.account.protocolId, data.sender), Some(l.roomId), data.message.value)
                in IncomingChatInvite(links, rooms, purple, data, newRoomId).actions
    {
    }

    /** As written, two group rooms for one chat still lead to a message sent to no room at all. */
    lemma AmbiguousChatSendsToNoRoomAsWritten(purple: Purple, data: ReceivedChatMsg, newRoomId: RoomId)
      requires data.account.protocolId in purple.getProtocol
      ensures var e := GroupEntry(data.account.protocolId, data.convName, None);
              var rooms := map["!a:hs" := e, "!b:hs" := e];
              SendMessage(hooks.ghostFor(data.account.protocolId, data.sender), None, data.message)
                in IncomingChatMsgAsWritten(rooms, purple, data, newRoomId).actions
    {
      var e := GroupEntry(data.account.protocolId, data.convName, None);
      var rooms := map["!a:hs" := e, "!b:hs" := e];
      var m := GroupMatches(rooms, data.account.protocolId, data.convName);
      assert "!a:hs" in m && "!b:hs" in m;
      assert |{"!a:hs", "!b:hs"}| == 2;
      SubsetSize({"!a:hs", "!b:hs"}, m);
    }

    /** The corrected handlers never send a message to a missing room. */
    lemma DeliveriesAlwaysHaveARoom(links: seq<AccountLink>, rooms: map<RoomId, RoomEntry>, purple: Purple,
                                    im: ReceivedIm, msg: ReceivedChatMsg, invite: ChatInvite, newRoomId: RoomId)
      ensures forall a :: a in IncomingIm(links, rooms, purple, im, newRoomId).actions && a.SendMessage? ==>
                a.room.Some?
      ensures forall a :: a in IncomingChatMsg(rooms, purple, msg, newRoomId).actions && a.SendMessage? ==>
                a.room.Some?
      ensures forall a :: a in IncomingChatInvite(links, rooms, purple, invite, newRoomId).actions && a.SendMessage? ==>
                a.room.Some?
    {
      IncomingImReachesItsRoom(links, rooms, purple, im, newRoomId);
      IncomingChatMsgDelivery(rooms, purple, msg, newRoomId);
      IncomingChatInviteDelivery(links, rooms, purple, invite, newRoomId);
    }

    // ------------------------------------------------------ event handlers

    /** `handleIncomingIM`; `newRoomId` is the id the homeserver gives a room it creates. */
    method HandleIncomingIM(data: ReceivedIm, purple: Purple, newRoomId: RoomId)
      modifies this`actions, store
      ensures var d := IncomingIm(old(store.accounts), old(store.rooms), purple, data, newRoomId);
              actions == old(actions) + d.actions && store.rooms == d.rooms
      ensures store.accounts == old(store.accounts)
    {
      var owner := MatrixUserForAccount(store.accounts, data.account);
      if owner.None? {
        return;
      }
      if data.account.protocolId !in purple.getProtocol {
        return;
      }
      var ghostUser := hooks.ghostFor(data.account.protocolId, data.sender);
      var roomId := CreateOrGetIMRoom(data, owner.value, ghostUser, newRoomId);
      if roomId.None? {
        return;
      }
      actions := actions + [UpdateProfile(data.account.protocolId, data.sender),
                            SendMessage(ghostUser, roomId, data.message)];
    }

    /** `handleIncomingChatMsg`. */
    method HandleIncomingChatMsg(data: ReceivedChatMsg, purple: Purple, newRoomId: RoomId)
      modifies this`actions, store
      ensures var d := IncomingChatMsg(old(store.rooms), purple, data, newRoomId);
              actions == old(actions) + d.actions && store.rooms == d.rooms
      ensures store.accounts == old(store.accounts)
    {
      if data.account.protocolId !in purple.getProtocol {
        return;
      }
      var ghostUser := hooks.ghostFor(data.account.protocolId, data.sender);
      var roomId := CreateOrGetGroupChatRoom(FromChatMsg(data), ghostUser, None, newRoomId);
      if roomId.None? {
        return;
      }
      actions := actions + [SendMessage(ghostUser, roomId, data.message)];
    }

    /** `handleChatInvite`. */
    method HandleChatInvite(data: ChatInvite, purple: Purple, newRoomId: RoomId)
      modifies this`actions, store
      ensures var d := IncomingChatInvite(old(store.accounts), old(store.rooms), purple, data, newRoomId);
              actions == old(actions) + d.actions && store.rooms == d.rooms
      ensures store.accounts == old(store.accounts)
    {
      var owner := MatrixUserForAccount(store.accounts, data.account);
      if owner.None? {
        return;
      }
      if data.account.protocolId !in purple.getProtocol {
        return;
      }
      var ghostUser := hooks.ghostFor(data.account.protocolId, data.sender);
      var roomId := CreateOrGetGroupChatRoom(FromInvite(data), ghostUser, owner, newRoomId);
      if roomId.None? {
        return;
      }
      if Truthy(data.message) {
        actions := actions + [SendMessage(ghostUser, roomId, data.message.value)];
      }
    }
  }
}

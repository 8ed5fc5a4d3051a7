/**
 * The persistent store both handlers share: room entries by Matrix room id
 * and the links from Matrix users to remote accounts, with the queries the
 * handlers run against them.
 */
module RoomStore {
  import opened Wrappers
  import opened ChatParams
  import opened Model

  /** No link is stored twice. */
  predicate DistinctLinks(links: seq<AccountLink>) {
    forall i, j :: 0 <= i < j < |links| ==> links[i] != links[j]
  }

  /**
   * The links after `link` is stored: the stored links and `link`, each
   * once, in the order they were first stored.
   */
  function WithLink(links: seq<AccountLink>, link: AccountLink): (r: seq<AccountLink>)
    ensures forall l :: l in r <==> l in links || l == link
    ensures links <= r && |r| <= |links| + 1
    ensures DistinctLinks(links) ==> DistinctLinks(r)
  {
    if link in links then links else links + [link]
  }

  /** Storing a link a second time changes nothing. */
  lemma StoringALinkTwice(links: seq<AccountLink>, link: AccountLink)
    ensures WithLink(WithLink(links, link), link) == WithLink(links, link)
  {
  }

  class Store {
    var rooms: map<RoomId, RoomEntry>
    var accounts: seq<AccountLink>

    constructor ()
      ensures rooms == map[] && accounts == []
    {
      rooms := map[];
      accounts := [];
    }

    /** `storeRoom`: one entry per Matrix room id; a later store replaces it. */
    method StoreRoom(roomId: RoomId, entry: RoomEntry)
      modifies this
      ensures rooms == old(rooms)[roomId := entry]
      ensures accounts == old(accounts)
    {
      rooms := rooms[roomId := entry];
    }

    /** `removeRoomByRoomId`. */
    method RemoveRoomByRoomId(roomId: RoomId)
      modifies this
      ensures rooms == old(rooms) - {roomId}
      ensures accounts == old(accounts)
    {
      rooms := rooms - {roomId};
    }

    /**
     * `storeAccount`: links a Matrix user to a remote account. A link that is
     * already stored is not stored again.
     */
    method StoreAccount(mxid: UserId, protocolId: string, username: string)
      modifies this
      ensures var link := AccountLink(mxid, protocolId, username);
              accounts == if link in old(accounts) then old(accounts) else old(accounts) + [link]
      ensures accounts == WithLink(old(accounts), AccountLink(mxid, protocolId, username))
      ensures rooms == old(rooms)
    {
      var link := AccountLink(mxid, protocolId, username);
      if link !in accounts {
        accounts := accounts + [link];
      }
    }
  }

  /** `getRoomEntryByMatrixId`. */
  function EntryFor(rooms: map<RoomId, RoomEntry>, roomId: RoomId): (r: Option<RoomEntry>)
    ensures r.Some? <==> roomId in rooms
    ensures r.Some? ==> r.value == rooms[roomId]
  {
    if roomId in rooms then Some(rooms[roomId]) else None
  }

  /** `getAccountsForMatrixUser(mxid, protocolId)`: the user's links for one protocol, in store order. */
  function AccountsForMatrixUser(links: seq<AccountLink>, mxid: UserId, protocolId: string): (r: seq<AccountLink>)
    ensures |r| <= |links|
  {
    if links == [] then []
    else
      var l := links[|links| - 1];
      AccountsForMatrixUser(links[..|links| - 1], mxid, protocolId)
        + (if l.mxid == mxid && l.protocolId == protocolId then [l] else [])
  }

  /** `getRemoteUsersFromMatrixId(mxid)`: all of the user's links, in store order. */
  function RemoteUsersForMatrixId(links: seq<AccountLink>, mxid: UserId): (r: seq<AccountLink>)
    ensures |r| <= |links|
  {
    if links == [] then []
    else
      var l := links[|links| - 1];
      RemoteUsersForMatrixId(links[..|links| - 1], mxid) + (if l.mxid == mxid then [l] else [])
  }

  /**
   * `getMatrixUsersFromRemoteId(createRemoteId(protocolId, username))`: each
   * Matrix user linked to the account once, in the order of their first link.
   */
  function MatrixUsersForRemote(links: seq<AccountLink>, protocolId: string, username: string): (r: seq<UserId>)
    ensures |r| <= |links|
    ensures forall i, j :: 0 <= i < j < |r| ==> r[i] != r[j]
  {
    if links == [] then []
    else
      var l := links[|links| - 1];
      var users := MatrixUsersForRemote(links[..|links| - 1], protocolId, username);
      users + (if l.protocolId == protocolId && l.username == username && l.mxid !in users then [l.mxid] else [])
  }

  /** The links of one user for one protocol are exactly that user's links for it. */
  lemma {:induction false} AccountsForMatrixUserMembers(links: seq<AccountLink>, mxid: UserId, protocolId: string)
    ensures forall l :: l in AccountsForMatrixUser(links, mxid, protocolId) <==>
              l in links && l.mxid == mxid && l.protocolId == protocolId
  {
    if links != [] {
      var init := links[..|links| - 1];
      AccountsForMatrixUserMembers(init, mxid, protocolId);
      assert links == init + [links[|links| - 1]];
    }
  }

  /** A user's remote users are exactly the links that name the user. */
  lemma {:induction false} RemoteUsersForMatrixIdMembers(links: seq<AccountLink>, mxid: UserId)
    ensures forall l :: l in RemoteUsersForMatrixId(links, mxid) <==> l in links && l.mxid == mxid
  {
    if links != [] {
      var init := links[..|links| - 1];
      RemoteUsersForMatrixIdMembers(init, mxid);
      assert links == init + [links[|links| - 1]];
    }
  }

  /** The Matrix users of a remote account are exactly the users some link joins to it. */
  lemma {:induction false} MatrixUsersForRemoteMembers(links: seq<AccountLink>, protocolId: string, username: string)
    ensures forall u :: u in MatrixUsersForRemote(links, protocolId, username) <==>
              AccountLink(u, protocolId, username) in links
  {
    if links != [] {
      var init := links[..|links| - 1];
      MatrixUsersForRemoteMembers(init, protocolId, username);
      assert links == init + [links[|links| - 1]];
    }
  }

  /** `getRoomByRemoteData({properties, protocol_id})` finds an entry. */
  predicate HasRoomWithProperties(rooms: map<RoomId, RoomEntry>, protocolId: string, props: JoinProps) {
    exists r :: r in rooms && rooms[r].remote.GroupData? && rooms[r].remote.protocolId == protocolId
      && rooms[r].remote.properties == Some(props)
  }
}

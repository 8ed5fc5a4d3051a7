/**
 * Resolving the backend account that acts for a Matrix user, and the
 * validations the account commands of the admin room run before they act.
 */
module Accounts {
  import opened Wrappers
  import opened ChatParams
  import opened Model

  /** An account that may act for a user, and whether it was just autoregistered. */
  datatype Resolution = Resolution(acct: Account, newAcct: bool)

  /**
   * `getAccountForMxid`: `linked` is the user's stored links for the
   * protocol, in store order. Only the first one is consulted.
   */
  function GetAccountForMxid(sender: UserId, protocolId: string, linked: seq<AccountLink>,
                             autoReg: Option<AutoRegistration>,
                             accounts: map<AccountQuery, Account>): (r: Result<Resolution, AccountError>)
    // with no link: autoregistration or one of its two errors
    ensures |linked| == 0 && autoReg.None? ==> r == Err(AutoregistrationUnsupported)
    ensures |linked| == 0 && autoReg.Some? && protocolId !in autoReg.value.supported ==>
              r == Err(CannotAutoregister(protocolId))
    ensures |linked| == 0 && autoReg.Some? && protocolId in autoReg.value.supported ==>
              r == Ok(Resolution(autoReg.value.registerUser(protocolId, sender), true))
    // with a link: the backend's account for the first link, only when it exists and is enabled
    ensures |linked| > 0 ==>
              var q := AccountQuery(linked[0].username, protocolId, sender);
              && (q !in accounts ==> r == Err(AccountNotFound))
              && (q in accounts && !accounts[q].enabled ==> r == Err(AccountNotEnabled))
              && (q in accounts && accounts[q].enabled ==> r == Ok(Resolution(accounts[q], false)))
    ensures r.Ok? ==> (r.value.newAcct <==> |linked| == 0)
    ensures r.Ok? && !r.value.newAcct ==> r.value.acct.enabled
  {
    if |linked| == 0 then
      if autoReg.None? then Err(AutoregistrationUnsupported)
      else if protocolId !in autoReg.value.supported then Err(CannotAutoregister(protocolId))
      else Ok(Resolution(autoReg.value.registerUser(protocolId, sender), true))
    else
      var q := AccountQuery(linked[0].username, protocolId, sender);
      if q !in accounts then Err(AccountNotFound)
      else if !accounts[q].enabled then Err(AccountNotEnabled)
      else Ok(Resolution(accounts[q], false))
  }

  /** Links after the first never change the outcome. */
  lemma FirstLinkDecides(sender: UserId, protocolId: string, l1: seq<AccountLink>, l2: seq<AccountLink>,
                         autoReg: Option<AutoRegistration>, accounts: map<AccountQuery, Account>)
    requires |l1| > 0 && |l2| > 0 && l1[0] == l2[0]
    ensures GetAccountForMxid(sender, protocolId, l1, autoReg, accounts)
            == GetAccountForMxid(sender, protocolId, l2, autoReg, accounts)
  {
  }

  /** `purple.findProtocol(nameOrId)`; a missing argument finds nothing. */
  function FindProtocol(purple: Purple, nameOrId: Option<string>): (r: Option<Protocol>)
    ensures r.Some? <==> nameOrId.Some? && nameOrId.value in purple.findProtocol
    ensures r.Some? ==> r.value == purple.findProtocol[nameOrId.value]
  {
    if nameOrId.Some? && nameOrId.value in purple.findProtocol then Some(purple.findProtocol[nameOrId.value])
    else None
  }

  /** What `accounts add` goes on to create. */
  datatype NewAccountRequest = NewAccountRequest(protocol: Protocol, username: string, password: string)

  /** The checks of `handleNewAccount`, in the order it makes them. */
  function NewAccountCheck(purple: Purple, nameOrId: Option<string>, opts: seq<string>)
    : (r: Result<NewAccountRequest, CommandError>)
    ensures r.Ok? <==> FindProtocol(purple, nameOrId).Some? && FindProtocol(purple, nameOrId).value.canCreateNew
                       && |opts| >= 2 && opts[0] != "" && opts[1] != ""
    ensures r.Ok? ==> r.value == NewAccountRequest(FindProtocol(purple, nameOrId).value, opts[0], opts[1])
    ensures FindProtocol(purple, nameOrId).None? ==> r == Err(ProtocolNotFound)
    ensures FindProtocol(purple, nameOrId).Some? && !FindProtocol(purple, nameOrId).value.canCreateNew ==>
              r == Err(CannotCreateNew)
    ensures r == Err(UsernameMissing) <==>
              FindProtocol(purple, nameOrId).Some? && FindProtocol(purple, nameOrId).value.canCreateNew
              && !Truthy(At(opts, 0))
    ensures r == Err(PasswordMissing) <==>
              FindProtocol(purple, nameOrId).Some? && FindProtocol(purple, nameOrId).value.canCreateNew
              && Truthy(At(opts, 0)) && !Truthy(At(opts, 1))
  {
    var p := FindProtocol(purple, nameOrId);
    if p.None? then Err(ProtocolNotFound)
    else if !p.value.canCreateNew then Err(CannotCreateNew)
    else if !Truthy(At(opts, 0)) then Err(UsernameMissing)
    else if !Truthy(At(opts, 1)) then Err(PasswordMissing)
    else Ok(NewAccountRequest(p.value, opts[0], opts[1]))
  }

  /**
   * The checks of `handleAddExistingAccount`: both arguments present (an
   * empty name passes) and the protocol known. It does not consult
   * `canAddExisting`.
   */
  function AddExistingCheck(purple: Purple, protocolId: Option<string>, name: Option<string>)
    : (r: Result<(Protocol, string), CommandError>)
    ensures r.Ok? <==> protocolId.Some? && name.Some? && protocolId.value in purple.findProtocol
    ensures r.Ok? ==> r.value == (purple.findProtocol[protocolId.value], name.value)
    ensures protocolId.None? ==> r == Err(ProtocolNotSupplied)
    ensures protocolId.Some? && name.None? ==> r == Err(NameMissing)
    ensures protocolId.Some? && name.Some? && protocolId.value !in purple.findProtocol ==> r == Err(ProtocolNotFound)
  {
    if protocolId.None? then Err(ProtocolNotSupplied)
    else if name.None? then Err(NameMissing)
    else
      var p := FindProtocol(purple, protocolId);
      if p.None? then Err(ProtocolNotFound) else Ok((p.value, name.value))
  }

  /**
   * The checks of `handleEnableAccount`: a known protocol that allows
   * existing accounts, and the backend account of `mxid` with that username.
   */
  function EnableAccountCheck(purple: Purple, protocolId: Option<string>, username: Option<string>, mxid: UserId)
    : (r: Result<Account, CommandError>)
    ensures r.Ok? <==> FindProtocol(purple, protocolId).Some? && FindProtocol(purple, protocolId).value.canAddExisting
                       && username.Some?
                       && AccountQuery(username.value, FindProtocol(purple, protocolId).value.id, mxid) in purple.accounts
    ensures r.Ok? ==> r.value == purple.accounts[AccountQuery(username.value, FindProtocol(purple, protocolId).value.id, mxid)]
    ensures FindProtocol(purple, protocolId).None? ==> r == Err(ProtocolNotFound)
  {
    var p := FindProtocol(purple, protocolId);
    if p.None? then Err(ProtocolNotFound)
    else if !p.value.canAddExisting then Err(CannotAddExisting)
    else if username.None? || AccountQuery(username.value, p.value.id, mxid) !in purple.accounts then Err(NoSuchAccount)
    else Ok(purple.accounts[AccountQuery(username.value, p.value.id, mxid)])
  }
}

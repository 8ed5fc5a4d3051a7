/**
 * The `account-signed-on` listeners a deferred join leaves behind, and
 * what firing them does. A listener fires for every sign-on of its own
 * account (same username and protocol id), joins the chat, records the
 * join properties for the room, removes itself, and lets its awaiting
 * caller go on with `resume`.
 */
module SignOnListeners {
  import opened ChatParams
  import opened Model

  datatype Waiter = Waiter(account: AccountRef, roomName: string, props: JoinProps, resume: seq<Action>)

  predicate SignedOnMatches(w: Waiter, username: string, protocolId: string) {
    w.account.username == username && w.account.protocolId == protocolId
  }

  /** The join itself, then whatever the caller awaiting it does next. */
  function JoinActions(account: AccountRef, roomName: string, props: JoinProps, resume: seq<Action>): seq<Action> {
    [JoinChat(account, props), SetJoinProperties(account, roomName, props)] + resume
  }

  function Fire(w: Waiter): seq<Action> {
    JoinActions(w.account, w.roomName, w.props, w.resume)
  }

  /** The listeners still registered after a sign-on, in registration order. */
  function Remaining(ws: seq<Waiter>, username: string, protocolId: string): (r: seq<Waiter>)
    ensures |r| <= |ws|
  {
    if ws == [] then []
    else
      var w := ws[|ws| - 1];
      Remaining(ws[..|ws| - 1], username, protocolId) + (if SignedOnMatches(w, username, protocolId) then [] else [w])
  }

  /** The actions a sign-on triggers: each matching listener fires, in registration order. */
  function Fired(ws: seq<Waiter>, username: string, protocolId: string): seq<Action> {
    if ws == [] then []
    else
      var w := ws[|ws| - 1];
      Fired(ws[..|ws| - 1], username, protocolId) + (if SignedOnMatches(w, username, protocolId) then Fire(w) else [])
  }

  /** The listeners a sign-on fires. */
  function Matching(ws: seq<Waiter>, username: string, protocolId: string): seq<Waiter> {
    if ws == [] then []
    else
      var w := ws[|ws| - 1];
      Matching(ws[..|ws| - 1], username, protocolId) + (if SignedOnMatches(w, username, protocolId) then [w] else [])
  }

  /** A sign-on keeps exactly the listeners of other accounts. */
  lemma {:induction false} RemainingMembers(ws: seq<Waiter>, username: string, protocolId: string)
    ensures forall w :: w in Remaining(ws, username, protocolId) <==> w in ws && !SignedOnMatches(w, username, protocolId)
  {
    if ws != [] {
      var init := ws[..|ws| - 1];
      RemainingMembers(init, username, protocolId);
      assert ws == init + [ws[|ws| - 1]];
    }
  }

  /** A sign-on fires exactly the listeners of its own account. */
  lemma {:induction false} MatchingMembers(ws: seq<Waiter>, username: string, protocolId: string)
    ensures forall w :: w in Matching(ws, username, protocolId) <==> w in ws && SignedOnMatches(w, username, protocolId)
  {
    if ws != [] {
      var init := ws[..|ws| - 1];
      MatchingMembers(init, username, protocolId);
      assert ws == init + [ws[|ws| - 1]];
    }
  }

  /** A sign-on of an account no listener waits for changes nothing. */
  lemma {:induction false} UnrelatedSignOnChangesNothing(ws: seq<Waiter>, username: string, protocolId: string)
    requires forall i :: 0 <= i < |ws| ==> !SignedOnMatches(ws[i], username, protocolId)
    ensures Remaining(ws, username, protocolId) == ws
    ensures Fired(ws, username, protocolId) == []
  {
    if ws != [] {
      var init := ws[..|ws| - 1];
      assert forall i :: 0 <= i < |init| ==> init[i] == ws[i];
      UnrelatedSignOnChangesNothing(init, username, protocolId);
      assert ws == init + [ws[|ws| - 1]];
    }
  }

  /** Every matching listener removes itself, so a second sign-on of the same account fires nothing. */
  lemma SecondSignOnFiresNothing(ws: seq<Waiter>, username: string, protocolId: string)
    ensures Fired(Remaining(ws, username, protocolId), username, protocolId) == []
    ensures Remaining(Remaining(ws, username, protocolId), username, protocolId) == Remaining(ws, username, protocolId)
  {
    var r := Remaining(ws, username, protocolId);
    RemainingMembers(ws, username, protocolId);
    assert forall i :: 0 <= i < |r| ==> r[i] in r;
    UnrelatedSignOnChangesNothing(r, username, protocolId);
  }

  function CountJoins(actions: seq<Action>): nat {
    if actions == [] then 0
    else CountJoins(actions[..|actions| - 1]) + (if actions[|actions| - 1].JoinChat? then 1 else 0)
  }

  lemma {:induction false} CountJoinsAppend(a: seq<Action>, b: seq<Action>)
    ensures CountJoins(a + b) == CountJoins(a) + CountJoins(b)
    decreases |b|
  {
    if b == [] {
      assert a + b == a;
    } else {
      assert (a + b)[..|a + b| - 1] == a + b[..|b| - 1];
      assert (a + b)[|a + b| - 1] == b[|b| - 1];
      CountJoinsAppend(a, b[..|b| - 1]);
    }
  }

  /**
   * Each firing listener joins its chat exactly once (when the code it
   * resumes joins nothing itself): a sign-on performs one join per
   * matching listener.
   */
  lemma {:induction false} OneJoinPerMatchingListener(ws: seq<Waiter>, username: string, protocolId: string)
    requires forall w :: w in ws ==> CountJoins(w.resume) == 0
    ensures CountJoins(Fired(ws, username, protocolId)) == |Matching(ws, username, protocolId)|
  {
    if ws != [] {
      var w := ws[|ws| - 1];
      assert forall v :: v in ws[..|ws| - 1] ==> v in ws;
      OneJoinPerMatchingListener(ws[..|ws| - 1], username, protocolId);
      if SignedOnMatches(w, username, protocolId) {
        var prefix := [JoinChat(w.account, w.props), SetJoinProperties(w.account, w.roomName, w.props)];
        CountJoinsAppend(prefix, w.resume);
        assert prefix[..1] == [JoinChat(w.account, w.props)];
        assert prefix[..1][..0] == [];
        assert CountJoins(prefix[..1]) == 1;
        assert CountJoins(prefix) == 1;
        CountJoinsAppend(Fired(ws[..|ws| - 1], username, protocolId), Fire(w));
      } else {
        var f, m := Fired(ws[..|ws| - 1], username, protocolId), Matching(ws[..|ws| - 1], username, protocolId);
        assert f + [] == f && m + [] == m;
      }
    }
  }

  /** A listener for one account: the sign-on of that account fires it with its original properties. */
  lemma DeferredJoinFiresOnItsAccount(w: Waiter)
    ensures Fired([w], w.account.username, w.account.protocolId) == Fire(w)
    ensures Remaining([w], w.account.username, w.account.protocolId) == []
    ensures Fire(w)[0] == JoinChat(w.account, w.props)
  {
    assert [w][..0] == [];
  }
}

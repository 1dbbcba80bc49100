/**
 * A heartbeat that is not one instant: it passes its expiry test, locks its row, and commits later. It takes no lock on
 * the conversation, so a begin in between still sees the old lease.
 */
module LateHeartbeat {
  import opened Outcomes
  import opened JsonText
  import opened DialogueState
  import opened Turns
  import opened TurnProtocol

  /** The row an action writes waits for the heartbeat's lock; every other action goes on. */
  predicate WaitsFor(a: Action, req: Request) {
    match a
    case BeginTurn(r, _, _) => r == req
    case CompleteTurn(r, _, _, _) => r == req
    case FailTurn(r, _) => r == req
    case HeartbeatTurn(r, _) => r == req
    case ReapTurn(r) => r == req
    case RecoverTurn(r) => r == req
    case _ => false
  }

  predicate Elsewhere(actions: seq<Action>, req: Request) {
    forall i | 0 <= i < |actions| :: Admissible(actions[i]) && !WaitsFor(actions[i], req)
  }

  lemma OthersKeepRow(h: Hash, conversation: Str, s: State, a: Action, req: Request)
    requires req in s.tables.users && !WaitsFor(a, req)
    ensures var t := Apply(h, conversation, s, a); req in t.tables.users && t.tables.users[req] == s.tables.users[req]
  {
    if a.CompleteTurn? { CompleteKeepsOthers(h, conversation, s.tables, s.now, a, req); }
  }

  lemma CompleteKeepsOthers(h: Hash, conversation: Str, t: Tables, now: int, a: Action, req: Request)
    requires a.CompleteTurn? && a.request != req && req in t.users
    ensures var t' := Complete(h, conversation, t, now, a.request, a.lease, a.answer, a.candidate).0;
      req in t'.users && t'.users[req] == t.users[req]
  {
  }

  lemma {:induction false} ElsewhereKeepsRow(h: Hash, conversation: Str, s: State, more: seq<Action>, req: Request)
    requires req in s.tables.users && Elsewhere(more, req)
    ensures var t := Execute(h, conversation, s, more); req in t.tables.users && t.tables.users[req] == s.tables.users[req]
  {
    if more != [] {
      ElsewhereKeepsRow(h, conversation, s, more[..|more| - 1], req);
      OthersKeepRow(h, conversation, Execute(h, conversation, s, more[..|more| - 1]), more[|more| - 1], req);
    }
  }

  /** The heartbeat's write, with the expiry it computed at its check. */
  function Landed(t: Tables, req: Request, expiresAt: int): Tables
    requires req in t.users && t.users[req].lease.Some?
  {
    t.(users := t.users[req := t.users[req].(lease := Some(t.users[req].lease.value.(expiresAt := expiresAt)))])
  }

  predicate TwoLive(t: Tables, now: int) {
    exists r, q :: r in t.users && q in t.users && r != q && LiveAt(t.users[r], now) && LiveAt(t.users[q], now)
  }

  /**
   * Checked in a reachable state and committed after any actions on other rows, a heartbeat makes two turns live exactly
   * when another turn has become live by then and the lease it computed at its check has not run out itself.
   */
  lemma LateHeartbeatIff(h: Hash, conversation: Str, start: int, actions: seq<Action>, s: State, more: seq<Action>,
                         req: Request, lease: LeaseId)
    requires Reached(h, conversation, start, actions, s) && HoldsLease(s.tables, s.now, req, lease) && Elsewhere(more, req)
    ensures var t := Execute(h, conversation, s, more);
      && req in t.tables.users && t.tables.users[req] == s.tables.users[req]
      && (TwoLive(Landed(t.tables, req, s.now + TURN_LEASE_MS), t.now) <==>
            OtherTurnLive(t.tables, req, t.now) && t.now < s.now + TURN_LEASE_MS)
  {
    var t := Execute(h, conversation, s, more);
    ElsewhereKeepsRow(h, conversation, s, more, req);
    ReachableInv(h, conversation, start, actions);
    ExecuteIsStable(h, conversation, s, more);
    LandedIff(t, req, s.now + TURN_LEASE_MS);
  }

  lemma LandedIff(t: State, req: Request, expiresAt: int)
    requires LiveOk(t) && req in t.tables.users && t.tables.users[req].status.Pending? && t.tables.users[req].lease.Some?
    ensures TwoLive(Landed(t.tables, req, expiresAt), t.now) <==> OtherTurnLive(t.tables, req, t.now) && t.now < expiresAt
  {
    var u := Landed(t.tables, req, expiresAt);
    assert LiveAt(u.users[req], t.now) <==> t.now < expiresAt;
    if OtherTurnLive(t.tables, req, t.now) && t.now < expiresAt {
      var r :| r in t.tables.users && r != req && LiveAt(t.tables.users[r], t.now);
      assert u.users[r] == t.tables.users[r];
    }
  }

  /** It happens: the test passes one millisecond before the lease ends, another turn begins as it ends. */
  lemma LateHeartbeatHappens(h: Hash, conversation: Str)
    ensures var s := Execute(h, conversation, Empty(0), [BeginTurn(0, "a", 0), Tick(TURN_LEASE_MS - 1)]);
      var t := Execute(h, conversation, s, [Tick(1), BeginTurn(1, "b", 1)]);
      && HoldsLease(s.tables, s.now, 0, 0) && Elsewhere([Tick(1), BeginTurn(1, "b", 1)], 0)
      && 0 in t.tables.users && t.tables.users[0].lease.Some?
      && TwoLive(Landed(t.tables, 0, s.now + TURN_LEASE_MS), t.now)
  {
    var first, rest := [BeginTurn(0, "a", 0), Tick(TURN_LEASE_MS - 1)], [Tick(1), BeginTurn(1, "b", 1)];
    ExecuteTwo(h, conversation, Empty(0), first[0], first[1]);
    var s := Execute(h, conversation, Empty(0), first);
    FirstTurnBegins(h, conversation);
    ExecuteTwo(h, conversation, s, rest[0], rest[1]);
    var t := Execute(h, conversation, s, rest);
    SecondTurnBegins(h, conversation, s);
    assert LiveAt(Landed(t.tables, 0, s.now + TURN_LEASE_MS).users[0], t.now);
    assert LiveAt(Landed(t.tables, 0, s.now + TURN_LEASE_MS).users[1], t.now);
  }

  lemma ExecuteTwo(h: Hash, conversation: Str, s: State, a: Action, b: Action)
    ensures Execute(h, conversation, s, [a, b]) == Apply(h, conversation, Apply(h, conversation, s, a), b)
  {
    assert [a, b][..1] == [a] && [a][..0] == [];
    assert Execute(h, conversation, s, [a]) == Apply(h, conversation, s, a);
  }

  lemma FirstTurnBegins(h: Hash, conversation: Str)
    ensures var s := Apply(h, conversation, Apply(h, conversation, Empty(0), BeginTurn(0, "a", 0)), Tick(TURN_LEASE_MS - 1));
      && s.now == TURN_LEASE_MS - 1 && s.tables.users.Keys == {0} && s.tables.users[0].status == Pending
      && s.tables.users[0].lease == Some(Lease(0, TURN_LEASE_MS))
      && s.tables.assistants == map[] && s.tables.active && !s.tables.deleted && s.grants.Keys == {0}
  {
  }

  lemma SecondTurnBegins(h: Hash, conversation: Str, s: State)
    requires s.now == TURN_LEASE_MS - 1 && s.tables.users.Keys == {0} && s.tables.users[0].status == Pending
    requires s.tables.users[0].lease == Some(Lease(0, TURN_LEASE_MS))
    requires s.tables.assistants == map[] && s.tables.active && !s.tables.deleted && s.grants.Keys == {0}
    ensures var t := Apply(h, conversation, Apply(h, conversation, s, Tick(1)), BeginTurn(1, "b", 1));
      && t.now == TURN_LEASE_MS && 0 in t.tables.users && t.tables.users[0] == s.tables.users[0]
      && 1 in t.tables.users && LiveAt(t.tables.users[1], t.now)
  {
  }
}

/** Relaying the incident outbox to notifications: at-least-once workers over a keyed insert. */
module IncidentRelay {
  import opened Outcomes

  datatype Status = Pending | Claimed | Delivered | Retry | DeadLetter

  /** A transition of an incident; the outbox holds it once. */
  datatype SourceId = SourceId(incident: string, sequence: nat)

  datatype Row = Row(
    source: SourceId, supported: bool, payload: string, status: Status, claimedBy: Option<string>, attempts: nat)

  /** A notification event; its body is projected from the outbox row alone. */
  datatype Event = Event(source: SourceId, body: string)

  type OutboxId = nat
  type RunId = nat

  const MAX_ATTEMPTS := 10

  function Project(r: Row): Event { Event(r.source, r.payload) }

  /** One worker's handling of one claimed row, by the call it makes next. */
  datatype Pc = Upsert | MarkDelivered | MarkFailed | Stopped

  /** The row as it was returned by the claim stays with the run. */
  datatype Run = Run(worker: string, outbox: OutboxId, claimed: Row, pc: Pc)

  datatype State = State(outbox: map<OutboxId, Row>, events: seq<Event>, runs: map<RunId, Run>)

  datatype Action =
    | Claim(run: RunId, worker: string, outbox: OutboxId, expired: bool)
    | Step(run: RunId, fault: bool)
    | Crash(run: RunId)

  predicate Notified(events: seq<Event>, s: SourceId) { exists i :: 0 <= i < |events| && events[i].source == s }

  /** `INSERT ... ON CONFLICT(source_type,source_id) DO NOTHING`. */
  function UpsertBySource(events: seq<Event>, e: Event): seq<Event> {
    if Notified(events, e.source) then events else events + [e]
  }

  /** The guard shared by both outbox updates. */
  predicate HoldsClaim(s: State, run: Run) {
    run.outbox in s.outbox && s.outbox[run.outbox].status == Claimed && s.outbox[run.outbox].claimedBy == Some(run.worker)
  }

  function Mark(s: State, run: Run, status: Status): State
    requires HoldsClaim(s, run)
  {
    s.(outbox := s.outbox[run.outbox := s.outbox[run.outbox].(status := status, claimedBy := None)])
  }

  function Goto(s: State, id: RunId, pc: Pc): State
    requires id in s.runs
  {
    s.(runs := s.runs[id := s.runs[id].(pc := pc)])
  }

  function StepRun(s: State, id: RunId, fault: bool): State
    requires id in s.runs
  {
    var run := s.runs[id];
    match run.pc
    case Upsert =>
      // An unsupported event type or a failing insert is handled by the catch block.
      if !run.claimed.supported || fault then Goto(s, id, MarkFailed)
      else Goto(s.(events := UpsertBySource(s.events, Project(run.claimed))), id, MarkDelivered)
    case MarkDelivered =>
      if !fault && HoldsClaim(s, run) then Goto(Mark(s, run, Delivered), id, Stopped) else Goto(s, id, MarkFailed)
    case MarkFailed =>
      if !fault && HoldsClaim(s, run)
      then Goto(Mark(s, run, if run.claimed.attempts >= MAX_ATTEMPTS then DeadLetter else Retry), id, Stopped)
      else Goto(s, id, Stopped)
    case Stopped => s
  }

  /**
   * A claim takes a pending or retried row; with `expired` it may also take over a claimed row, which
   * the visible claim function never does.
   */
  predicate Claimable(r: Row, expired: bool) { r.status in {Pending, Retry} || (expired && r.status == Claimed) }

  function Apply(s: State, a: Action): State {
    match a
    case Claim(id, worker, o, expired) =>
      if id in s.runs || o !in s.outbox || !Claimable(s.outbox[o], expired) then s
      else
        var r := s.outbox[o].(status := Claimed, claimedBy := Some(worker), attempts := s.outbox[o].attempts + 1);
        s.(outbox := s.outbox[o := r], runs := s.runs[id := Run(worker, o, r, Upsert)])
    case Step(id, fault) => if id in s.runs then StepRun(s, id, fault) else s
    case Crash(id) => if id in s.runs then Goto(s, id, Stopped) else s
  }

  function Execute(s: State, actions: seq<Action>): State {
    if actions == [] then s else Apply(Execute(s, actions[..|actions| - 1]), actions[|actions| - 1])
  }

  // ----- Invariants -----

  /** Immutable columns of a row. */
  predicate SameTransition(r: Row, q: Row) { r.source == q.source && r.supported == q.supported && r.payload == q.payload }

  ghost predicate RunsOk(s: State) {
    forall id | id in s.runs ::
      && s.runs[id].outbox in s.outbox && SameTransition(s.runs[id].claimed, s.outbox[s.runs[id].outbox])
      && (s.runs[id].pc == MarkDelivered ==> Notified(s.events, s.runs[id].claimed.source))
  }

  predicate OutboxOk(outbox: map<OutboxId, Row>, events: seq<Event>) {
    && (forall o | o in outbox && outbox[o].status == Delivered :: Notified(events, outbox[o].source))
    && (forall o, p | o in outbox && p in outbox && o != p :: outbox[o].source != outbox[p].source)
  }

  /** An event restates some supported outbox row. */
  predicate Restates(outbox: map<OutboxId, Row>, e: Event) {
    exists o :: o in outbox && outbox[o].supported && e.source == outbox[o].source && e.body == outbox[o].payload
  }

  predicate EventsOk(outbox: map<OutboxId, Row>, events: seq<Event>) {
    && (forall i, j | 0 <= i < j < |events| :: events[i].source != events[j].source)
    && (forall i | 0 <= i < |events| :: Restates(outbox, events[i]))
  }

  ghost predicate Inv(s: State) { RunsOk(s) && OutboxOk(s.outbox, s.events) && EventsOk(s.outbox, s.events) }

  lemma UpsertNotifies(events: seq<Event>, e: Event)
    ensures Notified(UpsertBySource(events, e), e.source)
    ensures forall s | Notified(events, s) :: Notified(UpsertBySource(events, e), s)
  {
    var after := UpsertBySource(events, e);
    if !Notified(events, e.source) { assert after[|events|] == e; }
    forall s | Notified(events, s) ensures Notified(after, s) {
      var i :| 0 <= i < |events| && events[i].source == s;
      assert after[i] == events[i];
    }
  }

  /** Writing status, claim and attempts of one row keeps every projection. */
  lemma RowWriteKeepsInv(s: State, s': State, o: OutboxId, r: Row)
    requires Inv(s) && o in s.outbox && SameTransition(r, s.outbox[o])
    requires r.status == Delivered ==> Notified(s.events, r.source)
    requires s' == s.(outbox := s.outbox[o := r])
    ensures Inv(s')
  {
    forall i | 0 <= i < |s'.events| ensures Restates(s'.outbox, s'.events[i]) {
      assert Restates(s.outbox, s.events[i]);
      var p :| p in s.outbox && s.outbox[p].supported && s.events[i].source == s.outbox[p].source && s.events[i].body == s.outbox[p].payload;
      assert p in s'.outbox && s'.outbox[p].supported && s'.events[i].source == s'.outbox[p].source && s'.events[i].body == s'.outbox[p].payload;
    }
  }

  lemma GotoKeepsInv(s: State, id: RunId, pc: Pc)
    requires Inv(s) && id in s.runs && (pc == MarkDelivered ==> Notified(s.events, s.runs[id].claimed.source))
    ensures Inv(Goto(s, id, pc))
  {
  }

  lemma UpsertKeepsInv(s: State, id: RunId)
    requires Inv(s) && id in s.runs && s.runs[id].claimed.supported
    ensures Inv(s.(events := UpsertBySource(s.events, Project(s.runs[id].claimed))))
  {
    var e, run := Project(s.runs[id].claimed), s.runs[id];
    UpsertNotifies(s.events, e);
    var s' := s.(events := UpsertBySource(s.events, e));
    forall i | 0 <= i < |s'.events| ensures Restates(s'.outbox, s'.events[i]) {
      if i < |s.events| {
        assert s'.events[i] == s.events[i];
      } else {
        assert s'.events[i] == Project(s.outbox[run.outbox]);
      }
    }
  }

  lemma StepKeepsInv(s: State, id: RunId, fault: bool)
    requires Inv(s) && id in s.runs
    ensures Inv(StepRun(s, id, fault))
  {
    var run := s.runs[id];
    match run.pc {
      case Upsert =>
        if !run.claimed.supported || fault {
          GotoKeepsInv(s, id, MarkFailed);
        } else {
          UpsertKeepsInv(s, id);
          UpsertNotifies(s.events, Project(run.claimed));
          GotoKeepsInv(s.(events := UpsertBySource(s.events, Project(run.claimed))), id, MarkDelivered);
        }
      case MarkDelivered =>
        if !fault && HoldsClaim(s, run) {
          RowWriteKeepsInv(s, Mark(s, run, Delivered), run.outbox, Mark(s, run, Delivered).outbox[run.outbox]);
          GotoKeepsInv(Mark(s, run, Delivered), id, Stopped);
        } else {
          GotoKeepsInv(s, id, MarkFailed);
        }
      case MarkFailed =>
        if !fault && HoldsClaim(s, run) {
          var t := Mark(s, run, if run.claimed.attempts >= MAX_ATTEMPTS then DeadLetter else Retry);
          RowWriteKeepsInv(s, t, run.outbox, t.outbox[run.outbox]);
          GotoKeepsInv(t, id, Stopped);
        } else {
          GotoKeepsInv(s, id, Stopped);
        }
      case Stopped =>
    }
  }

  lemma ApplyKeepsInv(s: State, a: Action)
    requires Inv(s)
    ensures Inv(Apply(s, a))
  {
    match a {
      case Step(id, fault) => if id in s.runs { StepKeepsInv(s, id, fault); }
      case Crash(id) => if id in s.runs { GotoKeepsInv(s, id, Stopped); }
      case Claim(id, worker, o, expired) =>
        if id !in s.runs && o in s.outbox && Claimable(s.outbox[o], expired) {
          var r := s.outbox[o].(status := Claimed, claimedBy := Some(worker), attempts := s.outbox[o].attempts + 1);
          RowWriteKeepsInv(s, s.(outbox := s.outbox[o := r]), o, r);
        }
    }
  }

  lemma {:induction false} ExecuteKeepsInv(s: State, actions: seq<Action>)
    requires Inv(s)
    ensures Inv(Execute(s, actions))
  {
    if actions != [] {
      ExecuteKeepsInv(s, actions[..|actions| - 1]);
      ApplyKeepsInv(Execute(s, actions[..|actions| - 1]), actions[|actions| - 1]);
    }
  }

  /** An outbox with distinct transitions, nothing delivered and nothing notified yet. */
  predicate Initial(s: State) {
    && s.events == [] && s.runs == map[]
    && (forall o | o in s.outbox :: s.outbox[o].status == Pending)
    && (forall o, p | o in s.outbox && p in s.outbox && o != p :: s.outbox[o].source != s.outbox[p].source)
  }

  /**
   * Under any interleaving of workers with crashes, faults and lost claims: each transition yields at
   * most one event, that event says what its outbox row says, and a delivered row has its event.
   */
  lemma OneEventPerTransition(s: State, actions: seq<Action>)
    requires Initial(s)
    ensures var t := Execute(s, actions); EventsOk(t.outbox, t.events) && OutboxOk(t.outbox, t.events)
  {
    ExecuteKeepsInv(s, actions);
  }

  /** Delivered and dead-lettered rows are settled. */
  lemma {:induction false} SettledStays(s: State, actions: seq<Action>, o: OutboxId)
    requires o in s.outbox && s.outbox[o].status in {Delivered, DeadLetter}
    ensures o in Execute(s, actions).outbox && Execute(s, actions).outbox[o] == s.outbox[o]
  {
    if actions != [] { SettledStays(s, actions[..|actions| - 1], o); }
  }

  // ----- Claims whose worker is gone -----

  /** Run `id` handles the row for the worker that holds its claim, and has not stopped. */
  predicate Handles(s: State, id: RunId, o: OutboxId) {
    id in s.runs && o in s.outbox && s.runs[id].outbox == o && s.outbox[o].claimedBy == Some(s.runs[id].worker) && s.runs[id].pc != Stopped
  }

  /** A claimed row that no run handles any more. */
  ghost predicate Orphaned(s: State, o: OutboxId) {
    o in s.outbox && s.outbox[o].status == Claimed && forall id :: !Handles(s, id, o)
  }

  /** The visible claim function takes pending and retried rows only. */
  predicate VisibleClaims(actions: seq<Action>) {
    forall i | 0 <= i < |actions| :: actions[i].Claim? ==> !actions[i].expired
  }

  lemma OrphanStays(s: State, a: Action, o: OutboxId)
    requires Orphaned(s, o) && (a.Claim? ==> !a.expired)
    ensures Orphaned(Apply(s, a), o) && Apply(s, a).outbox[o] == s.outbox[o]
  {
    var t := Apply(s, a);
    if a.Step? && a.run in s.runs { assert !Handles(s, a.run, o); }
    forall id ensures !Handles(t, id, o) { assert !Handles(s, id, o); }
  }

  /** With the visible claim function, a row whose worker died after claiming it is never taken up again. */
  lemma {:induction false} OrphanedClaimIsStuck(s: State, actions: seq<Action>, o: OutboxId)
    requires Orphaned(s, o) && VisibleClaims(actions)
    ensures Orphaned(Execute(s, actions), o) && Execute(s, actions).outbox[o] == s.outbox[o]
  {
    if actions != [] {
      var before, a := actions[..|actions| - 1], actions[|actions| - 1];
      OrphanedClaimIsStuck(s, before, o);
      OrphanStays(Execute(s, before), a, o);
    }
  }

  ghost predicate Leaves(s: State, actions: seq<Action>, o: OutboxId) {
    VisibleClaims(actions) && o in Execute(s, actions).outbox && Execute(s, actions).outbox[o].status != Claimed
  }

  lemma ExecuteTwo(s: State, a: Action, b: Action)
    ensures Execute(s, [a]) == Apply(s, a) && Execute(s, [a, b]) == Apply(Apply(s, a), b)
  {
    assert [a][..0] == [] && [a, b][..1] == [a];
  }

  /** A run that still handles its row can settle it in at most two calls, even if both deliveries fail. */
  lemma HandledClaimLeaves(s: State, id: RunId, o: OutboxId) returns (actions: seq<Action>)
    requires Handles(s, id, o) && s.outbox[o].status == Claimed
    ensures Leaves(s, actions, o)
  {
    var fail, settle := Step(id, true), Step(id, false);
    ExecuteTwo(s, fail, settle);
    ExecuteTwo(s, settle, settle);
    actions := if s.runs[id].pc == MarkFailed then [settle] else [fail, settle];
  }

  /** A claimed row can ever leave its claim exactly when some run of the claiming worker still handles it. */
  lemma ClaimLeavesIffHandled(s: State, o: OutboxId)
    requires o in s.outbox && s.outbox[o].status == Claimed
    ensures (exists actions :: Leaves(s, actions, o)) <==> exists id :: Handles(s, id, o)
  {
    if exists id :: Handles(s, id, o) {
      var id :| Handles(s, id, o);
      var actions := HandledClaimLeaves(s, id, o);
    }
    forall actions | Leaves(s, actions, o) ensures exists id :: Handles(s, id, o) {
      if Orphaned(s, o) { OrphanedClaimIsStuck(s, actions, o); }
    }
  }

  /** From any fresh outbox, a worker that claims a row and dies leaves it orphaned. */
  lemma CrashOrphansClaim(s: State, o: OutboxId, id: RunId, worker: string)
    requires Initial(s) && o in s.outbox
    ensures Orphaned(Execute(s, [Claim(id, worker, o, false), Crash(id)]), o)
  {
    ExecuteTwo(s, Claim(id, worker, o, false), Crash(id));
  }

  /** So does a worker that lives on, when the delivery and then its own report of the failure both fault. */
  lemma FaultsOrphanClaim(s: State, o: OutboxId, id: RunId, worker: string)
    requires Initial(s) && o in s.outbox
    ensures Orphaned(Execute(s, [Claim(id, worker, o, false), Step(id, true), Step(id, true)]), o)
  {
    var all := [Claim(id, worker, o, false), Step(id, true), Step(id, true)];
    assert all[..2] == [all[0], all[1]];
    ExecuteTwo(s, all[0], all[1]);
    var t := Apply(Apply(s, all[0]), all[1]);
    assert t.runs[id].pc == MarkFailed && Execute(s, all) == Apply(t, all[2]);
  }

  // ----- Attempts -----

  /** A claim takes a row that waits, counts the attempt, and starts a run that knows the row. */
  lemma ClaimCounts(s: State, id: RunId, worker: string, o: OutboxId)
    requires id !in s.runs && o in s.outbox
    ensures var t, r := Apply(s, Claim(id, worker, o, false)), s.outbox[o];
      if r.status == Pending || r.status == Retry
      then var taken := r.(status := Claimed, claimedBy := Some(worker), attempts := r.attempts + 1);
           t.outbox == s.outbox[o := taken] && t.runs == s.runs[id := Run(worker, o, taken, Upsert)] && t.events == s.events
      else t == s
  {
  }

  /** Where a run goes on and what it writes, told by what its due call answers. */
  lemma HandlesExactly(s: State, id: RunId, fault: bool)
    requires id in s.runs
    ensures var run, t := s.runs[id], StepRun(s, id, fault);
      var holds := run.outbox in s.outbox && s.outbox[run.outbox].status == Claimed && s.outbox[run.outbox].claimedBy == Some(run.worker);
      && t.runs[id].pc == (match run.pc
                           case Upsert => if run.claimed.supported && !fault then MarkDelivered else MarkFailed
                           case MarkDelivered => if holds && !fault then Stopped else MarkFailed
                           case MarkFailed => Stopped
                           case Stopped => Stopped)
      && t.outbox == (if !holds || fault then s.outbox
                      else if run.pc == MarkDelivered then s.outbox[run.outbox := Unclaimed(s.outbox[run.outbox], Delivered)]
                      else if run.pc == MarkFailed then
                        s.outbox[run.outbox := Unclaimed(s.outbox[run.outbox], if run.claimed.attempts < 10 then Retry else DeadLetter)]
                      else s.outbox)
      && t.events == (if run.pc == Upsert && run.claimed.supported && !fault && !Notified(s.events, run.claimed.source)
                      then s.events + [Event(run.claimed.source, run.claimed.payload)] else s.events)
  {
  }

  function Unclaimed(r: Row, status: Status): Row { Row(r.source, r.supported, r.payload, status, None, r.attempts) }

  ghost predicate AttemptsOk(s: State) {
    && (forall id | id in s.runs :: s.runs[id].outbox in s.outbox && s.runs[id].claimed.attempts <= s.outbox[s.runs[id].outbox].attempts)
    && (forall o | o in s.outbox && s.outbox[o].status == DeadLetter :: s.outbox[o].attempts >= 10)
  }

  lemma StepKeepsAttempts(s: State, id: RunId, fault: bool)
    requires AttemptsOk(s) && id in s.runs
    ensures AttemptsOk(StepRun(s, id, fault))
  {
    HandlesExactly(s, id, fault);
  }

  lemma ClaimKeepsAttempts(s: State, id: RunId, worker: string, o: OutboxId, expired: bool)
    requires AttemptsOk(s)
    ensures AttemptsOk(Apply(s, Claim(id, worker, o, expired)))
  {
  }

  lemma ApplyKeepsAttempts(s: State, a: Action)
    requires AttemptsOk(s)
    ensures AttemptsOk(Apply(s, a))
  {
    match a
    case Step(id, fault) => if id in s.runs { StepKeepsAttempts(s, id, fault); }
    case Claim(id, worker, o, expired) => ClaimKeepsAttempts(s, id, worker, o, expired);
    case Crash(_) =>
  }

  /** No row is given up before it has been claimed ten times. */
  lemma {:induction false} DeadLettersAreExhausted(s: State, actions: seq<Action>)
    requires Initial(s)
    ensures AttemptsOk(Execute(s, actions))
  {
    if actions != [] {
      DeadLettersAreExhausted(s, actions[..|actions| - 1]);
      ApplyKeepsAttempts(Execute(s, actions[..|actions| - 1]), actions[|actions| - 1]);
    }
  }
}

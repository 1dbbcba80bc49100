/** How often a stored operation changes phase, whatever the interleaving, with the claim statement as it is. */
module DurableBound {
  import opened Outcomes
  import opened DurablePhases
  import opened DurableAuthorization
  import opened DurableWorker
  import opened DurableSafety

  /** The claim statement hands out queued rows and rows whose owner may have been called, and always promotes them. */
  predicate ClaimsAsWritten(op: Operation, s: State, actions: seq<Action>)
    decreases |actions|
  {
    actions == [] || (
      var prior, a := actions[..|actions| - 1], actions[|actions| - 1];
      ClaimsAsWritten(op, s, prior) && (a.Claim? ==> a.promoted && HandsOut(Execute(op, s, prior).row.phase)))
  }

  predicate HandsOut(p: Phase) { p == Accepted || Uncertain(p) }

  /**
   * Under such claims no run holds or writes a queued or a rolling-back phase; none writes `claimed`, and `preflighting` is written from
   * `claimed`, or again only to record a delegation.
   */
  predicate Begun(run: Run) {
    && run.phase != Accepted && run.phase != RollingBack
    && (run.pc.Beat? || run.pc.Write? ==> run.pc.next != Accepted && run.pc.next != Claimed && run.pc.next != RollingBack)
    && (run.pc.At? && run.phase == Claimed ==> Stage(run.pc.here) <= PREFLIGHT)
    && (run.pc.Beat? ==> RepeatsKnown(run.phase, run.pc.next, run.pc.after))
    && (run.pc.Write? ==> run.phase == run.pc.next && run.pc.previous != Accepted && RepeatsKnown(run.pc.previous, run.pc.next, run.pc.after))
  }

  predicate RepeatsKnown(previous: Phase, next: Phase, after: Then) {
    next == Preflighting ==> previous == Claimed || after == Goto(KeyCheck)
  }

  lemma UntilCallBegun(op: Operation, row: Row, id: RunId, run: Run, l: Label, input: Input)
    requires Begun(run) && Unparked(run) && run.pc == At(l) && Stage(l) <= INVOKE
    ensures Begun(UntilCall(op, row, id, run, l, input))
  {
    AuthorizeMeetsPromise(op, input.reading);
  }

  lemma SinceCallBegun(row: Row, id: RunId, run: Run, l: Label, input: Input)
    requires Begun(run) && run.pc == At(l) && Stage(l) > INVOKE
    ensures Begun(SinceCall(row, id, run, l, input))
  {
  }

  lemma AdvanceKeepsBegun(op: Operation, row: Row, id: RunId, run: Run, input: Input)
    requires Begun(run) && Unparked(run)
    ensures Begun(Advance(op, row, id, run, input))
  {
    if run.pc.At? && Stage(run.pc.here) <= INVOKE { UntilCallBegun(op, row, id, run, run.pc.here, input); }
    else if run.pc.At? { SinceCallBegun(row, id, run, run.pc.here, input); }
    else { WriteKeepsBegun(op, row, id, run, input); }
  }

  // ----- The budget of changes -----

  /** Past the point where an approver's delegation may be recorded. */
  predicate Delegated(run: Run) {
    Aim(run.pc) == 0 || Aim(run.pc) > KEY_CHECK || (run.pc.At? && Aim(run.pc) == KEY_CHECK)
  }

  /** Changes spent at most by the time the holder stands here: each of its early writes may be preceded by a sweep. */
  function Slot(run: Run): nat { if View(run) == Preflighting then (if Delegated(run) then 6 else 4) else 2 }

  predicate Early(p: Phase) { p == Claimed || p == Preflighting }

  predicate Stopped(run: Run) { run.pc.Done? || run.pc.Threw? }

  predicate Held(s: State) { s.row.owner.Some? && s.row.owner.value in s.runs && !Stopped(s.runs[s.row.owner.value]) }

  function Holder(s: State): Run
    requires Held(s)
  {
    s.runs[s.row.owner.value]
  }

  /** The sweep has marked the row while its holder is between lease check and write. */
  predicate Swept(s: State) { s.row.phase == TimedOut && Held(s) && Holder(s).pc.Write? && Early(Holder(s).pc.previous) }

  function Allowance(s: State): nat {
    if Swept(s) then Slot(Holder(s)) + 1
    else PhaseAllowance(s.row.phase, if Held(s) then Slot(Holder(s)) else 6)
  }

  ghost predicate BoundInv(op: Operation, s: State) {
    Inv(op, s) && (forall id | id in s.runs :: Begun(s.runs[id])) && s.changes <= Allowance(s)
    && ((s.row.phase == Accepted || s.row.phase == AwaitingApproval) ==> !Held(s))
  }

  /** Once the holder's write has landed, the row shows what the holder believes. */
  lemma HolderIsSynced(op: Operation, s: State)
    requires Inv(op, s) && Held(s)
    ensures s.row.phase == View(Holder(s)) || (s.row.phase == TimedOut && Rank(View(Holder(s))) <= 3)
  {
  }

  lemma QueueBound(op: Operation, s: State)
    requires BoundInv(op, s)
    ensures Apply(op, s, Queue).changes <= Allowance(Apply(op, s, Queue))
  {
  }

  lemma ClaimBound(op: Operation, s: State, id: RunId)
    requires BoundInv(op, s) && HandsOut(s.row.phase)
    ensures Apply(op, s, Claim(id, true)).changes <= Allowance(Apply(op, s, Claim(id, true)))
  {
  }

  lemma SweepBound(op: Operation, s: State)
    requires BoundInv(op, s)
    ensures Apply(op, s, Sweep).changes <= Allowance(Apply(op, s, Sweep))
  {
    if Held(s) { HolderIsSynced(op, s); }
  }

  /** A step of the holder that does not land a write leaves it at least as far as it was, or stops it. */
  lemma HolderWaits(op: Operation, row: Row, id: RunId, run: Run, input: Input)
    requires RunOk(op, run) && !Stopped(run) && !WriteLands(row, id, run, input)
    ensures var r := Advance(op, row, id, run, input);
      Stopped(r) || (View(r) == View(run) && Slot(run) <= Slot(r) && (r.pc.Write? ==> run.pc.Beat? && Kept(row, id, input)))
  {
    if run.pc.At? && Stage(run.pc.here) <= INVOKE { EarlyWaits(op, row, id, run, run.pc.here, input); }
    else if run.pc.At? { SinceCallShape(row, id, run, run.pc.here, input); }
  }

  lemma EarlyWaits(op: Operation, row: Row, id: RunId, run: Run, l: Label, input: Input)
    requires run.pc == At(l) && Stage(l) <= INVOKE
    ensures var r := UntilCall(op, row, id, run, l, input);
      View(r) == View(run) && !r.pc.Write? && (Delegated(run) ==> Delegated(r))
  {
  }

  lemma WriteKeepsBegun(op: Operation, row: Row, id: RunId, run: Run, input: Input)
    requires Begun(run) && !run.pc.At?
    ensures Begun(Advance(op, row, id, run, input))
  {
  }

  /** The landed write: what it may add to the changes is within what the new phase allows. */
  lemma LandedBound(op: Operation, s: State, id: RunId, input: Input)
    requires BoundInv(op, s) && id in s.runs && WriteLands(s.row, id, s.runs[id], input)
    ensures var t := Apply(op, s, Step(id, input)); t.changes <= Allowance(t) && t.row.phase != Accepted && t.row.phase != AwaitingApproval
  {
    var run := s.runs[id];
    var t := Apply(op, s, Step(id, input));
    HolderIsSynced(op, s);
    assert RunOk(op, run) && Begun(run) && Unparked(run) && Holder(s) == run;
    assert t.row.owner == Some(id) && t.runs[id] == Advance(op, s.row, id, run, input);
    LandsWithin(s.changes, s.row.phase, run, t.runs[id], t.changes);
  }

  /** The arithmetic of a landed write, on the run and the counter alone. */
  lemma LandsWithin(changes: nat, stored: Phase, run: Run, r: Run, changes': nat)
    requires run.pc.Write? && Begun(run) && Unparked(run) && TransitionPhase(run.pc.previous, run.pc.next).Success?
    requires stored == run.pc.previous || (stored == TimedOut && Rank(run.pc.previous) <= 3)
    requires changes <= (if stored == run.pc.previous then PhaseAllowance(run.pc.previous, Slot(run)) else Slot(run) + 1)
    requires r.phase == run.pc.next && r.pc == Resume(run.pc.after) && changes' == (if stored == run.pc.next then changes else changes + 1)
    ensures changes' <= PhaseAllowance(run.pc.next, if Stopped(r) then 6 else Slot(r))
  {
  }

  function PhaseAllowance(p: Phase, slot: nat): nat {
    match p
    case AwaitingApproval => 0
    case Accepted => 1
    case Claimed => slot
    case Preflighting => slot
    case Executing => 8
    case Ambiguous => 9
    case Reconciling => 10
    case Verifying => 11
    case RollingBack => 0
    case _ => 12
  }

  /** A step of the holder that lands nothing. */
  lemma HeldBound(op: Operation, s: State, id: RunId, input: Input)
    requires BoundInv(op, s) && id in s.runs && s.row.owner == Some(id) && !WriteLands(s.row, id, s.runs[id], input)
    ensures var t := Apply(op, s, Step(id, input)); t.changes <= Allowance(t) && t.row == s.row && (Held(t) ==> Held(s))
  {
    var run, t := s.runs[id], Apply(op, s, Step(id, input));
    assert t.row == s.row && t.changes == s.changes && t.runs[id] == Advance(op, s.row, id, run, input);
    if !Stopped(run) {
      HolderIsSynced(op, s);
      HolderWaits(op, s.row, id, run, input);
      WaitsWithin(s.changes, s.row.phase, run, t.runs[id]);
    }
  }

  /** The arithmetic of a step that lands nothing. */
  lemma WaitsWithin(changes: nat, stored: Phase, run: Run, r: Run)
    requires changes <= if stored == TimedOut && run.pc.Write? && Early(run.pc.previous) then Slot(run) + 1 else PhaseAllowance(stored, Slot(run))
    requires Stopped(r) || (View(r) == View(run) && Slot(run) <= Slot(r) && (r.pc.Write? ==> run.pc.Beat? && stored != TimedOut))
    ensures changes <= PhaseAllowance(stored, if Stopped(r) then 6 else Slot(r))
  {
  }

  lemma OthersBound(op: Operation, s: State, id: RunId, input: Input)
    requires BoundInv(op, s) && id in s.runs && s.row.owner != Some(id)
    ensures var t := Apply(op, s, Step(id, input)); t.changes <= Allowance(t) && t.row == s.row && (Held(t) ==> Held(s))
  {
  }

  lemma CrashBound(op: Operation, s: State, id: RunId)
    requires BoundInv(op, s) && id in s.runs
    ensures var t := Apply(op, s, Crash(id)); t.changes <= Allowance(t) && t.row == s.row && (Held(t) ==> Held(s))
  {
    if s.row.owner == Some(id) { HolderCrashes(op, s, id); } else { OtherCrashes(op, s, id); }
  }

  lemma HolderCrashes(op: Operation, s: State, id: RunId)
    requires BoundInv(op, s) && id in s.runs && s.row.owner == Some(id)
    ensures var t := Apply(op, s, Crash(id)); t.changes <= Allowance(t) && t.row == s.row && !Held(t)
  {
  }

  lemma OtherCrashes(op: Operation, s: State, id: RunId)
    requires BoundInv(op, s) && id in s.runs && s.row.owner != Some(id)
    ensures var t := Apply(op, s, Crash(id)); t.changes <= Allowance(t) && t.row == s.row && (Held(t) <==> Held(s))
  {
  }

  lemma ApplyKeepsBound(op: Operation, s: State, a: Action)
    requires BoundInv(op, s) && (a.Claim? ==> a.promoted && HandsOut(s.row.phase)) && Inv(op, Apply(op, s, a))
    ensures BoundInv(op, Apply(op, s, a))
  {
    match a
    case Queue => QueueBound(op, s);
    case Claim(id, _) => ClaimBound(op, s, id);
    case Sweep => SweepBound(op, s);
    case Crash(id) => if id in s.runs { CrashBound(op, s, id); }
    case Step(id, input) =>
      if id in s.runs {
        AdvanceKeepsBegun(op, s.row, id, s.runs[id], input);
        if WriteLands(s.row, id, s.runs[id], input) { LandedBound(op, s, id, input); }
        else if s.row.owner == Some(id) { HeldBound(op, s, id, input); }
        else { OthersBound(op, s, id, input); }
      }
  }

  lemma {:induction false} RunsKeepBound(op: Operation, p: Phase, actions: seq<Action>)
    requires ClaimsAsWritten(op, Fresh(p), actions)
    ensures BoundInv(op, Execute(op, Fresh(p), actions))
  {
    if actions == [] {
      ReachableInv(op, p, []);
    } else {
      var prior, a := actions[..|actions| - 1], actions[|actions| - 1];
      RunsKeepBound(op, p, prior);
      assert actions == prior + [a];
      ExecuteSnoc(op, Fresh(p), prior, a);
      ReachableInv(op, p, actions);
      ApplyKeepsBound(op, Execute(op, Fresh(p), prior), a);
    }
  }

  /**
   * With the claim statement as it is, a stored operation changes phase at most twelve times in any interleaving of
   * approvals, claims, sweeps, crashes and runs, however the sweep falls.
   */
  lemma AtMostTwelveChanges(op: Operation, p: Phase, actions: seq<Action>)
    requires ClaimsAsWritten(op, Fresh(p), actions)
    ensures Execute(op, Fresh(p), actions).changes <= 12
  {
    RunsKeepBound(op, p, actions);
  }

  // ----- Twelve changes happen -----

  /** After these actions on a row that waited for approval, run 0 alone holds the row. */
  ghost predicate Stands(op: Operation, actions: seq<Action>, p: Phase, run: Run, changes: nat) {
    var s := Execute(op, Fresh(AwaitingApproval), actions);
    ClaimsAsWritten(op, Fresh(AwaitingApproval), actions)
    && s.row == Row(p, Some(0)) && s.runs == map[0 := run] && s.changes == changes
  }

  lemma Extend(op: Operation, actions: seq<Action>, a: Action)
    requires ClaimsAsWritten(op, Fresh(AwaitingApproval), actions) && !a.Claim?
    ensures ClaimsAsWritten(op, Fresh(AwaitingApproval), actions + [a])
    ensures Execute(op, Fresh(AwaitingApproval), actions + [a]) == Apply(op, Execute(op, Fresh(AwaitingApproval), actions), a)
  {
    assert (actions + [a])[..|actions|] == actions;
    ExecuteSnoc(op, Fresh(AwaitingApproval), actions, a);
  }

  /** One step that writes nothing. */
  lemma Waits(op: Operation, actions: seq<Action>, p: Phase, run: Run, changes: nat, input: Input, r: Run) returns (more: seq<Action>)
    requires Stands(op, actions, p, run, changes) && !run.pc.Write? && r == Advance(op, Row(p, Some(0)), 0, run, input)
    ensures Stands(op, more, p, r, changes)
  {
    Extend(op, actions, Step(0, input));
    more := actions + [Step(0, input)];
  }

  /** The pending write lands, over whatever the row shows. */
  lemma Lands(op: Operation, actions: seq<Action>, p: Phase, run: Run, changes: nat, input: Input, r: Run) returns (more: seq<Action>)
    requires Stands(op, actions, p, run, changes) && run.pc.Write? && p != run.pc.next && !input.fault
    requires r == Advance(op, Row(p, Some(0)), 0, run, input)
    ensures Stands(op, more, run.pc.next, r, changes + 1)
  {
    Extend(op, actions, Step(0, input));
    more := actions + [Step(0, input)];
  }

  lemma IsSwept(op: Operation, actions: seq<Action>, p: Phase, run: Run, changes: nat) returns (more: seq<Action>)
    requires Stands(op, actions, p, run, changes) && Early(p)
    ensures Stands(op, more, TimedOut, run, changes + 1)
  {
    Extend(op, actions, Sweep);
    more := actions + [Sweep];
  }

  function Landed(run: Run, next: Phase, after: Then): Run {
    run.(pc := Resume(after), phase := next, persistedExecuting := run.persistedExecuting || (next == Executing && run.phase != Executing))
  }

  /** A whole step of an early run, with the sweep between its lease check and its write: two changes. */
  lemma SweptStep(op: Operation, actions: seq<Action>, run: Run, changes: nat, input: Input, next: Phase, after: Then) returns (more: seq<Action>)
    requires Stands(op, actions, run.phase, run, changes) && Early(run.phase) && run.pc == Beat(next, after)
    requires input.kept && !input.fault && TransitionPhase(run.phase, next).Success? && next != TimedOut
    ensures Stands(op, more, next, Landed(run, next, after), changes + 2)
  {
    var due := run.(pc := Write(run.phase, next, after), phase := next);
    var a := Waits(op, actions, run.phase, run, changes, input, due);
    var b := IsSwept(op, a, run.phase, due, changes);
    more := Lands(op, b, TimedOut, due, changes + 1, input, Landed(run, next, after));
  }

  /** A whole step undisturbed: one change. */
  lemma CalmStep(op: Operation, actions: seq<Action>, run: Run, changes: nat, input: Input, next: Phase, after: Then) returns (more: seq<Action>)
    requires Stands(op, actions, run.phase, run, changes) && Uncertain(run.phase) && run.pc == Beat(next, after)
    requires input.kept && !input.fault && TransitionPhase(run.phase, next).Success? && next != run.phase
    ensures Stands(op, more, next, Landed(run, next, after), changes + 1)
  {
    var due := run.(pc := Write(run.phase, next, after), phase := next);
    var a := Waits(op, actions, run.phase, run, changes, input, due);
    more := Lands(op, a, run.phase, due, changes, input, Landed(run, next, after));
  }

  /** A restart whose actor has no second factor and whose one approver stands in. */
  function Sample(): Operation {
    Operation("actor", "1", "restart", "permission", true, R2, Target("uid", None, "", ""), true, Some(1))
  }

  function SampleReading(): Reading {
    Reading(Some(Session(true, "actor", "1", {"permission"}, false, None, "token")),
            [Approval("approver", true, "session", "1", false)], 0,
            [Resolution(Some(Session(true, "approver", "1", {"permission"}, true, Some(0), "other token")), 0)])
  }

  /** An owner whose answer is lost, and who reconciles later. */
  function SampleInput(): Input {
    Input(false, true, 0, SampleReading(), Some(Live(true, true, "uid", None, "", "")), AmbiguousError, true, ObservedSucceeded)
  }

  lemma SampleIsDelegated()
    ensures Authorize(Sample(), SampleReading()) == Allowed("other token", Some("approver"))
  {
    var op, r := Sample(), SampleReading();
    assert ActiveApprovers(r.approvals) == {"approver"};
    assert Delegates(op, r, 0);
    assert FirstDelegate(op, r, 0) == Some(0);
  }

  lemma QueuedAndClaimed(op: Operation)
    ensures Apply(op, Apply(op, Fresh(AwaitingApproval), Queue), Claim(0, true))
         == State(Row(Claimed, Some(0)), map[0 := NewRun(Claimed)], [], 2)
    ensures Apply(op, Fresh(AwaitingApproval), Queue).row.phase == Accepted
  {
  }

  lemma ClaimAsWritten(op: Operation, queued: seq<Action>, a: Action)
    requires ClaimsAsWritten(op, Fresh(AwaitingApproval), queued) && a == Claim(0, true)
    requires Execute(op, Fresh(AwaitingApproval), queued).row.phase == Accepted
    ensures ClaimsAsWritten(op, Fresh(AwaitingApproval), queued + [a])
  {
    assert (queued + [a])[..|queued|] == queued;
  }

  lemma UpToClaim(op: Operation)
    ensures Stands(op, [Queue, Claim(0, true)], Claimed, NewRun(Claimed), 2)
  {
    GrowsToFour(Queue, Claim(0, true), Queue, Queue);
    Extend(op, [], Queue);
    QueuedAndClaimed(op);
    ClaimAsWritten(op, [Queue], Claim(0, true));
    ExecuteSnoc(op, Fresh(AwaitingApproval), [Queue], Claim(0, true));
  }

  lemma UpToPreflight() returns (actions: seq<Action>)
    ensures Stands(Sample(), actions, Claimed, NewRun(Claimed).(pc := Beat(Preflighting, Goto(Authorizing))), 2)
  {
    var op, i, run := Sample(), SampleInput(), NewRun(Claimed);
    UpToClaim(op);
    var a := Waits(op, [Queue, Claim(0, true)], Claimed, run, 2, i, run.(pc := At(FirstDeadline)));
    var b := Waits(op, a, Claimed, run.(pc := At(FirstDeadline)), 2, i, run.(pc := At(Preflight)));
    actions := Waits(op, b, Claimed, run.(pc := At(Preflight)), 2, i, run.(pc := Beat(Preflighting, Goto(Authorizing))));
  }

  function Judged(): Run {
    NewRun(Claimed).(phase := Preflighting, pc := Beat(Preflighting, Goto(KeyCheck)),
                     verdict := Some(Allowed("other token", Some("approver"))), evidence := Evidence(Some(SampleReading()), None, None))
  }

  lemma UpToDelegation() returns (actions: seq<Action>)
    ensures Stands(Sample(), actions, Preflighting, Judged().(pc := At(KeyCheck)), 6)
  {
    var op, i := Sample(), SampleInput();
    var waiting := NewRun(Claimed).(pc := Beat(Preflighting, Goto(Authorizing)));
    var a := UpToPreflight();
    var b := SweptStep(op, a, waiting, 2, i, Preflighting, Goto(Authorizing));
    SampleIsDelegated();
    var c := Waits(op, b, Preflighting, Landed(waiting, Preflighting, Goto(Authorizing)), 4, i, Judged());
    actions := SweptStep(op, c, Judged(), 4, i, Preflighting, Goto(KeyCheck));
  }

  function Ready(): Run {
    Judged().(pc := Beat(Executing, Goto(ThirdDeadline)), evidence := Evidence(Some(SampleReading()), SampleInput().live, None))
  }

  lemma UpToExecuting() returns (actions: seq<Action>)
    ensures Stands(Sample(), actions, Executing, Landed(Ready(), Executing, Goto(ThirdDeadline)), 8)
  {
    var op, i := Sample(), SampleInput();
    var a := UpToDelegation();
    var b := Waits(op, a, Preflighting, Judged().(pc := At(KeyCheck)), 6, i, Judged().(pc := At(ReadLive)));
    var c := Waits(op, b, Preflighting, Judged().(pc := At(ReadLive)), 6, i, Ready().(pc := At(SecondDeadline)));
    var d := Waits(op, c, Preflighting, Ready().(pc := At(SecondDeadline)), 6, i, Ready());
    actions := SweptStep(op, d, Ready(), 6, i, Executing, Goto(ThirdDeadline));
  }

  function Called(): Run {
    Landed(Ready(), Executing, Goto(ThirdDeadline)).(evidence := Evidence(Some(SampleReading()), SampleInput().live, Some(0)))
  }

  lemma UpToInvoke() returns (actions: seq<Action>)
    ensures Stands(Sample(), actions, Executing, Called().(pc := At(Invoke)), 8)
  {
    var op, i := Sample(), SampleInput();
    var a := UpToExecuting();
    var b := Waits(op, a, Executing, Landed(Ready(), Executing, Goto(ThirdDeadline)), 8, i, Called().(pc := At(LastLease)));
    var c := Waits(op, b, Executing, Called().(pc := At(LastLease)), 8, i, Called().(pc := At(RecordIntent)));
    actions := Waits(op, c, Executing, Called().(pc := At(RecordIntent)), 8, i, Called().(pc := At(Invoke)));
  }

  lemma UpToAmbiguous() returns (actions: seq<Action>)
    ensures Stands(Sample(), actions, Executing, Called().(pc := Beat(Ambiguous, Goto(Dispatch))), 8)
  {
    var op, i := Sample(), SampleInput();
    var d := UpToInvoke();
    var e := Waits(op, d, Executing, Called().(pc := At(Invoke)), 8, i, Called().(pc := At(Awaiting)));
    actions := Waits(op, e, Executing, Called().(pc := At(Awaiting)), 8, i, Called().(pc := Beat(Ambiguous, Goto(Dispatch))));
  }

  lemma UpToReconciling() returns (actions: seq<Action>)
    ensures Stands(Sample(), actions, Reconciling, Called().(pc := At(ReconcileLease), phase := Reconciling), 10)
  {
    var op, i := Sample(), SampleInput();
    var a := UpToAmbiguous();
    var b := CalmStep(op, a, Called().(pc := Beat(Ambiguous, Goto(Dispatch))), 8, i, Ambiguous, Goto(Dispatch));
    var asks := Called().(pc := Beat(Reconciling, Goto(ReconcileLease)), phase := Ambiguous);
    var c := Waits(op, b, Ambiguous, Called().(pc := At(Dispatch), phase := Ambiguous), 9, i, asks);
    actions := CalmStep(op, c, asks, 9, i, Reconciling, Goto(ReconcileLease));
  }

  function Reconciled(): Run { Called().(pc := At(VerifyLease), phase := Verifying, receipt := true) }

  lemma UpToVerifying() returns (actions: seq<Action>)
    ensures Stands(Sample(), actions, Verifying, Reconciled(), 11)
  {
    var op, i := Sample(), SampleInput();
    var run := Called().(pc := At(ReconcileLease), phase := Reconciling);
    var asks := run.(pc := Beat(Verifying, Goto(VerifyLease)), receipt := true);
    var a := UpToReconciling();
    var b := Waits(op, a, Reconciling, run, 10, i, run.(pc := At(ReconcileOwner)));
    var c := Waits(op, b, Reconciling, run.(pc := At(ReconcileOwner)), 10, i, asks);
    actions := CalmStep(op, c, asks, 10, i, Verifying, Goto(VerifyLease));
  }

  /**
   * The bound is reached: approval, claim, three early writes each swept in between, a lost answer, reconciliation and
   * verification. The sweeps take the deadline for passed by the database's clock, the run's own checks by the worker's.
   */
  lemma TwelveChangesHappen() returns (actions: seq<Action>)
    ensures ClaimsAsWritten(Sample(), Fresh(AwaitingApproval), actions)
    ensures Execute(Sample(), Fresh(AwaitingApproval), actions).changes == 12
  {
    var op, i, run := Sample(), SampleInput(), Reconciled();
    var a := UpToVerifying();
    var b := Waits(op, a, Verifying, run, 11, i, run.(pc := At(Verify)));
    var c := Waits(op, b, Verifying, run.(pc := At(Verify)), 11, i, run.(pc := Beat(Succeeded, Return)));
    actions := CalmStep(op, c, run.(pc := Beat(Succeeded, Return)), 11, i, Succeeded, Return);
  }
}

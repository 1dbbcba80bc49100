/**
 * Runs handed an operation whose owner may already have been called: exactly which of them can return a
 * result, with a history for each that can and for each that cannot.
 */
module DurableResume {
  import opened Outcomes
  import opened DurablePhases
  import opened DurableAuthorization
  import opened DurableWorker
  import opened DurableSafety

  /**
   * A resumed run can return a result: not from `executing`, for which it has no receipt; not when denied in
   * `ambiguous`, which has no edge to `inconclusive`; and not with an unusable key, since no such phase can be blocked.
   */
  predicate CanReturn(op: Operation, start: Phase, v: Verdict) {
    start != Executing && (v.Denied? ==> start != Ambiguous) && (v.Allowed? ==> op.keyIsStable)
  }

  // ----- What a resumed run keeps -----

  predicate Threw(run: Run) { run.pc.Threw? }

  predicate Unjudged(run: Run) {
    run.pc.At? && run.pc.here in {Begin, FirstDeadline, Preflight, Authorizing} && run.phase == run.start && !run.receipt
    && (run.pc.here == Preflight || run.pc.here == Authorizing ==> run.resuming)
  }

  /** Denied where `inconclusive` cannot follow: the block is asked for and then refused. */
  predicate Blocking(run: Run) {
    run.phase == Ambiguous && (run.pc == At(BlockResumed) || run.pc == Beat(Inconclusive, Return))
  }

  predicate AtKeyCheck(run: Run) {
    run.phase == run.start && run.resuming && !run.receipt
    && (run.pc == At(KeyCheck) || run.pc == Beat(run.start, Goto(KeyCheck)) || run.pc == Write(run.start, run.start, Goto(KeyCheck)))
  }

  /** Where a run that cannot return may stand. */
  predicate Hopeless(op: Operation, run: Run) {
    match run.verdict
    case None => Unjudged(run)
    case Some(Denied(_, _)) =>
      Blocking(run)
      || (run.start == Executing && run.phase == Executing && run.pc == Beat(Ambiguous, Goto(BlockResumed)))
      || (run.start == Executing && run.phase == Ambiguous && run.pc == Write(Executing, Ambiguous, Goto(BlockResumed)))
    case Some(Allowed(_, _)) =>
      AtKeyCheck(run)
      || (!op.keyIsStable && run.phase == run.start && run.pc == Beat(PreflightBlocked, Return))
      || (op.keyIsStable && run.start == Executing && run.phase == Executing && !run.receipt && run.pc == At(Dispatch))
  }

  predicate ResumeOk(op: Operation, run: Run) {
    Uncertain(run.start) ==>
      if run.verdict.None? then Threw(run) || Unjudged(run)
      else Late(run) && (!CanReturn(op, run.start, run.verdict.value) ==> Threw(run) || Hopeless(op, run))
  }

  /** The run is past the point where it is judged. */
  predicate Late(run: Run) { Aim(run.pc) == 0 || Aim(run.pc) > Stage(Authorizing) }

  lemma UnjudgedAdvances(op: Operation, row: Row, id: RunId, run: Run, input: Input)
    requires Uncertain(run.start) && run.verdict.None? && Unjudged(run) && run.pc.here != Authorizing
    ensures Unjudged(Advance(op, row, id, run, input)) && Advance(op, row, id, run, input) == run.(
              pc := Advance(op, row, id, run, input).pc, resuming := Advance(op, row, id, run, input).resuming)
  {
  }

  lemma JudgedAdvances(op: Operation, row: Row, id: RunId, run: Run, input: Input)
    requires Uncertain(run.start) && run.verdict.None? && Unjudged(run) && run.pc.here == Authorizing
    ensures ResumeOk(op, Advance(op, row, id, run, input))
  {
  }

  lemma DeniedAdvances(op: Operation, row: Row, id: RunId, run: Run, input: Input)
    requires Uncertain(run.start) && run.verdict.Some? && run.verdict.value.Denied?
    requires !CanReturn(op, run.start, run.verdict.value) && Hopeless(op, run)
    ensures var r := Advance(op, row, id, run, input);
      r.start == run.start && r.verdict == run.verdict && (Threw(r) || Hopeless(op, r))
  {
  }

  lemma AllowedAdvances(op: Operation, row: Row, id: RunId, run: Run, input: Input)
    requires Uncertain(run.start) && run.verdict.Some? && run.verdict.value.Allowed?
    requires !CanReturn(op, run.start, run.verdict.value) && Hopeless(op, run)
    ensures var r := Advance(op, row, id, run, input);
      r.start == run.start && r.verdict == run.verdict && (Threw(r) || Hopeless(op, r))
  {
  }

  lemma LateUntilCall(op: Operation, row: Row, id: RunId, run: Run, l: Label, input: Input)
    requires Stage(Authorizing) < Stage(l) <= Stage(Invoke)
    ensures var r := UntilCall(op, row, id, run, l, input); r.start == run.start && r.verdict == run.verdict && Late(r)
  {
  }

  /** Once judged, a run is not judged again: start and verdict stay. */
  lemma LateStays(op: Operation, row: Row, id: RunId, run: Run, input: Input)
    requires Late(run)
    ensures var r := Advance(op, row, id, run, input); r.start == run.start && r.verdict == run.verdict && Late(r)
  {
    if run.pc.At? && Stage(run.pc.here) <= Stage(Invoke) { LateUntilCall(op, row, id, run, run.pc.here, input); }
    else if run.pc.At? { SinceCallShape(row, id, run, run.pc.here, input); }
  }

  lemma AdvanceKeepsResume(op: Operation, row: Row, id: RunId, run: Run, input: Input)
    requires ResumeOk(op, run)
    ensures Advance(op, row, id, run, input).start == run.start && ResumeOk(op, Advance(op, row, id, run, input))
  {
    StartStays(op, row, id, run, input);
    if Uncertain(run.start) && !Threw(run) {
      if run.verdict.None? {
        if run.pc.here == Authorizing { JudgedAdvances(op, row, id, run, input); } else { UnjudgedAdvances(op, row, id, run, input); }
      } else {
        LateStays(op, row, id, run, input);
        if !CanReturn(op, run.start, run.verdict.value) {
          if run.verdict.value.Denied? { DeniedAdvances(op, row, id, run, input); } else { AllowedAdvances(op, row, id, run, input); }
        }
      }
    }
  }

  lemma StartStays(op: Operation, row: Row, id: RunId, run: Run, input: Input)
    ensures Advance(op, row, id, run, input).start == run.start
  {
    if run.pc.At? && Stage(run.pc.here) <= Stage(Invoke) { UntilCallShape(op, row, id, run, run.pc.here, input); }
    else if run.pc.At? { SinceCallShape(row, id, run, run.pc.here, input); }
  }

  lemma {:induction false} RunsKeepResume(op: Operation, p: Phase, actions: seq<Action>, id: RunId)
    requires id in Execute(op, Fresh(p), actions).runs
    ensures ResumeOk(op, Execute(op, Fresh(p), actions).runs[id])
  {
    var a := actions[|actions| - 1];
    var s := Execute(op, Fresh(p), actions[..|actions| - 1]);
    if id in s.runs {
      RunsKeepResume(op, p, actions[..|actions| - 1], id);
      if a.Step? && a.id == id { AdvanceKeepsResume(op, s.row, id, s.runs[id], a.input); }
    }
  }

  /** Run `id` of this history was handed `start`, judged `v`, and returned a result. */
  ghost predicate Returns(op: Operation, p: Phase, actions: seq<Action>, id: RunId, start: Phase, v: Verdict) {
    var s := Execute(op, Fresh(p), actions);
    id in s.runs && s.runs[id].start == start && s.runs[id].verdict == Some(v) && s.runs[id].pc == Done
  }

  /** No interleaving lets any other resumed run return; and none returns before it is judged. */
  lemma ResumedRunNeverFinishes(op: Operation, p: Phase, actions: seq<Action>, id: RunId)
    requires id in Execute(op, Fresh(p), actions).runs
    ensures var run := Execute(op, Fresh(p), actions).runs[id];
      Uncertain(run.start) && run.pc.Done? ==> run.verdict.Some? && CanReturn(op, run.start, run.verdict.value)
  {
    RunsKeepResume(op, p, actions, id);
  }

  // ----- Driving one run alone -----

  /** Run 0 holds the row and is the only one. */
  predicate In(s: State, p: Phase, run: Run) { s.row == Row(p, Some(0)) && s.runs == map[0 := run] }

  function Iterate<S>(f: S -> S, s: S, n: nat): S { if n == 0 then s else f(Iterate(f, s, n - 1)) }

  lemma {:induction false} IterateAdds<S>(f: S -> S, s: S, m: nat, n: nat)
    ensures Iterate(f, Iterate(f, s, m), n) == Iterate(f, s, m + n)
  {
    if n > 0 { IterateAdds(f, s, m, n - 1); }
  }

  function Driver(op: Operation, input: Input): State -> State { s => Apply(op, s, Step(0, input)) }

  /** The same answer, `n` times. */
  function Drive(op: Operation, s: State, input: Input, n: nat): State { Iterate(Driver(op, input), s, n) }

  ghost predicate Arrives(op: Operation, s: State, input: Input, p: Phase, run: Run) {
    exists n: nat :: In(Drive(op, s, input, n), p, run)
  }

  /** From any such state, the same answer again and again takes the run there. */
  ghost predicate Leads(op: Operation, input: Input, p: Phase, run: Run, q: Phase, r: Run) {
    forall s :: In(s, p, run) ==> Arrives(op, s, input, q, r)
  }

  lemma LeadsOn(op: Operation, input: Input, p: Phase, run: Run, q: Phase, r: Run, t: Phase, u: Run)
    requires Leads(op, input, p, run, q, r) && Leads(op, input, q, r, t, u)
    ensures Leads(op, input, p, run, t, u)
  {
    forall s | In(s, p, run) ensures Arrives(op, s, input, t, u) {
      assert Arrives(op, s, input, q, r);
      var m: nat :| In(Drive(op, s, input, m), q, r);
      assert Arrives(op, Drive(op, s, input, m), input, t, u);
      var n: nat :| In(Drive(op, Drive(op, s, input, m), input, n), t, u);
      IterateAdds(Driver(op, input), s, m, n);
      assert In(Drive(op, s, input, m + n), t, u);
    }
  }

  /** One step: the row follows a landed write, and is left alone otherwise. */
  lemma StepLeads(op: Operation, input: Input, p: Phase, run: Run)
    requires !input.fault
    ensures Leads(op, input, p, run, if run.pc.Write? then run.pc.next else p, Advance(op, Row(p, Some(0)), 0, run, input))
  {
    var q := if run.pc.Write? then run.pc.next else p;
    var r := Advance(op, Row(p, Some(0)), 0, run, input);
    forall s | In(s, p, run) ensures Arrives(op, s, input, q, r) {
      var f := Driver(op, input);
      assert Iterate(f, s, 0) == s && Iterate(f, s, 1) == f(Iterate(f, s, 0)) == Apply(op, s, Step(0, input));
      assert In(Drive(op, s, input, 1), q, r);
    }
  }

  lemma StepsLead(op: Operation, input: Input, p: Phase, run: Run, q: Phase, r: Run)
    requires !input.fault && q == (if run.pc.Write? then run.pc.next else p) && r == Advance(op, Row(p, Some(0)), 0, run, input)
    ensures Leads(op, input, p, run, q, r)
  {
    StepLeads(op, input, p, run);
  }

  /** A whole `step`: the lease check passes, the table allows the change, the write lands. */
  lemma WriteLeads(op: Operation, input: Input, p: Phase, run: Run, next: Phase, after: Then)
    requires !input.fault && input.kept && run.pc == Beat(next, after) && run.phase == p && Uncertain(p)
    requires TransitionPhase(p, next).Success? && next != Executing
    ensures Leads(op, input, p, run, next, run.(pc := Resume(after), phase := next))
  {
    var due := run.(pc := Write(p, next, after), phase := next);
    StepsLead(op, input, p, run, p, due);
    StepsLead(op, input, p, due, next, run.(pc := Resume(after), phase := next));
    LeadsOn(op, input, p, run, p, due, next, run.(pc := Resume(after), phase := next));
  }

  /** Answers that never fail: the lease is kept, the owner reconciles, the verifier confirms. */
  function Kindly(r: Reading, now: int): Input { Input(false, true, now, r, None, Receipt, true, ObservedSucceeded) }

  function Handed(p: Phase): Run { NewRun(p).(resuming := true, pc := At(Authorizing)) }

  lemma ReachesAuthorizing(op: Operation, p: Phase, r: Reading, now: int)
    requires Uncertain(p)
    ensures Leads(op, Kindly(r, now), p, NewRun(p), p, Handed(p))
  {
    var i, a := Kindly(r, now), NewRun(p);
    var b := a.(pc := At(FirstDeadline));
    var c := a.(pc := At(Preflight), resuming := true);
    StepsLead(op, i, p, a, p, b);
    StepsLead(op, i, p, b, p, c);
    LeadsOn(op, i, p, a, p, b, p, c);
    StepsLead(op, i, p, c, p, Handed(p));
    LeadsOn(op, i, p, a, p, c, p, Handed(p));
  }

  function Judged(op: Operation, p: Phase, r: Reading): Run { Decide(op, Handed(p), r) }

  lemma ReachesJudgement(op: Operation, p: Phase, r: Reading, now: int)
    requires Uncertain(p)
    ensures Leads(op, Kindly(r, now), p, NewRun(p), p, Judged(op, p, r))
  {
    ReachesAuthorizing(op, p, r, now);
    StepsLead(op, Kindly(r, now), p, Handed(p), p, Judged(op, p, r));
    LeadsOn(op, Kindly(r, now), p, NewRun(p), p, Handed(p), p, Judged(op, p, r));
  }

  // ----- Where each judgement leads -----

  lemma DeniedReturns(op: Operation, p: Phase, r: Reading, now: int)
    requires (p == Reconciling || p == Verifying) && Authorize(op, r).Denied?
    ensures Leads(op, Kindly(r, now), p, Judged(op, p, r), Inconclusive, Judged(op, p, r).(pc := Done, phase := Inconclusive))
  {
    var i, a := Kindly(r, now), Judged(op, p, r);
    var b := a.(pc := Beat(Inconclusive, Return));
    StepsLead(op, i, p, a, p, b);
    WriteLeads(op, i, p, b, Inconclusive, Return);
    LeadsOn(op, i, p, a, p, b, Inconclusive, a.(pc := Done, phase := Inconclusive));
  }

  lemma BlockedThrows(op: Operation, i: Input, run: Run)
    requires !i.fault && run.pc == At(BlockResumed) && run.phase == Ambiguous
    ensures Leads(op, i, Ambiguous, run, Ambiguous, run.(pc := Pc.Threw))
  {
    var b := run.(pc := Beat(Inconclusive, Return));
    StepsLead(op, i, Ambiguous, run, Ambiguous, b);
    StepsLead(op, i, Ambiguous, b, Ambiguous, run.(pc := Pc.Threw));
    LeadsOn(op, i, Ambiguous, run, Ambiguous, b, Ambiguous, run.(pc := Pc.Threw));
  }

  lemma DeniedThrows(op: Operation, p: Phase, r: Reading, now: int)
    requires (p == Ambiguous || p == Executing) && Authorize(op, r).Denied?
    ensures Leads(op, Kindly(r, now), p, Judged(op, p, r), Ambiguous, Judged(op, p, r).(pc := Pc.Threw, phase := Ambiguous))
  {
    var i, a := Kindly(r, now), Judged(op, p, r);
    if p == Ambiguous {
      BlockedThrows(op, i, a);
    } else {
      var b := a.(pc := At(BlockResumed), phase := Ambiguous);
      WriteLeads(op, i, p, a, Ambiguous, Goto(BlockResumed));
      BlockedThrows(op, i, b);
      LeadsOn(op, i, p, a, Ambiguous, b, Ambiguous, b.(pc := Pc.Threw));
    }
  }

  lemma AllowedReachesKeyCheck(op: Operation, p: Phase, r: Reading, now: int)
    requires Uncertain(p) && Authorize(op, r).Allowed?
    ensures Leads(op, Kindly(r, now), p, Judged(op, p, r), p, Judged(op, p, r).(pc := At(KeyCheck)))
  {
    var i, a := Kindly(r, now), Judged(op, p, r);
    if a.pc == At(KeyCheck) {
      Stays(op, i, p, a);
    } else {
      var due := a.(pc := Write(p, p, Goto(KeyCheck)));
      StepsLead(op, i, p, a, p, due);
      StepsLead(op, i, p, due, p, a.(pc := At(KeyCheck)));
      LeadsOn(op, i, p, a, p, due, p, a.(pc := At(KeyCheck)));
    }
  }

  lemma Stays(op: Operation, input: Input, p: Phase, run: Run)
    ensures Leads(op, input, p, run, p, run)
  {
    forall s | In(s, p, run) ensures Arrives(op, s, input, p, run) { assert In(Drive(op, s, input, 0), p, run); }
  }

  lemma UnstableKeyThrows(op: Operation, i: Input, p: Phase, run: Run)
    requires !i.fault && Uncertain(p) && !op.keyIsStable && run.pc == At(KeyCheck) && run.phase == p
    ensures Leads(op, i, p, run, p, run.(pc := Pc.Threw))
  {
    var b := run.(pc := Beat(PreflightBlocked, Return));
    StepsLead(op, i, p, run, p, b);
    StepsLead(op, i, p, b, p, run.(pc := Pc.Threw));
    LeadsOn(op, i, p, run, p, b, p, run.(pc := Pc.Threw));
  }

  lemma MissingReceiptThrows(op: Operation, i: Input, run: Run)
    requires !i.fault && op.keyIsStable && run.pc == At(KeyCheck) && run.phase == Executing && run.resuming && !run.receipt
    ensures Leads(op, i, Executing, run, Executing, run.(pc := Pc.Threw))
  {
    var b := run.(pc := At(Dispatch));
    StepsLead(op, i, Executing, run, Executing, b);
    StepsLead(op, i, Executing, b, Executing, run.(pc := Pc.Threw));
    LeadsOn(op, i, Executing, run, Executing, b, Executing, run.(pc := Pc.Threw));
  }

  /** With a receipt in hand, verification confirms and the run returns. */
  lemma VerifyReturns(op: Operation, r: Reading, now: int, run: Run)
    requires run.pc == At(VerifyLease) && run.phase == Verifying
    ensures Leads(op, Kindly(r, now), Verifying, run, Succeeded, run.(pc := Done, phase := Succeeded))
  {
    var i, b, c := Kindly(r, now), run.(pc := At(Verify)), run.(pc := Beat(Succeeded, Return));
    StepsLead(op, i, Verifying, run, Verifying, b);
    StepsLead(op, i, Verifying, b, Verifying, c);
    LeadsOn(op, i, Verifying, run, Verifying, b, Verifying, c);
    WriteLeads(op, i, Verifying, c, Succeeded, Return);
    LeadsOn(op, i, Verifying, run, Verifying, c, Succeeded, run.(pc := Done, phase := Succeeded));
  }

  lemma ReconcileReturns(op: Operation, r: Reading, now: int, run: Run)
    requires run.pc == At(ReconcileLease) && run.phase == Reconciling
    ensures Leads(op, Kindly(r, now), Reconciling, run, Succeeded, run.(pc := Done, phase := Succeeded, receipt := true))
  {
    var i, b := Kindly(r, now), run.(pc := At(ReconcileOwner));
    var c := run.(pc := Beat(Verifying, Goto(VerifyLease)), receipt := true);
    var d := run.(pc := At(VerifyLease), receipt := true, phase := Verifying);
    StepsLead(op, i, Reconciling, run, Reconciling, b);
    StepsLead(op, i, Reconciling, b, Reconciling, c);
    LeadsOn(op, i, Reconciling, run, Reconciling, b, Reconciling, c);
    WriteLeads(op, i, Reconciling, c, Verifying, Goto(VerifyLease));
    LeadsOn(op, i, Reconciling, run, Reconciling, c, Verifying, d);
    VerifyReturns(op, r, now, d);
    LeadsOn(op, i, Reconciling, run, Verifying, d, Succeeded, d.(pc := Done, phase := Succeeded));
  }

  lemma DispatchReturns(op: Operation, p: Phase, r: Reading, now: int, run: Run)
    requires (p == Ambiguous || p == Reconciling || p == Verifying) && run.pc == At(Dispatch) && run.phase == p
    ensures Leads(op, Kindly(r, now), p, run, Succeeded, run.(pc := Done, phase := Succeeded, receipt := true))
  {
    var i, goal := Kindly(r, now), run.(pc := Done, phase := Succeeded, receipt := true);
    if p == Verifying {
      var b, c := run.(pc := At(ResumeReceipt)), run.(pc := At(VerifyLease), receipt := true);
      StepsLead(op, i, p, run, p, b);
      StepsLead(op, i, p, b, p, c);
      LeadsOn(op, i, p, run, p, b, p, c);
      VerifyReturns(op, r, now, c);
      LeadsOn(op, i, p, run, p, c, Succeeded, goal);
    } else if p == Reconciling {
      var b := run.(pc := At(ReconcileLease));
      StepsLead(op, i, p, run, p, b);
      ReconcileReturns(op, r, now, b);
      LeadsOn(op, i, p, run, p, b, Succeeded, goal);
    } else {
      var b, c := run.(pc := Beat(Reconciling, Goto(ReconcileLease))), run.(pc := At(ReconcileLease), phase := Reconciling);
      StepsLead(op, i, p, run, p, b);
      WriteLeads(op, i, p, b, Reconciling, Goto(ReconcileLease));
      LeadsOn(op, i, p, run, p, b, Reconciling, c);
      ReconcileReturns(op, r, now, c);
      LeadsOn(op, i, p, run, Reconciling, c, Succeeded, goal);
    }
  }

  lemma AllowedReturns(op: Operation, p: Phase, r: Reading, now: int)
    requires Uncertain(p) && p != Executing && Authorize(op, r).Allowed? && op.keyIsStable
    ensures Leads(op, Kindly(r, now), p, Judged(op, p, r), Succeeded, Judged(op, p, r).(pc := Done, phase := Succeeded, receipt := true))
  {
    var i, a := Kindly(r, now), Judged(op, p, r);
    var b, c := a.(pc := At(KeyCheck)), a.(pc := At(Dispatch));
    AllowedReachesKeyCheck(op, p, r, now);
    StepsLead(op, i, p, b, p, c);
    LeadsOn(op, i, p, a, p, b, p, c);
    DispatchReturns(op, p, r, now, c);
    LeadsOn(op, i, p, a, p, c, Succeeded, a.(pc := Done, phase := Succeeded, receipt := true));
  }

  lemma AllowedThrows(op: Operation, p: Phase, r: Reading, now: int)
    requires Uncertain(p) && Authorize(op, r).Allowed? && (p == Executing || !op.keyIsStable)
    ensures Leads(op, Kindly(r, now), p, Judged(op, p, r), p, Judged(op, p, r).(pc := Pc.Threw))
  {
    var i, a := Kindly(r, now), Judged(op, p, r);
    var b := a.(pc := At(KeyCheck));
    AllowedReachesKeyCheck(op, p, r, now);
    if op.keyIsStable { MissingReceiptThrows(op, i, b); } else { UnstableKeyThrows(op, i, p, b); }
    LeadsOn(op, i, p, a, p, b, p, a.(pc := Pc.Threw));
  }

  // ----- From a stored row -----

  function Times(a: Action, n: nat): seq<Action> { if n == 0 then [] else Times(a, n - 1) + [a] }

  lemma {:induction false} DriveIsHistory(op: Operation, s: State, actions: seq<Action>, input: Input, n: nat)
    ensures Drive(op, Execute(op, s, actions), input, n) == Execute(op, s, actions + Times(Step(0, input), n))
  {
    var go := Step(0, input);
    if n == 0 {
      assert actions + Times(go, 0) == actions;
    } else {
      DriveIsHistory(op, s, actions, input, n - 1);
      assert actions + Times(go, n) == (actions + Times(go, n - 1)) + [go];
      ExecuteSnoc(op, s, actions + Times(go, n - 1), go);
    }
  }

  /** The claim that hands out the stored phase as it is; only `executing` would otherwise be promoted. */
  lemma Claimed(op: Operation, p: Phase)
    requires Uncertain(p)
    ensures In(Execute(op, Fresh(p), [Claim(0, false)]), p, NewRun(p))
  {
    ExecuteSnoc(op, Fresh(p), [], Claim(0, false));
    assert [] + [Claim(0, false)] == [Claim(0, false)];
  }

  lemma LedFromClaim(op: Operation, p: Phase, r: Reading, now: int, q: Phase, run: Run) returns (actions: seq<Action>)
    requires Uncertain(p) && Leads(op, Kindly(r, now), p, Judged(op, p, r), q, run)
    ensures In(Execute(op, Fresh(p), actions), q, run)
  {
    var i, first := Kindly(r, now), [Claim(0, false)];
    Claimed(op, p);
    ReachesJudgement(op, p, r, now);
    LeadsOn(op, i, p, NewRun(p), p, Judged(op, p, r), q, run);
    assert Arrives(op, Execute(op, Fresh(p), first), i, q, run);
    var n: nat :| In(Drive(op, Execute(op, Fresh(p), first), i, n), q, run);
    DriveIsHistory(op, Fresh(p), first, i, n);
    actions := first + Times(Step(0, i), n);
  }

  /** A history in which such a run returns, for every operation, phase and reading that admit it. */
  lemma ResumedRunReturns(op: Operation, p: Phase, r: Reading, now: int) returns (actions: seq<Action>)
    requires Uncertain(p) && CanReturn(op, p, Authorize(op, r))
    ensures Returns(op, p, actions, 0, p, Authorize(op, r))
  {
    if Authorize(op, r).Denied? {
      DeniedReturns(op, p, r, now);
      actions := LedFromClaim(op, p, r, now, Inconclusive, Judged(op, p, r).(pc := Done, phase := Inconclusive));
    } else {
      AllowedReturns(op, p, r, now);
      actions := LedFromClaim(op, p, r, now, Succeeded, Judged(op, p, r).(pc := Done, phase := Succeeded, receipt := true));
    }
  }

  /** A history in which any other resumed run throws, although nothing around it fails. */
  lemma ResumedRunThrows(op: Operation, p: Phase, r: Reading, now: int) returns (actions: seq<Action>)
    requires Uncertain(p) && !CanReturn(op, p, Authorize(op, r))
    ensures var s := Execute(op, Fresh(p), actions);
      0 in s.runs && s.runs[0].start == p && s.runs[0].verdict == Some(Authorize(op, r)) && s.runs[0].pc.Threw?
  {
    if Authorize(op, r).Denied? {
      DeniedThrows(op, p, r, now);
      actions := LedFromClaim(op, p, r, now, Ambiguous, Judged(op, p, r).(pc := Pc.Threw, phase := Ambiguous));
    } else {
      AllowedThrows(op, p, r, now);
      actions := LedFromClaim(op, p, r, now, p, Judged(op, p, r).(pc := Pc.Threw));
    }
  }

  /**
   * Exactly when a resumed run can return: for every operation, uncertain phase and reading, some history has a
   * run handed that phase and so judged return a result, if and only if `CanReturn`.
   */
  lemma ResumedRunReturnsIff(op: Operation, start: Phase, r: Reading)
    requires Uncertain(start)
    ensures (exists p, actions, id :: Returns(op, p, actions, id, start, Authorize(op, r))) <==> CanReturn(op, start, Authorize(op, r))
  {
    if CanReturn(op, start, Authorize(op, r)) {
      var actions := ResumedRunReturns(op, start, r, 0);
      assert Returns(op, start, actions, 0, start, Authorize(op, r));
    }
    forall p, actions, id | Returns(op, p, actions, id, start, Authorize(op, r)) ensures CanReturn(op, start, Authorize(op, r)) {
      ResumedRunNeverFinishes(op, p, actions, id);
    }
  }
}

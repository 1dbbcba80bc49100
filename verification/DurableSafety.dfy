/** Safety of the durable worker over every interleaving of runs on one row. */
module DurableSafety {
  import opened Outcomes
  import opened DurablePhases
  import opened DurableAuthorization
  import opened DurableWorker

  // ----- What a single run keeps -----

  /** The stage a run is at, or will reach when the step it is persisting is done (0 when it will stop). */
  function Aim(pc: Pc): nat {
    match pc
    case At(l) => Stage(l)
    case Beat(_, Goto(l)) => Stage(l)
    case Write(_, _, Goto(l)) => Stage(l)
    case _ => 0
  }

  /** What a run has read by the stage it aims at. */
  ghost predicate EvidenceOk(op: Operation, run: Run) {
    var stage := Aim(run.pc);
    && (KEY_CHECK <= stage <= INVOKE ==>
          && run.evidence.reading.Some?
          && run.verdict == Some(Authorize(op, run.evidence.reading.value))
          && run.verdict.value.Allowed?)
    && (READ_LIVE <= stage <= INVOKE ==> op.keyIsStable)
    && (SECOND_DEADLINE <= stage <= INVOKE ==> ExactTarget(op, run.evidence.live))
    && (LAST_LEASE <= stage <= INVOKE ==>
          run.evidence.deadlineCheck.Some? && !DeadlineExceeded(op, run.evidence.deadlineCheck.value))
  }

  /** How a run's phase moves: a resumed run never reaches the owner call, any other persists `executing` first. */
  predicate PhaseOk(run: Run) {
    var stage := Aim(run.pc);
    && (run.pc.Write? ==> TransitionPhase(run.pc.previous, run.pc.next).Success? && run.phase == run.pc.next)
    && (Uncertain(run.start) ==>
          && ((stage == BEGIN || stage == FIRST_DEADLINE) ==> run.pc.At? && run.phase == run.start)
          && (stage >= PREFLIGHT ==> run.resuming)
          && !run.persistedExecuting)
    && (READ_LIVE <= stage <= INVOKE ==> !run.resuming)
    && (!run.resuming && PREFLIGHT <= stage <= SECOND_DEADLINE && stage != BLOCK_RESUMED ==> !Uncertain(run.phase))
    && (THIRD_DEADLINE <= stage <= INVOKE ==>
          match run.pc
          case Beat(next, _) => next == Executing && !Uncertain(run.phase)
          case Write(previous, next, _) => next == Executing && !Uncertain(previous)
          case _ => run.phase == Executing && run.persistedExecuting)
    && (run.pc.Write? && run.pc.next == Executing ==> run.pc.previous == Executing || stage == THIRD_DEADLINE)
    && (run.pc.Beat? && run.pc.next == Executing ==> run.phase == Executing || stage == THIRD_DEADLINE)
  }

  ghost predicate RunOk(op: Operation, run: Run) {
    EvidenceOk(op, run) && PhaseOk(run)
  }

  lemma KeepUpToPreflight(op: Operation, row: Row, id: RunId, run: Run, input: Input)
    requires run.pc.At? && Stage(run.pc.here) < AUTHORIZING && RunOk(op, run)
    ensures RunOk(op, Advance(op, row, id, run, input))
  {
  }

  lemma KeepAuthorizing(op: Operation, row: Row, id: RunId, run: Run, input: Input)
    requires run.pc == At(Authorizing) && RunOk(op, run)
    ensures RunOk(op, Advance(op, row, id, run, input))
  {
  }

  lemma KeepBlocked(op: Operation, row: Row, id: RunId, run: Run, input: Input)
    requires run.pc == At(BlockResumed) && RunOk(op, run)
    ensures RunOk(op, Advance(op, row, id, run, input))
  {
  }

  lemma KeepKeyCheck(op: Operation, row: Row, id: RunId, run: Run, input: Input)
    requires run.pc == At(KeyCheck) && RunOk(op, run)
    ensures RunOk(op, Advance(op, row, id, run, input))
  {
  }

  lemma KeepReadLive(op: Operation, row: Row, id: RunId, run: Run, input: Input)
    requires run.pc == At(ReadLive) && RunOk(op, run)
    ensures RunOk(op, Advance(op, row, id, run, input))
  {
  }

  lemma KeepSecondDeadline(op: Operation, row: Row, id: RunId, run: Run, input: Input)
    requires run.pc == At(SecondDeadline) && RunOk(op, run)
    ensures RunOk(op, Advance(op, row, id, run, input))
  {
  }

  lemma KeepUpToCall(op: Operation, row: Row, id: RunId, run: Run, input: Input)
    requires (run.pc == At(ThirdDeadline) || run.pc == At(LastLease)) && RunOk(op, run)
    ensures RunOk(op, Advance(op, row, id, run, input))
  {
  }

  lemma KeepToCall(op: Operation, row: Row, id: RunId, run: Run, input: Input)
    requires run.pc.At? && RECORD_INTENT <= Stage(run.pc.here) <= INVOKE && RunOk(op, run)
    ensures RunOk(op, Advance(op, row, id, run, input))
  {
  }

  /** After the call a run only waits, persists or stops; it never asks for `executing` again. */
  lemma SinceCallShape(row: Row, id: RunId, run: Run, l: Label, input: Input)
    requires Stage(l) > INVOKE
    ensures var r := SinceCall(row, id, run, l, input);
      && r == run.(pc := r.pc, receipt := r.receipt)
      && (Aim(r.pc) == 0 || Aim(r.pc) >= AWAITING)
      && !r.pc.Write? && (r.pc.Beat? ==> r.pc.next != Executing)
  {
    if l == Dispatch { DispatchShape(run); }
  }

  lemma DispatchShape(run: Run)
    ensures var r := DispatchTo(run);
      && r == run.(pc := r.pc)
      && (Aim(r.pc) == 0 || Aim(r.pc) >= AWAITING)
      && !r.pc.Write? && (r.pc.Beat? ==> r.pc.next != Executing)
  {
  }

  lemma KeepSinceCall(op: Operation, run: Run, r: Run)
    requires RunOk(op, run) && Aim(run.pc) >= AWAITING
    requires r == run.(pc := r.pc, receipt := r.receipt)
    requires Aim(r.pc) == 0 || Aim(r.pc) >= AWAITING
    requires !r.pc.Write? && (r.pc.Beat? ==> r.pc.next != Executing)
    ensures RunOk(op, r)
  {
  }

  lemma KeepStep(op: Operation, row: Row, id: RunId, run: Run, input: Input)
    requires (run.pc.Beat? || run.pc.Write?) && RunOk(op, run)
    ensures RunOk(op, Advance(op, row, id, run, input))
  {
  }

  /** Every await point of `process` keeps what the run has established. */
  lemma AdvanceKeepsRun(op: Operation, row: Row, id: RunId, run: Run, input: Input)
    requires RunOk(op, run)
    ensures RunOk(op, Advance(op, row, id, run, input))
  {
    if run.pc.At? {
      var stage := Stage(run.pc.here);
      if stage < AUTHORIZING { KeepUpToPreflight(op, row, id, run, input); }
      else if stage == AUTHORIZING { KeepAuthorizing(op, row, id, run, input); }
      else if stage == BLOCK_RESUMED { KeepBlocked(op, row, id, run, input); }
      else if stage == KEY_CHECK { KeepKeyCheck(op, row, id, run, input); }
      else if stage == READ_LIVE { KeepReadLive(op, row, id, run, input); }
      else if stage == SECOND_DEADLINE { KeepSecondDeadline(op, row, id, run, input); }
      else if stage < RECORD_INTENT { KeepUpToCall(op, row, id, run, input); }
      else if stage <= INVOKE { KeepToCall(op, row, id, run, input); }
      else {
        SinceCallShape(row, id, run, run.pc.here, input);
        KeepSinceCall(op, run, SinceCall(row, id, run, run.pc.here, input));
      }
    } else if run.pc.Beat? || run.pc.Write? {
      KeepStep(op, row, id, run, input);
    }
  }

  // ----- What all runs on one row keep together -----

  /** The phase a run believes to be stored. */
  function View(run: Run): Phase {
    if run.pc.Write? then run.pc.previous else run.phase
  }

  /** The claim holder's belief is right, unless the expiry sweep has passed over an early phase. */
  predicate Synced(row: Row, run: Run) {
    run.pc.Done? || run.pc.Threw? || row.phase == View(run) || (row.phase == TimedOut && Rank(View(run)) <= 3)
  }

  /** Run `id` has persisted `executing`: nobody else has, and no claim holder can still be below it. */
  ghost predicate OwnsExecution(s: State, id: RunId)
    requires id in s.runs
  {
    && Rank(s.row.phase) >= 4 && Rank(View(s.runs[id])) >= 4
    && (s.row.owner.Some? && s.row.owner.value in s.runs ==> Rank(View(s.runs[s.row.owner.value])) >= 4)
    && (forall j | j in s.runs && s.runs[j].persistedExecuting :: j == id)
  }

  predicate PastCall(run: Run) {
    Aim(run.pc) == 0 || Aim(run.pc) >= AWAITING
  }

  /** What an owner call may be trusted to mean. */
  ghost predicate Justified(op: Operation, c: Call) {
    && !Uncertain(c.start)
    && op.keyIsStable
    && c.evidence.reading.Some?
    && Authorized(op, c.evidence.reading.value)
    && c.verdict.Some? && c.verdict.value.Allowed?
    && TokenIsEntitled(op, c.evidence.reading.value, c.verdict.value)
    && ExactTarget(op, c.evidence.live)
    && c.evidence.deadlineCheck.Some? && !Overdue(op, c.evidence.deadlineCheck.value)
  }

  ghost predicate RowInv(s: State) {
    && (s.row.owner.Some? ==> s.row.owner.value in s.runs && Synced(s.row, s.runs[s.row.owner.value]))
    && (s.row.phase == AwaitingApproval ==> s.row.owner.None?)
    && (forall id | id in s.runs && s.runs[id].persistedExecuting :: OwnsExecution(s, id))
  }

  ghost predicate CallInv(op: Operation, s: State) {
    && |s.calls| <= 1
    && (forall c | c in s.calls ::
          && Justified(op, c)
          && c.run in s.runs && s.runs[c.run].persistedExecuting && PastCall(s.runs[c.run]))
  }

  /** A run never sends the row back to wait for approval. */
  predicate Unparked(run: Run) {
    run.phase != AwaitingApproval
    && (run.pc.Beat? || run.pc.Write? ==> run.pc.next != AwaitingApproval)
    && (run.pc.Write? ==> run.pc.previous != AwaitingApproval)
  }

  lemma UntilCallUnparked(op: Operation, row: Row, id: RunId, run: Run, l: Label, input: Input)
    requires Unparked(run) && Stage(l) <= INVOKE
    ensures Unparked(UntilCall(op, row, id, run, l, input))
  {
    AuthorizeMeetsPromise(op, input.reading);
  }

  lemma SinceCallUnparked(row: Row, id: RunId, run: Run, l: Label, input: Input)
    requires Unparked(run)
    ensures Unparked(SinceCall(row, id, run, l, input))
  {
  }

  lemma AdvanceKeepsUnparked(op: Operation, row: Row, id: RunId, run: Run, input: Input)
    requires Unparked(run)
    ensures Unparked(Advance(op, row, id, run, input))
  {
    if run.pc.At? && Stage(run.pc.here) <= INVOKE { UntilCallUnparked(op, row, id, run, run.pc.here, input); }
    else if run.pc.At? { SinceCallUnparked(row, id, run, run.pc.here, input); }
  }

  ghost predicate Inv(op: Operation, s: State) {
    && (forall id | id in s.runs :: RunOk(op, s.runs[id]) && Unparked(s.runs[id]))
    && RowInv(s)
    && CallInv(op, s)
  }

  lemma UntilCallShape(op: Operation, row: Row, id: RunId, run: Run, l: Label, input: Input)
    requires Stage(l) <= INVOKE
    ensures var r := UntilCall(op, row, id, run, l, input);
      && r.phase == run.phase && r.start == run.start && r.persistedExecuting == run.persistedExecuting
      && !r.pc.Write?
  {
  }

  /** Between two writes a run's belief does not move. */
  lemma WaitingKeepsView(op: Operation, row: Row, id: RunId, run: Run, input: Input)
    requires run.pc.At?
    ensures var r := Advance(op, row, id, run, input);
      && View(r) == View(run) && r.persistedExecuting == run.persistedExecuting
      && (PastCall(run) ==> PastCall(r))
  {
    if Stage(run.pc.here) > INVOKE {
      SinceCallShape(row, id, run, run.pc.here, input);
    } else {
      UntilCallShape(op, row, id, run, run.pc.here, input);
    }
  }

  /** How one run's own move relates its old and new beliefs. */
  predicate Climbs(run: Run, r: Run, lands: bool) {
    && Rank(View(run)) <= Rank(View(r))
    && (PastCall(run) ==> PastCall(r))
    && (run.persistedExecuting ==> r.persistedExecuting)
    && (run.pc.Done? || run.pc.Threw? ==> r.pc == run.pc)
    && (r.persistedExecuting && !run.persistedExecuting ==> lands && View(r) == Executing && View(run) == Preflighting)
    && (!lands ==> r.pc.Threw? || View(r) == View(run))
    && (lands ==> run.pc.Write? && View(r) == run.pc.next)
  }

  lemma WriteClimbs(op: Operation, row: Row, id: RunId, run: Run, input: Input)
    requires RunOk(op, run) && run.pc.Write?
    ensures Climbs(run, Advance(op, row, id, run, input), WriteLands(row, id, run, input))
  {
    TransitionClimbs(run.pc.previous, run.pc.next);
  }

  lemma AdvanceClimbs(op: Operation, row: Row, id: RunId, run: Run, input: Input)
    requires RunOk(op, run)
    ensures Climbs(run, Advance(op, row, id, run, input), WriteLands(row, id, run, input))
  {
    if run.pc.At? {
      WaitingKeepsView(op, row, id, run, input);
    } else if run.pc.Write? {
      WriteClimbs(op, row, id, run, input);
    }
  }

  /** A run's move, as far as the row is concerned: it lands a write of `next`, or changes no belief. */
  lemma MoveKeepsRow(s: State, s': State, id: RunId, r: Run, lands: bool)
    requires RowInv(s) && id in s.runs
    requires s'.runs == s.runs[id := r]
    requires s'.row == if lands then s.row.(phase := View(r)) else s.row
    requires lands ==> s.row.owner == Some(id) && View(r) != AwaitingApproval
    requires Rank(View(s.runs[id])) <= Rank(View(r))
    requires r.pc.Threw? || lands || View(r) == View(s.runs[id])
    requires s.runs[id].pc.Done? || s.runs[id].pc.Threw? ==> r.pc.Done? || r.pc.Threw?
    requires s.runs[id].persistedExecuting ==> r.persistedExecuting
    requires r.persistedExecuting && !s.runs[id].persistedExecuting ==>
               lands && View(r) == Executing && View(s.runs[id]) == Preflighting
    ensures RowInv(s')
  {
    forall j | j in s'.runs && s'.runs[j].persistedExecuting
      ensures OwnsExecution(s', j)
    {
      assert s.runs[j].persistedExecuting ==> OwnsExecution(s, j);
      forall i | i in s'.runs && s'.runs[i].persistedExecuting ensures i == j {
        assert s.runs[i].persistedExecuting ==> OwnsExecution(s, i);
      }
    }
  }

  lemma MoveKeepsCalls(op: Operation, s: State, s': State, id: RunId, r: Run, c: Call)
    requires RowInv(s) && CallInv(op, s) && id in s.runs
    requires s'.runs == s.runs[id := r]
    requires s.runs[id].persistedExecuting ==> r.persistedExecuting
    requires PastCall(s.runs[id]) ==> PastCall(r)
    requires s'.calls == s.calls || (
      && s.runs[id].pc == At(Invoke) && s.runs[id].persistedExecuting && PastCall(r)
      && c.run == id && Justified(op, c) && s'.calls == s.calls + [c])
    ensures CallInv(op, s')
  {
    assert |s.calls| > 0 ==> s.calls[0] in s.calls;
    assert s.runs[id].persistedExecuting ==> OwnsExecution(s, id);
  }

  lemma StepKeepsRow(op: Operation, s: State, id: RunId, input: Input)
    requires RowInv(s) && id in s.runs
    requires Climbs(s.runs[id], Advance(op, s.row, id, s.runs[id], input), WriteLands(s.row, id, s.runs[id], input))
    requires Unparked(s.runs[id])
    ensures RowInv(Apply(op, s, Step(id, input)))
  {
    MoveKeepsRow(s, Apply(op, s, Step(id, input)), id,
                 Advance(op, s.row, id, s.runs[id], input), WriteLands(s.row, id, s.runs[id], input));
  }

  lemma CallIsJustified(op: Operation, id: RunId, run: Run)
    requires RunOk(op, run) && run.pc == At(Invoke)
    ensures Justified(op, Call(id, run.start, run.verdict, run.evidence)) && run.persistedExecuting
  {
    AuthorizeMeetsPromise(op, run.evidence.reading.value);
  }

  lemma InvokePassesCall(op: Operation, row: Row, id: RunId, run: Run, input: Input)
    requires run.pc == At(Invoke)
    ensures PastCall(Advance(op, row, id, run, input))
  {
  }

  lemma StepKeepsCalls(op: Operation, s: State, id: RunId, input: Input)
    requires RowInv(s) && CallInv(op, s) && id in s.runs
    requires Climbs(s.runs[id], Advance(op, s.row, id, s.runs[id], input), WriteLands(s.row, id, s.runs[id], input))
    requires s.runs[id].pc == At(Invoke) ==>
               Justified(op, Call(id, s.runs[id].start, s.runs[id].verdict, s.runs[id].evidence)) && s.runs[id].persistedExecuting
    ensures CallInv(op, Apply(op, s, Step(id, input)))
  {
    var run := s.runs[id];
    if run.pc == At(Invoke) { InvokePassesCall(op, s.row, id, run, input); }
    MoveKeepsCalls(op, s, Apply(op, s, Step(id, input)), id, Advance(op, s.row, id, run, input), Call(id, run.start, run.verdict, run.evidence));
  }

  lemma StepKeepsInv(op: Operation, s: State, id: RunId, input: Input)
    requires Inv(op, s) && id in s.runs
    ensures Inv(op, Apply(op, s, Step(id, input)))
  {
    AdvanceKeepsRun(op, s.row, id, s.runs[id], input);
    AdvanceKeepsUnparked(op, s.row, id, s.runs[id], input);
    AdvanceClimbs(op, s.row, id, s.runs[id], input);
    if s.runs[id].pc == At(Invoke) { CallIsJustified(op, id, s.runs[id]); }
    StepKeepsRow(op, s, id, input);
    StepKeepsCalls(op, s, id, input);
  }

  lemma ClaimKeepsInv(op: Operation, s: State, id: RunId, promoted: bool)
    requires Inv(op, s)
    ensures Inv(op, Apply(op, s, Claim(id, promoted)))
  {
    var s' := Apply(op, s, Claim(id, promoted));
    forall j | j in s'.runs && s'.runs[j].persistedExecuting
      ensures OwnsExecution(s', j)
    {
      assert OwnsExecution(s, j);
    }
  }

  lemma CrashKeepsInv(op: Operation, s: State, id: RunId)
    requires Inv(op, s) && id in s.runs
    ensures Inv(op, Apply(op, s, Crash(id)))
  {
    var r := s.runs[id].(pc := Threw);
    var s' := Apply(op, s, Crash(id));
    if s.runs[id].pc.Write? {
      TransitionClimbs(s.runs[id].pc.previous, s.runs[id].pc.next);
    }
    MoveKeepsRow(s, s', id, r, false);
    MoveKeepsCalls(op, s, s', id, r, Call(id, r.start, r.verdict, r.evidence));
  }

  lemma SweepKeepsInv(op: Operation, s: State)
    requires Inv(op, s)
    ensures Inv(op, Apply(op, s, Sweep))
  {
    var s' := Apply(op, s, Sweep);
    forall j | j in s'.runs && s'.runs[j].persistedExecuting
      ensures OwnsExecution(s', j)
    {
      assert OwnsExecution(s, j);
    }
  }

  lemma QueueKeepsInv(op: Operation, s: State)
    requires Inv(op, s)
    ensures Inv(op, Apply(op, s, Queue))
  {
    var s' := Apply(op, s, Queue);
    forall j | j in s'.runs && s'.runs[j].persistedExecuting ensures OwnsExecution(s', j) { assert OwnsExecution(s, j); }
  }

  lemma {:induction false} ReachableInv(op: Operation, p: Phase, actions: seq<Action>)
    ensures Inv(op, Execute(op, Fresh(p), actions))
  {
    if actions != [] {
      var a := actions[|actions| - 1];
      ReachableInv(op, p, actions[..|actions| - 1]);
      var s := Execute(op, Fresh(p), actions[..|actions| - 1]);
      match a {
        case Step(id, input) => if id in s.runs { StepKeepsInv(op, s, id, input); }
        case Claim(id, promoted) => ClaimKeepsInv(op, s, id, promoted);
        case Crash(id) => if id in s.runs { CrashKeepsInv(op, s, id); }
        case Sweep => SweepKeepsInv(op, s);
        case Queue => QueueKeepsInv(op, s);
      }
    }
  }

  /**
   * In every interleaving of runs, crashes, re-claims and expiry sweeps, starting from any stored
   * phase, the owner is called at most once, and that call is justified.
   */
  lemma AtMostOneOwnerCall(op: Operation, p: Phase, actions: seq<Action>)
    ensures var s := Execute(op, Fresh(p), actions);
      |s.calls| <= 1 && forall c | c in s.calls :: Justified(op, c)
  {
    ReachableInv(op, p, actions);
  }

  // ----- Terminal phases -----

  /**
   * The claim holder passed its lease check, the expiry sweep then marked the row timed out, and the
   * holder's write, which is guarded by the claim alone, replaces that mark.
   */
  predicate OverwritesSweep(s: State, a: Action) {
    && a.Step? && a.id in s.runs && WriteLands(s.row, a.id, s.runs[a.id], a.input)
    && s.row.phase == TimedOut && s.runs[a.id].pc.next != TimedOut
  }

  /** A stored terminal phase is left by exactly those writes; every other change of phase climbs. */
  lemma TerminalLeftOnlyOverSweep(op: Operation, s: State, a: Action)
    requires Inv(op, s)
    ensures var before, after := s.row.phase, Apply(op, s, a).row.phase;
      && (Terminal(before) && after != before <==> OverwritesSweep(s, a))
      && (after == before || Height(before) < Height(after) || OverwritesSweep(s, a))
  {
    if a.Step? && a.id in s.runs && WriteLands(s.row, a.id, s.runs[a.id], a.input) {
      var run := s.runs[a.id];
      assert RunOk(op, run);
      TransitionClimbs(run.pc.previous, run.pc.next);
    }
  }

  /** No sweep happens while the claim holder stands between its lease check and its write. */
  predicate CalmSweeps(op: Operation, s: State, actions: seq<Action>)
    decreases |actions|
  {
    actions == [] || (
      var prior := actions[..|actions| - 1];
      && CalmSweeps(op, s, prior)
      && (actions[|actions| - 1].Sweep? ==> !MidWrite(Execute(op, s, prior))))
  }

  predicate MidWrite(s: State) {
    s.row.owner.Some? && s.row.owner.value in s.runs && s.runs[s.row.owner.value].pc.Write?
  }

  predicate Settled(s: State) {
    MidWrite(s) ==> s.row.phase == s.runs[s.row.owner.value].pc.previous
  }

  lemma CalmStaysSettled(op: Operation, s: State, a: Action)
    requires Inv(op, s) && Settled(s) && (a.Sweep? ==> !MidWrite(s))
    ensures Settled(Apply(op, s, a)) && !OverwritesSweep(s, a)
  {
    if a.Step? && a.id in s.runs {
      var run := s.runs[a.id];
      if run.pc.At? {
        if Stage(run.pc.here) > INVOKE {
          SinceCallShape(s.row, a.id, run, run.pc.here, a.input);
        } else {
          UntilCallShape(op, s.row, a.id, run, run.pc.here, a.input);
        }
      } else if run.pc.Write? {
        assert RunOk(op, run);
      }
    }
  }

  lemma CalmStepClimbs(op: Operation, s: State, a: Action, base: nat)
    requires Inv(op, s) && Settled(s) && (a.Sweep? ==> !MidWrite(s)) && base + s.changes <= Height(s.row.phase)
    ensures var t := Apply(op, s, a);
      && Settled(t) && base + t.changes <= Height(t.row.phase)
      && (Terminal(s.row.phase) ==> t.row.phase == s.row.phase)
  {
    CalmStaysSettled(op, s, a);
    TerminalLeftOnlyOverSweep(op, s, a);
    ChangeCounts(op, s, a);
  }

  lemma ChangeCounts(op: Operation, s: State, a: Action)
    ensures var t := Apply(op, s, a); t.changes == if t.row.phase == s.row.phase then s.changes else s.changes + 1
  {
  }

  /** With calm sweeps no terminal phase is ever left and the row changes phase at most nine times. */
  lemma {:induction false} AtMostNineChanges(op: Operation, p: Phase, actions: seq<Action>)
    requires CalmSweeps(op, Fresh(p), actions)
    ensures var s := Execute(op, Fresh(p), actions);
      Settled(s) && Height(p) + s.changes <= Height(s.row.phase) <= 9
    ensures actions != [] ==>
      var before := Execute(op, Fresh(p), actions[..|actions| - 1]).row.phase;
      Terminal(before) ==> Execute(op, Fresh(p), actions).row.phase == before
  {
    if actions != [] {
      var prior := actions[..|actions| - 1];
      AtMostNineChanges(op, p, prior);
      ReachableInv(op, p, prior);
      var s := Execute(op, Fresh(p), prior);
      CalmStepClimbs(op, s, actions[|actions| - 1], Height(p));
    }
  }

  lemma ExecuteSnoc(op: Operation, s: State, actions: seq<Action>, a: Action)
    ensures Execute(op, s, actions + [a]) == Apply(op, Execute(op, s, actions), a)
  {
    assert (actions + [a])[..|actions|] == actions;
  }

  /** One run on a queued operation, alone on its row. */
  function Alone(p: Phase, run: Run, changes: nat): State { State(Row(p, Some(0)), map[0 := run], [], changes) }

  lemma AloneMoves(op: Operation, p: Phase, run: Run, changes: nat, input: Input)
    requires run.pc != At(Invoke) && !run.pc.Write?
    ensures Apply(op, Alone(p, run, changes), Step(0, input))
         == Alone(p, Advance(op, Row(p, Some(0)), 0, run, input), changes)
  {
  }

  lemma FirstAdvances(op: Operation, input: Input)
    requires !DeadlineExceeded(op, input.now)
    ensures var row, run := Row(Claimed, Some(0)), NewRun(Claimed);
      && Advance(op, row, 0, run, input) == run.(pc := At(FirstDeadline))
      && Advance(op, row, 0, run.(pc := At(FirstDeadline)), input) == run.(pc := At(Preflight))
      && Advance(op, row, 0, run.(pc := At(Preflight)), input) == run.(pc := Beat(Preflighting, Goto(Authorizing)))
  {
  }

  lemma FirstMoves(op: Operation, input: Input)
    requires !DeadlineExceeded(op, input.now)
    ensures var go, run := Step(0, input), NewRun(Claimed);
      && Apply(op, Fresh(Accepted), Claim(0, true)) == Alone(Claimed, run, 1)
      && Apply(op, Alone(Claimed, run, 1), go) == Alone(Claimed, run.(pc := At(FirstDeadline)), 1)
      && Apply(op, Alone(Claimed, run.(pc := At(FirstDeadline)), 1), go) == Alone(Claimed, run.(pc := At(Preflight)), 1)
      && Apply(op, Alone(Claimed, run.(pc := At(Preflight)), 1), go) == Alone(Claimed, run.(pc := Beat(Preflighting, Goto(Authorizing))), 1)
  {
    var run := NewRun(Claimed);
    FirstAdvances(op, input);
    AloneMoves(op, Claimed, run, 1, input);
    AloneMoves(op, Claimed, run.(pc := At(FirstDeadline)), 1, input);
    AloneMoves(op, Claimed, run.(pc := At(Preflight)), 1, input);
  }

  lemma ExecuteFour(op: Operation, s: State, a: Action, b: Action, c: Action, d: Action)
    ensures Execute(op, s, [a, b, c, d]) == Apply(op, Apply(op, Apply(op, Apply(op, s, a), b), c), d)
  {
    GrowsToFour(a, b, c, d);
    ExecuteSnoc(op, s, [], a);
    ExecuteSnoc(op, s, [a], b);
    ExecuteSnoc(op, s, [a, b], c);
    ExecuteSnoc(op, s, [a, b, c], d);
  }

  /** A queued operation claimed by run 0, driven to its first lease check. */
  lemma ReachFirstBeat(op: Operation, input: Input)
    requires !DeadlineExceeded(op, input.now)
    ensures var go := Step(0, input);
      Execute(op, Fresh(Accepted), [Claim(0, true), go, go, go])
      == Alone(Claimed, NewRun(Claimed).(pc := Beat(Preflighting, Goto(Authorizing))), 1)
  {
    ExecuteFour(op, Fresh(Accepted), Claim(0, true), Step(0, input), Step(0, input), Step(0, input));
    FirstMoves(op, input);
  }

  /** The check passes and the write is due; then the sweep, then the write. */
  lemma SweptBetween(op: Operation, input: Input)
    requires input.kept && !input.fault
    ensures var go := Step(0, input);
      var waiting := Alone(Claimed, NewRun(Claimed).(pc := Beat(Preflighting, Goto(Authorizing))), 1);
      var swept := Apply(op, Apply(op, waiting, go), Sweep);
      swept.row.phase == TimedOut && Apply(op, swept, go).row.phase == Preflighting
  {
    var run := NewRun(Claimed).(pc := Beat(Preflighting, Goto(Authorizing)));
    AloneMoves(op, Claimed, run, 1, input);
    var due := run.(pc := Write(Claimed, Preflighting, Goto(Authorizing)), phase := Preflighting);
    assert Advance(op, Row(Claimed, Some(0)), 0, run, input) == due;
    assert Apply(op, Alone(Claimed, due, 1), Sweep) == Alone(TimedOut, due, 2);
  }

  /** The mark can really be lost: a queued operation, swept between the check and the write of one run. */
  lemma SweptMarkCanBeOverwritten(op: Operation, input: Input)
    requires input.kept && !input.fault && !DeadlineExceeded(op, input.now)
    ensures var go := Step(0, input);
      var swept := [Claim(0, true), go, go, go, go, Sweep];
      && Execute(op, Fresh(Accepted), swept).row.phase == TimedOut
      && Execute(op, Fresh(Accepted), swept + [go]).row.phase == Preflighting
  {
    var go := Step(0, input);
    var beat := [Claim(0, true), go, go, go];
    ReachFirstBeat(op, input);
    SweptBetween(op, input);
    ExecuteSnoc(op, Fresh(Accepted), beat, go);
    ExecuteSnoc(op, Fresh(Accepted), beat + [go], Sweep);
    assert beat + [go] + [Sweep] == [Claim(0, true), go, go, go, go, Sweep];
    ExecuteSnoc(op, Fresh(Accepted), beat + [go] + [Sweep], go);
  }
}

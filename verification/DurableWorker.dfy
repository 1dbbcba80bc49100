/**
 * `DurableOperationWorker.process` as a machine over its await points, and many
 * such runs interleaved on one stored operation row.
 *
 * The row is written by four parties: the approval that queues a waiting row, a claim
 * (which hands the row to a new run and may promote its phase), the expiry sweep inside
 * the claim function, and the guarded phase write of the run that currently holds the
 * claim. A heartbeat and the write that follows it are separate actions.
 */
module DurableWorker {
  import opened Outcomes
  import opened DurablePhases
  import opened DurableAuthorization

  /** Points of `process` at which a run can be interrupted, in source order. */
  datatype Label =
    | Begin | FirstDeadline | Preflight | Authorizing | BlockResumed | KeyCheck | ReadLive
    | SecondDeadline | ThirdDeadline | LastLease | RecordIntent | Invoke | Awaiting | AfterInvoke
    | Dispatch | ResumeReceipt | ReconcileLease | ReconcileOwner | VerifyLease | Verify

  // The stages of `process`, in order.
  const BEGIN := 1
  const FIRST_DEADLINE := 2
  const PREFLIGHT := 3
  const AUTHORIZING := 4
  const BLOCK_RESUMED := 5
  const KEY_CHECK := 6
  const READ_LIVE := 7
  const SECOND_DEADLINE := 8
  const THIRD_DEADLINE := 9
  const LAST_LEASE := 10
  const RECORD_INTENT := 11
  const INVOKE := 12
  const AWAITING := 13
  const AFTER_INVOKE := 14
  const DISPATCH := 15
  const RESUME_RECEIPT := 16
  const RECONCILE_LEASE := 17
  const RECONCILE_OWNER := 18
  const VERIFY_LEASE := 19
  const VERIFY := 20

  /** The stage a label stands for. */
  function Stage(l: Label): (n: nat)
    ensures BEGIN <= n <= VERIFY
  {
    match l
    case Begin => BEGIN
    case FirstDeadline => FIRST_DEADLINE
    case Preflight => PREFLIGHT
    case Authorizing => AUTHORIZING
    case BlockResumed => BLOCK_RESUMED
    case KeyCheck => KEY_CHECK
    case ReadLive => READ_LIVE
    case SecondDeadline => SECOND_DEADLINE
    case ThirdDeadline => THIRD_DEADLINE
    case LastLease => LAST_LEASE
    case RecordIntent => RECORD_INTENT
    case Invoke => INVOKE
    case Awaiting => AWAITING
    case AfterInvoke => AFTER_INVOKE
    case Dispatch => DISPATCH
    case ResumeReceipt => RESUME_RECEIPT
    case ReconcileLease => RECONCILE_LEASE
    case ReconcileOwner => RECONCILE_OWNER
    case VerifyLease => VERIFY_LEASE
    case Verify => VERIFY
  }

  datatype Then = Goto(target: Label) | Return

  /**
   * `Beat` and `Write` are the two halves of the local function `step`: the lease
   * check with the table check, and the persisting write.
   */
  datatype Pc =
    | At(here: Label)
    | Beat(next: Phase, after: Then)
    | Write(previous: Phase, next: Phase, after: Then)
    | Done
    | Threw

  /** What a run has read on its way, kept only to state what precedes an owner call. */
  datatype Evidence = Evidence(reading: Option<Reading>, live: Option<Live>, deadlineCheck: Option<int>)

  datatype Run = Run(
    pc: Pc, phase: Phase, start: Phase, resuming: bool, verdict: Option<Verdict>,
    receipt: bool, evidence: Evidence, persistedExecuting: bool)

  datatype OwnerOutcome = Receipt | NoReceipt | AmbiguousError | LeaseLostError | OtherError

  datatype Observed = ObservedSucceeded | ObservedFailed | ObservedOther

  /** Answers of the outside world to whatever the run awaits next. */
  datatype Input = Input(
    fault: bool, kept: bool, now: int, reading: Reading, live: Option<Live>,
    outcome: OwnerOutcome, reconciled: bool, observed: Observed)

  type RunId = nat

  datatype Row = Row(phase: Phase, owner: Option<RunId>)

  /** One call of the owner, with what the calling run had established. */
  datatype Call = Call(run: RunId, start: Phase, verdict: Option<Verdict>, evidence: Evidence)

  datatype State = State(row: Row, runs: map<RunId, Run>, calls: seq<Call>, changes: nat)

  function NewRun(p: Phase): Run {
    Run(At(Begin), p, p, false, None, false, Evidence(None, None, None), false)
  }

  /** The heartbeat statement touches the row unless its phase is one of six terminal ones. */
  predicate Kept(row: Row, id: RunId, input: Input) {
    && input.kept && row.owner == Some(id)
    && row.phase !in {Succeeded, Failed, VerificationFailed, Cancelled, TimedOut, RolledBack}
  }

  function Resume(t: Then): Pc {
    match t
    case Goto(l) => At(l)
    case Return => Done
  }

  /** What to do once the owner has, or may have, been called. */
  function DispatchTo(run: Run): Run {
    if run.phase == Executing then
      // Without a receipt the digest of `undefined` throws before any lease check.
      run.(pc := if run.receipt then Beat(Verifying, Goto(VerifyLease)) else Threw)
    else if run.phase == Verifying then run.(pc := At(ResumeReceipt))
    else if run.phase == Ambiguous then run.(pc := Beat(Reconciling, Goto(ReconcileLease)))
    else run.(pc := At(ReconcileLease))
  }

  /** The verdict and the branch taken on it. */
  function Decide(op: Operation, run: Run, reading: Reading): Run {
    var v := Authorize(op, reading);
    var judged := run.(verdict := Some(v), evidence := run.evidence.(reading := Some(reading)));
    match v
    case Denied(phase, _) =>
      if !run.resuming then judged.(pc := Beat(phase, Return))
      else if run.phase == Executing then judged.(pc := Beat(Ambiguous, Goto(BlockResumed)))
      else judged.(pc := At(BlockResumed))
    case Allowed(_, who) =>
      if who.Some? then judged.(pc := Beat(run.phase, Goto(KeyCheck))) else judged.(pc := At(KeyCheck))
  }

  /** Everything up to the owner call. */
  function UntilCall(op: Operation, row: Row, id: RunId, run: Run, l: Label, input: Input): Run {
    match l
    case Begin =>
      if run.phase in {Accepted, AwaitingApproval} then run.(pc := Beat(Claimed, Goto(FirstDeadline)))
      else run.(pc := At(FirstDeadline))
    case FirstDeadline =>
      var resuming := Uncertain(run.phase);
      run.(resuming := resuming,
           pc := if !resuming && DeadlineExceeded(op, input.now) then Beat(TimedOut, Return) else At(Preflight))
    case Preflight =>
      run.(pc := if run.phase == Claimed then Beat(Preflighting, Goto(Authorizing)) else At(Authorizing))
    case Authorizing => if input.fault then run.(pc := Threw) else Decide(op, run, input.reading)
    case BlockResumed => run.(pc := Beat(Inconclusive, Return))
    case KeyCheck =>
      run.(pc := if !op.keyIsStable then Beat(PreflightBlocked, Return)
                 else if run.resuming then At(Dispatch) else At(ReadLive))
    case ReadLive =>
      if input.fault then run.(pc := Threw)
      else if CheckLivePreconditions(op, input.live) != Satisfied then run.(pc := Beat(PreflightBlocked, Return))
      else run.(pc := At(SecondDeadline), evidence := run.evidence.(live := input.live))
    case SecondDeadline =>
      run.(pc := if DeadlineExceeded(op, input.now) then Beat(TimedOut, Return) else Beat(Executing, Goto(ThirdDeadline)))
    case ThirdDeadline =>
      if DeadlineExceeded(op, input.now) then run.(pc := Beat(TimedOut, Return))
      else run.(pc := At(LastLease), evidence := run.evidence.(deadlineCheck := Some(input.now)))
    case LastLease => run.(pc := if Kept(row, id, input) then At(RecordIntent) else Threw)
    case RecordIntent => run.(pc := if !input.fault && row.owner == Some(id) then At(Invoke) else Threw)
    case _ => run.(pc := At(Awaiting))
  }

  /** The owner's answer, reconciliation and verification. */
  function SinceCall(row: Row, id: RunId, run: Run, l: Label, input: Input): Run {
    match l
    case Awaiting =>
      (match input.outcome
       case Receipt => run.(pc := At(AfterInvoke), receipt := true)
       case NoReceipt => run.(pc := At(AfterInvoke))
       case AmbiguousError => run.(pc := Beat(Ambiguous, Goto(Dispatch)))
       case LeaseLostError => run.(pc := Threw)
       case OtherError => run.(pc := Beat(Failed, Return)))
    case AfterInvoke =>
      // A heartbeat that rejects here is caught as if the owner call had failed.
      run.(pc := if input.fault then Beat(Failed, Return) else if Kept(row, id, input) then At(Dispatch) else Threw)
    case Dispatch => DispatchTo(run)
    case ResumeReceipt =>
      if input.fault then run.(pc := Threw)
      else if input.reconciled then run.(pc := At(VerifyLease), receipt := true)
      else run.(pc := Beat(Inconclusive, Return))
    case ReconcileLease => run.(pc := if Kept(row, id, input) then At(ReconcileOwner) else Threw)
    case ReconcileOwner =>
      if input.fault then run.(pc := Threw)
      else if input.reconciled then run.(pc := Beat(Verifying, Goto(VerifyLease)), receipt := true)
      else run.(pc := Beat(Inconclusive, Return))
    case VerifyLease => run.(pc := if Kept(row, id, input) then At(Verify) else Threw)
    case _ =>
      if input.fault then run.(pc := Threw)
      else run.(pc := Beat(match input.observed
                           case ObservedSucceeded => Succeeded
                           case ObservedFailed => VerificationFailed
                           case ObservedOther => Inconclusive, Return))
  }

  predicate WriteLands(row: Row, id: RunId, run: Run, input: Input) {
    run.pc.Write? && !input.fault && row.owner == Some(id)
  }

  function Advance(op: Operation, row: Row, id: RunId, run: Run, input: Input): Run {
    match run.pc
    case At(l) =>
      if Stage(l) <= INVOKE then UntilCall(op, row, id, run, l, input) else SinceCall(row, id, run, l, input)
    case Beat(next, after) =>
      var t := TransitionPhase(run.phase, next);
      if !Kept(row, id, input) || t.Failure? then run.(pc := Threw)
      else run.(pc := Write(run.phase, next, after), phase := next)
    case Write(previous, next, after) =>
      if WriteLands(row, id, run, input) then
        run.(pc := Resume(after),
             persistedExecuting := run.persistedExecuting || (next == Executing && previous != Executing))
      else run.(pc := Threw)
    case Done => run
    case Threw => run
  }

  datatype Action =
    | Queue
    | Claim(id: RunId, promoted: bool)
    | Sweep
    | Step(id: RunId, input: Input)
    | Crash(id: RunId)

  /** A row that waits for approval or is finished is never handed out; the claim function hands out fewer still. */
  predicate Claimable(p: Phase) { p != AwaitingApproval && !Terminal(p) }

  /** The claim function promotes a queued row and turns a running one into an ambiguous one. */
  function Promoted(p: Phase): Phase {
    if p == Accepted then Claimed else if p == Executing then Ambiguous else p
  }

  function SetRow(s: State, row: Row): State {
    s.(row := row, changes := if row.phase == s.row.phase then s.changes else s.changes + 1)
  }

  function Apply(op: Operation, s: State, a: Action): State {
    match a
    case Queue => if s.row.phase == AwaitingApproval then SetRow(s, s.row.(phase := Accepted)) else s
    case Claim(id, promoted) =>
      if id in s.runs || !Claimable(s.row.phase) then s
      else
        var p := if promoted then Promoted(s.row.phase) else s.row.phase;
        SetRow(s, Row(p, Some(id))).(runs := s.runs[id := NewRun(p)])
    case Sweep =>
      if s.row.phase in {Accepted, AwaitingApproval, Claimed, Preflighting} then SetRow(s, s.row.(phase := TimedOut)) else s
    case Crash(id) => if id in s.runs then s.(runs := s.runs[id := s.runs[id].(pc := Threw)]) else s
    case Step(id, input) =>
      if id !in s.runs then s
      else
        var run := s.runs[id];
        var moved := s.(
          runs := s.runs[id := Advance(op, s.row, id, run, input)],
          calls := if run.pc == At(Invoke) then s.calls + [Call(id, run.start, run.verdict, run.evidence)] else s.calls);
        if WriteLands(s.row, id, run, input) then SetRow(moved, s.row.(phase := run.pc.next)) else moved
  }

  function Fresh(p: Phase): State {
    State(Row(p, None), map[], [], 0)
  }

  function Execute(op: Operation, s: State, actions: seq<Action>): State
    decreases |actions|
  {
    if actions == [] then s else Apply(op, Execute(op, s, actions[..|actions| - 1]), actions[|actions| - 1])
  }
}

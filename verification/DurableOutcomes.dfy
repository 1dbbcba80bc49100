/**
 * What each answer of the outside world leads to: which phase a run asks for and why, where it goes on, when it
 * throws; and, over every history, that a stored phase has its reason.
 */
module DurableOutcomes {
  import opened Outcomes
  import opened DurablePhases
  import opened DurableAuthorization
  import opened DurableWorker
  import opened DurableSafety

  function VerdictOn(op: Operation, input: Input): Verdict { Authorize(op, input.reading) }

  predicate Delegated(op: Operation, run: Run, input: Input) {
    run.pc == At(Authorizing) && !input.fault && VerdictOn(op, input).Allowed? && VerdictOn(op, input).executionActor.Some?
  }

  predicate Denied(op: Operation, run: Run, input: Input) { run.pc == At(Authorizing) && !input.fault && VerdictOn(op, input).Denied? }

  predicate Answered(run: Run, l: Label, input: Input) { run.pc == At(l) && !input.fault }

  /** Why a run asks for a phase, phase by phase. */
  predicate Asked(op: Operation, run: Run, input: Input, next: Phase) {
    (Delegated(op, run, input) && next == run.phase)
    || match next
       case Claimed => run.pc == At(Begin) && (run.phase == Accepted || run.phase == AwaitingApproval)
       case Preflighting => run.pc == At(Preflight) && run.phase == Claimed
       case Executing => run.pc == At(SecondDeadline) && !Overdue(op, input.now)
       case TimedOut =>
         Overdue(op, input.now)
         && (run.pc == At(SecondDeadline) || run.pc == At(ThirdDeadline) || (run.pc == At(FirstDeadline) && !Uncertain(run.phase)))
       case AuthorizationExpired => Denied(op, run, input) && !run.resuming && VerdictOn(op, input).phase == AuthorizationExpired
       case PreflightBlocked =>
         (Denied(op, run, input) && !run.resuming && VerdictOn(op, input).phase == PreflightBlocked)
         || (run.pc == At(KeyCheck) && !op.keyIsStable)
         || (Answered(run, ReadLive, input) && !ExactTarget(op, input.live))
       case Ambiguous =>
         (Denied(op, run, input) && run.resuming && run.phase == Executing)
         || (run.pc == At(Awaiting) && input.outcome == AmbiguousError)
       case Failed => (run.pc == At(Awaiting) && input.outcome == OtherError) || (run.pc == At(AfterInvoke) && input.fault)
       case Reconciling => run.pc == At(Dispatch) && run.phase == Ambiguous
       case Verifying =>
         (run.pc == At(Dispatch) && run.phase == Executing && run.receipt) || (Answered(run, ReconcileOwner, input) && input.reconciled)
       case Succeeded => Answered(run, Verify, input) && input.observed == ObservedSucceeded
       case VerificationFailed => Answered(run, Verify, input) && input.observed == ObservedFailed
       case Inconclusive =>
         run.pc == At(BlockResumed)
         || (Answered(run, Verify, input) && input.observed == ObservedOther)
         || ((Answered(run, ResumeReceipt, input) || Answered(run, ReconcileOwner, input)) && !input.reconciled)
       case _ => false
  }

  /** Where the run goes on once the phase is stored. */
  predicate GoesOnAt(op: Operation, run: Run, input: Input, next: Phase, after: Then) {
    after == if Delegated(op, run, input) then Goto(KeyCheck)
             else
               match next
               case Claimed => Goto(FirstDeadline)
               case Preflighting => Goto(Authorizing)
               case Executing => Goto(ThirdDeadline)
               case Ambiguous => if run.pc == At(Awaiting) then Goto(Dispatch) else Goto(BlockResumed)
               case Reconciling => Goto(ReconcileLease)
               case Verifying => Goto(VerifyLease)
               case _ => Return
  }

  /** When a run throws between two steps: a call fails, a lease is gone, or there is no receipt to digest. */
  predicate Fails(row: Row, id: RunId, run: Run, input: Input) {
    (input.fault && (run.pc == At(Authorizing) || run.pc == At(ReadLive) || run.pc == At(RecordIntent)
                     || run.pc == At(ResumeReceipt) || run.pc == At(ReconcileOwner) || run.pc == At(Verify)))
    || (run.pc == At(RecordIntent) && row.owner != Some(id))
    || (!Kept(row, id, input) && (run.pc == At(LastLease) || run.pc == At(ReconcileLease) || run.pc == At(VerifyLease)
                                  || Answered(run, AfterInvoke, input)))
    || (run.pc == At(Awaiting) && input.outcome == LeaseLostError)
    || (run.pc == At(Dispatch) && run.phase == Executing && !run.receipt)
  }

  /** How a run comes to a point without storing anything. */
  predicate ComesTo(op: Operation, row: Row, id: RunId, run: Run, input: Input, l: Label) {
    match l
    case Begin => false
    case FirstDeadline => run.pc == At(Begin) && run.phase != Accepted && run.phase != AwaitingApproval
    case Preflight => run.pc == At(FirstDeadline) && (Uncertain(run.phase) || !Overdue(op, input.now))
    case Authorizing => run.pc == At(Preflight) && run.phase != Claimed
    case BlockResumed => Denied(op, run, input) && run.resuming && run.phase != Executing
    case KeyCheck => Answered(run, Authorizing, input) && VerdictOn(op, input).Allowed? && VerdictOn(op, input).executionActor.None?
    case ReadLive => run.pc == At(KeyCheck) && op.keyIsStable && !run.resuming
    case SecondDeadline => Answered(run, ReadLive, input) && ExactTarget(op, input.live)
    case ThirdDeadline => false
    case LastLease => run.pc == At(ThirdDeadline) && !Overdue(op, input.now)
    case RecordIntent => run.pc == At(LastLease) && Kept(row, id, input)
    case Invoke => Answered(run, RecordIntent, input) && row.owner == Some(id)
    case Awaiting => run.pc == At(Invoke)
    case AfterInvoke => run.pc == At(Awaiting) && (input.outcome == Receipt || input.outcome == NoReceipt)
    case Dispatch => (run.pc == At(KeyCheck) && op.keyIsStable && run.resuming) || (Answered(run, AfterInvoke, input) && Kept(row, id, input))
    case ResumeReceipt => run.pc == At(Dispatch) && run.phase == Verifying
    case ReconcileLease => run.pc == At(Dispatch) && run.phase != Executing && run.phase != Verifying && run.phase != Ambiguous
    case ReconcileOwner => run.pc == At(ReconcileLease) && Kept(row, id, input)
    case VerifyLease => Answered(run, ResumeReceipt, input) && input.reconciled
    case Verify => run.pc == At(VerifyLease) && Kept(row, id, input)
  }

  /** What a waiting run learns: nothing else about it changes. */
  predicate Learns(op: Operation, run: Run, input: Input, r: Run) {
    && r.phase == run.phase && r.start == run.start && r.persistedExecuting == run.persistedExecuting
    && r.resuming == (if run.pc == At(FirstDeadline) then Uncertain(run.phase) else run.resuming)
    && r.verdict == (if Answered(run, Authorizing, input) then Some(VerdictOn(op, input)) else run.verdict)
    && r.evidence.reading == (if Answered(run, Authorizing, input) then Some(input.reading) else run.evidence.reading)
    && r.evidence.live == (if Answered(run, ReadLive, input) && ExactTarget(op, input.live) then input.live else run.evidence.live)
    && r.evidence.deadlineCheck ==
         (if run.pc == At(ThirdDeadline) && !Overdue(op, input.now) then Some(input.now) else run.evidence.deadlineCheck)
    && r.receipt == (run.receipt || (run.pc == At(Awaiting) && input.outcome == Receipt)
                     || ((Answered(run, ResumeReceipt, input) || Answered(run, ReconcileOwner, input)) && input.reconciled))
  }

  /** One step of a waiting run, told by its effects. */
  predicate Told(op: Operation, row: Row, id: RunId, run: Run, input: Input, r: Run) {
    match r.pc
    case Beat(next, after) => Asked(op, run, input, next) && GoesOnAt(op, run, input, next, after)
    case At(l) => ComesTo(op, row, id, run, input, l)
    case Threw => Fails(row, id, run, input)
    case _ => false
  }

  predicate StepTold(op: Operation, row: Row, id: RunId, run: Run, input: Input, r: Run) {
    Told(op, row, id, run, input, r) && Learns(op, run, input, r)
  }

  lemma StartTold(op: Operation, row: Row, id: RunId, run: Run, input: Input)
    requires run.pc == At(Begin) || run.pc == At(FirstDeadline) || run.pc == At(Preflight)
    ensures StepTold(op, row, id, run, input, Advance(op, row, id, run, input))
  {
  }

  lemma AuthorizingTold(op: Operation, row: Row, id: RunId, run: Run, input: Input)
    requires run.pc == At(Authorizing)
    ensures StepTold(op, row, id, run, input, Advance(op, row, id, run, input))
  {
    AuthorizeMeetsPromise(op, input.reading);
  }

  lemma ChecksTold(op: Operation, row: Row, id: RunId, run: Run, input: Input)
    requires run.pc == At(BlockResumed) || run.pc == At(KeyCheck) || run.pc == At(ReadLive)
    ensures StepTold(op, row, id, run, input, Advance(op, row, id, run, input))
  {
    PreflightMeansExactTarget(op, input.live);
  }

  lemma DeadlinesTold(op: Operation, row: Row, id: RunId, run: Run, input: Input)
    requires run.pc == At(SecondDeadline) || run.pc == At(ThirdDeadline)
    ensures StepTold(op, row, id, run, input, Advance(op, row, id, run, input))
  {
  }

  lemma IntentTold(op: Operation, row: Row, id: RunId, run: Run, input: Input)
    requires run.pc == At(LastLease) || run.pc == At(RecordIntent) || run.pc == At(Invoke)
    ensures StepTold(op, row, id, run, input, Advance(op, row, id, run, input))
  {
  }

  lemma AnswerTold(op: Operation, row: Row, id: RunId, run: Run, input: Input)
    requires run.pc == At(Awaiting)
    ensures StepTold(op, row, id, run, input, Advance(op, row, id, run, input))
  {
  }

  lemma AfterInvokeTold(op: Operation, row: Row, id: RunId, run: Run, input: Input)
    requires run.pc == At(AfterInvoke)
    ensures StepTold(op, row, id, run, input, Advance(op, row, id, run, input))
  {
  }

  lemma DispatchTold(op: Operation, row: Row, id: RunId, run: Run, input: Input)
    requires run.pc == At(Dispatch)
    ensures StepTold(op, row, id, run, input, Advance(op, row, id, run, input))
  {
  }

  lemma ResumeTold(op: Operation, row: Row, id: RunId, run: Run, input: Input)
    requires run.pc == At(ResumeReceipt)
    ensures StepTold(op, row, id, run, input, Advance(op, row, id, run, input))
  {
  }

  lemma ReconcilingTold(op: Operation, row: Row, id: RunId, run: Run, input: Input)
    requires run.pc == At(ReconcileLease) || run.pc == At(ReconcileOwner)
    ensures StepTold(op, row, id, run, input, Advance(op, row, id, run, input))
  {
  }

  lemma VerifyingTold(op: Operation, row: Row, id: RunId, run: Run, input: Input)
    requires run.pc == At(VerifyLease) || run.pc == At(Verify)
    ensures StepTold(op, row, id, run, input, Advance(op, row, id, run, input))
  {
  }

  /** Every step of a waiting run has its reason, and leaves nothing else behind. */
  lemma StepIsTold(op: Operation, row: Row, id: RunId, run: Run, input: Input)
    requires run.pc.At?
    ensures StepTold(op, row, id, run, input, Advance(op, row, id, run, input))
  {
    match run.pc.here
    case Begin | FirstDeadline | Preflight => StartTold(op, row, id, run, input);
    case Authorizing => AuthorizingTold(op, row, id, run, input);
    case BlockResumed | KeyCheck | ReadLive => ChecksTold(op, row, id, run, input);
    case SecondDeadline | ThirdDeadline => DeadlinesTold(op, row, id, run, input);
    case LastLease | RecordIntent | Invoke => IntentTold(op, row, id, run, input);
    case Awaiting => AnswerTold(op, row, id, run, input);
    case AfterInvoke => AfterInvokeTold(op, row, id, run, input);
    case Dispatch => DispatchTold(op, row, id, run, input);
    case ResumeReceipt => ResumeTold(op, row, id, run, input);
    case ReconcileLease | ReconcileOwner => ReconcilingTold(op, row, id, run, input);
    case VerifyLease | Verify => VerifyingTold(op, row, id, run, input);
  }

  /** A step asks for one phase only, so the reasons above are also sufficient. */
  lemma AskedOnce(op: Operation, run: Run, input: Input, p: Phase, q: Phase)
    requires Asked(op, run, input, p) && Asked(op, run, input, q)
    ensures p == q
  {
  }

  // ----- Why an execution is denied -----

  predicate SameActor(op: Operation, r: Reading) { r.session.Some? && r.session.value.active && r.session.value.actorId == op.actorId }

  predicate LacksApproval(op: Operation, r: Reading, needed: nat) { |StandingApprovers(r)| < needed }

  /** What each code says of the reading; the loop over the approvals has found nobody to stand in. */
  ghost predicate DeniedBecause(op: Operation, r: Reading, code: Code) {
    match code
    case AuthorizationLost => !SameActor(op, r)
    case AuthorizationRevisionChanged => SameActor(op, r) && r.session.value.authzRevision != op.authzRevision
    case PermissionDenied => SameActor(op, r) && r.session.value.authzRevision == op.authzRevision && !ActorStands(op, r)
    case AssuranceExpired => ActorStands(op, r) && op.requiresAal2 && !r.session.value.aal2
    case RecentAssuranceRequired =>
      ActorStands(op, r) && op.requiresAal2 && r.session.value.aal2 && !Assured(r.session.value.reauthenticatedAt, r.now)
    case ApprovalRequired =>
      ActorStands(op, r) && (op.requiresAal2 ==> ActorAssured(op, r)) && op.risk == R2 && LacksApproval(op, r, 1)
    case TwoPersonApprovalRequired =>
      ActorStands(op, r) && (op.requiresAal2 ==> ActorAssured(op, r)) && op.risk == R3 && LacksApproval(op, r, 2)
  }

  /** A lost right blocks the preflight; a lost session, revision or assurance expires the authorization. */
  lemma DenialIsNamed(op: Operation, r: Reading)
    requires Authorize(op, r).Denied?
    ensures var v := Authorize(op, r);
      && DeniedBecause(op, r, v.code)
      && v.phase == match v.code
                    case PermissionDenied | ApprovalRequired | TwoPersonApprovalRequired => PreflightBlocked
                    case _ => AuthorizationExpired
  {
    ApproversStand(r);
  }

  // ----- The lease check, the write and the parties other than runs -----

  /** The heartbeat finds the run's own claim on a row that is not finished in one of six ways; an inconclusive one still beats. */
  predicate BeatFindsClaim(row: Row, id: RunId, input: Input) {
    input.kept && row.owner == Some(id)
    && match row.phase
       case Accepted | AwaitingApproval | Claimed | Preflighting | Executing | Ambiguous | Reconciling | Verifying | RollingBack => true
       case Inconclusive | AuthorizationExpired | PreflightBlocked => true
       case _ => false
  }

  /** Where the table leads from, phase by phase. */
  predicate ComesFrom(p: Phase, next: Phase) {
    match next
    case Accepted => false
    case AwaitingApproval => p == Accepted
    case Claimed => p == Accepted || p == AwaitingApproval
    case Preflighting => p == Claimed
    case Executing => p == Preflighting
    case Ambiguous => p == Executing
    case Reconciling => p == Ambiguous
    case Verifying => p == Executing || p == Reconciling
    case RollingBack => p == Verifying
    case Succeeded => p == Verifying
    case Failed => p == Executing || p == Ambiguous || p == Reconciling || p == RollingBack
    case VerificationFailed => p == Verifying
    case Inconclusive => p == Reconciling || p == Verifying || p == RollingBack
    case AuthorizationExpired => p == Preflighting
    case PreflightBlocked => p == Preflighting
    case Cancelled => p == Accepted || p == AwaitingApproval
    case TimedOut => Rank(p) <= 7
    case RolledBack => p == RollingBack
  }

  lemma EarlyTable(p: Phase, next: Phase)
    requires p == Accepted || p == AwaitingApproval || p == Claimed || p == Preflighting
    ensures Follows(p, next) <==> ComesFrom(p, next)
  {
  }

  lemma CalledTable(p: Phase, next: Phase)
    requires p == Executing || p == Ambiguous || p == Reconciling
    ensures Follows(p, next) <==> ComesFrom(p, next)
  {
  }

  lemma LateTable(p: Phase, next: Phase)
    requires p == Verifying || p == RollingBack
    ensures Follows(p, next) <==> ComesFrom(p, next)
  {
  }

  lemma ClosedTable(p: Phase, next: Phase)
    requires Rank(p) == 9
    ensures !Follows(p, next) && !ComesFrom(p, next)
  {
  }

  lemma TableFromTarget(p: Phase, next: Phase)
    ensures TransitionPhase(p, next).Success? <==> p == next || ComesFrom(p, next)
  {
    match p
    case Accepted | AwaitingApproval | Claimed | Preflighting => EarlyTable(p, next);
    case Executing | Ambiguous | Reconciling => CalledTable(p, next);
    case Verifying | RollingBack => LateTable(p, next);
    case _ => ClosedTable(p, next);
  }

  /** A lease check succeeds exactly on a live claim and a step of the table; it stores nothing. */
  lemma BeatTold(op: Operation, row: Row, id: RunId, run: Run, input: Input)
    requires run.pc.Beat?
    ensures Advance(op, row, id, run, input) ==
      if BeatFindsClaim(row, id, input) && (run.phase == run.pc.next || ComesFrom(run.phase, run.pc.next))
      then run.(pc := Write(run.phase, run.pc.next, run.pc.after), phase := run.pc.next)
      else run.(pc := Threw)
  {
    TableFromTarget(run.phase, run.pc.next);
  }

  /** A write lands exactly when the store answers and the claim is still the run's own. */
  lemma WriteTold(op: Operation, row: Row, id: RunId, run: Run, input: Input)
    requires run.pc.Write?
    ensures Advance(op, row, id, run, input).pc ==
      if input.fault || row.owner != Some(id) then Threw
      else match run.pc.after
           case Goto(l) => At(l)
           case Return => Done
  {
  }

  /** What an action makes of the stored row. */
  function RowAfter(s: State, a: Action): Row {
    match a
    case Queue => s.row.(phase := if s.row.phase == AwaitingApproval then Accepted else s.row.phase)
    case Sweep => s.row.(phase := if Rank(s.row.phase) < 4 then TimedOut else s.row.phase)
    case Claim(id, promoted) =>
      if id in s.runs || Rank(s.row.phase) == 9 || s.row.phase == AwaitingApproval then s.row
      else if promoted && s.row.phase == Accepted then Row(Claimed, Some(id))
      else if promoted && s.row.phase == Executing then Row(Ambiguous, Some(id))
      else Row(s.row.phase, Some(id))
    case Crash(_) => s.row
    case Step(id, input) =>
      if id in s.runs && s.runs[id].pc.Write? && !input.fault && s.row.owner == Some(id) then s.row.(phase := s.runs[id].pc.next)
      else s.row
  }

  lemma RowChangesExactly(op: Operation, s: State, a: Action)
    ensures Apply(op, s, a).row == RowAfter(s, a)
    ensures Apply(op, s, a).changes == s.changes + (if RowAfter(s, a).phase == s.row.phase then 0 else 1)
  {
  }

  /** Which run an action starts, moves or stops, and that every step at the owner call, and no other, is a call. */
  lemma RunsChangeExactly(op: Operation, s: State, a: Action)
    ensures var t := Apply(op, s, a);
      match a
      case Queue | Sweep => t.runs == s.runs && t.calls == s.calls
      case Crash(id) => t.calls == s.calls && t.runs == if id in s.runs then s.runs[id := s.runs[id].(pc := Threw)] else s.runs
      case Claim(id, _) =>
        t.calls == s.calls
        && t.runs == (if id !in s.runs && t.row.owner == Some(id) && Rank(s.row.phase) < 9 && s.row.phase != AwaitingApproval
                      then s.runs[id := Run(At(Begin), t.row.phase, t.row.phase, false, None, false, Evidence(None, None, None), false)]
                      else s.runs)
      case Step(id, input) =>
        t.runs == (if id in s.runs then s.runs[id := Advance(op, s.row, id, s.runs[id], input)] else s.runs)
        && t.calls == (if id in s.runs && s.runs[id].pc == At(Invoke)
                       then s.calls + [Call(id, s.runs[id].start, s.runs[id].verdict, s.runs[id].evidence)] else s.calls)
  {
  }

  // ----- Over every history -----

  /** Step `k` is run `id` moving on from a point where it waited, with `input` as the answer. */
  ghost predicate Waited(op: Operation, s: State, actions: seq<Action>, k: nat, id: RunId) {
    k < |actions| && actions[k].Step? && actions[k].id == id
    && id in Execute(op, s, actions[..k]).runs && Execute(op, s, actions[..k]).runs[id].pc.At?
  }

  /** Step `k` is where run `id` asked for the phase. */
  ghost predicate AskedAt(op: Operation, s: State, actions: seq<Action>, k: nat, id: RunId, next: Phase) {
    Waited(op, s, actions, k, id) && Asked(op, Execute(op, s, actions[..k]).runs[id], actions[k].input, next)
  }

  /** Step `k` is the last one at which run `id` waited before `end`. */
  ghost predicate LastWaited(op: Operation, s: State, actions: seq<Action>, k: nat, end: nat, id: RunId) {
    k < end <= |actions| && Waited(op, s, actions, k, id) && (forall m: nat | k < m < end :: !Waited(op, s, actions, m, id))
  }

  /** Step `j` is run `id` storing the phase. */
  ghost predicate StoredAt(op: Operation, s: State, actions: seq<Action>, j: nat, id: RunId, next: Phase) {
    j < |actions| && actions[j].Step? && actions[j].id == id
    && var before := Execute(op, s, actions[..j]);
       id in before.runs && WriteLands(before.row, id, before.runs[id], actions[j].input) && before.runs[id].pc.next == next
  }

  /** What a run has pending is what it asked for when it last waited. */
  lemma {:induction false} PendingWasAsked(op: Operation, s: State, actions: seq<Action>, id: RunId) returns (k: nat)
    requires s.runs == map[]
    requires id in Execute(op, s, actions).runs
    requires Execute(op, s, actions).runs[id].pc.Beat? || Execute(op, s, actions).runs[id].pc.Write?
    ensures LastWaited(op, s, actions, k, |actions|, id)
    ensures AskedAt(op, s, actions, k, id, Execute(op, s, actions).runs[id].pc.next)
  {
    var prior, a := actions[..|actions| - 1], actions[|actions| - 1];
    var before := Execute(op, s, prior);
    PendingMoves(op, before, a, id);
    if a.Step? && a.id == id && before.runs[id].pc.At? {
      k := |actions| - 1;
    } else {
      k := PendingWasAsked(op, s, prior, id);
      LastWaitedStays(op, s, actions, k, id, before.runs[id].pc.next);
    }
  }

  lemma LastWaitedStays(op: Operation, s: State, actions: seq<Action>, k: nat, id: RunId, next: Phase)
    requires actions != []
    requires var prior := actions[..|actions| - 1];
      LastWaited(op, s, prior, k, |prior|, id) && AskedAt(op, s, prior, k, id, next)
    requires !Waited(op, s, actions, |actions| - 1, id)
    ensures LastWaited(op, s, actions, k, |actions|, id) && AskedAt(op, s, actions, k, id, next)
  {
    EarlierIsSame(op, s, actions, id);
  }

  lemma PendingMoves(op: Operation, s: State, a: Action, id: RunId)
    requires id in Apply(op, s, a).runs
    requires Apply(op, s, a).runs[id].pc.Beat? || Apply(op, s, a).runs[id].pc.Write?
    ensures id in s.runs
    ensures var next := Apply(op, s, a).runs[id].pc.next;
      if a.Step? && a.id == id && s.runs[id].pc.At? then Asked(op, s.runs[id], a.input, next)
      else (s.runs[id].pc.Beat? || s.runs[id].pc.Write?) && s.runs[id].pc.next == next
  {
    if a.Step? && a.id == id && id in s.runs && s.runs[id].pc.At? { StepIsTold(op, s.row, id, s.runs[id], a.input); }
  }

  /** Whether a run waited at an earlier step does not depend on the later ones. */
  lemma EarlierIsSame(op: Operation, s: State, actions: seq<Action>, id: RunId)
    requires actions != []
    ensures forall m: nat | m < |actions| - 1 :: Waited(op, s, actions, m, id) <==> Waited(op, s, actions[..|actions| - 1], m, id)
    ensures forall m: nat, p: Phase | m < |actions| - 1 ::
              AskedAt(op, s, actions, m, id, p) <==> AskedAt(op, s, actions[..|actions| - 1], m, id, p)
  {
    forall m: nat | m < |actions| - 1
      ensures actions[..|actions| - 1][..m] == actions[..m]
    {
    }
  }

  /** A phase is stored only by a run that asked for it when it last waited, and that answer decides which phase it is. */
  lemma StoredAsAsked(op: Operation, p: Phase, actions: seq<Action>, j: nat, id: RunId, next: Phase) returns (k: nat)
    requires StoredAt(op, Fresh(p), actions, j, id, next)
    ensures LastWaited(op, Fresh(p), actions, k, j, id) && AskedAt(op, Fresh(p), actions, k, id, next)
  {
    k := PendingWasAsked(op, Fresh(p), actions[..j], id);
    PrefixIsSame(op, Fresh(p), actions, j, id);
  }

  lemma PrefixIsSame(op: Operation, s: State, actions: seq<Action>, j: nat, id: RunId)
    requires j <= |actions|
    ensures forall m: nat | m < j :: Waited(op, s, actions, m, id) <==> Waited(op, s, actions[..j], m, id)
    ensures forall m: nat, p: Phase | m < j :: AskedAt(op, s, actions, m, id, p) <==> AskedAt(op, s, actions[..j], m, id, p)
  {
    forall m: nat | m < j ensures actions[..j][..m] == actions[..m] {}
  }

  /** So a write that lands stores exactly what the last answer asks for. */
  lemma LastAnswerDecides(op: Operation, p: Phase, actions: seq<Action>, k: nat, j: nat, id: RunId, asked: Phase, stored: Phase)
    requires StoredAt(op, Fresh(p), actions, j, id, stored)
    requires LastWaited(op, Fresh(p), actions, k, j, id) && AskedAt(op, Fresh(p), actions, k, id, asked)
    ensures stored == asked
  {
    var m := StoredAsAsked(op, p, actions, j, id, stored);
    assert m == k;
    AskedOnce(op, Execute(op, Fresh(p), actions[..k]).runs[id], actions[k].input, asked, stored);
  }

  // ----- What a waiting run has in hand -----

  /** What a run's phase and receipt are at each point, and on the way there. */
  predicate InHand(run: Run) {
    match run.pc
    case At(l) => !Terminal(run.phase) && Has(l, run.phase, run.receipt, run.resuming)
    case Beat(next, after) => !Terminal(run.phase) && Heads(next, after, run.receipt, run.resuming)
    case Write(_, next, after) => run.phase == next && Heads(next, after, run.receipt, run.resuming)
    case _ => true
  }

  predicate Has(l: Label, phase: Phase, receipt: bool, resuming: bool) {
    (resuming ==> Uncertain(phase))
    && match l
       case Begin => !resuming
       case FirstDeadline => !resuming
       case ThirdDeadline => phase == Executing
       case LastLease => phase == Executing
       case RecordIntent => phase == Executing
       case Invoke => phase == Executing
       case Awaiting => phase == Executing
       case AfterInvoke => phase == Executing
       case Dispatch => Uncertain(phase)
       case ReconcileLease => phase == Reconciling
       case ReconcileOwner => phase == Reconciling
       case ResumeReceipt => phase == Verifying
       case VerifyLease => phase == Verifying && receipt
       case Verify => phase == Verifying && receipt
       case _ => true
  }

  predicate Heads(next: Phase, after: Then, receipt: bool, resuming: bool) {
    match after
    case Return => true
    case Goto(l) => !Terminal(next) && Has(l, next, receipt, resuming)
  }

  lemma EarlyInHand(op: Operation, row: Row, id: RunId, run: Run, input: Input)
    requires InHand(run) && run.pc.At? && Stage(run.pc.here) < AUTHORIZING
    ensures InHand(Advance(op, row, id, run, input))
  {
  }

  lemma JudgedInHand(op: Operation, row: Row, id: RunId, run: Run, input: Input)
    requires InHand(run) && run.pc == At(Authorizing)
    ensures InHand(Advance(op, row, id, run, input))
  {
  }

  lemma KeyedInHand(op: Operation, row: Row, id: RunId, run: Run, input: Input)
    requires InHand(run) && (run.pc == At(BlockResumed) || run.pc == At(KeyCheck))
    ensures InHand(Advance(op, row, id, run, input))
  {
  }

  lemma CheckedInHand(op: Operation, row: Row, id: RunId, run: Run, input: Input)
    requires InHand(run) && run.pc.At? && READ_LIVE <= Stage(run.pc.here) <= INVOKE && !run.resuming
    ensures InHand(Advance(op, row, id, run, input))
  {
  }

  lemma AnsweredInHand(op: Operation, row: Row, id: RunId, run: Run, input: Input)
    requires InHand(run) && (run.pc == At(Awaiting) || run.pc == At(AfterInvoke))
    ensures InHand(Advance(op, row, id, run, input))
  {
  }

  lemma DispatchedInHand(op: Operation, row: Row, id: RunId, run: Run, input: Input)
    requires InHand(run) && run.pc == At(Dispatch)
    ensures InHand(Advance(op, row, id, run, input))
  {
  }

  lemma ReconciledInHand(op: Operation, row: Row, id: RunId, run: Run, input: Input)
    requires InHand(run) && (run.pc == At(ResumeReceipt) || run.pc == At(ReconcileLease) || run.pc == At(ReconcileOwner))
    ensures InHand(Advance(op, row, id, run, input))
  {
  }

  lemma VerifiedInHand(op: Operation, row: Row, id: RunId, run: Run, input: Input)
    requires InHand(run) && (run.pc == At(VerifyLease) || run.pc == At(Verify))
    ensures InHand(Advance(op, row, id, run, input))
  {
  }

  lemma StoringInHand(op: Operation, row: Row, id: RunId, run: Run, input: Input)
    requires InHand(run) && (run.pc.Beat? || run.pc.Write?)
    ensures InHand(Advance(op, row, id, run, input))
  {
  }

  lemma AdvanceKeepsInHand(op: Operation, row: Row, id: RunId, run: Run, input: Input)
    requires InHand(run) && RunOk(op, run)
    ensures InHand(Advance(op, row, id, run, input))
  {
    if run.pc.At? {
      match run.pc.here
      case Begin | FirstDeadline | Preflight => EarlyInHand(op, row, id, run, input);
      case Authorizing => JudgedInHand(op, row, id, run, input);
      case BlockResumed | KeyCheck => KeyedInHand(op, row, id, run, input);
      case Awaiting | AfterInvoke => AnsweredInHand(op, row, id, run, input);
      case Dispatch => DispatchedInHand(op, row, id, run, input);
      case ResumeReceipt | ReconcileLease | ReconcileOwner => ReconciledInHand(op, row, id, run, input);
      case VerifyLease | Verify => VerifiedInHand(op, row, id, run, input);
      case _ => CheckedInHand(op, row, id, run, input);
    } else if run.pc.Beat? || run.pc.Write? {
      StoringInHand(op, row, id, run, input);
    }
  }

  /** In every history every run is in hand, so verification is only ever reached with a receipt. */
  lemma {:induction false} AlwaysInHand(op: Operation, p: Phase, actions: seq<Action>, id: RunId)
    requires id in Execute(op, Fresh(p), actions).runs
    ensures InHand(Execute(op, Fresh(p), actions).runs[id])
  {
    var prior, a := actions[..|actions| - 1], actions[|actions| - 1];
    var before := Execute(op, Fresh(p), prior);
    ReachableInv(op, p, prior);
    if id in before.runs { AlwaysInHand(op, p, prior, id); }
    ActionKeepsInHand(op, before, a, id);
  }

  lemma ActionKeepsInHand(op: Operation, s: State, a: Action, id: RunId)
    requires id in s.runs ==> InHand(s.runs[id]) && RunOk(op, s.runs[id])
    requires id in Apply(op, s, a).runs
    ensures InHand(Apply(op, s, a).runs[id])
  {
    if a.Step? && a.id == id && id in s.runs { AdvanceKeepsInHand(op, s.row, id, s.runs[id], a.input); }
    else if a.Crash? {}
  }

  // ----- What a stored phase means -----

  /** Step `k` is run `id` being told, with a receipt in hand, what the verifier has observed. */
  ghost predicate VerifiedAt(op: Operation, s: State, actions: seq<Action>, k: nat, id: RunId, observed: Observed) {
    Waited(op, s, actions, k, id)
    && var run := Execute(op, s, actions[..k]).runs[id];
       run.pc == At(Verify) && run.receipt && !actions[k].input.fault && actions[k].input.observed == observed
  }

  /** Step `k` is the answer of the owner to the call of run `id`. */
  ghost predicate OwnerAnsweredAt(op: Operation, s: State, actions: seq<Action>, k: nat, id: RunId, outcome: OwnerOutcome) {
    Waited(op, s, actions, k, id)
    && Execute(op, s, actions[..k]).runs[id].pc == At(Awaiting) && actions[k].input.outcome == outcome
  }

  /** The owner has answered, and the heartbeat after its answer rejects. */
  ghost predicate BeatRejectedAt(op: Operation, s: State, actions: seq<Action>, k: nat, id: RunId) {
    Waited(op, s, actions, k, id)
    && Execute(op, s, actions[..k]).runs[id].pc == At(AfterInvoke) && actions[k].input.fault
  }

  function VerdictPhase(o: Observed): Phase {
    match o
    case ObservedSucceeded => Succeeded
    case ObservedFailed => VerificationFailed
    case ObservedOther => Inconclusive
  }

  /** A run stores `succeeded` or `verification_failed` only on that word of the verifier, and `failed` only on an error of its own call. */
  lemma StoredForAReason(op: Operation, p: Phase, actions: seq<Action>, j: nat, id: RunId, next: Phase) returns (k: nat)
    requires StoredAt(op, Fresh(p), actions, j, id, next)
    ensures LastWaited(op, Fresh(p), actions, k, j, id)
    ensures next == Succeeded ==> VerifiedAt(op, Fresh(p), actions, k, id, ObservedSucceeded)
    ensures next == VerificationFailed ==> VerifiedAt(op, Fresh(p), actions, k, id, ObservedFailed)
    ensures next == Failed ==>
              OwnerAnsweredAt(op, Fresh(p), actions, k, id, OtherError) || BeatRejectedAt(op, Fresh(p), actions, k, id)
  {
    k := StoredAsAsked(op, p, actions, j, id, next);
    AlwaysInHand(op, p, actions[..k], id);
  }

  /** What a verifier, or an owner that fails, answers is what the run's next write stores, if that write lands. */
  lemma AnswerIsWhatIsStored(op: Operation, p: Phase, actions: seq<Action>, k: nat, j: nat, id: RunId, stored: Phase)
    requires LastWaited(op, Fresh(p), actions, k, j, id) && StoredAt(op, Fresh(p), actions, j, id, stored)
    ensures forall o: Observed | VerifiedAt(op, Fresh(p), actions, k, id, o) :: stored == VerdictPhase(o)
    ensures OwnerAnsweredAt(op, Fresh(p), actions, k, id, AmbiguousError) ==> stored == Ambiguous
    ensures OwnerAnsweredAt(op, Fresh(p), actions, k, id, OtherError) || BeatRejectedAt(op, Fresh(p), actions, k, id) ==> stored == Failed
  {
    var m := StoredAsAsked(op, p, actions, j, id, stored);
    assert m == k;
  }

  /** Phases that only a run's own write can bring: the others also come from an approval, a claim or the sweep. */
  predicate OnlyRunsStore(p: Phase) { p != Accepted && p != Claimed && p != Ambiguous && p != TimedOut }

  lemma {:induction false} PhaseWasStored(op: Operation, p: Phase, actions: seq<Action>) returns (j: nat, id: RunId)
    requires var q := Execute(op, Fresh(p), actions).row.phase; q != p && OnlyRunsStore(q)
    ensures StoredAt(op, Fresh(p), actions, j, id, Execute(op, Fresh(p), actions).row.phase)
  {
    var prior, a := actions[..|actions| - 1], actions[|actions| - 1];
    RowChangesExactly(op, Execute(op, Fresh(p), prior), a);
    if Execute(op, Fresh(p), prior).row.phase == Execute(op, Fresh(p), actions).row.phase {
      j, id := PhaseWasStored(op, p, prior);
      assert actions[..j] == prior[..j];
    } else {
      j, id := |actions| - 1, a.id;
    }
  }

  /** A row that stands at `succeeded` was so judged by the verifier for the run that wrote it; so too `verification_failed`. */
  lemma SucceededWasVerified(op: Operation, p: Phase, actions: seq<Action>)
    requires !Terminal(p)
    ensures var q := Execute(op, Fresh(p), actions).row.phase;
      forall o: Observed | o != ObservedOther && q == VerdictPhase(o) ::
        exists id: RunId, k: nat, j: nat :: k < j && VerifiedAt(op, Fresh(p), actions, k, id, o) && StoredAt(op, Fresh(p), actions, j, id, q)
  {
    var q := Execute(op, Fresh(p), actions).row.phase;
    if q == Succeeded || q == VerificationFailed {
      var j, id := PhaseWasStored(op, p, actions);
      var k := StoredForAReason(op, p, actions, j, id, q);
    }
  }

  /** The claim holder's answer reaches the row: its lease check and its write follow undisturbed. */
  lemma AnswerReachesRow(op: Operation, s: State, id: RunId, answer: Input, beat: Input, write: Input, next: Phase)
    requires Inv(op, s) && s.row.owner == Some(id) && InHand(s.runs[id])
    requires (s.runs[id].pc == At(Verify) && !answer.fault && next == VerdictPhase(answer.observed))
             || (s.runs[id].pc == At(Awaiting) && answer.outcome == OtherError && next == Failed)
             || (s.runs[id].pc == At(Awaiting) && answer.outcome == AmbiguousError && next == Ambiguous)
    requires beat.kept && !write.fault
    ensures Apply(op, Apply(op, Apply(op, s, Step(id, answer)), Step(id, beat)), Step(id, write)).row == Row(next, Some(id))
  {
    var asking := Advance(op, s.row, id, s.runs[id], answer);
    AnswerAsks(op, s.row, id, s.runs[id], answer, next);
    BeatTold(op, s.row, id, asking, beat);
    WriteTold(op, s.row, id, Advance(op, s.row, id, asking, beat), write);
  }

  lemma AnswerAsks(op: Operation, row: Row, id: RunId, run: Run, answer: Input, next: Phase)
    requires InHand(run)
    requires (run.pc == At(Verify) && !answer.fault && next == VerdictPhase(answer.observed))
             || (run.pc == At(Awaiting) && answer.outcome == OtherError && next == Failed)
             || (run.pc == At(Awaiting) && answer.outcome == AmbiguousError && next == Ambiguous)
    ensures var r := Advance(op, row, id, run, answer);
      r.pc.Beat? && r.pc.next == next && r.phase == run.phase && ComesFrom(run.phase, next)
  {
  }
}

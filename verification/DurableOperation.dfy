/**
 * The durable operation worker: phases, authorization at execution time and the
 * interleaving of many worker runs (with crashes, lost leases and re-claims) on
 * one stored operation row.
 */
module DurablePhases {
  import opened Outcomes

  datatype Phase =
    | Accepted | AwaitingApproval | Claimed | Preflighting
    | Executing | Ambiguous | Reconciling | Verifying | RollingBack
    | Succeeded | Failed | VerificationFailed | Inconclusive | AuthorizationExpired
    | PreflightBlocked | Cancelled | TimedOut | RolledBack

  predicate Terminal(p: Phase) {
    p in { Succeeded, Failed, VerificationFailed, Inconclusive, AuthorizationExpired,
           PreflightBlocked, Cancelled, TimedOut, RolledBack }
  }

  /** A downstream call may already have happened. */
  predicate Uncertain(p: Phase) {
    p in { Executing, Ambiguous, Reconciling, Verifying }
  }

  /** The transition table. */
  predicate Follows(p: Phase, next: Phase) {
    match p
    case Accepted => next in { AwaitingApproval, Claimed, Cancelled, TimedOut }
    case AwaitingApproval => next in { Claimed, Cancelled, TimedOut }
    case Claimed => next in { Preflighting, TimedOut }
    case Preflighting => next in { Executing, AuthorizationExpired, PreflightBlocked, TimedOut }
    case Executing => next in { Verifying, Ambiguous, Failed, TimedOut }
    case Ambiguous => next in { Reconciling, Failed, TimedOut }
    case Reconciling => next in { Verifying, Failed, Inconclusive, TimedOut }
    case Verifying => next in { Succeeded, VerificationFailed, Inconclusive, RollingBack, TimedOut }
    case RollingBack => next in { RolledBack, Failed, Inconclusive }
    case _ => false
  }

  function TransitionPhase(current: Phase, next: Phase): Result<Phase, string> {
    if current == next then Success(current)
    else if Terminal(current) || !Follows(current, next) then Failure("invalid operation transition")
    else Success(next)
  }

  /** Height of a phase in the transition table; every terminal phase is on top. */
  function Rank(p: Phase): (r: nat)
    ensures r <= 9
    ensures r == 9 <==> Terminal(p)
  {
    match p
    case Accepted => 0
    case AwaitingApproval => 1
    case Claimed => 2
    case Preflighting => 3
    case Executing => 4
    case Ambiguous => 5
    case Reconciling => 6
    case Verifying => 7
    case RollingBack => 8
    case _ => 9
  }

  /** The order in which a stored row's phases follow each other: an approved operation is queued again. */
  function Height(p: Phase): (h: nat)
    ensures h <= 9 && (h == 9 <==> Terminal(p))
  {
    match p
    case AwaitingApproval => 0
    case Accepted => 1
    case _ => Rank(p)
  }

  /** The table is acyclic: a successful change of phase strictly climbs. */
  lemma TransitionClimbs(current: Phase, next: Phase)
    requires TransitionPhase(current, next).Success?
    ensures current == next || Rank(current) < Rank(next)
    ensures Terminal(current) ==> next == current
  {
  }
}

module DurableAuthorization {
  import opened Outcomes
  import opened DurablePhases

  datatype Risk = R0 | R1 | R2 | R3

  datatype Target = Target(uid: string, generation: Option<int>, resourceVersion: string, desiredRevision: string)

  datatype Operation = Operation(
    actorId: string, authzRevision: string, action: string, requiredPermission: string,
    requiresAal2: bool, risk: Risk, target: Target, keyIsStable: bool, deadline: Option<int>)

  datatype Session = Session(
    active: bool, actorId: string, authzRevision: string, permissions: set<string>,
    aal2: bool, reauthenticatedAt: Option<int>, accessToken: string)

  datatype Approval = Approval(
    approverId: string, aal2: bool, authSessionId: string, authzRevision: string, revoked: bool)

  /** What one lookup of an approver's session returned, and when it was judged. */
  datatype Resolution = Resolution(session: Option<Session>, now: int)

  /** Everything `process` reads before it decides who may execute. */
  datatype Reading = Reading(
    session: Option<Session>, approvals: seq<Approval>, now: int, resolutions: seq<Resolution>)

  datatype Code =
    | AuthorizationLost | AuthorizationRevisionChanged | PermissionDenied | AssuranceExpired
    | RecentAssuranceRequired | ApprovalRequired | TwoPersonApprovalRequired

  datatype Verdict = Allowed(accessToken: string, executionActor: Option<string>) | Denied(phase: Phase, code: Code)

  const REAUTHENTICATION_MS := 5 * 60 * 1000

  function Permission(op: Operation): string {
    if op.requiredPermission == "" then "r2d2:" + op.action else op.requiredPermission
  }

  predicate Recent(at: Option<int>, now: int) {
    at.Some? && now - at.value <= REAUTHENTICATION_MS
  }

  function ActiveApprovers(approvals: seq<Approval>): set<string> {
    set a | a in approvals && !a.revoked && a.aal2 :: a.approverId
  }

  function RequiredApprovals(risk: Risk): nat {
    match risk
    case R2 => 1
    case R3 => 2
    case _ => 0
  }

  function AuthorizeAtExecution(op: Operation, session: Option<Session>, approvals: seq<Approval>, now: int): Verdict {
    if session.None? || !session.value.active || session.value.actorId != op.actorId then
      Denied(AuthorizationExpired, AuthorizationLost)
    else if session.value.authzRevision != op.authzRevision then
      Denied(AuthorizationExpired, AuthorizationRevisionChanged)
    else if Permission(op) !in session.value.permissions then
      Denied(PreflightBlocked, PermissionDenied)
    else if op.requiresAal2 && !session.value.aal2 then
      Denied(AuthorizationExpired, AssuranceExpired)
    else if op.requiresAal2 && !Recent(session.value.reauthenticatedAt, now) then
      Denied(AuthorizationExpired, RecentAssuranceRequired)
    else if op.risk == R2 && |ActiveApprovers(approvals)| < 1 then
      Denied(PreflightBlocked, ApprovalRequired)
    else if op.risk == R3 && |ActiveApprovers(approvals)| < 2 then
      Denied(PreflightBlocked, TwoPersonApprovalRequired)
    else
      Allowed(session.value.accessToken, None)
  }

  function ResolutionAt(r: Reading, i: nat): Resolution {
    if i < |r.resolutions| then r.resolutions[i] else Resolution(None, r.now)
  }

  /** Approval `i` comes from somebody else whose own live session can execute. */
  predicate Delegates(op: Operation, r: Reading, i: nat)
    requires i < |r.approvals|
  {
    var a, s := r.approvals[i], ResolutionAt(r, i).session;
    && !a.revoked && a.aal2 && a.authSessionId != "" && a.approverId != op.actorId
    && s.Some? && s.value.active && s.value.aal2
    && Recent(s.value.reauthenticatedAt, ResolutionAt(r, i).now)
    && s.value.authzRevision == a.authzRevision
    && op.requiredPermission in s.value.permissions
  }

  /** The loop over the approvals, from approval `i` on: the first that can stand in. */
  function FirstDelegate(op: Operation, r: Reading, i: nat): (d: Option<nat>)
    requires i <= |r.approvals|
    ensures d.Some? ==> i <= d.value < |r.approvals| && Delegates(op, r, d.value)
    ensures d.None? <==> forall j | i <= j < |r.approvals| :: !Delegates(op, r, j)
    decreases |r.approvals| - i
  {
    if i == |r.approvals| then None
    else if Delegates(op, r, i) then Some(i)
    else FirstDelegate(op, r, i + 1)
  }

  /** The actor's own authority, else an independent approver's. */
  function Authorize(op: Operation, r: Reading): Verdict {
    var own := AuthorizeAtExecution(op, r.session, r.approvals, r.now);
    if own.Denied? && own.code in {AssuranceExpired, RecentAssuranceRequired} && op.risk in {R2, R3}
       && |ActiveApprovers(r.approvals)| >= RequiredApprovals(op.risk) then
      var d := FirstDelegate(op, r, 0);
      if d.Some? then Allowed(ResolutionAt(r, d.value).session.value.accessToken, Some(r.approvals[d.value].approverId))
      else own
    else own
  }

  /** At most five minutes old. */
  predicate Assured(at: Option<int>, now: int) {
    match at
    case None => false
    case Some(t) => now <= t + 300000
  }

  /** Different people who approved with a second factor and have not taken it back. */
  function StandingApprovers(r: Reading): set<string> { set a | a in r.approvals && a.aal2 && !a.revoked :: a.approverId }

  /** The named permission, or the one that goes with the action. */
  predicate MayRun(op: Operation, permissions: set<string>) {
    if op.requiredPermission != "" then op.requiredPermission in permissions else "r2d2:" + op.action in permissions
  }

  /** The original actor still holds the session, revision and permission the operation was accepted under. */
  predicate ActorStands(op: Operation, r: Reading) {
    && r.session.Some? && r.session.value.active
    && r.session.value.actorId == op.actorId
    && r.session.value.authzRevision == op.authzRevision
    && MayRun(op, r.session.value.permissions)
  }

  /** Approval `i`, of somebody else, is backed by that person's own live, assured and permitted session. */
  predicate StandsIn(op: Operation, r: Reading, i: nat)
    requires i < |r.approvals|
  {
    var a, q := r.approvals[i], ResolutionAt(r, i);
    a.approverId != op.actorId && a.aal2 && !a.revoked && a.authSessionId != ""
    && match q.session
       case None => false
       case Some(s) =>
         s.active && s.aal2 && s.authzRevision == a.authzRevision && op.requiredPermission in s.permissions && Assured(s.reauthenticatedAt, q.now)
  }

  predicate ActorAssured(op: Operation, r: Reading)
    requires ActorStands(op, r)
  {
    r.session.value.aal2 && Assured(r.session.value.reauthenticatedAt, r.now)
  }

  /** The promise behind an allowed verdict, stated without the order of the checks. */
  ghost predicate Authorized(op: Operation, r: Reading) {
    && ActorStands(op, r)
    && |StandingApprovers(r)| >= (match op.risk case R3 => 2 case R2 => 1 case _ => 0)
    && (op.requiresAal2 ==>
          || ActorAssured(op, r)
          || (op.risk in {R2, R3} && exists i :: 0 <= i < |r.approvals| && StandsIn(op, r, i)))
  }

  /** Whose token an allowed verdict hands to the owner call. */
  ghost predicate TokenIsEntitled(op: Operation, r: Reading, v: Verdict)
    requires v.Allowed? && ActorStands(op, r)
  {
    match v.executionActor
    case None => v.accessToken == r.session.value.accessToken && (op.requiresAal2 ==> ActorAssured(op, r))
    case Some(who) =>
      && who != op.actorId
      && (exists i :: 0 <= i < |r.approvals| && StandsIn(op, r, i)
                      && r.approvals[i].approverId == who
                      && ResolutionAt(r, i).session.value.accessToken == v.accessToken)
  }

  lemma ApproversStand(r: Reading)
    ensures ActiveApprovers(r.approvals) == StandingApprovers(r)
  {
  }

  lemma DelegatesIff(op: Operation, r: Reading)
    ensures forall i | 0 <= i < |r.approvals| :: Delegates(op, r, i) <==> StandsIn(op, r, i)
  {
  }

  /** The nested checks allow execution exactly when the promise holds, with the entitled token. */
  lemma AuthorizeMeetsPromise(op: Operation, r: Reading)
    ensures Authorize(op, r).Allowed? <==> Authorized(op, r)
    ensures Authorize(op, r).Allowed? ==> TokenIsEntitled(op, r, Authorize(op, r))
    ensures Authorize(op, r).Denied? ==> Authorize(op, r).phase in {AuthorizationExpired, PreflightBlocked}
  {
    ApproversStand(r);
    DelegatesIff(op, r);
    var d := FirstDelegate(op, r, 0);
    if d.Some? {
      assert StandsIn(op, r, d.value);
    }
  }

  datatype Live = Live(
    isFresh: bool, snapshotComplete: bool, uid: string, generation: Option<int>,
    resourceVersion: string, desiredRevision: string)

  datatype Preflight = Satisfied | AuthorityUnavailable | TargetUidChanged | TargetGenerationChanged
    | TargetRevisionChanged | DesiredRevisionChanged

  function CheckLivePreconditions(op: Operation, live: Option<Live>): Preflight {
    if live.None? || !live.value.isFresh || !live.value.snapshotComplete then AuthorityUnavailable
    else if live.value.uid != op.target.uid then TargetUidChanged
    else if op.target.generation.Some? && live.value.generation != op.target.generation then TargetGenerationChanged
    else if op.target.resourceVersion != "" && live.value.resourceVersion != op.target.resourceVersion then TargetRevisionChanged
    else if op.target.desiredRevision != "" && live.value.desiredRevision != op.target.desiredRevision then DesiredRevisionChanged
    else Satisfied
  }

  /** The live object is the very one the operation was bound to, as far as the binding says. */
  predicate ExactTarget(op: Operation, live: Option<Live>) {
    && live.Some? && live.value.isFresh && live.value.snapshotComplete
    && live.value.uid == op.target.uid
    && op.target.generation in {None, live.value.generation}
    && op.target.resourceVersion in {"", live.value.resourceVersion}
    && op.target.desiredRevision in {"", live.value.desiredRevision}
  }

  lemma PreflightMeansExactTarget(op: Operation, live: Option<Live>)
    ensures CheckLivePreconditions(op, live) == Satisfied <==> ExactTarget(op, live)
  {
  }

  predicate DeadlineExceeded(op: Operation, now: int) {
    op.deadline.Some? && now >= op.deadline.value
  }

  /** The deadline, if there is one, has come. */
  predicate Overdue(op: Operation, now: int) {
    match op.deadline
    case None => false
    case Some(t) => t <= now
  }
}

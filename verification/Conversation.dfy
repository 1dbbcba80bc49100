/**
 * Conversation turns under leases: the tables of one conversation, its
 * transactions, and everything that can happen to them over time.
 */
module Turns {
  import opened Outcomes
  import opened JsonText
  import opened CanonicalPrinter
  import opened DialogueState

  type Request = nat
  type LeaseId = nat

  const TURN_LEASE_MS := 120 * 1000
  const MAX_TURN_ATTEMPTS := 5
  const MAX_MESSAGE := 24000

  datatype Status = Pending | Completed | Failed

  datatype Lease = Lease(owner: LeaseId, expiresAt: int)

  datatype UserRow = UserRow(sequence: nat, content: string, status: Status, lease: Option<Lease>, attempt: nat)

  datatype AssistantRow = AssistantRow(sequence: nat, answer: string)

  /** A committed transition, with the turn it belongs to. */
  datatype Entry = Entry(turn: Request, transition: Transition)

  /** The rows of one conversation; the keys are the tables' unique (request, role) columns. */
  datatype Tables = Tables(
    active: bool, deleted: bool,
    users: map<Request, UserRow>, assistants: map<Request, AssistantRow>,
    projection: Option<Head>, log: seq<Entry>)

  function Transitions(log: seq<Entry>): (ts: seq<Transition>)
    ensures |ts| == |log| && forall i | 0 <= i < |log| :: ts[i] == log[i].transition
  {
    seq(|log|, i requires 0 <= i < |log| => log[i].transition)
  }

  predicate ValidMessage(s: string) { 0 < |s| <= MAX_MESSAGE }

  predicate LiveAt(row: UserRow, now: int) {
    row.status.Pending? && row.lease.Some? && row.lease.value.expiresAt > now
  }

  predicate OtherTurnLive(t: Tables, req: Request, now: int) {
    exists r :: r in t.users && r != req && LiveAt(t.users[r], now)
  }

  function Sequences(t: Tables): set<nat> {
    (set r | r in t.users :: t.users[r].sequence) + (set r | r in t.assistants :: t.assistants[r].sequence)
  }

  ghost function Max(s: set<nat>): (m: nat)
    ensures (forall x | x in s :: x <= m) && (m in s || (s == {} && m == 0))
  {
    if s == {} then 0 else
      var x :| x in s;
      var rest := Max(s - {x});
      assert forall y | y in s :: y == x || y in s - {x};
      if x > rest then x else rest
  }

  ghost function NextSequence(t: Tables): nat { Max(Sequences(t)) + 1 }

  datatype BeginOutcome =
    | InvalidMessage | NotFound | Archived | AnotherTurnInProgress | Replayed(answer: string) | RequestConflict
    | RecoveryPending | TurnInProgress | AttemptLimit | Started(context: Option<Head>)

  ghost function Begin(t: Tables, now: int, req: Request, content: string, lease: LeaseId): (Tables, BeginOutcome) {
    if !ValidMessage(content) then (t, InvalidMessage)
    else if t.deleted then (t, NotFound)
    else if !t.active then (t, Archived)
    else if OtherTurnLive(t, req, now) then (t, AnotherTurnInProgress)
    else if req in t.assistants then (t, Replayed(t.assistants[req].answer))
    else if req in t.users && t.users[req].content != content then (t, RequestConflict)
    else if req in t.users && t.users[req].status.Pending? then
      (t, if LiveAt(t.users[req], now) then TurnInProgress else RecoveryPending)
    else if req in t.users && t.users[req].attempt >= MAX_TURN_ATTEMPTS then (t, AttemptLimit)
    else
      var granted := Some(Lease(lease, now + TURN_LEASE_MS));
      var row := if req in t.users then t.users[req].(status := Pending, lease := granted, attempt := t.users[req].attempt + 1)
                 else UserRow(NextSequence(t), content, Pending, granted, 1);
      (t.(users := t.users[req := row]), Started(t.projection))
  }

  /** What the model's reply asks to commit: nothing, a state that fails validation, or material. */
  datatype Candidate = NoCandidate | Rejected | Material(fields: seq<Field>)

  datatype CompleteOutcome =
    | TurnNotFound | LeaseLost | BadCandidate | ChainRejected | DuplicateTurn | RevisionConflict | BadAnswer | Answered

  predicate HoldsLease(t: Tables, now: int, req: Request, lease: LeaseId) {
    req in t.users && LiveAt(t.users[req], now) && t.users[req].lease.value.owner == lease
  }

  /** The insert trigger of the log: the base revision must be the last stored one, the link is derived. */
  function StoredLink(h: Hash, conversation: Str, t: Tables, x: Transition): Transition {
    x.(previousDigest := HeadDigest(h, conversation, Transitions(t.log)))
  }

  function CommitDialogue(h: Hash, conversation: Str, t: Tables, req: Request, c: Candidate): (Tables, CompleteOutcome) {
    match c
    case NoCandidate => (t, Answered)
    case Rejected => (t, BadCandidate)
    case Material(fields) =>
      var x := BuildTransition(h, conversation, fields, t.projection);
      if x.baseRevision != |t.log| then (t, ChainRejected)
      else if exists i :: 0 <= i < |t.log| && t.log[i].turn == req then (t, DuplicateTurn)
      else if t.projection.Some? && t.projection.value.revision != x.nextRevision - 1 then (t, RevisionConflict)
      else
        (t.(log := t.log + [Entry(req, StoredLink(h, conversation, t, x))],
            projection := Some(Head(x.nextRevision, x.stateDigest, fields))), Answered)
  }

  ghost function Complete(h: Hash, conversation: Str, t: Tables, now: int, req: Request, lease: LeaseId, answer: string, c: Candidate)
    : (Tables, CompleteOutcome)
  {
    if t.deleted then (t, TurnNotFound)
    else if !HoldsLease(t, now, req, lease) then (t, LeaseLost)
    else
      var (t', outcome) := CommitDialogue(h, conversation, t, req, c);
      if outcome != Answered then (t, outcome)
      else if !ValidMessage(answer) then (t, BadAnswer)
      else
        var sequence := if req in t.assistants then t.assistants[req].sequence else NextSequence(t);
        (t'.(assistants := t.assistants[req := AssistantRow(sequence, answer)],
             users := t.users[req := t.users[req].(status := Completed, lease := None)]), Answered)
  }

  function Close(t: Tables, req: Request): Tables
    requires req in t.users
  {
    t.(users := t.users[req := t.users[req].(status := Failed, lease := None)])
  }

  function Fail(t: Tables, req: Request, lease: LeaseId): Tables {
    if req in t.users && t.users[req].status.Pending? && t.users[req].lease.Some? && t.users[req].lease.value.owner == lease
    then Close(t, req) else t
  }

  function Heartbeat(t: Tables, now: int, req: Request, lease: LeaseId): (Tables, bool) {
    if HoldsLease(t, now, req, lease)
    then (t.(users := t.users[req := t.users[req].(lease := Some(Lease(lease, now + TURN_LEASE_MS)))]), true)
    else (t, false)
  }

  /** One row of the maintenance reaper: only an expired lease may be closed. */
  function Reap(t: Tables, now: int, req: Request): Tables {
    if req in t.users && t.users[req].status.Pending? && t.users[req].lease.Some? && t.users[req].lease.value.expiresAt <= now
    then Close(t, req) else t
  }

  /** Administrator recovery closes a pending turn whatever its lease says. */
  function Recover(t: Tables, req: Request): Tables {
    if req in t.users && t.users[req].status.Pending? then Close(t, req) else t
  }
}

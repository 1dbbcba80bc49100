/** What each transaction on a conversation answers, why, and what it leaves in the rows. */
module TurnOutcomes {
  import opened Outcomes
  import opened JsonText
  import opened CanonicalPrinter
  import opened DialogueState
  import opened Turns
  import opened TurnProtocol

  // ----- Beginning a turn -----

  predicate Unexpired(row: UserRow, now: int) { row.status == Pending && row.lease.Some? && now < row.lease.value.expiresAt }

  /** What each refusal says of the rows. */
  predicate Holds(t: Tables, now: int, req: Request, content: string, o: BeginOutcome) {
    match o
    case InvalidMessage => content == "" || |content| > 24000
    case NotFound => t.deleted
    case Archived => !t.active
    case AnotherTurnInProgress => exists r :: r in t.users && r != req && Unexpired(t.users[r], now)
    case Replayed(answer) => req in t.assistants && t.assistants[req].answer == answer
    case RequestConflict => req in t.users && t.users[req].content != content
    case TurnInProgress => req in t.users && Unexpired(t.users[req], now)
    case RecoveryPending => req in t.users && t.users[req].status == Pending && !Unexpired(t.users[req], now)
    case AttemptLimit => req in t.users && t.users[req].status != Pending && t.users[req].attempt >= 5
    case Started(_) => false
  }

  /** The order in which the reasons are looked at. */
  function Order(o: BeginOutcome): nat {
    match o
    case InvalidMessage => 0
    case NotFound => 1
    case Archived => 2
    case AnotherTurnInProgress => 3
    case Replayed(_) => 4
    case RequestConflict => 5
    case TurnInProgress => 6
    case RecoveryPending => 6
    case AttemptLimit => 7
    case Started(_) => 8
  }

  /** A begin is refused for the first reason that holds, and then writes nothing; it starts when none does. */
  lemma FirstReasonRefuses(t: Tables, now: int, req: Request, content: string, lease: LeaseId)
    ensures var (t', o) := Begin(t, now, req, content, lease);
      && (o.Started? || (t' == t && Holds(t, now, req, content, o)))
      && (forall reason: BeginOutcome | Order(reason) < Order(o) :: !Holds(t, now, req, content, reason))
  {
    assert OtherTurnLive(t, req, now) <==> Holds(t, now, req, content, AnotherTurnInProgress) by {
      forall r | r in t.users ensures LiveAt(t.users[r], now) <==> Unexpired(t.users[r], now) {}
    }
  }

  /** A started turn holds the row of its request, and no other row changes. */
  lemma StartedTurnIsGranted(t: Tables, now: int, req: Request, content: string, lease: LeaseId)
    requires Begin(t, now, req, content, lease).1.Started?
    ensures var (t', o) := Begin(t, now, req, content, lease);
      && o == Started(t.projection)
      && req in t'.users && t'.users[req].content == content && t'.users[req].status == Pending
      && t'.users[req].lease == Some(Lease(lease, now + 120000))
      && t'.users[req].attempt == (if req in t.users then t.users[req].attempt + 1 else 1)
      && (if req in t.users then t'.users[req].sequence == t.users[req].sequence else NextNumber(t, t'.users[req].sequence))
      && t'.users - {req} == t.users - {req} && t' == t.(users := t'.users)
  {
  }

  /** The next number: greater than all in use, and one more than some or the first. */
  ghost predicate NextNumber(t: Tables, n: nat) {
    (forall m | m in Sequences(t) :: m < n) && (n == 1 || n - 1 in Sequences(t))
  }

  /** In every history, past the earlier checks, a request is refused as a conflict exactly when it is unanswered under other words. */
  lemma ReusedRequestConflicts(h: Hash, conversation: Str, now: int, actions: seq<Action>, s: State,
                               req: Request, content: string, lease: LeaseId)
    requires Reached(h, conversation, now, actions, s)
    requires forall reason: BeginOutcome | Order(reason) < 4 :: !Holds(s.tables, s.now, req, content, reason)
    ensures var (t, o) := Begin(s.tables, s.now, req, content, lease);
      && (o == RequestConflict <==> req in s.tables.users && s.tables.users[req].status != Completed && s.tables.users[req].content != content)
      && (o == RequestConflict ==> t == s.tables)
      && (o.Started? ==> req in t.users && t.users[req].content == content)
  {
    ReachableInv(h, conversation, now, actions);
    CompletedIsAnswered(s, req);
    ConflictIff(s.tables, s.now, req, content, lease);
  }

  lemma CompletedIsAnswered(s: State, req: Request)
    requires RowsOk(s) && AnswersOk(s)
    ensures req in s.tables.assistants <==> req in s.tables.users && s.tables.users[req].status == Completed
  {
  }

  lemma ConflictIff(t: Tables, now: int, req: Request, content: string, lease: LeaseId)
    requires req in t.assistants <==> req in t.users && t.users[req].status == Completed
    requires forall reason: BeginOutcome | Order(reason) < 4 :: !Holds(t, now, req, content, reason)
    ensures var (t', o) := Begin(t, now, req, content, lease);
      && (o == RequestConflict <==> req in t.users && t.users[req].status != Completed && t.users[req].content != content)
      && (o == RequestConflict ==> t' == t)
      && (o.Started? ==> req in t'.users && t'.users[req].content == content)
  {
    FirstReasonRefuses(t, now, req, content, lease);
    if req in t.assistants { assert Holds(t, now, req, content, Replayed(t.assistants[req].answer)); }
  }

  /** All turns ever started for one request are for the same words. */
  lemma OneContentPerRequest(h: Hash, conversation: Str, now: int, actions: seq<Action>, s: State, more: seq<Action>,
                             req: Request, content: string, lease: LeaseId, again: string, lease': LeaseId)
    requires Reached(h, conversation, now, actions, s) && (forall k | 0 <= k < |more| :: Admissible(more[k]))
    requires lease !in s.grants && Begin(s.tables, s.now, req, content, lease).1.Started?
    requires var s' := Execute(h, conversation, Apply(h, conversation, s, BeginTurn(req, content, lease)), more);
      Begin(s'.tables, s'.now, req, again, lease').1.Started?
    ensures again == content
  {
    var begun := Apply(h, conversation, s, BeginTurn(req, content, lease));
    var s' := Execute(h, conversation, begun, more);
    ReachableInv(h, conversation, now, actions);
    StartBinds(h, conversation, s, req, content, lease);
    ExecuteIsStable(h, conversation, begun, more);
    StartedAgain(s'.tables, s'.now, req, again, lease');
  }

  lemma StartBinds(h: Hash, conversation: Str, s: State, req: Request, content: string, lease: LeaseId)
    requires Inv(h, conversation, s) && lease !in s.grants && Begin(s.tables, s.now, req, content, lease).1.Started?
    ensures var begun := Apply(h, conversation, s, BeginTurn(req, content, lease));
      Inv(h, conversation, begun) && req in begun.tables.users && begun.tables.users[req].content == content
  {
    ApplyKeepsInv(h, conversation, s, BeginTurn(req, content, lease));
    StartedTurnIsGranted(s.tables, s.now, req, content, lease);
  }

  lemma StartedAgain(t: Tables, now: int, req: Request, content: string, lease: LeaseId)
    requires req in t.users && Begin(t, now, req, content, lease).1.Started?
    ensures t.users[req].content == content
  {
  }

  // ----- Completing, closing and keeping a turn -----

  predicate HeldBy(t: Tables, now: int, req: Request, lease: LeaseId) {
    req in t.users && Unexpired(t.users[req], now) && t.users[req].lease.value.owner == lease
  }

  /** Only the holder of an unexpired lease completes a turn; whatever else is refused leaves every row as it was. */
  lemma OnlyHolderCompletes(h: Hash, conversation: Str, t: Tables, now: int, req: Request, lease: LeaseId, answer: string, c: Candidate)
    ensures var (t', o) := Complete(h, conversation, t, now, req, lease, answer, c);
      && (o == TurnNotFound <==> t.deleted)
      && (o == LeaseLost <==> !t.deleted && !HeldBy(t, now, req, lease))
      && (o == BadCandidate <==> !t.deleted && HeldBy(t, now, req, lease) && c.Rejected?)
      && (o != Answered ==> t' == t)
      && (o == Answered ==> answer != "" && |answer| <= 24000)
      && (o == BadAnswer ==> answer == "" || |answer| > 24000)
  {
  }

  /** What refuses a dialogue commit: a base that is not the last stored revision, then a turn already recorded. */
  lemma CommitFirstReason(h: Hash, conversation: Str, t: Tables, req: Request, fields: seq<Field>)
    ensures var base := if t.projection.Some? then t.projection.value.revision else 0;
      CommitDialogue(h, conversation, t, req, Material(fields)).1 ==
        if base != |t.log| then ChainRejected else if exists e :: e in t.log && e.turn == req then DuplicateTurn else Answered
  {
    forall i | 0 <= i < |t.log| ensures t.log[i] in t.log {}
  }

  /** What a completion writes beside the log: the answer and the closed turn of its own request. */
  lemma CompletionAnswersItsTurn(h: Hash, conversation: Str, t: Tables, now: int, req: Request, lease: LeaseId, answer: string, c: Candidate)
    requires Complete(h, conversation, t, now, req, lease, answer, c).1 == Answered
    ensures var t' := Complete(h, conversation, t, now, req, lease, answer, c).0;
      && req in t.users && req in t'.users && req in t'.assistants
      && t'.users[req] == t.users[req].(status := Completed, lease := None)
      && t'.assistants[req].answer == answer
      && (if req in t.assistants then t'.assistants[req].sequence == t.assistants[req].sequence
          else NextNumber(t, t'.assistants[req].sequence))
      && t'.users - {req} == t.users - {req} && t'.assistants - {req} == t.assistants - {req}
      && t'.active == t.active && t'.deleted == t.deleted
      && (c.NoCandidate? ==> t'.log == t.log && t'.projection == t.projection)
      && (c.Material? ==> |t'.log| == |t.log| + 1 && t'.log[|t.log|].turn == req
                          && t'.projection.Some? && t'.projection.value.material == c.fields)
  {
  }

  /** Who may close a pending turn: its holder, the reaper once the lease has expired, an administrator always. */
  lemma ClosesExactly(t: Tables, now: int, req: Request, lease: LeaseId)
    ensures Fail(t, req, lease) == if Closing(t, req) && t.users[req].lease.value.owner == lease then Closed(t, req) else t
    ensures Reap(t, now, req) == if Closing(t, req) && !Unexpired(t.users[req], now) then Closed(t, req) else t
    ensures Recover(t, req) == if req in t.users && t.users[req].status == Pending then Closed(t, req) else t
  {
  }

  predicate Closing(t: Tables, req: Request) { req in t.users && t.users[req].status == Pending && t.users[req].lease.Some? }

  /** The turn has failed, has no lease, and may be begun again; nothing else about it changes. */
  function Closed(t: Tables, req: Request): Tables
    requires req in t.users
  {
    var row := t.users[req];
    t.(users := t.users[req := UserRow(row.sequence, row.content, Failed, None, row.attempt)])
  }

  /** A heartbeat of the unexpired holder moves its expiry to a full lease from now; any other changes nothing. */
  lemma HeartbeatExtends(t: Tables, now: int, req: Request, lease: LeaseId)
    ensures var (t', kept) := Heartbeat(t, now, req, lease);
      && (kept <==> HeldBy(t, now, req, lease))
      && (!kept ==> t' == t)
      && (kept ==> t' == t.(users := t.users[req := t.users[req].(lease := Some(Lease(lease, now + 120000)))]))
  {
  }
}

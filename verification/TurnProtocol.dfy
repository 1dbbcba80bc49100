/** Every run of the turn protocol: what is granted, what is committed, and what never changes again. */
module TurnProtocol {
  import opened Outcomes
  import opened JsonText
  import opened CanonicalPrinter
  import opened DialogueState
  import opened Turns

  /** What a successful begin handed out: the turn, and the dialogue context its worker plans on. */
  datatype Grant = Grant(request: Request, context: Option<Head>)

  datatype Completion = Completion(request: Request, lease: LeaseId, answer: string)

  /** The tables and the clock, with the grants and completions of the past. */
  datatype State = State(tables: Tables, now: int, grants: map<LeaseId, Grant>, completions: seq<Completion>)

  datatype Action =
    | Tick(elapsed: nat)
    | BeginTurn(request: Request, content: string, lease: LeaseId)
    | CompleteTurn(request: Request, lease: LeaseId, answer: string, candidate: Candidate)
    | FailTurn(request: Request, lease: LeaseId)
    | HeartbeatTurn(request: Request, lease: LeaseId)
    | ReapTurn(request: Request)
    | RecoverTurn(request: Request)
    | SetActive(active: bool)
    | Delete

  /** One transaction or one passage of time. A lease identifier is never drawn twice. */
  ghost function Apply(h: Hash, conversation: Str, s: State, a: Action): State {
    match a
    case Tick(d) => s.(now := s.now + d)
    case BeginTurn(req, content, lease) =>
      if lease in s.grants then s
      else
        var (t, o) := Begin(s.tables, s.now, req, content, lease);
        if o.Started? then s.(tables := t, grants := s.grants[lease := Grant(req, o.context)]) else s
    case CompleteTurn(req, lease, answer, c) =>
      var (t, o) := Complete(h, conversation, s.tables, s.now, req, lease, answer, c);
      if o == Answered then s.(tables := t, completions := s.completions + [Completion(req, lease, answer)]) else s
    case FailTurn(req, lease) => s.(tables := Fail(s.tables, req, lease))
    case HeartbeatTurn(req, lease) => s.(tables := Heartbeat(s.tables, s.now, req, lease).0)
    case ReapTurn(req) => s.(tables := Reap(s.tables, s.now, req))
    case RecoverTurn(req) => s.(tables := Recover(s.tables, req))
    case SetActive(b) => if s.tables.deleted then s else s.(tables := s.tables.(active := b))
    case Delete => s.(tables := s.tables.(active := false, deleted := true))
  }

  /** Validated material is what `stateMaterial` lets through. */
  predicate Admissible(a: Action) {
    a.CompleteTurn? && a.candidate.Material? ==> IsMaterial(a.candidate.fields)
  }

  ghost function Execute(h: Hash, conversation: Str, s: State, actions: seq<Action>): State {
    if actions == [] then s
    else Apply(h, conversation, Execute(h, conversation, s, actions[..|actions| - 1]), actions[|actions| - 1])
  }

  function Empty(now: int): State {
    State(Tables(true, false, map[], map[], None, []), now, map[], [])
  }

  // ----- Invariants -----

  /** Every user row is in one of its legal shapes, and a pending one was granted to its lease. */
  ghost predicate RowsOk(s: State) {
    forall r | r in s.tables.users ::
      var row := s.tables.users[r];
      && 1 <= row.attempt <= MAX_TURN_ATTEMPTS && row.sequence >= 1
      && (row.status.Pending? <==> row.lease.Some?)
      && (row.status.Pending? ==> row.lease.value.owner in s.grants && s.grants[row.lease.value.owner].request == r)
      && (row.status.Completed? <==> r in s.tables.assistants)
  }

  /** At most one turn is live, and its worker's context is still the stored projection. */
  ghost predicate LiveOk(s: State) {
    && (forall r, q | r in s.tables.users && q in s.tables.users && LiveAt(s.tables.users[r], s.now) && LiveAt(s.tables.users[q], s.now) :: r == q)
    && (forall r | r in s.tables.users && LiveAt(s.tables.users[r], s.now) ::
          && s.tables.users[r].lease.value.owner in s.grants
          && s.grants[s.tables.users[r].lease.value.owner].context == s.tables.projection)
  }

  ghost predicate AnswersOk(s: State) {
    && (forall r | r in s.tables.assistants :: r in s.tables.users)
    && (forall i | 0 <= i < |s.completions| ::
          s.completions[i].request in s.tables.assistants
          && s.tables.assistants[s.completions[i].request].answer == s.completions[i].answer)
    && (forall i, j | 0 <= i < j < |s.completions| :: s.completions[i].request != s.completions[j].request)
  }

  ghost predicate LogOk(h: Hash, conversation: Str, projection: Option<Head>, log: seq<Entry>, answered: set<Request>) {
    && Chain(h, conversation, Transitions(log))
    && Projects(projection, Transitions(log))
    && TurnsOk(log, answered)
  }

  /** Every logged turn was answered, and no turn is logged twice. */
  ghost predicate TurnsOk(log: seq<Entry>, answered: set<Request>) {
    && (forall i | 0 <= i < |log| :: log[i].turn in answered)
    && (forall i, j | 0 <= i < j < |log| :: log[i].turn != log[j].turn)
  }

  ghost predicate SequencesOk(t: Tables) {
    && (forall r, q | r in t.users && q in t.users && r != q :: t.users[r].sequence != t.users[q].sequence)
    && (forall r, q | r in t.assistants && q in t.assistants && r != q :: t.assistants[r].sequence != t.assistants[q].sequence)
    && (forall r, q | r in t.users && q in t.assistants :: t.users[r].sequence != t.assistants[q].sequence)
  }

  ghost predicate Inv(h: Hash, conversation: Str, s: State) {
    RowsOk(s) && LiveOk(s) && AnswersOk(s) && LogOk(h, conversation, s.tables.projection, s.tables.log, s.tables.assistants.Keys) && SequencesOk(s.tables)
  }

  // ----- Writing one user row -----

  /** The state after one user row is written and, possibly, one grant recorded. */
  function Put(s: State, req: Request, row: UserRow, grants: map<LeaseId, Grant>): State {
    s.(tables := s.tables.(users := s.tables.users[req := row]), grants := grants)
  }

  ghost predicate Extends(before: map<LeaseId, Grant>, after: map<LeaseId, Grant>) {
    forall l | l in before :: l in after && after[l] == before[l]
  }

  lemma PutKeepsRows(s: State, req: Request, row: UserRow, grants: map<LeaseId, Grant>)
    requires RowsOk(s) && Extends(s.grants, grants)
    requires 1 <= row.attempt <= MAX_TURN_ATTEMPTS && row.sequence >= 1
    requires row.status.Pending? <==> row.lease.Some?
    requires row.status.Pending? ==> row.lease.value.owner in grants && grants[row.lease.value.owner].request == req
    requires !row.status.Completed? && req !in s.tables.assistants
    ensures RowsOk(Put(s, req, row, grants))
  {
  }

  lemma PutKeepsLive(s: State, req: Request, row: UserRow, grants: map<LeaseId, Grant>)
    requires LiveOk(s) && Extends(s.grants, grants)
    requires LiveAt(row, s.now) ==>
      && (forall q | q in s.tables.users && q != req :: !LiveAt(s.tables.users[q], s.now))
      && row.lease.value.owner in grants && grants[row.lease.value.owner].context == s.tables.projection
    ensures LiveOk(Put(s, req, row, grants))
  {
  }

  lemma PutKeepsSequences(t: Tables, req: Request, row: UserRow)
    requires SequencesOk(t)
    requires row.sequence == if req in t.users then t.users[req].sequence else NextSequence(t)
    ensures SequencesOk(t.(users := t.users[req := row]))
  {
    forall r | r in t.users ensures t.users[r].sequence in Sequences(t) {}
    forall r | r in t.assistants ensures t.assistants[r].sequence in Sequences(t) {}
  }

  lemma PutKeepsInv(h: Hash, conversation: Str, s: State, req: Request, row: UserRow, grants: map<LeaseId, Grant>)
    requires Inv(h, conversation, s)
    requires RowsOk(Put(s, req, row, grants)) && LiveOk(Put(s, req, row, grants))
    requires SequencesOk(s.tables.(users := s.tables.users[req := row]))
    ensures Inv(h, conversation, Put(s, req, row, grants))
  {
  }

  // ----- The transactions -----

  lemma BeginKeepsInv(h: Hash, conversation: Str, s: State, req: Request, content: string, lease: LeaseId)
    requires Inv(h, conversation, s)
    ensures Inv(h, conversation, Apply(h, conversation, s, BeginTurn(req, content, lease)))
  {
    var (t, o) := Begin(s.tables, s.now, req, content, lease);
    if lease !in s.grants && o.Started? {
      var row := t.users[req];
      var grants := s.grants[lease := Grant(req, o.context)];
      assert req in s.tables.users ==> s.tables.users[req].sequence == row.sequence;
      PutKeepsRows(s, req, row, grants);
      PutKeepsLive(s, req, row, grants);
      PutKeepsSequences(s.tables, req, row);
      PutKeepsInv(h, conversation, s, req, row, grants);
    }
  }

  /** Fail, heartbeat, reap and recover rewrite one pending row in place. */
  lemma RewriteKeepsInv(h: Hash, conversation: Str, s: State, req: Request, row: UserRow)
    requires Inv(h, conversation, s) && req in s.tables.users && s.tables.users[req].status.Pending?
    requires row == s.tables.users[req].(status := row.status, lease := row.lease)
    requires
      || (row.status.Failed? && row.lease.None?)
      || (row.status.Pending? && row.lease.Some? && LiveAt(s.tables.users[req], s.now)
          && row.lease.value.owner == s.tables.users[req].lease.value.owner)
    ensures Inv(h, conversation, Put(s, req, row, s.grants))
  {
    PutKeepsRows(s, req, row, s.grants);
    PutKeepsLive(s, req, row, s.grants);
    PutKeepsSequences(s.tables, req, row);
    PutKeepsInv(h, conversation, s, req, row, s.grants);
  }

  lemma TurnsSnoc(log: seq<Entry>, answered: set<Request>, e: Entry)
    requires TurnsOk(log, answered) && e.turn !in answered
    ensures TurnsOk(log + [e], answered + {e.turn})
  {
  }

  lemma TransitionsSnoc(log: seq<Entry>, e: Entry)
    ensures Transitions(log + [e]) == Transitions(log) + [e.transition]
  {
  }

  lemma LogSnoc(h: Hash, conversation: Str, projection: Option<Head>, log: seq<Entry>, answered: set<Request>, req: Request, x: Transition, head: Option<Head>)
    requires LogOk(h, conversation, projection, log, answered) && req !in answered
    requires Chain(h, conversation, Transitions(log) + [x]) && Projects(head, Transitions(log) + [x])
    ensures LogOk(h, conversation, head, log + [Entry(req, x)], answered + {req})
  {
    TransitionsSnoc(log, Entry(req, x));
    TurnsSnoc(log, answered, Entry(req, x));
  }

  lemma LogExtends(h: Hash, conversation: Str, projection: Option<Head>, log: seq<Entry>, answered: set<Request>, req: Request, fields: seq<Field>)
    requires LogOk(h, conversation, projection, log, answered) && req !in answered && IsMaterial(fields)
    ensures var x := BuildTransition(h, conversation, fields, projection);
      && x.baseRevision == |log| && x.nextRevision == |log| + 1
      && x == x.(previousDigest := HeadDigest(h, conversation, Transitions(log)))
      && (projection.Some? ==> projection.value.revision == |log|)
      && LogOk(h, conversation, Some(Head(x.nextRevision, x.stateDigest, fields)), log + [Entry(req, x)], answered + {req})
  {
    BuildExtendsChain(h, conversation, Transitions(log), projection, fields);
    var x := BuildTransition(h, conversation, fields, projection);
    LogSnoc(h, conversation, projection, log, answered, req, x, Some(Head(x.nextRevision, x.stateDigest, fields)));
  }

  /** With a coherent log, no dialogue commit is refused for its revision, its link or its turn. */
  lemma CommitNeverConflicts(h: Hash, conversation: Str, t: Tables, req: Request, c: Candidate)
    requires LogOk(h, conversation, t.projection, t.log, t.assistants.Keys) && req !in t.assistants
    requires c.Material? ==> IsMaterial(c.fields)
    ensures var (t', o) := CommitDialogue(h, conversation, t, req, c);
      && o == (if c.Rejected? then BadCandidate else Answered)
      && t' == t.(log := t'.log, projection := t'.projection) && t.log <= t'.log
      && LogOk(h, conversation, t'.projection, t'.log, t.assistants.Keys + {req})
  {
    if c.Material? {
      LogExtends(h, conversation, t.projection, t.log, t.assistants.Keys, req, c.fields);
      assert forall i | 0 <= i < |t.log| :: t.log[i].turn != req;
    }
  }

  /** The tables after a completed turn, whatever its dialogue commit did. */
  lemma AnswerKeepsTables(t: Tables, t': Tables, req: Request, answer: string)
    requires SequencesOk(t) && req in t.users && req !in t.assistants
    requires t'.assistants == t.assistants[req := AssistantRow(NextSequence(t), answer)]
    requires t'.users == t.users[req := t.users[req].(status := Completed, lease := None)]
    ensures SequencesOk(t')
  {
    forall r | r in t.users ensures t.users[r].sequence in Sequences(t) {}
    forall r | r in t.assistants ensures t.assistants[r].sequence in Sequences(t) {}
  }

  lemma AnswerKeepsRows(s: State, s': State, req: Request, lease: LeaseId, answer: string, sequence: nat)
    requires RowsOk(s) && LiveOk(s) && AnswersOk(s) && req in s.tables.users && LiveAt(s.tables.users[req], s.now)
    requires s'.tables.users == s.tables.users[req := s.tables.users[req].(status := Completed, lease := None)]
    requires s'.tables.assistants == s.tables.assistants[req := AssistantRow(sequence, answer)]
    requires s'.now == s.now && s'.grants == s.grants && s'.completions == s.completions + [Completion(req, lease, answer)]
    ensures RowsOk(s') && LiveOk(s') && AnswersOk(s')
  {
    assert req !in s.tables.assistants;
  }

  lemma CompleteWrites(h: Hash, conversation: Str, t: Tables, now: int, req: Request, lease: LeaseId, answer: string, c: Candidate)
    requires req !in t.assistants && Complete(h, conversation, t, now, req, lease, answer, c).1 == Answered
    ensures var t' := Complete(h, conversation, t, now, req, lease, answer, c).0;
      var d := CommitDialogue(h, conversation, t, req, c).0;
      && HoldsLease(t, now, req, lease) && t'.log == d.log && t'.projection == d.projection
      && t'.users == t.users[req := t.users[req].(status := Completed, lease := None)]
      && t'.assistants == t.assistants[req := AssistantRow(NextSequence(t), answer)]
  {
  }

  /** A live turn has no answer yet. */
  lemma LiveIsUnanswered(s: State, req: Request)
    requires RowsOk(s) && req in s.tables.users && LiveAt(s.tables.users[req], s.now)
    ensures req !in s.tables.assistants
  {
  }

  lemma CompleteHoldsLease(h: Hash, conversation: Str, t: Tables, now: int, req: Request, lease: LeaseId, answer: string, c: Candidate)
    requires Complete(h, conversation, t, now, req, lease, answer, c).1 == Answered
    ensures HoldsLease(t, now, req, lease)
  {
  }

  lemma CompleteShape(h: Hash, conversation: Str, s: State, req: Request, lease: LeaseId, answer: string, c: Candidate)
    requires RowsOk(s) && LogOk(h, conversation, s.tables.projection, s.tables.log, s.tables.assistants.Keys)
    requires c.Material? ==> IsMaterial(c.fields)
    requires Complete(h, conversation, s.tables, s.now, req, lease, answer, c).1 == Answered
    ensures var t := s.tables;
      var t' := Complete(h, conversation, t, s.now, req, lease, answer, c).0;
      && req in t.users && req !in t.assistants && t.log <= t'.log
      && t'.users == t.users[req := t.users[req].(status := Completed, lease := None)]
      && t'.assistants == t.assistants[req := AssistantRow(NextSequence(t), answer)]
      && LogOk(h, conversation, t'.projection, t'.log, t'.assistants.Keys)
  {
    CompleteHoldsLease(h, conversation, s.tables, s.now, req, lease, answer, c);
    LiveIsUnanswered(s, req);
    CommitNeverConflicts(h, conversation, s.tables, req, c);
    CompleteWrites(h, conversation, s.tables, s.now, req, lease, answer, c);
    assert s.tables.assistants[req := AssistantRow(NextSequence(s.tables), answer)].Keys == s.tables.assistants.Keys + {req};
  }

  lemma CompleteKeepsInv(h: Hash, conversation: Str, s: State, req: Request, lease: LeaseId, answer: string, c: Candidate)
    requires Inv(h, conversation, s) && (c.Material? ==> IsMaterial(c.fields))
    ensures Inv(h, conversation, Apply(h, conversation, s, CompleteTurn(req, lease, answer, c)))
  {
    var t := s.tables;
    var (t', o) := Complete(h, conversation, t, s.now, req, lease, answer, c);
    if o == Answered {
      CompleteShape(h, conversation, s, req, lease, answer, c);
      AnswerKeepsTables(t, t', req, answer);
      AnswerKeepsRows(s, Apply(h, conversation, s, CompleteTurn(req, lease, answer, c)), req, lease, answer, NextSequence(t));
    }
  }

  lemma TickKeepsInv(h: Hash, conversation: Str, s: State, d: nat)
    requires Inv(h, conversation, s)
    ensures Inv(h, conversation, s.(now := s.now + d))
  {
  }

  lemma ApplyKeepsInv(h: Hash, conversation: Str, s: State, a: Action)
    requires Inv(h, conversation, s) && Admissible(a)
    ensures Inv(h, conversation, Apply(h, conversation, s, a))
  {
    match a {
      case Tick(d) => TickKeepsInv(h, conversation, s, d);
      case BeginTurn(req, content, lease) => BeginKeepsInv(h, conversation, s, req, content, lease);
      case CompleteTurn(req, lease, answer, c) => CompleteKeepsInv(h, conversation, s, req, lease, answer, c);
      case SetActive(_) =>
      case Delete =>
      case _ =>
        var req := a.request;
        var t := Apply(h, conversation, s, a).tables;
        if t != s.tables {
          RewriteKeepsInv(h, conversation, s, req, t.users[req]);
        }
    }
  }

  lemma {:induction false} ReachableInv(h: Hash, conversation: Str, now: int, actions: seq<Action>)
    requires forall i | 0 <= i < |actions| :: Admissible(actions[i])
    ensures Inv(h, conversation, Execute(h, conversation, Empty(now), actions))
  {
    if actions == [] {
      assert Transitions([]) == [];
    } else {
      ReachableInv(h, conversation, now, actions[..|actions| - 1]);
      ApplyKeepsInv(h, conversation, Execute(h, conversation, Empty(now), actions[..|actions| - 1]), actions[|actions| - 1]);
    }
  }

  // ----- What later actions cannot change -----

  ghost predicate UsersStable(t: Tables, t': Tables) {
    && (forall r | r in t.users ::
          r in t'.users && t'.users[r].content == t.users[r].content && t'.users[r].sequence == t.users[r].sequence)
    && (forall r, n | r in t'.users && r !in t.users && n in Sequences(t) :: n < t'.users[r].sequence)
  }

  ghost predicate AnswersStable(t: Tables, t': Tables) {
    && (forall r | r in t.assistants :: r in t'.assistants && t'.assistants[r] == t.assistants[r])
    && (forall r, n | r in t'.assistants && r !in t.assistants && n in Sequences(t) :: n < t'.assistants[r].sequence)
  }

  /** Content bindings, answers, sequence numbers, grants and the log only ever grow, upwards. */
  ghost predicate Stable(s: State, s': State) {
    && UsersStable(s.tables, s'.tables) && AnswersStable(s.tables, s'.tables)
    && s.tables.log <= s'.tables.log
    && Extends(s.grants, s'.grants) && s.completions <= s'.completions
  }

  lemma BeginIsStable(h: Hash, conversation: Str, s: State, a: Action)
    requires a.BeginTurn?
    ensures Stable(s, Apply(h, conversation, s, a))
  {
  }

  /** Rewriting the status or lease of one user row, and perhaps answering its turn, is stable. */
  lemma RowWriteIsStable(t: Tables, t': Tables, req: Request, row: UserRow, answer: Option<AssistantRow>)
    requires req in t.users && row.content == t.users[req].content && row.sequence == t.users[req].sequence
    requires t'.users == t.users[req := row]
    requires t'.assistants == if answer.Some? then t.assistants[req := answer.value] else t.assistants
    requires answer.Some? ==> req !in t.assistants && answer.value.sequence == NextSequence(t)
    ensures UsersStable(t, t') && AnswersStable(t, t')
  {
  }

  lemma CompleteIsStable(h: Hash, conversation: Str, s: State, a: Action)
    requires Inv(h, conversation, s) && Admissible(a) && a.CompleteTurn?
    ensures Stable(s, Apply(h, conversation, s, a))
  {
    var t := s.tables;
    var (t', o) := Complete(h, conversation, t, s.now, a.request, a.lease, a.answer, a.candidate);
    if o == Answered {
      CompleteShape(h, conversation, s, a.request, a.lease, a.answer, a.candidate);
      RowWriteIsStable(t, t', a.request, t'.users[a.request], Some(t'.assistants[a.request]));
    }
  }

  lemma ApplyIsStable(h: Hash, conversation: Str, s: State, a: Action)
    requires Inv(h, conversation, s) && Admissible(a)
    ensures Stable(s, Apply(h, conversation, s, a))
  {
    match a {
      case BeginTurn(_, _, _) => BeginIsStable(h, conversation, s, a);
      case CompleteTurn(_, _, _, _) => CompleteIsStable(h, conversation, s, a);
      case Tick(_) =>
      case SetActive(_) =>
      case Delete =>
      case _ =>
        var t := Apply(h, conversation, s, a).tables;
        if t != s.tables {
          RowWriteIsStable(s.tables, t, a.request, t.users[a.request], None);
        }
    }
  }

  lemma SequencesGrow(t: Tables, t': Tables)
    requires UsersStable(t, t') && AnswersStable(t, t')
    ensures Sequences(t) <= Sequences(t')
  {
    forall n | n in Sequences(t) ensures n in Sequences(t') {
      if r :| r in t.users && t.users[r].sequence == n {
        assert t'.users[r].sequence == n;
      } else {
        var r :| r in t.assistants && t.assistants[r].sequence == n;
        assert t'.assistants[r].sequence == n;
      }
    }
  }

  lemma StableTransitive(s: State, m: State, t: State)
    requires Stable(s, m) && Stable(m, t)
    ensures Stable(s, t)
  {
    SequencesGrow(s.tables, m.tables);
    assert UsersStable(s.tables, t.tables);
    assert AnswersStable(s.tables, t.tables);
  }

  lemma {:induction false} ExecuteIsStable(h: Hash, conversation: Str, s: State, actions: seq<Action>)
    requires Inv(h, conversation, s) && forall i | 0 <= i < |actions| :: Admissible(actions[i])
    ensures Inv(h, conversation, Execute(h, conversation, s, actions)) && Stable(s, Execute(h, conversation, s, actions))
  {
    if actions != [] {
      var m := Execute(h, conversation, s, actions[..|actions| - 1]);
      ExecuteIsStable(h, conversation, s, actions[..|actions| - 1]);
      ApplyKeepsInv(h, conversation, m, actions[|actions| - 1]);
      ApplyIsStable(h, conversation, m, actions[|actions| - 1]);
      StableTransitive(s, m, Apply(h, conversation, m, actions[|actions| - 1]));
    }
  }

  // ----- The promises of the protocol -----

  ghost predicate Reached(h: Hash, conversation: Str, now: int, actions: seq<Action>, s: State) {
    && (forall i | 0 <= i < |actions| :: Admissible(actions[i]))
    && s == Execute(h, conversation, Empty(now), actions)
  }

  /** No run ever has two unexpired pending turns. */
  lemma OneLiveTurn(h: Hash, conversation: Str, now: int, actions: seq<Action>, s: State, r: Request, q: Request)
    requires Reached(h, conversation, now, actions, s)
    requires r in s.tables.users && LiveAt(s.tables.users[r], s.now)
    requires q in s.tables.users && LiveAt(s.tables.users[q], s.now)
    ensures r == q
  {
    ReachableInv(h, conversation, now, actions);
  }

  /**
   * Whoever still holds its lease sees, at commit, the very context it was granted at begin, and its
   * commit is never refused for a revision, a link or a turn recorded meanwhile.
   */
  lemma CommitSeesGrantedContext(h: Hash, conversation: Str, now: int, actions: seq<Action>, s: State,
                                 req: Request, lease: LeaseId, answer: string, c: Candidate)
    requires Reached(h, conversation, now, actions, s) && (c.Material? ==> IsMaterial(c.fields))
    requires HoldsLease(s.tables, s.now, req, lease) && !s.tables.deleted
    ensures lease in s.grants && s.grants[lease] == Grant(req, s.tables.projection)
    ensures Complete(h, conversation, s.tables, s.now, req, lease, answer, c).1
         == if c.Rejected? then BadCandidate else if !ValidMessage(answer) then BadAnswer else Answered
  {
    ReachableInv(h, conversation, now, actions);
    CommitNeverConflicts(h, conversation, s.tables, req, c);
  }

  /** The log is a gapless hash chain whose last link is the projection. */
  lemma LogIsChain(h: Hash, conversation: Str, now: int, actions: seq<Action>, s: State)
    requires Reached(h, conversation, now, actions, s)
    ensures Chain(h, conversation, Transitions(s.tables.log)) && Projects(s.tables.projection, Transitions(s.tables.log))
  {
    ReachableInv(h, conversation, now, actions);
  }

  /** Attempts stay within five and no two messages share a sequence number. */
  lemma AttemptsAndSequences(h: Hash, conversation: Str, now: int, actions: seq<Action>, s: State)
    requires Reached(h, conversation, now, actions, s)
    ensures SequencesOk(s.tables) && forall r | r in s.tables.users :: 1 <= s.tables.users[r].attempt <= 5
  {
    ReachableInv(h, conversation, now, actions);
  }

  /** A request is completed once; whatever happens afterwards, its binding and its answer stand. */
  lemma AnswerIsFinal(h: Hash, conversation: Str, now: int, actions: seq<Action>, s: State, more: seq<Action>, i: nat)
    requires Reached(h, conversation, now, actions, s) && (forall k | 0 <= k < |more| :: Admissible(more[k]))
    requires i < |s.completions|
    ensures var s' := Execute(h, conversation, s, more);
      var done := s.completions[i];
      && done.request in s'.tables.assistants && s'.tables.assistants[done.request].answer == done.answer
      && done.request in s.tables.users && done.request in s'.tables.users
      && s'.tables.users[done.request].content == s.tables.users[done.request].content
      && (forall j | 0 <= j < |s'.completions| && s'.completions[j].request == done.request :: j == i)
  {
    ReachableInv(h, conversation, now, actions);
    ExecuteIsStable(h, conversation, s, more);
    assert s.completions[i] == Execute(h, conversation, s, more).completions[i];
  }

  /** Any later begin of that request replays the stored answer, unless an earlier check stops it. */
  lemma LaterBeginReplays(h: Hash, conversation: Str, now: int, actions: seq<Action>, s: State, more: seq<Action>, i: nat,
                          content: string, lease: LeaseId)
    requires Reached(h, conversation, now, actions, s) && (forall k | 0 <= k < |more| :: Admissible(more[k]))
    requires i < |s.completions|
    ensures var s' := Execute(h, conversation, s, more);
      var done := s.completions[i];
      var (t, o) := Begin(s'.tables, s'.now, done.request, content, lease);
      t == s'.tables &&
      o == if !ValidMessage(content) then InvalidMessage
           else if s'.tables.deleted then NotFound
           else if !s'.tables.active then Archived
           else if OtherTurnLive(s'.tables, done.request, s'.now) then AnotherTurnInProgress
           else Replayed(done.answer)
  {
    AnswerIsFinal(h, conversation, now, actions, s, more, i);
  }
}

/** The conversation store's transactions as they update the rows, proved against `Turns`. */
module ConversationStore {
  import opened Outcomes
  import opened JsonText
  import opened DialogueState
  import opened Turns
  import opened TurnOutcomes

  class Conversation {
    const id: Str
    const hash: Hash
    var active: bool
    var deleted: bool
    var users: map<Request, UserRow>
    var assistants: map<Request, AssistantRow>
    var projection: Option<Head>
    var log: seq<Entry>

    ghost function Rows(): Tables
      reads this
    {
      Tables(active, deleted, users, assistants, projection, log)
    }

    constructor (id: Str, hash: Hash)
      ensures Rows() == Tables(true, false, map[], map[], None, []) && this.id == id && this.hash == hash
    {
      this.id, this.hash := id, hash;
      active, deleted, users, assistants, projection, log := true, false, map[], map[], None, [];
    }

    /** `COALESCE(max(sequence),0)+1` over the rows of the conversation. */
    method NextFreeSequence() returns (n: nat)
      ensures n == NextSequence(Rows())
    {
      n := 0;
      var left := Sequences(Tables(active, deleted, users, assistants, projection, log));
      ghost var all := left;
      while left != {}
        invariant left <= all
        invariant forall x | x in all && x !in left :: x <= n
        invariant n in all || n == 0
        decreases left
      {
        var x :| x in left;
        left := left - {x};
        n := if x > n then x else n;
      }
      n := n + 1;
    }

    method BeginTurn(now: int, req: Request, content: string, lease: LeaseId) returns (o: BeginOutcome)
      modifies this
      ensures (Rows(), o) == Begin(old(Rows()), now, req, content, lease)
      ensures o.Started? || (Rows() == old(Rows()) && Holds(old(Rows()), now, req, content, o))
      ensures forall reason: BeginOutcome | Order(reason) < Order(o) :: !Holds(old(Rows()), now, req, content, reason)
      ensures o.Started? ==> req in users && users[req].content == content && HeldBy(Rows(), now, req, lease)
    {
      FirstReasonRefuses(Rows(), now, req, content, lease);
      if !ValidMessage(content) { return InvalidMessage; }
      if deleted { return NotFound; }
      if !active { return Archived; }
      if exists r :: r in users && r != req && LiveAt(users[r], now) { return AnotherTurnInProgress; }
      if req in assistants { return Replayed(assistants[req].answer); }
      var granted := Some(Lease(lease, now + TURN_LEASE_MS));
      if req in users {
        var row := users[req];
        if row.content != content { return RequestConflict; }
        if row.status.Pending? {
          if row.lease.None? || row.lease.value.expiresAt <= now { return RecoveryPending; }
          return TurnInProgress;
        }
        if row.attempt >= MAX_TURN_ATTEMPTS { return AttemptLimit; }
        users := users[req := row.(status := Pending, lease := granted, attempt := row.attempt + 1)];
      } else {
        var sequence := NextFreeSequence();
        users := users[req := UserRow(sequence, content, Pending, granted, 1)];
      }
      return Started(projection);
    }

    /** The dialogue part of a completion; nothing is written unless it succeeds. */
    method CommitTransition(req: Request, c: Candidate) returns (o: CompleteOutcome)
      modifies this`log, this`projection
      ensures (Rows(), o) == CommitDialogue(hash, id, old(Rows()), req, c)
    {
      if c.NoCandidate? { return Answered; }
      if c.Rejected? { return BadCandidate; }
      var x := BuildTransition(hash, id, c.fields, projection);
      if x.baseRevision != |log| { return ChainRejected; }
      if exists i :: 0 <= i < |log| && log[i].turn == req { return DuplicateTurn; }
      if projection.Some? && projection.value.revision != x.nextRevision - 1 { return RevisionConflict; }
      var link := if log == [] then Digest(hash, Genesis(id)) else log[|log| - 1].transition.stateDigest;
      assert link == HeadDigest(hash, id, Transitions(log));
      log := log + [Entry(req, x.(previousDigest := link))];
      projection := Some(Head(x.nextRevision, x.stateDigest, c.fields));
      return Answered;
    }

    method CompleteTurn(now: int, req: Request, lease: LeaseId, answer: string, c: Candidate) returns (o: CompleteOutcome)
      modifies this
      ensures (Rows(), o) == Complete(hash, id, old(Rows()), now, req, lease, answer, c)
    {
      if deleted { return TurnNotFound; }
      if req !in users || !LiveAt(users[req], now) || users[req].lease.value.owner != lease { return LeaseLost; }
      var sequence := NextFreeSequence();
      var savedLog, savedProjection := log, projection;
      o := CommitTransition(req, c);
      if o != Answered { return; }
      if !ValidMessage(answer) {
        log, projection := savedLog, savedProjection;
        return BadAnswer;
      }
      if req in assistants { sequence := assistants[req].sequence; }
      assistants := assistants[req := AssistantRow(sequence, answer)];
      users := users[req := users[req].(status := Completed, lease := None)];
    }

    method FailTurn(req: Request, lease: LeaseId)
      modifies this`users
      ensures Rows() == Fail(old(Rows()), req, lease)
    {
      if req in users && users[req].status.Pending? && users[req].lease.Some? && users[req].lease.value.owner == lease {
        users := users[req := users[req].(status := Failed, lease := None)];
      }
    }

    method HeartbeatTurn(now: int, req: Request, lease: LeaseId) returns (kept: bool)
      modifies this`users
      ensures (Rows(), kept) == Heartbeat(old(Rows()), now, req, lease)
    {
      kept := req in users && LiveAt(users[req], now) && users[req].lease.value.owner == lease;
      if kept {
        users := users[req := users[req].(lease := Some(Lease(lease, now + TURN_LEASE_MS)))];
      }
    }
  }

  // ----- The provider context -----

  datatype Role = User | Assistant | OtherRole

  /** A stored message as the history query returns it. */
  datatype HistoryRow = HistoryRow(role: Role, completed: bool, sequence: int, content: string)

  datatype Message = Message(fromUser: bool, content: string)

  predicate Shown(r: HistoryRow) { r.completed && !r.role.OtherRole? }

  function ShownRows(rows: seq<HistoryRow>): seq<HistoryRow> {
    if rows == [] then [] else ShownRows(rows[..|rows| - 1]) + if Shown(rows[|rows| - 1]) then [rows[|rows| - 1]] else []
  }

  /** A stable sort by sequence number, one row at a time. */
  function Place(r: HistoryRow, rs: seq<HistoryRow>): seq<HistoryRow> {
    if rs == [] || rs[|rs| - 1].sequence <= r.sequence then rs + [r] else Place(r, rs[..|rs| - 1]) + [rs[|rs| - 1]]
  }

  function BySequence(rs: seq<HistoryRow>): seq<HistoryRow> {
    if rs == [] then [] else Place(rs[|rs| - 1], BySequence(rs[..|rs| - 1]))
  }

  predicate InSequence(rs: seq<HistoryRow>) { forall i, j | 0 <= i < j < |rs| :: rs[i].sequence <= rs[j].sequence }

  predicate DistinctSequences(rs: seq<HistoryRow>) { forall i, j | 0 <= i < j < |rs| :: rs[i].sequence != rs[j].sequence }

  lemma {:induction false} PlaceHolds(r: HistoryRow, rs: seq<HistoryRow>)
    ensures multiset(Place(r, rs)) == multiset(rs) + multiset{r}
  {
    if rs != [] && rs[|rs| - 1].sequence > r.sequence {
      PlaceHolds(r, rs[..|rs| - 1]);
      assert rs == rs[..|rs| - 1] + [rs[|rs| - 1]];
    }
  }

  lemma {:induction false} PlaceSorts(r: HistoryRow, rs: seq<HistoryRow>)
    requires InSequence(rs)
    ensures InSequence(Place(r, rs))
  {
    if rs != [] && rs[|rs| - 1].sequence > r.sequence {
      var before, last := rs[..|rs| - 1], rs[|rs| - 1];
      PlaceSorts(r, before);
      PlaceHolds(r, before);
      var placed := Place(r, before);
      forall i | 0 <= i < |placed| ensures placed[i].sequence <= last.sequence {
        assert placed[i] in multiset(before) + multiset{r};
      }
    }
  }

  lemma {:induction false} SequenceSorts(rs: seq<HistoryRow>)
    ensures InSequence(BySequence(rs)) && multiset(BySequence(rs)) == multiset(rs)
  {
    if rs != [] {
      var before, last := rs[..|rs| - 1], rs[|rs| - 1];
      SequenceSorts(before);
      PlaceSorts(last, BySequence(before));
      PlaceHolds(last, BySequence(before));
      assert rs == before + [last];
    }
  }

  lemma {:induction false} ShownHolds(rows: seq<HistoryRow>, r: HistoryRow)
    ensures multiset(ShownRows(rows))[r] == if Shown(r) then multiset(rows)[r] else 0
  {
    if rows != [] {
      ShownHolds(rows[..|rows| - 1], r);
      assert rows == rows[..|rows| - 1] + [rows[|rows| - 1]];
    }
  }

  /** The history as the window reads it: the shown rows, sorted, and no others. */
  lemma HistoryIsOrdered(rows: seq<HistoryRow>)
    ensures InSequence(BySequence(ShownRows(rows)))
    ensures forall r :: multiset(BySequence(ShownRows(rows)))[r] ==
                        if r.completed && (r.role == User || r.role == Assistant) then multiset(rows)[r] else 0
  {
    SequenceSorts(ShownRows(rows));
    forall r ensures multiset(ShownRows(rows))[r] == if Shown(r) then multiset(rows)[r] else 0 { ShownHolds(rows, r); }
  }

  lemma InitHolds(p: seq<HistoryRow>)
    requires p != []
    ensures multiset(p[..|p| - 1]) == multiset(p) - multiset{p[|p| - 1]}
  {
    assert p == p[..|p| - 1] + [p[|p| - 1]];
  }

  /** The last row is the one with the largest number. */
  lemma LastIsLargest(p: seq<HistoryRow>, r: HistoryRow)
    requires InSequence(p) && r in multiset(p)
    ensures p != [] && r.sequence <= p[|p| - 1].sequence
  {
    var i :| 0 <= i < |p| && p[i] == r;
  }

  lemma SameLast(p: seq<HistoryRow>, q: seq<HistoryRow>)
    requires InSequence(p) && InSequence(q) && DistinctSequences(p) && multiset(p) == multiset(q) && p != [] && q != []
    ensures p[|p| - 1] == q[|q| - 1]
  {
    var a, b := p[|p| - 1], q[|q| - 1];
    assert a in multiset(p) && b in multiset(q);
    LastIsLargest(q, a);
    LastIsLargest(p, b);
    var i :| 0 <= i < |p| && p[i] == b;
  }

  lemma {:induction false} OrderedListsAgree(p: seq<HistoryRow>, q: seq<HistoryRow>)
    requires InSequence(p) && InSequence(q) && DistinctSequences(p) && multiset(p) == multiset(q)
    ensures p == q
  {
    assert |multiset(p)| == |p| && |multiset(q)| == |q|;
    if |p| > 0 {
      SameLast(p, q);
      InitHolds(p);
      InitHolds(q);
      assert InSequence(p[..|p| - 1]) && InSequence(q[..|q| - 1]) && DistinctSequences(p[..|p| - 1]);
      OrderedListsAgree(p[..|p| - 1], q[..|q| - 1]);
      JoinLast(p, q);
    }
  }

  lemma JoinLast(p: seq<HistoryRow>, q: seq<HistoryRow>)
    requires p != [] && q != [] && p[..|p| - 1] == q[..|q| - 1] && p[|p| - 1] == q[|q| - 1]
    ensures p == q
  {
    assert p == p[..|p| - 1] + [p[|p| - 1]] && q == q[..|q| - 1] + [q[|q| - 1]];
  }

  /** With distinct sequence numbers the window does not depend on the order in which the rows come. */
  lemma WindowIgnoresRowOrder(rows: seq<HistoryRow>, other: seq<HistoryRow>)
    requires multiset(rows) == multiset(other) && DistinctSequences(BySequence(ShownRows(rows)))
    ensures BySequence(ShownRows(rows)) == BySequence(ShownRows(other))
  {
    var p, q := BySequence(ShownRows(rows)), BySequence(ShownRows(other));
    HistoryIsOrdered(rows);
    HistoryIsOrdered(other);
    assert multiset(p) == multiset(q) by { assert forall r :: multiset(p)[r] == multiset(q)[r]; }
    OrderedListsAgree(p, q);
  }

  function Messages(rs: seq<HistoryRow>): (ms: seq<Message>)
    ensures |ms| == |rs| && forall i | 0 <= i < |rs| :: ms[i] == Message(rs[i].role.User?, rs[i].content)
  {
    seq(|rs|, i requires 0 <= i < |rs| => Message(rs[i].role.User?, rs[i].content))
  }

  const MAX_CONTEXT_MESSAGES := 24
  const MAX_CONTEXT_CHARS := 24000

  function Chars(ms: seq<Message>): nat {
    if ms == [] then 0 else |ms[0].content| + Chars(ms[1..])
  }

  /** `ordered[k..]` is the longest suffix of the history that fits beside the current message. */
  predicate LongestFit(ordered: seq<Message>, current: string, k: nat)
    requires k <= |ordered|
  {
    && |ordered| - k <= 23
    && (k == |ordered| || |current| + Chars(ordered[k..]) <= 24_000)
    && (k == 0 || |ordered| - k == 23 || |current| + Chars(ordered[k - 1..]) > 24_000)
  }

  method ContextWindow(rows: seq<HistoryRow>, current: string) returns (output: seq<Message>, k: nat)
    ensures var ordered := Messages(BySequence(ShownRows(rows)));
      && k <= |ordered| && LongestFit(ordered, current, k)
      && output == ordered[k..] + (if current == "" then [] else [Message(true, current)])
  {
    var ordered := Messages(BySequence(ShownRows(rows)));
    k := |ordered|;
    output := [];
    var characters := |current|;
    while k > 0 && |output| < MAX_CONTEXT_MESSAGES - 1
      invariant k <= |ordered| && output == ordered[k..] && |output| <= MAX_CONTEXT_MESSAGES - 1
      invariant characters == |current| + Chars(ordered[k..])
      invariant k == |ordered| || characters <= MAX_CONTEXT_CHARS
    {
      var content := ordered[k - 1].content;
      assert ordered[k - 1..] == [ordered[k - 1]] + ordered[k..];
      if characters + |content| > MAX_CONTEXT_CHARS { break; }
      characters := characters + |content|;
      output := [ordered[k - 1]] + output;
      k := k - 1;
    }
    if current != "" {
      output := output + [Message(true, current)];
    }
  }

  /** A current message within the bound always yields a provider request within both limits. */
  lemma {:induction false} WindowFitsProvider(ordered: seq<Message>, current: string, k: nat)
    requires k <= |ordered| && LongestFit(ordered, current, k) && 0 < |current| <= 24_000
    ensures var output := ordered[k..] + [Message(true, current)];
      |output| <= 24 && Chars(output) <= 24_000
  {
    CharsSnoc(ordered[k..], Message(true, current));
  }

  lemma {:induction false} CharsSnoc(ms: seq<Message>, m: Message)
    ensures Chars(ms + [m]) == Chars(ms) + |m.content|
  {
    if ms != [] {
      CharsSnoc(ms[1..], m);
      assert (ms + [m])[1..] == ms[1..] + [m];
    }
  }
}

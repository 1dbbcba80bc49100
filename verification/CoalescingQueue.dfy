/** The bounded, coalescing, priority-aware event queue. */
module CoalescingQueue {
  import opened Outcomes

  type Key = string

  datatype Priority = Normal | High

  datatype Entry<V> = Entry(value: V, priority: Priority)

  datatype Queue<V> = Queue(limit: nat, items: map<Key, Entry<V>>, order: seq<Key>, dropped: nat, lagging: bool)

  datatype PushResult = PushResult(coalesced: bool, dropped: bool)

  predicate Valid<V>(q: Queue<V>) {
    && q.limit >= 1 && |q.order| <= q.limit
    && (forall i, j | 0 <= i < j < |q.order| :: q.order[i] != q.order[j])
    && (forall k | k in q.items :: k in q.order) && (forall k | k in q.order :: k in q.items)
  }

  /** First position, from `i` on, whose entry is not of high priority. */
  function Removable<V>(q: Queue<V>, i: nat): (r: Option<nat>)
    requires Valid(q) && i <= |q.order|
    ensures r.Some? ==> i <= r.value < |q.order| && q.items[q.order[r.value]].priority != High
    ensures r.Some? ==> forall j | i <= j < r.value :: q.items[q.order[j]].priority == High
    ensures r.None? ==> forall j | i <= j < |q.order| :: q.items[q.order[j]].priority == High
    decreases |q.order| - i
  {
    if i == |q.order| then None
    else if q.items[q.order[i]].priority != High then Some(i)
    else Removable(q, i + 1)
  }

  function Without<V>(q: Queue<V>, i: nat): Queue<V>
    requires Valid(q) && i < |q.order|
  {
    q.(order := q.order[..i] + q.order[i + 1..], items := q.items - {q.order[i]}, dropped := q.dropped + 1, lagging := true)
  }

  function Append<V>(q: Queue<V>, key: Key, e: Entry<V>): Queue<V> {
    q.(order := q.order + [key], items := q.items[key := e])
  }

  function Pushed<V>(q: Queue<V>, key: Key, e: Entry<V>): (Queue<V>, PushResult)
    requires Valid(q)
  {
    if key in q.items then (q.(items := q.items[key := e]), PushResult(true, false))
    else if |q.order| < q.limit then (Append(q, key, e), PushResult(false, false))
    else
      var removable := Removable(q, 0);
      if removable.None? && e.priority != High then
        (q.(dropped := q.dropped + 1, lagging := true), PushResult(false, true))
      else
        (Append(Without(q, if removable.Some? then removable.value else 0), key, e), PushResult(false, false))
  }

  function Shifted<V>(q: Queue<V>): (Queue<V>, Option<(Key, Entry<V>)>)
    requires Valid(q)
  {
    if q.order == [] then (q, None)
    else (q.(order := q.order[1..], items := q.items - {q.order[0]}), Some((q.order[0], q.items[q.order[0]])))
  }

  lemma WithoutIsValid<V>(q: Queue<V>, i: nat)
    requires Valid(q) && i < |q.order|
    ensures Valid(Without(q, i)) && |Without(q, i).order| == |q.order| - 1
    ensures forall k :: k in Without(q, i).items <==> k in q.items && k != q.order[i]
  {
    var r := Without(q, i);
    forall k ensures k in r.items <==> k in r.order {
      if k in r.items {
        var j :| 0 <= j < |q.order| && q.order[j] == k;
        assert r.order[if j < i then j else j - 1] == k;
      }
    }
  }

  lemma PushIsValid<V>(q: Queue<V>, key: Key, e: Entry<V>)
    requires Valid(q)
    ensures Valid(Pushed(q, key, e).0)
    ensures key in Pushed(q, key, e).0.items <==> !Pushed(q, key, e).1.dropped
    ensures key in Pushed(q, key, e).0.items ==> Pushed(q, key, e).0.items[key] == e
  {
    if key !in q.items && |q.order| >= q.limit {
      var r := Removable(q, 0);
      var i := if r.Some? then r.value else 0;
      WithoutIsValid(q, i);
      if r.Some? || e.priority == High { AppendIsValid(Without(q, i), key, e); }
    } else if key !in q.items {
      AppendIsValid(q, key, e);
    }
  }

  lemma AppendIsValid<V>(q: Queue<V>, key: Key, e: Entry<V>)
    requires Valid(q) && key !in q.items && |q.order| < q.limit
    ensures Valid(Append(q, key, e)) && Append(q, key, e).items[key] == e
  {
  }

  lemma ShiftIsValid<V>(q: Queue<V>)
    requires Valid(q)
    ensures Valid(Shifted(q).0)
  {
    if q.order != [] {
      WithoutIsValid(q, 0);
      assert q.order[..0] + q.order[1..] == q.order[1..];
    }
  }

  /** The queue as the source's object, its fields updated in place. */
  class BoundedCoalescingQueue<V> {
    const limit: nat
    var items: map<Key, Entry<V>>
    var order: seq<Key>
    var dropped: nat
    var lagging: bool

    ghost function State(): Queue<V>
      reads this
    {
      Queue(limit, items, order, dropped, lagging)
    }

    constructor (limit: nat)
      requires limit >= 1
      ensures State() == Queue(limit, map[], [], 0, false) && Valid(State())
    {
      this.limit := limit;
      items, order, dropped, lagging := map[], [], 0, false;
    }

    method FirstRemovable() returns (index: nat)
      requires Valid(State())
      ensures var r := Removable(State(), 0); index == if r.Some? then r.value else |order|
    {
      index := 0;
      while index < |order| && items[order[index]].priority == High
        invariant 0 <= index <= |order|
        invariant Removable(State(), 0) == Removable(State(), index)
      {
        index := index + 1;
      }
    }

    method Evict(index: nat)
      requires Valid(State()) && index < |order|
      modifies this
      ensures State() == Without(old(State()), index)
    {
      items := items - {order[index]};
      order := order[..index] + order[index + 1..];
      dropped, lagging := dropped + 1, true;
    }

    method Push(key: Key, value: V, priority: Priority) returns (r: PushResult)
      requires Valid(State())
      modifies this
      ensures (State(), r) == Pushed(old(State()), key, Entry(value, priority))
      ensures Valid(State())
    {
      PushIsValid(State(), key, Entry(value, priority));
      if key in items {
        items := items[key := Entry(value, priority)];
        return PushResult(true, false);
      }
      if |order| >= limit {
        var index := FirstRemovable();
        if index == |order| && priority != High {
          dropped, lagging := dropped + 1, true;
          return PushResult(false, true);
        }
        Evict(if index == |order| then 0 else index);
      }
      order := order + [key];
      items := items[key := Entry(value, priority)];
      return PushResult(false, false);
    }

    method Shift() returns (r: Option<(Key, Entry<V>)>)
      requires Valid(State())
      modifies this
      ensures (State(), r) == Shifted(old(State()))
      ensures Valid(State())
    {
      ShiftIsValid(State());
      if order == [] { return None; }
      var key := order[0];
      r := Some((key, items[key]));
      order, items := order[1..], items - {key};
    }
  }

  // ----- Eviction -----

  /** An entry of high priority disappears in a push only when all are of high priority, the new one too. */
  lemma HighEvictedOnlyByHigh<V>(q: Queue<V>, key: Key, e: Entry<V>, k: Key)
    requires Valid(q) && k in q.items && q.items[k].priority == High && k !in Pushed(q, key, e).0.items
    ensures e.priority == High && |q.order| == q.limit && k == q.order[0]
    ensures forall j | j in q.items :: q.items[j].priority == High
  {
    var r := Removable(q, 0);
    WithoutIsValid(q, if r.Some? then r.value else 0);
    forall j | j in q.items ensures r.None? ==> q.items[j].priority == High {
      var i :| 0 <= i < |q.order| && q.order[i] == j;
    }
  }

  // ----- Whole runs -----

  datatype Op<V> = Put(key: Key, entry: Entry<V>) | Take

  /** The queue with counts of accepted-or-dropped pushes and of shifted entries. */
  datatype Tally<V> = Tally(queue: Queue<V>, pushed: nat, shifted: nat)

  function Do<V>(t: Tally<V>, op: Op<V>): Tally<V>
    requires Valid(t.queue)
  {
    match op
    case Put(key, e) =>
      var (q, r) := Pushed(t.queue, key, e);
      Tally(q, if r.coalesced then t.pushed else t.pushed + 1, t.shifted)
    case Take =>
      var (q, r) := Shifted(t.queue);
      Tally(q, t.pushed, if r.Some? then t.shifted + 1 else t.shifted)
  }

  lemma DoIsValid<V>(t: Tally<V>, op: Op<V>)
    requires Valid(t.queue)
    ensures Valid(Do(t, op).queue)
  {
    match op {
      case Put(key, e) => PushIsValid(t.queue, key, e);
      case Take => ShiftIsValid(t.queue);
    }
  }

  ghost function Run<V>(limit: nat, ops: seq<Op<V>>): (t: Tally<V>)
    requires limit >= 1
    ensures Valid(t.queue)
  {
    if ops == [] then Tally(Queue(limit, map[], [], 0, false), 0, 0)
    else
      var before := Run(limit, ops[..|ops| - 1]);
      DoIsValid(before, ops[|ops| - 1]);
      Do(before, ops[|ops| - 1])
  }

  /** Nothing is lost track of: pushes that did not coalesce are queued, shifted or dropped. */
  lemma {:induction false} Conservation<V>(limit: nat, ops: seq<Op<V>>)
    requires limit >= 1
    ensures var t := Run(limit, ops); t.pushed == |t.queue.order| + t.shifted + t.queue.dropped && |t.queue.order| <= limit
  {
    if ops != [] {
      Conservation(limit, ops[..|ops| - 1]);
      LimitFixed(limit, ops);
      LimitFixed(limit, ops[..|ops| - 1]);
    }
  }

  lemma {:induction false} LimitFixed<V>(limit: nat, ops: seq<Op<V>>)
    requires limit >= 1
    ensures Run(limit, ops).queue.limit == limit
  {
    if ops != [] { LimitFixed(limit, ops[..|ops| - 1]); }
  }

  /** The operation that brought the queued key in, counted from the start of the run. */
  ghost function Entered<V>(limit: nat, ops: seq<Op<V>>, k: Key): nat
    requires limit >= 1 && k in Run(limit, ops).queue.items
  {
    var before := Run(limit, ops[..|ops| - 1]).queue;
    if k in before.items then Entered(limit, ops[..|ops| - 1], k) else |ops| - 1
  }

  /** The last push of a key. */
  ghost predicate LastPush<V>(ops: seq<Op<V>>, k: Key, e: Entry<V>) {
    exists i :: 0 <= i < |ops| && ops[i] == Put(k, e) && forall j | i < j < |ops| && ops[j].Put? :: ops[j].key != k
  }

  /** How one operation moves keys: survivors keep their order, a newcomer goes last. */
  ghost predicate Moves<V>(p: Queue<V>, order: seq<Key>) {
    forall i, j | 0 <= i < j < |order| ::
      && order[i] in p.items
      && (order[j] in p.items ==> exists a, b :: 0 <= a < b < |p.order| && p.order[a] == order[i] && p.order[b] == order[j])
  }

  lemma WithoutMoves<V>(q: Queue<V>, i: nat)
    requires Valid(q) && i < |q.order|
    ensures Moves(q, Without(q, i).order)
  {
    var r := Without(q, i);
    forall a, b | 0 <= a < b < |r.order|
      ensures r.order[a] in q.items && r.order[b] in q.items
      ensures exists c, d :: 0 <= c < d < |q.order| && q.order[c] == r.order[a] && q.order[d] == r.order[b]
    {
      var c, d := if a < i then a else a + 1, if b < i then b else b + 1;
      assert q.order[c] == r.order[a] && q.order[d] == r.order[b];
    }
  }

  lemma AppendMoves<V>(q: Queue<V>, r: Queue<V>, key: Key, e: Entry<V>)
    requires Valid(q) && Valid(r) && Moves(q, r.order) && key !in q.items && (forall k | k in r.items :: k in q.items)
    ensures Moves(q, Append(r, key, e).order)
  {
    var s := Append(r, key, e);
    forall a, b | 0 <= a < b < |s.order|
      ensures s.order[a] in q.items
      ensures s.order[b] in q.items ==> exists c, d :: 0 <= c < d < |q.order| && q.order[c] == s.order[a] && q.order[d] == s.order[b]
    {
      assert s.order[a] == r.order[a];
      assert r.order[a] in r.items;
    }
  }

  lemma SelfMoves<V>(q: Queue<V>, r: Queue<V>)
    requires Valid(q) && r.order == q.order
    ensures Moves(q, r.order)
  {
    forall a, b | 0 <= a < b < |r.order|
      ensures r.order[a] in q.items
      ensures exists c, d :: 0 <= c < d < |q.order| && q.order[c] == r.order[a] && q.order[d] == r.order[b]
    {
      assert q.order[a] == r.order[a] && q.order[b] == r.order[b];
    }
  }

  lemma ShiftMoves<V>(q: Queue<V>)
    requires Valid(q)
    ensures Moves(q, Shifted(q).0.order)
  {
    var order := Shifted(q).0.order;
    forall a, b | 0 <= a < b < |order|
      ensures order[a] in q.items
      ensures exists c, d :: 0 <= c < d < |q.order| && q.order[c] == order[a] && q.order[d] == order[b]
    {
      assert q.order[a + 1] == order[a] && q.order[b + 1] == order[b];
    }
  }

  lemma PushMoves<V>(q: Queue<V>, key: Key, e: Entry<V>)
    requires Valid(q)
    ensures Moves(q, Pushed(q, key, e).0.order)
  {
    var r := Removable(q, 0);
    if key in q.items || (|q.order| >= q.limit && r.None? && e.priority != High) {
      SelfMoves(q, Pushed(q, key, e).0);
    } else if |q.order| < q.limit {
      SelfMoves(q, q);
      AppendMoves(q, q, key, e);
    } else {
      var i := if r.Some? then r.value else 0;
      WithoutMoves(q, i);
      WithoutIsValid(q, i);
      AppendMoves(q, Without(q, i), key, e);
    }
  }

  lemma DoMoves<V>(t: Tally<V>, op: Op<V>)
    requires Valid(t.queue)
    ensures Moves(t.queue, Do(t, op).queue.order)
  {
    match op {
      case Take => ShiftMoves(t.queue);
      case Put(key, e) => PushMoves(t.queue, key, e);
    }
  }

  /** Entries wait in the order in which their keys entered, so a shift takes the longest waiting one. */
  lemma {:induction false} FirstInFirstOut<V>(limit: nat, ops: seq<Op<V>>, i: nat, j: nat)
    requires limit >= 1 && i < j < |Run(limit, ops).queue.order|
    ensures var q := Run(limit, ops).queue;
      q.order[i] in q.items && q.order[j] in q.items && Entered(limit, ops, q.order[i]) < Entered(limit, ops, q.order[j])
  {
    var q, before := Run(limit, ops).queue, ops[..|ops| - 1];
    var p := Run(limit, before).queue;
    assert q.order[i] in q.items && q.order[j] in q.items;
    DoMoves(Run(limit, before), ops[|ops| - 1]);
    EnteredInTime(limit, before, q.order[i]);
    if q.order[j] in p.items {
      var a, b :| 0 <= a < b < |p.order| && p.order[a] == q.order[i] && p.order[b] == q.order[j];
      FirstInFirstOut(limit, before, a, b);
    }
  }

  lemma {:induction false} EnteredInTime<V>(limit: nat, ops: seq<Op<V>>, k: Key)
    requires limit >= 1 && k in Run(limit, ops).queue.items
    ensures Entered(limit, ops, k) < |ops|
  {
    if k in Run(limit, ops[..|ops| - 1]).queue.items { EnteredInTime(limit, ops[..|ops| - 1], k); }
  }

  ghost predicate Latest<V>(t: Tally<V>, ops: seq<Op<V>>) {
    forall k | k in t.queue.items :: LastPush(ops, k, t.queue.items[k])
  }

  lemma DoKeepsLatest<V>(t: Tally<V>, op: Op<V>, before: seq<Op<V>>)
    requires Valid(t.queue) && Latest(t, before)
    ensures Latest(Do(t, op), before + [op])
  {
    forall k | k in Do(t, op).queue.items ensures LastPush(before + [op], k, Do(t, op).queue.items[k]) {
      DoHoldsLatest(t, op, before, k);
    }
  }

  lemma {:induction false} RunIsLatest<V>(limit: nat, ops: seq<Op<V>>)
    requires limit >= 1
    ensures Latest(Run(limit, ops), ops)
  {
    RunUnfolds(limit, ops);
    if |ops| > 0 {
      var before, op := ops[..|ops| - 1], ops[|ops| - 1];
      RunIsLatest(limit, before);
      DoKeepsLatest(Run(limit, before), op, before);
      assert before + [op] == ops;
    }
  }

  /** What waits under a key is what was last pushed under it. */
  lemma HoldsLatest<V>(limit: nat, ops: seq<Op<V>>, k: Key)
    requires limit >= 1 && k in Run(limit, ops).queue.items
    ensures LastPush(ops, k, Run(limit, ops).queue.items[k])
  {
    RunIsLatest(limit, ops);
  }

  lemma RunUnfolds<V>(limit: nat, ops: seq<Op<V>>)
    requires limit >= 1
    ensures if ops == [] then Run(limit, ops).queue.items == map[] else Run(limit, ops) == Do(Run(limit, ops[..|ops| - 1]), ops[|ops| - 1])
  {
  }

  /** One operation: the pushed key holds what was pushed, every other one what it held. */
  lemma DoHoldsLatest<V>(t: Tally<V>, op: Op<V>, before: seq<Op<V>>, k: Key)
    requires Valid(t.queue) && k in Do(t, op).queue.items
    requires k in t.queue.items ==> LastPush(before, k, t.queue.items[k])
    ensures LastPush(before + [op], k, Do(t, op).queue.items[k])
  {
    if op.Put? && op.key == k {
      PushHolds(t.queue, k, op.entry);
      JustPushed(before, k, op.entry);
    } else {
      OthersKept(t, op, k);
      LastPushSnoc(before, op, k, t.queue.items[k]);
    }
  }

  lemma PushHolds<V>(q: Queue<V>, k: Key, e: Entry<V>)
    requires Valid(q) && k in Pushed(q, k, e).0.items
    ensures Pushed(q, k, e).0.items[k] == e
  {
  }

  lemma JustPushed<V>(before: seq<Op<V>>, k: Key, e: Entry<V>)
    ensures LastPush(before + [Put(k, e)], k, e)
  {
    assert (before + [Put(k, e)])[|before|] == Put(k, e);
  }

  lemma LastPushSnoc<V>(before: seq<Op<V>>, op: Op<V>, k: Key, e: Entry<V>)
    requires LastPush(before, k, e) && (op.Put? ==> op.key != k)
    ensures LastPush(before + [op], k, e)
  {
    var ops := before + [op];
    var i :| 0 <= i < |before| && before[i] == Put(k, e) && forall j | i < j < |before| && before[j].Put? :: before[j].key != k;
    assert ops[i] == before[i];
    assert forall j | i < j < |before| :: ops[j] == before[j];
  }

  lemma OthersKept<V>(t: Tally<V>, op: Op<V>, k: Key)
    requires Valid(t.queue) && k in Do(t, op).queue.items && (op.Put? ==> op.key != k)
    ensures k in t.queue.items && t.queue.items[k] == Do(t, op).queue.items[k]
  {
  }

  /** The lag flag is raised with the first entry that is lost, and is never taken down. */
  lemma {:induction false} LaggingMeansDropped<V>(limit: nat, ops: seq<Op<V>>)
    requires limit >= 1
    ensures Run(limit, ops).queue.lagging <==> Run(limit, ops).queue.dropped > 0
  {
    if ops != [] {
      LaggingMeansDropped(limit, ops[..|ops| - 1]);
      DoLags(Run(limit, ops[..|ops| - 1]), ops[|ops| - 1]);
    }
  }

  lemma DoLags<V>(t: Tally<V>, op: Op<V>)
    requires Valid(t.queue) && (t.queue.lagging <==> t.queue.dropped > 0)
    ensures Do(t, op).queue.lagging <==> Do(t, op).queue.dropped > 0
  {
  }

  /** What a push answers and loses: a waiting key coalesces, and only a push into a full queue loses anything. */
  lemma PushAnswers<V>(q: Queue<V>, key: Key, e: Entry<V>)
    requires Valid(q)
    ensures var (r, answer) := Pushed(q, key, e);
      && (answer.coalesced <==> key in q.items)
      && (answer.dropped <==> key !in q.items && |q.order| == q.limit && e.priority == Normal && forall k | k in q.items :: q.items[k].priority == High)
      && r.dropped == q.dropped + (if key in q.items || |q.order| < q.limit then 0 else 1)
      && (answer.coalesced || answer.dropped ==> r.order == q.order)
  {
    if key !in q.items && |q.order| == q.limit {
      forall k | k in q.items && Removable(q, 0).None? ensures q.items[k].priority == High {
        var i :| 0 <= i < |q.order| && q.order[i] == k;
      }
      forall i | 0 <= i < |q.order| ensures q.order[i] in q.items {}
    }
  }

  /** The entry that gives way in a full queue: the longest waiting one of normal priority, else the longest waiting one. */
  ghost predicate GivesWay<V>(q: Queue<V>, i: nat)
    requires Valid(q) && i < |q.order|
  {
    if exists k :: k in q.items && q.items[k].priority == Normal
    then q.items[q.order[i]].priority == Normal && forall j | 0 <= j < i :: q.items[q.order[j]].priority == High
    else i == 0
  }

  lemma RemovableGivesWay<V>(q: Queue<V>)
    requires Valid(q) && q.order != []
    ensures var r := Removable(q, 0); GivesWay(q, if r.Some? then r.value else 0)
  {
    var r := Removable(q, 0);
    if r.Some? {
      assert q.order[r.value] in q.items;
    } else {
      forall k | k in q.items ensures q.items[k].priority == High {
        var j :| 0 <= j < |q.order| && q.order[j] == k;
      }
    }
  }

  lemma OneGivesWay<V>(q: Queue<V>, i: nat, j: nat)
    requires Valid(q) && i < |q.order| && j < |q.order| && GivesWay(q, i) && GivesWay(q, j)
    ensures i == j
  {
  }

  /** A push into a full queue that is not dropped itself loses that entry and no other. */
  lemma EvictsOldest<V>(q: Queue<V>, key: Key, e: Entry<V>, i: nat)
    requires Valid(q) && key !in q.items && |q.order| == q.limit && i < |q.order| && !Pushed(q, key, e).1.dropped
    ensures q.order[i] !in Pushed(q, key, e).0.items <==> GivesWay(q, i)
  {
    var r := Removable(q, 0);
    var out := if r.Some? then r.value else 0;
    RemovableGivesWay(q);
    WithoutIsValid(q, out);
    assert q.order[i] in q.items;
    assert q.order[i] !in Pushed(q, key, e).0.items <==> i == out;
    if GivesWay(q, i) { OneGivesWay(q, i, out); }
  }

  /** A shift takes the entry that has waited longest, and only that one. */
  lemma ShiftAnswers<V>(q: Queue<V>)
    requires Valid(q)
    ensures var (r, answer) := Shifted(q);
      && (q.order == [] ==> r == q && answer.None?)
      && (q.order != [] ==>
            && answer == Some((q.order[0], q.items[q.order[0]])) && [q.order[0]] + r.order == q.order
            && r.items == q.items - {q.order[0]} && r.dropped == q.dropped && r.lagging == q.lagging)
  {
  }
}

/** The bounded breadth-first traversal that reports what an incident affects. */
module ImpactTraversal {
  datatype Kind =
    | Owns | Contains | Selects | Serves | RoutesTo | DependsOn | OptionallyDependsOn
    | Declares | Realizes | Observes | Affects | ExecutedBy

  type Node = string

  datatype Relation = Relation(source: Node, kind: Kind, target: Node)

  /** Impact travels along these kinds only. */
  predicate Carries(r: Relation) {
    r.kind in {DependsOn, RoutesTo, Serves, Realizes, Contains}
  }

  /** A queued or reported node, with the path it was found by. */
  datatype Item = Item(node: Node, distance: nat, path: seq<Node>)

  // ----- Graph vocabulary -----

  /** Ownership, selection, optional dependencies, declarations, observations and execution carry no impact. */
  predicate Impacts(k: Kind) {
    match k
    case Owns | Selects | OptionallyDependsOn | Declares | Observes | Affects | ExecutedBy => false
    case Contains | Serves | RoutesTo | DependsOn | Realizes => true
  }

  ghost predicate Edge(g: seq<Relation>, u: Node, v: Node) {
    exists i :: 0 <= i < |g| && Impacts(g[i].kind) && g[i].source == u && g[i].target == v
  }

  ghost predicate Path(g: seq<Relation>, p: seq<Node>) {
    forall i | 0 <= i < |p| - 1 :: Edge(g, p[i], p[i + 1])
  }

  /** `p` leads from `a` to `b`; its length is the number of edges. */
  ghost predicate Leads(g: seq<Relation>, p: seq<Node>, a: Node, b: Node) {
    p != [] && p[0] == a && p[|p| - 1] == b && Path(g, p)
  }

  /** `n` is reached from `a`, and by no shorter path than `d` edges. */
  ghost predicate Shortest(g: seq<Relation>, a: Node, n: Node, d: nat) {
    && (exists p :: Leads(g, p, a, n) && |p| - 1 == d)
    && (forall p | Leads(g, p, a, n) :: d <= |p| - 1)
  }

  // ----- The adjacency lists -----

  /** Targets of `u` in the order of the relations, as the adjacency map holds them. */
  function Targets(g: seq<Relation>, u: Node): seq<Node> {
    if g == [] then []
    else
      var r := g[|g| - 1];
      Targets(g[..|g| - 1], u) + if Carries(r) && r.source == u then [r.target] else []
  }

  lemma {:induction false} TargetsAreEdges(g: seq<Relation>, u: Node, v: Node)
    ensures v in Targets(g, u) <==> Edge(g, u, v)
  {
    if g != [] {
      var h, r := g[..|g| - 1], g[|g| - 1];
      TargetsAreEdges(h, u, v);
      if Edge(h, u, v) {
        var i :| 0 <= i < |h| && Impacts(h[i].kind) && h[i].source == u && h[i].target == v;
        assert g[i] == h[i];
      }
      if Edge(g, u, v) && !(Carries(r) && r.source == u && r.target == v) {
        var i :| 0 <= i < |g| && Impacts(g[i].kind) && g[i].source == u && g[i].target == v;
        assert h[i] == g[i];
      }
    }
  }

  /** The targets stand in the order of their relations. */
  lemma {:induction false} TargetsKeepOrder(g: seq<Relation>, u: Node, i: nat, j: nat) returns (a: nat, b: nat)
    requires i < j < |g| && g[i].source == u && g[j].source == u && Impacts(g[i].kind) && Impacts(g[j].kind)
    ensures a < b < |Targets(g, u)| && Targets(g, u)[a] == g[i].target && Targets(g, u)[b] == g[j].target
  {
    var h := g[..|g| - 1];
    if j < |h| {
      a, b := TargetsKeepOrder(h, u, i, j);
    } else {
      a := TargetPlace(h, u, i);
      b := |Targets(h, u)|;
    }
  }

  lemma {:induction false} TargetPlace(g: seq<Relation>, u: Node, i: nat) returns (a: nat)
    requires i < |g| && g[i].source == u && Impacts(g[i].kind)
    ensures a < |Targets(g, u)| && Targets(g, u)[a] == g[i].target
  {
    var h := g[..|g| - 1];
    if i < |h| { a := TargetPlace(h, u, i); } else { a := |Targets(h, u)|; }
  }

  method Forward(g: seq<Relation>) returns (forward: map<Node, seq<Node>>)
    ensures forall u :: (if u in forward then forward[u] else []) == Targets(g, u)
  {
    forward := map[];
    for k := 0 to |g|
      invariant forall u :: (if u in forward then forward[u] else []) == Targets(g[..k], u)
    {
      var r := g[k];
      assert g[..k + 1][..k] == g[..k];
      if Carries(r) {
        forward := forward[r.source := (if r.source in forward then forward[r.source] else []) + [r.target]];
      }
    }
    assert g[..|g|] == g;
  }

  // ----- Invariants of the traversal -----

  predicate Reported(impacts: seq<Item>, n: Node, d: int) {
    exists i :: 0 <= i < |impacts| && impacts[i].node == n && impacts[i].distance <= d
  }

  predicate Queued(queue: seq<Item>, n: Node, d: int) {
    exists i :: 0 <= i < |queue| && queue[i].node == n && queue[i].distance <= d
  }

  ghost predicate ItemsOk(g: seq<Relation>, a: Node, maxDepth: nat, items: seq<Item>) {
    forall i | 0 <= i < |items| ::
      Leads(g, items[i].path, a, items[i].node) && |items[i].path| == items[i].distance + 1 && items[i].distance <= maxDepth
  }

  predicate Ascending(items: seq<Item>) {
    forall i, j | 0 <= i < j < |items| :: items[i].distance <= items[j].distance
  }

  /** Reported nodes come before queued ones, and the queue spans at most two levels. */
  predicate Levels(queue: seq<Item>, impacts: seq<Item>) {
    && Ascending(impacts) && Ascending(queue)
    && (forall i, j | 0 <= i < |impacts| && 0 <= j < |queue| ::
          impacts[i].distance <= queue[j].distance <= impacts[|impacts| - 1].distance + 1)
  }

  /** Every neighbour of a reported node is reported or queued, no later than one level on. */
  ghost predicate Closed(g: seq<Relation>, maxDepth: nat, queue: seq<Item>, impacts: seq<Item>) {
    forall i, v | 0 <= i < |impacts| && impacts[i].distance < maxDepth && Edge(g, impacts[i].node, v) ::
      Reported(impacts, v, impacts[i].distance + 1) || Queued(queue, v, impacts[i].distance + 1)
  }

  predicate Once(impacts: seq<Item>) {
    forall i, j | 0 <= i < j < |impacts| :: impacts[i].node != impacts[j].node
  }

  ghost predicate AllShortest(g: seq<Relation>, a: Node, impacts: seq<Item>) {
    forall i | 0 <= i < |impacts| :: Shortest(g, a, impacts[i].node, impacts[i].distance)
  }

  ghost predicate Inv(g: seq<Relation>, a: Node, maxDepth: nat, queue: seq<Item>, impacts: seq<Item>) {
    && ItemsOk(g, a, maxDepth, queue) && ItemsOk(g, a, maxDepth, impacts)
    && Levels(queue, impacts) && Closed(g, maxDepth, queue, impacts)
    && (Reported(impacts, a, 0) || Queued(queue, a, 0))
    && Once(impacts) && AllShortest(g, a, impacts)
  }

  /** On any path, either its end is reported in time or some queued node is no farther than it. */
  lemma {:induction false} Frontier(g: seq<Relation>, a: Node, maxDepth: nat, queue: seq<Item>, impacts: seq<Item>, p: seq<Node>)
    requires Closed(g, maxDepth, queue, impacts) && (Reported(impacts, a, 0) || Queued(queue, a, 0))
    requires p != [] && p[0] == a && Path(g, p) && |p| - 1 <= maxDepth
    ensures Reported(impacts, p[|p| - 1], |p| - 1) || exists j :: 0 <= j < |queue| && queue[j].distance <= |p| - 1
  {
    if |p| == 1 {
      if Queued(queue, a, 0) {
        var j :| 0 <= j < |queue| && queue[j].node == a && queue[j].distance <= 0;
      }
    } else {
      var q := p[..|p| - 1];
      assert Path(g, q);
      Frontier(g, a, maxDepth, queue, impacts, q);
      var u, v := p[|p| - 2], p[|p| - 1];
      assert Edge(g, u, v);
      if Reported(impacts, u, |q| - 1) {
        var i :| 0 <= i < |impacts| && impacts[i].node == u && impacts[i].distance <= |q| - 1;
        assert Reported(impacts, v, impacts[i].distance + 1) || Queued(queue, v, impacts[i].distance + 1);
      }
    }
  }

  // ----- One turn of the loop -----

  function Seen(impacts: seq<Item>): (s: set<Node>)
    ensures forall n :: n in s <==> exists i :: 0 <= i < |impacts| && impacts[i].node == n
  {
    set i | 0 <= i < |impacts| :: impacts[i].node
  }

  /** What the inner loop appends to the queue for the neighbours `ts` of `item`. */
  function Pushed(ts: seq<Node>, seen: set<Node>, item: Item): (r: seq<Item>)
    ensures forall i | 0 <= i < |r| ::
      r[i].node in ts && r[i].node !in seen && r[i].distance == item.distance + 1 && r[i].path == item.path + [r[i].node]
    ensures forall t | t in ts && t !in seen :: exists i :: 0 <= i < |r| && r[i].node == t
  {
    if ts == [] then []
    else
      var t := ts[|ts| - 1];
      var before := Pushed(ts[..|ts| - 1], seen, item);
      if t in seen then before
      else
        var r := before + [Item(t, item.distance + 1, item.path + [t])];
        assert forall i | 0 <= i < |before| :: r[i] == before[i];
        assert r[|before|].node == t;
        r
  }

  lemma QueuedTail(queue: seq<Item>, n: Node, d: int)
    requires Queued(queue, n, d)
    ensures Queued(queue[1..], n, d) || (queue[0].node == n && queue[0].distance <= d)
  {
    var i :| 0 <= i < |queue| && queue[i].node == n && queue[i].distance <= d;
    if i > 0 { assert queue[1..][i - 1] == queue[i]; }
  }

  lemma QueuedMore(queue: seq<Item>, more: seq<Item>, n: Node, d: int)
    ensures Queued(queue, n, d) ==> Queued(queue + more, n, d)
  {
    if Queued(queue, n, d) {
      var i :| 0 <= i < |queue| && queue[i].node == n && queue[i].distance <= d;
      assert (queue + more)[i] == queue[i];
    }
  }

  lemma ReportedMore(impacts: seq<Item>, item: Item, n: Node, d: int)
    ensures Reported(impacts, n, d) ==> Reported(impacts + [item], n, d)
    ensures item.node == n && item.distance <= d ==> Reported(impacts + [item], n, d)
  {
    if Reported(impacts, n, d) {
      var i :| 0 <= i < |impacts| && impacts[i].node == n && impacts[i].distance <= d;
      assert (impacts + [item])[i] == impacts[i];
    }
    assert (impacts + [item])[|impacts|] == item;
  }

  /** A queued node that has been reported was reported at most as far away. */
  lemma SeenIsReported(queue: seq<Item>, impacts: seq<Item>)
    requires queue != [] && Levels(queue, impacts) && queue[0].node in Seen(impacts)
    ensures forall d | queue[0].distance <= d :: Reported(impacts, queue[0].node, d)
  {
    var i :| 0 <= i < |impacts| && impacts[i].node == queue[0].node;
  }

  lemma SkipKeepsInv(g: seq<Relation>, a: Node, maxDepth: nat, queue: seq<Item>, impacts: seq<Item>)
    requires Inv(g, a, maxDepth, queue, impacts) && queue != [] && queue[0].node in Seen(impacts)
    ensures Inv(g, a, maxDepth, queue[1..], impacts)
  {
    SeenIsReported(queue, impacts);
    forall i, v | 0 <= i < |impacts| && impacts[i].distance < maxDepth && Edge(g, impacts[i].node, v)
      ensures Reported(impacts, v, impacts[i].distance + 1) || Queued(queue[1..], v, impacts[i].distance + 1)
    {
      if !Reported(impacts, v, impacts[i].distance + 1) {
        QueuedTail(queue, v, impacts[i].distance + 1);
      }
    }
    if !Reported(impacts, a, 0) { QueuedTail(queue, a, 0); }
  }

  lemma HeadIsShortest(g: seq<Relation>, a: Node, maxDepth: nat, queue: seq<Item>, impacts: seq<Item>)
    requires Inv(g, a, maxDepth, queue, impacts) && queue != [] && queue[0].node !in Seen(impacts)
    ensures Shortest(g, a, queue[0].node, queue[0].distance)
  {
    var item := queue[0];
    assert Leads(g, item.path, a, item.node) && |item.path| - 1 == item.distance;
    forall p | Leads(g, p, a, item.node) ensures item.distance <= |p| - 1 {
      if |p| - 1 < item.distance {
        Frontier(g, a, maxDepth, queue, impacts, p);
      }
    }
  }

  /** The queue after reporting its head. */
  function After(g: seq<Relation>, maxDepth: nat, queue: seq<Item>, impacts: seq<Item>): seq<Item>
    requires queue != []
  {
    queue[1..] + if queue[0].distance >= maxDepth then []
                 else Pushed(Targets(g, queue[0].node), Seen(impacts) + {queue[0].node}, queue[0])
  }

  lemma PushedPathsOk(g: seq<Relation>, a: Node, maxDepth: nat, item: Item, seen: set<Node>)
    requires ItemsOk(g, a, maxDepth, [item]) && item.distance < maxDepth
    ensures ItemsOk(g, a, maxDepth, Pushed(Targets(g, item.node), seen, item))
  {
    assert [item][0] == item;
    var r := Pushed(Targets(g, item.node), seen, item);
    forall i | 0 <= i < |r|
      ensures Leads(g, r[i].path, a, r[i].node) && |r[i].path| == r[i].distance + 1 && r[i].distance <= maxDepth
    {
      TargetsAreEdges(g, item.node, r[i].node);
      forall j | 0 <= j < |r[i].path| - 1 ensures Edge(g, r[i].path[j], r[i].path[j + 1]) {
        if j < |item.path| - 1 {
          assert r[i].path[j] == item.path[j] && r[i].path[j + 1] == item.path[j + 1];
        }
      }
    }
  }

  lemma VisitKeepsItems(g: seq<Relation>, a: Node, maxDepth: nat, queue: seq<Item>, impacts: seq<Item>)
    requires ItemsOk(g, a, maxDepth, queue) && ItemsOk(g, a, maxDepth, impacts) && queue != []
    ensures ItemsOk(g, a, maxDepth, After(g, maxDepth, queue, impacts)) && ItemsOk(g, a, maxDepth, impacts + [queue[0]])
  {
    if queue[0].distance < maxDepth {
      PushedPathsOk(g, a, maxDepth, queue[0], Seen(impacts) + {queue[0].node});
    }
  }

  lemma VisitKeepsLevels(g: seq<Relation>, maxDepth: nat, queue: seq<Item>, impacts: seq<Item>)
    requires Levels(queue, impacts) && queue != []
    requires forall j | 0 <= j < |queue| :: queue[j].distance <= queue[0].distance + 1
    ensures Levels(After(g, maxDepth, queue, impacts), impacts + [queue[0]])
  {
  }

  lemma VisitKeepsClosed(g: seq<Relation>, maxDepth: nat, queue: seq<Item>, impacts: seq<Item>)
    requires Closed(g, maxDepth, queue, impacts) && queue != [] && Levels(queue, impacts)
    ensures Closed(g, maxDepth, After(g, maxDepth, queue, impacts), impacts + [queue[0]])
  {
    var item, impacts', queue' := queue[0], impacts + [queue[0]], After(g, maxDepth, queue, impacts);
    forall i, v | 0 <= i < |impacts'| && impacts'[i].distance < maxDepth && Edge(g, impacts'[i].node, v)
      ensures Reported(impacts', v, impacts'[i].distance + 1) || Queued(queue', v, impacts'[i].distance + 1)
    {
      var d := impacts'[i].distance + 1;
      ReportedMore(impacts, item, v, d);
      if i < |impacts| {
        assert impacts'[i] == impacts[i];
        if Queued(queue, v, d) {
          QueuedTail(queue, v, d);
          QueuedMore(queue[1..], queue'[|queue| - 1..], v, d);
        }
      } else {
        NeighbourFollows(g, maxDepth, queue, impacts, v);
      }
    }
  }

  /** A neighbour reported earlier was reported no deeper than the head. */
  lemma SeenNeighbour(queue: seq<Item>, impacts: seq<Item>, v: Node)
    requires queue != [] && Levels(queue, impacts) && v in Seen(impacts)
    ensures Reported(impacts, v, queue[0].distance + 1)
  {
    var i :| 0 <= i < |impacts| && impacts[i].node == v;
    assert impacts[i].distance <= queue[0].distance;
  }

  lemma PushedReaches(ts: seq<Node>, seen: set<Node>, item: Item, v: Node)
    requires v in ts && v !in seen
    ensures Queued(Pushed(ts, seen, item), v, item.distance + 1)
  {
    var r := Pushed(ts, seen, item);
    var i :| 0 <= i < |r| && r[i].node == v;
    assert r[i].distance == item.distance + 1;
  }

  lemma QueuedBehind(queue: seq<Item>, more: seq<Item>, n: Node, d: int)
    requires Queued(more, n, d)
    ensures Queued(queue + more, n, d)
  {
    var i :| 0 <= i < |more| && more[i].node == n && more[i].distance <= d;
    assert (queue + more)[|queue| + i] == more[i];
  }

  lemma NewNeighbour(g: seq<Relation>, maxDepth: nat, queue: seq<Item>, impacts: seq<Item>, v: Node)
    requires queue != [] && queue[0].distance < maxDepth && v in Targets(g, queue[0].node)
    requires v !in Seen(impacts) && v != queue[0].node
    ensures Queued(After(g, maxDepth, queue, impacts), v, queue[0].distance + 1)
  {
    var seen := Seen(impacts) + {queue[0].node};
    PushedReaches(Targets(g, queue[0].node), seen, queue[0], v);
    QueuedBehind(queue[1..], Pushed(Targets(g, queue[0].node), seen, queue[0]), v, queue[0].distance + 1);
  }

  lemma NeighbourFollows(g: seq<Relation>, maxDepth: nat, queue: seq<Item>, impacts: seq<Item>, v: Node)
    requires queue != [] && Levels(queue, impacts) && queue[0].distance < maxDepth && Edge(g, queue[0].node, v)
    ensures Reported(impacts + [queue[0]], v, queue[0].distance + 1) || Queued(After(g, maxDepth, queue, impacts), v, queue[0].distance + 1)
  {
    TargetsAreEdges(g, queue[0].node, v);
    ReportedMore(impacts, queue[0], v, queue[0].distance + 1);
    if v in Seen(impacts) { SeenNeighbour(queue, impacts, v); }
    else if v != queue[0].node { NewNeighbour(g, maxDepth, queue, impacts, v); }
  }

  lemma VisitKeepsInv(g: seq<Relation>, a: Node, maxDepth: nat, queue: seq<Item>, impacts: seq<Item>)
    requires Inv(g, a, maxDepth, queue, impacts) && queue != [] && queue[0].node !in Seen(impacts)
    requires forall j | 0 <= j < |queue| :: queue[j].distance <= queue[0].distance + 1
    ensures Inv(g, a, maxDepth, After(g, maxDepth, queue, impacts), impacts + [queue[0]])
  {
    var item, impacts', queue' := queue[0], impacts + [queue[0]], After(g, maxDepth, queue, impacts);
    HeadIsShortest(g, a, maxDepth, queue, impacts);
    VisitKeepsItems(g, a, maxDepth, queue, impacts);
    VisitKeepsLevels(g, maxDepth, queue, impacts);
    VisitKeepsClosed(g, maxDepth, queue, impacts);
    assert Once(impacts');
    assert AllShortest(g, a, impacts');
    ReportedMore(impacts, item, a, 0);
    if Queued(queue, a, 0) {
      QueuedTail(queue, a, 0);
      QueuedMore(queue[1..], queue'[|queue| - 1..], a, 0);
    }
  }

  // ----- The traversal -----

  function Clamp(low: int, x: int, high: int): (r: int)
    ensures low <= high ==> low <= r <= high && (low <= x <= high ==> r == x) && (x < low ==> r == low) && (high < x ==> r == high)
  {
    if x < low then low else if x > high then high else x
  }

  function Universe(g: seq<Relation>, a: Node): set<Node> {
    {a} + set i | 0 <= i < |g| :: g[i].target
  }

  predicate InUniverse(g: seq<Relation>, a: Node, items: seq<Item>) {
    forall i | 0 <= i < |items| :: items[i].node in Universe(g, a)
  }

  lemma AfterInUniverse(g: seq<Relation>, a: Node, maxDepth: nat, queue: seq<Item>, impacts: seq<Item>)
    requires queue != [] && InUniverse(g, a, queue)
    ensures InUniverse(g, a, After(g, maxDepth, queue, impacts))
  {
    var queue' := After(g, maxDepth, queue, impacts);
    forall i | 0 <= i < |queue'| ensures queue'[i].node in Universe(g, a) {
      if i >= |queue| - 1 {
        TargetsAreEdges(g, queue[0].node, queue'[i].node);
        var k :| 0 <= k < |g| && Impacts(g[k].kind) && g[k].source == queue[0].node && g[k].target == queue'[i].node;
        assert g[k].target in Universe(g, a);
      } else {
        assert queue'[i] == queue[i + 1];
      }
    }
  }

  /** Nothing closer than the last reported node is missing. */
  ghost predicate NothingCloserMissing(g: seq<Relation>, a: Node, maxDepth: nat, impacts: seq<Item>) {
    forall p | p != [] && p[0] == a && Path(g, p) && |p| - 1 <= maxDepth ::
      impacts != [] && |p| - 1 < impacts[|impacts| - 1].distance ==> Reported(impacts, p[|p| - 1], |p| - 1)
  }

  /** Exactly the nodes within reach are reported. */
  ghost predicate ReportsReach(g: seq<Relation>, a: Node, maxDepth: nat, impacts: seq<Item>) {
    forall n :: n in Seen(impacts) <==> Within(g, a, n, maxDepth)
  }

  ghost predicate Within(g: seq<Relation>, a: Node, n: Node, d: nat) {
    exists p :: Leads(g, p, a, n) && |p| - 1 <= d
  }

  lemma InvGivesCloser(g: seq<Relation>, a: Node, maxDepth: nat, queue: seq<Item>, impacts: seq<Item>)
    requires Inv(g, a, maxDepth, queue, impacts)
    ensures NothingCloserMissing(g, a, maxDepth, impacts)
  {
    forall p | p != [] && p[0] == a && Path(g, p) && |p| - 1 <= maxDepth && impacts != [] && |p| - 1 < impacts[|impacts| - 1].distance
      ensures Reported(impacts, p[|p| - 1], |p| - 1)
    {
      Frontier(g, a, maxDepth, queue, impacts, p);
    }
  }

  lemma InvGivesReach(g: seq<Relation>, a: Node, maxDepth: nat, impacts: seq<Item>)
    requires Inv(g, a, maxDepth, [], impacts)
    ensures ReportsReach(g, a, maxDepth, impacts)
  {
    forall n ensures n in Seen(impacts) <==> Within(g, a, n, maxDepth) {
      if Within(g, a, n, maxDepth) {
        var p :| Leads(g, p, a, n) && |p| - 1 <= maxDepth;
        Frontier(g, a, maxDepth, [], impacts, p);
      }
      if n in Seen(impacts) {
        var i :| 0 <= i < |impacts| && impacts[i].node == n;
        assert Leads(g, impacts[i].path, a, n);
      }
    }
  }

  lemma NewlySeen(before: seq<Item>, last: Item)
    requires Once(before + [last])
    ensures Once(before) && last.node !in Seen(before)
  {
    var all := before + [last];
    assert forall i | 0 <= i < |before| :: all[i] == before[i] && all[|before|] == last;
  }

  lemma {:induction false} SeenCount(impacts: seq<Item>)
    requires Once(impacts)
    ensures |Seen(impacts)| == |impacts|
  {
    if |impacts| > 0 {
      var before, last := impacts[..|impacts| - 1], impacts[|impacts| - 1];
      assert before + [last] == impacts;
      NewlySeen(before, last);
      SeenCount(before);
      SeenSnoc(before, last);
    } else {
      assert Seen(impacts) == {};
    }
  }

  lemma SeenSnoc(impacts: seq<Item>, item: Item)
    ensures Seen(impacts + [item]) == Seen(impacts) + {item.node}
  {
    var more := impacts + [item];
    assert forall i | 0 <= i < |impacts| :: more[i] == impacts[i];
    assert more[|impacts|] == item;
  }

  /** What the loop knows whenever it looks at the queue. */
  ghost predicate LoopInv(g: seq<Relation>, a: Node, maxDepth: nat, queue: seq<Item>, impacts: seq<Item>) {
    && Inv(g, a, maxDepth, queue, impacts)
    && (if impacts == [] then queue == [Item(a, 0, [a])] else impacts[0].node == a)
    && InUniverse(g, a, queue) && Seen(impacts) <= Universe(g, a)
  }

  lemma StartsInv(g: seq<Relation>, a: Node, maxDepth: nat)
    ensures LoopInv(g, a, maxDepth, [Item(a, 0, [a])], [])
  {
    var queue := [Item(a, 0, [a])];
    assert Leads(g, [a], a, a);
    assert Queued(queue, a, 0) by { assert queue[0].node == a; }
  }

  lemma TurnKeepsInv(g: seq<Relation>, a: Node, maxDepth: nat, queue: seq<Item>, impacts: seq<Item>)
    requires LoopInv(g, a, maxDepth, queue, impacts) && queue != []
    ensures queue[0].node in Seen(impacts) ==> LoopInv(g, a, maxDepth, queue[1..], impacts)
    ensures queue[0].node !in Seen(impacts) ==>
      && LoopInv(g, a, maxDepth, After(g, maxDepth, queue, impacts), impacts + [queue[0]])
      && Seen(impacts + [queue[0]]) == Seen(impacts) + {queue[0].node}
      && queue[0].node in Universe(g, a)
  {
    SeenSnoc(impacts, queue[0]);
    if queue[0].node in Seen(impacts) {
      SkipKeepsInv(g, a, maxDepth, queue, impacts);
    } else {
      VisitKeepsInv(g, a, maxDepth, queue, impacts);
      AfterInUniverse(g, a, maxDepth, queue, impacts);
    }
  }

  /** The outer loop, down to an empty queue or a full report. */
  method Search(a: Node, g: seq<Relation>, maxDepth: nat, maxNodes: nat)
    returns (queue: seq<Item>, impacts: seq<Item>, seen: set<Node>)
    requires maxNodes >= 1
    ensures LoopInv(g, a, maxDepth, queue, impacts) && seen == Seen(impacts)
    ensures |impacts| <= maxNodes && (queue == [] || |impacts| == maxNodes)
  {
    var forward := Forward(g);
    queue, seen, impacts := [Item(a, 0, [a])], {}, [];
    StartsInv(g, a, maxDepth);
    while queue != [] && |impacts| < maxNodes
      invariant LoopInv(g, a, maxDepth, queue, impacts)
      invariant seen == Seen(impacts) && |impacts| <= maxNodes
      decreases Universe(g, a) - seen, |queue|
    {
      var item := queue[0];
      TurnKeepsInv(g, a, maxDepth, queue, impacts);
      if item.node in seen {
        queue := queue[1..];
      } else {
        queue := Visit(g, forward, maxDepth, queue, impacts, seen);
        seen := seen + {item.node};
        impacts := impacts + [item];
      }
    }
  }

  /** Reporting the head of the queue: its unseen neighbours join the queue unless it is deep enough. */
  method Visit(g: seq<Relation>, forward: map<Node, seq<Node>>, maxDepth: nat, queue: seq<Item>, ghost impacts: seq<Item>, seen: set<Node>)
    returns (longer: seq<Item>)
    requires queue != [] && seen == Seen(impacts)
    requires (if queue[0].node in forward then forward[queue[0].node] else []) == Targets(g, queue[0].node)
    ensures longer == After(g, maxDepth, queue, impacts)
  {
    var item := queue[0];
    longer := queue[1..];
    if item.distance < maxDepth {
      var targets := if item.node in forward then forward[item.node] else [];
      longer := PushNeighbours(longer, targets, seen + {item.node}, item);
    }
  }

  /**
   * Terminates on any graph; reports each node once, in order of distance, with its true shortest
   * distance and a path of that length; misses nothing closer than the last report; and, unless
   * bounded, reports exactly what lies within the depth.
   */
  method BoundedImpactTraversal(a: Node, g: seq<Relation>, depthOption: int, nodesOption: int)
    returns (impacts: seq<Item>, bounded: bool, visited: nat)
    ensures var maxDepth := Clamp(0, depthOption, 32);
      && ItemsOk(g, a, maxDepth, impacts) && Ascending(impacts) && Once(impacts) && AllShortest(g, a, impacts)
      && NothingCloserMissing(g, a, maxDepth, impacts)
      && (!bounded ==> ReportsReach(g, a, maxDepth, impacts))
    ensures 1 <= |impacts| <= Clamp(1, nodesOption, 10000) && impacts[0].node == a
    ensures bounded ==> |impacts| == Clamp(1, nodesOption, 10000)
    ensures visited == |impacts|
  {
    var maxDepth, maxNodes := Clamp(0, depthOption, 32), Clamp(1, nodesOption, 10000);
    var queue, seen;
    queue, impacts, seen := Search(a, g, maxDepth, maxNodes);
    bounded, visited := queue != [], |seen|;
    SeenCount(impacts);
    InvGivesCloser(g, a, maxDepth, queue, impacts);
    if queue == [] { InvGivesReach(g, a, maxDepth, impacts); }
  }

  lemma PushedSnoc(targets: seq<Node>, k: nat, seen: set<Node>, item: Item)
    requires k < |targets|
    ensures Pushed(targets[..k + 1], seen, item) == Pushed(targets[..k], seen, item)
      + if targets[k] in seen then [] else [Item(targets[k], item.distance + 1, item.path + [targets[k]])]
  {
    assert targets[..k + 1][..k] == targets[..k];
  }

  /** The inner loop over a node's neighbours. */
  method PushNeighbours(queue: seq<Item>, targets: seq<Node>, seen: set<Node>, item: Item) returns (longer: seq<Item>)
    ensures longer == queue + Pushed(targets, seen, item)
  {
    longer := queue;
    ghost var pushed: seq<Item> := [];
    for k := 0 to |targets|
      invariant longer == queue + pushed && pushed == Pushed(targets[..k], seen, item)
    {
      PushedSnoc(targets, k, seen, item);
      if targets[k] !in seen {
        var next := Item(targets[k], item.distance + 1, item.path + [targets[k]]);
        longer := longer + [next];
        pushed := pushed + [next];
      }
    }
    assert targets[..|targets|] == targets;
  }
}

/** Projection versions and the fenced reconcile transaction of the operational graph. */
module ProjectionVersion {
  import opened Outcomes

  datatype Version = Version(fencingEpoch: Option<int>, collectionEpoch: Option<int>, streamSequence: Option<int>)

  /** A missing counter counts as -1. */
  function Number(x: Option<int>): int { if x.Some? then x.value else -1 }

  function Counters(v: Version): (c: seq<int>)
    ensures |c| == 3
  {
    [Number(v.fencingEpoch), Number(v.collectionEpoch), Number(v.streamSequence)]
  }

  function Sign(x: int): int { if x > 0 then 1 else if x < 0 then -1 else 0 }

  /** Lexicographic comparison from counter `i` on: positive when `b` is the newer one. */
  function CompareFrom(a: seq<int>, b: seq<int>, i: nat): int
    requires |a| == |b| && i <= |a|
    decreases |a| - i
  {
    if i == |a| then 0 else if a[i] != b[i] then Sign(b[i] - a[i]) else CompareFrom(a, b, i + 1)
  }

  function Compare(current: Version, incoming: Version): int {
    CompareFrom(Counters(current), Counters(incoming), 0)
  }

  method CompareProjectionVersion(current: Version, incoming: Version) returns (r: int)
    ensures r == Compare(current, incoming)
  {
    var a, b := Counters(current), Counters(incoming);
    for i := 0 to 3
      invariant CompareFrom(a, b, 0) == CompareFrom(a, b, i)
    {
      if a[i] != b[i] { return Sign(b[i] - a[i]); }
    }
    return 0;
  }

  /** The row-value comparison of the upsert's WHERE clause. */
  predicate SqlNotOlder(fence: int, collection: int, stream: Option<int>, f: int, c: int, s: Option<int>) {
    fence > f || (fence == f && (collection > c || (collection == c && Number(stream) >= Number(s))))
  }

  /** The database guard and the in-process comparison accept the same updates. */
  lemma GuardIsCompare(fence: int, collection: int, stream: Option<int>, f: int, c: int, s: Option<int>)
    ensures SqlNotOlder(fence, collection, stream, f, c, s)
       <==> Compare(Version(Some(f), Some(c), s), Version(Some(fence), Some(collection), stream)) >= 0
  {
    var a, b := Counters(Version(Some(f), Some(c), s)), Counters(Version(Some(fence), Some(collection), stream));
    assert CompareFrom(a, b, 2) == Sign(b[2] - a[2]);
    assert CompareFrom(a, b, 1) == if a[1] != b[1] then Sign(b[1] - a[1]) else CompareFrom(a, b, 2);
  }

  lemma CompareUnfolds(u: Version, v: Version)
    ensures var a, b := Counters(u), Counters(v);
      Compare(u, v) == if a[0] != b[0] then Sign(b[0] - a[0]) else if a[1] != b[1] then Sign(b[1] - a[1]) else Sign(b[2] - a[2])
  {
    var a, b := Counters(u), Counters(v);
    assert CompareFrom(a, b, 2) == Sign(b[2] - a[2]);
    assert CompareFrom(a, b, 1) == if a[1] != b[1] then Sign(b[1] - a[1]) else CompareFrom(a, b, 2);
  }

  /** The comparison is a total order on versions: antisymmetric, transitive, and zero only for equal counters. */
  lemma CompareIsTotalOrder(u: Version, v: Version, w: Version)
    ensures Compare(u, v) == -Compare(v, u)
    ensures Compare(u, v) == 0 <==> Counters(u) == Counters(v)
    ensures Compare(u, v) >= 0 && Compare(v, w) >= 0 ==> Compare(u, w) >= 0
  {
    CompareUnfolds(u, v);
    CompareUnfolds(v, u);
    CompareUnfolds(v, w);
    CompareUnfolds(u, w);
  }
}

module Reconcile {
  import opened Outcomes
  import opened ProjectionVersion

  type Id = string
  type SessionId = nat

  datatype NodeRow = NodeRow(
    authority: string, live: bool, session: SessionId, fence: int, collection: int, stream: Option<int>, facts: string)

  datatype RelationRow = RelationRow(live: bool, session: SessionId, fence: int, collection: int, evidence: string)

  datatype NodeItem = NodeItem(id: Id, authority: string, stream: Option<int>, facts: string)
  datatype RelationItem = RelationItem(id: Id, evidence: string)
  datatype Source = Source(name: string, configured: bool, complete: bool)

  datatype Inventory = Inventory(
    snapshotComplete: bool, nodes: seq<NodeItem>, relations: seq<RelationItem>, sources: Option<seq<Source>>)

  /**
   * One run: its leader's epoch, its clock reading and its fresh session. `attested` says that the leader's
   * lease was still running and its scope, page and revision evidence was in order when the run completed.
   */
  datatype Context = Context(fence: int, collection: int, session: SessionId, attested: bool)

  /** The tables; `epoch` is the cluster's current fencing epoch, 0 before any leader claimed one. */
  datatype Graph = Graph(nodes: map<Id, NodeRow>, relations: map<Id, RelationRow>, sessions: set<SessionId>, epoch: nat)

  function NodeOf(i: NodeItem, c: Context): NodeRow {
    NodeRow(i.authority, true, c.session, c.fence, c.collection, i.stream, i.facts)
  }

  function RelationOf(i: RelationItem, c: Context): RelationRow {
    RelationRow(true, c.session, c.fence, c.collection, i.evidence)
  }

  predicate Supersedes(i: NodeItem, c: Context, row: NodeRow) {
    SqlNotOlder(c.fence, c.collection, i.stream, row.fence, row.collection, row.stream)
  }

  predicate RelationSupersedes(c: Context, row: RelationRow) {
    c.fence > row.fence || (c.fence == row.fence && c.collection >= row.collection)
  }

  function UpsertNode(nodes: map<Id, NodeRow>, i: NodeItem, c: Context): map<Id, NodeRow> {
    if i.id in nodes && !Supersedes(i, c, nodes[i.id]) then nodes else nodes[i.id := NodeOf(i, c)]
  }

  function UpsertNodes(nodes: map<Id, NodeRow>, items: seq<NodeItem>, c: Context): map<Id, NodeRow> {
    if items == [] then nodes
    else UpsertNode(UpsertNodes(nodes, items[..|items| - 1], c), items[|items| - 1], c)
  }

  function UpsertRelation(relations: map<Id, RelationRow>, i: RelationItem, c: Context): map<Id, RelationRow> {
    if i.id in relations && !RelationSupersedes(c, relations[i.id]) then relations else relations[i.id := RelationOf(i, c)]
  }

  function UpsertRelations(relations: map<Id, RelationRow>, items: seq<RelationItem>, c: Context): map<Id, RelationRow> {
    if items == [] then relations
    else UpsertRelation(UpsertRelations(relations, items[..|items| - 1], c), items[|items| - 1], c)
  }

  function CompleteSources(inv: Inventory): set<string> {
    match inv.sources
    case None => {"kubernetes"}
    case Some(ss) => set s | s in ss && s.configured && s.complete :: s.name
  }

  predicate RelationsComplete(inv: Inventory) {
    inv.sources.Some? ==> forall s | s in inv.sources.value :: !s.configured || s.complete
  }

  predicate Buried(row: NodeRow, complete: set<string>, c: Context) {
    row.authority in complete && row.live && row.session != c.session && row.fence <= c.fence
  }

  predicate RelationBuried(row: RelationRow, c: Context) { row.live && row.session != c.session && row.fence <= c.fence }

  function TombstoneNodes(nodes: map<Id, NodeRow>, complete: set<string>, c: Context): map<Id, NodeRow> {
    map id | id in nodes ::
      if Buried(nodes[id], complete, c)
      then nodes[id].(live := false, fence := c.fence, collection := c.collection, session := c.session)
      else nodes[id]
  }

  function TombstoneRelations(relations: map<Id, RelationRow>, c: Context): map<Id, RelationRow> {
    map id | id in relations ::
      if RelationBuried(relations[id], c)
      then relations[id].(live := false, fence := c.fence, collection := c.collection, session := c.session)
      else relations[id]
  }

  // ----- What the database refuses -----

  /** The row trigger on every insert and update of a node or relation, and the completion function, want the current epoch. */
  predicate Current(g: Graph, c: Context) { g.epoch > 0 && c.fence == g.epoch }

  /** The monotonicity trigger: an update may not lower a version. A tombstone keeps the stream and writes fence and collection. */
  predicate Regresses(fence: int, collection: int, c: Context) {
    c.fence < fence || (c.fence == fence && c.collection < collection)
  }

  predicate NodesRegress(nodes: map<Id, NodeRow>, complete: set<string>, c: Context) {
    exists id <- nodes.Keys :: Buried(nodes[id], complete, c) && Regresses(nodes[id].fence, nodes[id].collection, c)
  }

  predicate RelationsRegress(relations: map<Id, RelationRow>, c: Context) {
    exists id <- relations.Keys :: RelationBuried(relations[id], c) && Regresses(relations[id].fence, relations[id].collection, c)
  }

  /** The live nodes the run itself wrote; their number must be the number of rows it observed. */
  function Observed(nodes: map<Id, NodeRow>, c: Context): set<Id> {
    set id <- nodes.Keys | nodes[id].session == c.session && nodes[id].fence == c.fence && nodes[id].collection == c.collection && nodes[id].live
  }

  /** The tables as the statements of one run leave them, if none of them is refused. */
  function Drafted(g: Graph, inv: Inventory, c: Context): Graph {
    Graph(
      TombstoneNodes(UpsertNodes(g.nodes, inv.nodes, c), CompleteSources(inv), c),
      var rs := UpsertRelations(g.relations, inv.relations, c);
      if RelationsComplete(inv) then TombstoneRelations(rs, c) else rs,
      g.sessions + {c.session},
      g.epoch)
  }

  predicate Commits(g: Graph, inv: Inventory, c: Context) {
    && inv.snapshotComplete && c.session !in g.sessions && Current(g, c)
    && !NodesRegress(UpsertNodes(g.nodes, inv.nodes, c), CompleteSources(inv), c)
    && (RelationsComplete(inv) ==> !RelationsRegress(UpsertRelations(g.relations, inv.relations, c), c))
    && c.attested && |Observed(Drafted(g, inv, c).nodes, c)| == |inv.nodes|
  }

  /** The whole transaction: it commits, or it is rolled back and changes nothing. */
  function Reconciled(g: Graph, inv: Inventory, c: Context): Graph {
    if Commits(g, inv, c) then Drafted(g, inv, c) else g
  }

  class GraphStore {
    var nodes: map<Id, NodeRow>
    var relations: map<Id, RelationRow>
    var sessions: set<SessionId>
    var epoch: nat

    ghost function Value(): Graph
      reads this
    {
      Graph(nodes, relations, sessions, epoch)
    }

    /** A new leader takes the next epoch. */
    method ClaimObserverEpoch() returns (fence: nat)
      modifies this`epoch
      ensures epoch == old(epoch) + 1 && fence == epoch
    {
      epoch := epoch + 1;
      fence := epoch;
    }

    method UpsertAll(inv: Inventory, c: Context)
      modifies this`nodes, this`relations
      ensures nodes == UpsertNodes(old(nodes), inv.nodes, c) && relations == UpsertRelations(old(relations), inv.relations, c)
    {
      for k := 0 to |inv.nodes|
        invariant nodes == UpsertNodes(old(nodes), inv.nodes[..k], c) && relations == old(relations)
      {
        assert inv.nodes[..k + 1][..k] == inv.nodes[..k];
        var item := inv.nodes[k];
        if item.id !in nodes || Supersedes(item, c, nodes[item.id]) {
          nodes := nodes[item.id := NodeOf(item, c)];
        }
      }
      assert inv.nodes[..|inv.nodes|] == inv.nodes;
      for k := 0 to |inv.relations|
        invariant relations == UpsertRelations(old(relations), inv.relations[..k], c) && nodes == UpsertNodes(old(nodes), inv.nodes, c)
      {
        assert inv.relations[..k + 1][..k] == inv.relations[..k];
        var item := inv.relations[k];
        if item.id !in relations || RelationSupersedes(c, relations[item.id]) {
          relations := relations[item.id := RelationOf(item, c)];
        }
      }
      assert inv.relations[..|inv.relations|] == inv.relations;
    }

    method Reconcile(inv: Inventory, c: Context) returns (ok: bool)
      modifies this
      ensures ok == Commits(old(Value()), inv, c)
      ensures Value() == Reconciled(old(Value()), inv, c)
      ensures forall id | id in old(nodes) && !Lists(inv.nodes, id) && !ReportedWhole(inv, old(nodes)[id].authority) ::
                id in nodes && nodes[id] == old(nodes)[id]
      ensures ok && GraphOk(old(Value())) ==>
                forall id: Id, authority: string | ReportedWhole(inv, authority) :: LiveUnder(Value(), id, authority) <==> ListsUnder(inv.nodes, id, authority)
    {
      PassKeepsAndClears(Value(), inv, c);
      if !inv.snapshotComplete || c.session in sessions || epoch == 0 || c.fence != epoch { return false; }
      var savedNodes, savedRelations := nodes, relations;
      UpsertAll(inv, c);
      ok := !NodesRegress(nodes, CompleteSources(inv), c);
      if ok {
        nodes := TombstoneNodes(nodes, CompleteSources(inv), c);
        if RelationsComplete(inv) {
          ok := !RelationsRegress(relations, c);
          relations := TombstoneRelations(relations, c);
        }
        ok := ok && c.attested && |Observed(nodes, c)| == |inv.nodes|;
      }
      if ok {
        sessions := sessions + {c.session};
      } else {
        nodes, relations := savedNodes, savedRelations;
      }
    }
  }

  // ----- What an upsert pass does to one row -----

  predicate Lists(items: seq<NodeItem>, id: Id) { exists k :: 0 <= k < |items| && items[k].id == id }

  predicate SomeSupersedes(items: seq<NodeItem>, id: Id, c: Context, row: NodeRow) {
    exists k :: 0 <= k < |items| && items[k].id == id && Supersedes(items[k], c, row)
  }

  /** A row written by this run, for an item that names it. */
  predicate WrittenBy(items: seq<NodeItem>, id: Id, c: Context, row: NodeRow) {
    exists k :: 0 <= k < |items| && items[k].id == id && row == NodeOf(items[k], c)
  }

  lemma {:induction false} UpsertNodesRow(nodes: map<Id, NodeRow>, items: seq<NodeItem>, c: Context, id: Id)
    ensures var after := UpsertNodes(nodes, items, c);
      if Lists(items, id) && (id in nodes ==> SomeSupersedes(items, id, c, nodes[id]))
      then id in after && WrittenBy(items, id, c, after[id])
      else (id in after <==> id in nodes) && (id in nodes ==> after[id] == nodes[id])
  {
    if items != [] {
      var before, last := items[..|items| - 1], items[|items| - 1];
      UpsertNodesRow(nodes, before, c, id);
      ListsSnoc(nodes, before, last, c, id);
      assert before + [last] == items;
    }
  }

  lemma ListsSnoc(nodes: map<Id, NodeRow>, before: seq<NodeItem>, last: NodeItem, c: Context, id: Id)
    ensures Lists(before + [last], id) <==> Lists(before, id) || last.id == id
    ensures id in nodes ==>
      (SomeSupersedes(before + [last], id, c, nodes[id]) <==>
         SomeSupersedes(before, id, c, nodes[id]) || (last.id == id && Supersedes(last, c, nodes[id])))
    ensures forall row :: WrittenBy(before, id, c, row) || (last.id == id && row == NodeOf(last, c)) ==> WrittenBy(before + [last], id, c, row)
  {
    var items := before + [last];
    assert items[|before|] == last;
    assert forall k | 0 <= k < |before| :: items[k] == before[k];
  }

  predicate ListsRelation(items: seq<RelationItem>, id: Id) { exists k :: 0 <= k < |items| && items[k].id == id }

  lemma {:induction false} UpsertRelationsRow(relations: map<Id, RelationRow>, items: seq<RelationItem>, c: Context, id: Id)
    ensures var after := UpsertRelations(relations, items, c);
      if ListsRelation(items, id) && (id in relations ==> RelationSupersedes(c, relations[id]))
      then id in after && after[id].live && after[id].session == c.session && after[id].fence == c.fence && after[id].collection == c.collection
      else (id in after <==> id in relations) && (id in relations ==> after[id] == relations[id])
  {
    if items != [] {
      var before, last := items[..|items| - 1], items[|items| - 1];
      UpsertRelationsRow(relations, before, c, id);
      assert items[|before|] == last;
      assert forall k | 0 <= k < |before| :: items[k] == before[k];
      assert ListsRelation(items, id) <==> ListsRelation(before, id) || last.id == id;
    }
  }

  // ----- Every committed run wrote every node it lists -----

  function Ids(items: seq<NodeItem>): set<Id> { set k | 0 <= k < |items| :: items[k].id }

  predicate DistinctIds(items: seq<NodeItem>) { forall j, k | 0 <= j < k < |items| :: items[j].id != items[k].id }

  lemma IdsSnoc(before: seq<NodeItem>, last: NodeItem)
    ensures Ids(before + [last]) == Ids(before) + {last.id}
  {
    var items := before + [last];
    assert items[|before|] == last;
    assert forall k | 0 <= k < |before| :: items[k] == before[k];
  }

  lemma {:induction false} IdsCount(items: seq<NodeItem>)
    ensures |Ids(items)| <= |items|
    ensures |Ids(items)| == |items| <==> DistinctIds(items)
  {
    if |items| == 0 {
      assert Ids(items) == {};
    } else {
      var before, last := items[..|items| - 1], items[|items| - 1];
      assert items == before + [last];
      IdsSnoc(before, last);
      IdsCount(before);
      assert last.id in Ids(before) <==> exists k :: 0 <= k < |before| && before[k].id == last.id;
    }
  }

  lemma {:induction false} SubsetCounts(a: set<Id>, b: set<Id>)
    requires a <= b
    ensures |a| <= |b| && (|a| == |b| ==> a == b)
  {
    if a != {} {
      var x :| x in a;
      SubsetCounts(a - {x}, b - {x});
    }
  }

  /** The run wrote the row: its id was new, or some listed item is not older than what was stored. */
  predicate Written(nodes: map<Id, NodeRow>, items: seq<NodeItem>, c: Context, id: Id) {
    Lists(items, id) && (id in nodes ==> SomeSupersedes(items, id, c, nodes[id]))
  }

  lemma ObservedIsWritten(g: Graph, inv: Inventory, c: Context, id: Id)
    requires SessionsKnown(g) && c.session !in g.sessions
    ensures id in Observed(Drafted(g, inv, c).nodes, c) <==> Written(g.nodes, inv.nodes, c, id)
  {
    UpsertNodesRow(g.nodes, inv.nodes, c, id);
  }

  /** The count of the completion function holds exactly when the ids are distinct and every one was written. */
  lemma CountMeansAllWritten(g: Graph, inv: Inventory, c: Context)
    requires SessionsKnown(g) && c.session !in g.sessions
    ensures |Observed(Drafted(g, inv, c).nodes, c)| == |inv.nodes| <==>
      DistinctIds(inv.nodes) && forall id | Lists(inv.nodes, id) :: Written(g.nodes, inv.nodes, c, id)
  {
    var observed, ids := Observed(Drafted(g, inv, c).nodes, c), Ids(inv.nodes);
    forall id ensures id in observed <==> Written(g.nodes, inv.nodes, c, id) { ObservedIsWritten(g, inv, c, id); }
    assert forall id :: id in ids <==> Lists(inv.nodes, id);
    SubsetCounts(observed, ids);
    IdsCount(inv.nodes);
    if forall id | Lists(inv.nodes, id) :: Written(g.nodes, inv.nodes, c, id) { assert observed == ids; }
  }

  /** After a committed run every listed node is live and carries what the run observed. */
  lemma ListedNodeIsWritten(g: Graph, inv: Inventory, c: Context, k: nat)
    requires GraphOk(g) && Commits(g, inv, c) && k < |inv.nodes|
    ensures var id, after := inv.nodes[k].id, Reconciled(g, inv, c).nodes;
      id in after && after[id] == NodeOf(inv.nodes[k], c)
  {
    CountMeansAllWritten(g, inv, c);
    var id := inv.nodes[k].id;
    assert Lists(inv.nodes, id) && Written(g.nodes, inv.nodes, c, id);
    UpsertNodesRow(g.nodes, inv.nodes, c, id);
  }

  /** Some report of the authority is configured and complete; without any reports Kubernetes alone counts as so reported. */
  predicate ReportedWhole(inv: Inventory, authority: string) {
    match inv.sources
    case None => authority == "kubernetes"
    case Some(ss) => exists k :: 0 <= k < |ss| && ss[k].name == authority && ss[k].configured && ss[k].complete
  }

  /** Some configured source has no complete snapshot. */
  predicate HasGap(inv: Inventory) {
    inv.sources.Some? && exists k :: 0 <= k < |inv.sources.value| && inv.sources.value[k].configured && !inv.sources.value[k].complete
  }

  lemma WholeIff(inv: Inventory)
    ensures forall authority :: authority in CompleteSources(inv) <==> ReportedWhole(inv, authority)
    ensures RelationsComplete(inv) <==> !HasGap(inv)
  {
    if inv.sources.Some? {
      var ss := inv.sources.value;
      forall k | 0 <= k < |ss| ensures ss[k] in ss {}
    }
  }

  /** An unlisted node of a wholly reported authority may be closed only by a run that is not older. */
  predicate NodesMayClose(g: Graph, inv: Inventory, c: Context) {
    forall id | id in g.nodes && !Lists(inv.nodes, id) && g.nodes[id].live && ReportedWhole(inv, g.nodes[id].authority) ::
      c.fence > g.nodes[id].fence || (c.fence == g.nodes[id].fence && c.collection >= g.nodes[id].collection)
  }

  /** The same of relations, and a live relation that is listed may not be newer either. */
  predicate RelationsMayClose(g: Graph, inv: Inventory, c: Context) {
    forall id | id in g.relations && g.relations[id].live ::
      c.fence > g.relations[id].fence || (c.fence == g.relations[id].fence && c.collection >= g.relations[id].collection)
  }

  predicate ItemsSupersede(g: Graph, inv: Inventory, c: Context) {
    forall k | 0 <= k < |inv.nodes| && inv.nodes[k].id in g.nodes :: Supersedes(inv.nodes[k], c, g.nodes[inv.nodes[k].id])
  }

  lemma DistinctItemIsTheOne(items: seq<NodeItem>, k: nat, c: Context, row: NodeRow)
    requires DistinctIds(items) && k < |items|
    ensures SomeSupersedes(items, items[k].id, c, row) <==> Supersedes(items[k], c, row)
  {
    if SomeSupersedes(items, items[k].id, c, row) {
      var j :| 0 <= j < |items| && items[j].id == items[k].id && Supersedes(items[j], c, row);
      assert j == k;
    }
  }

  lemma AllWrittenIff(g: Graph, inv: Inventory, c: Context)
    requires DistinctIds(inv.nodes)
    ensures (forall id | Lists(inv.nodes, id) :: Written(g.nodes, inv.nodes, c, id)) <==> ItemsSupersede(g, inv, c)
  {
    forall k | 0 <= k < |inv.nodes| && inv.nodes[k].id in g.nodes
      ensures Lists(inv.nodes, inv.nodes[k].id)
      ensures Written(g.nodes, inv.nodes, c, inv.nodes[k].id) <==> Supersedes(inv.nodes[k], c, g.nodes[inv.nodes[k].id])
    {
      DistinctItemIsTheOne(inv.nodes, k, c, g.nodes[inv.nodes[k].id]);
    }
  }

  lemma NodesRegressIff(g: Graph, inv: Inventory, c: Context)
    requires GraphOk(g) && c.session !in g.sessions && c.fence == g.epoch
    requires forall id | Lists(inv.nodes, id) :: Written(g.nodes, inv.nodes, c, id)
    ensures NodesRegress(UpsertNodes(g.nodes, inv.nodes, c), CompleteSources(inv), c) <==> !NodesMayClose(g, inv, c)
  {
    var up := UpsertNodes(g.nodes, inv.nodes, c);
    WholeIff(inv);
    forall id
      ensures id in up && Buried(up[id], CompleteSources(inv), c) <==>
              id in g.nodes && !Lists(inv.nodes, id) && g.nodes[id].live && g.nodes[id].authority in CompleteSources(inv)
      ensures id in up && Buried(up[id], CompleteSources(inv), c) ==> up[id] == g.nodes[id]
    {
      UpsertNodesRow(g.nodes, inv.nodes, c, id);
    }
  }

  lemma RelationsRegressIff(g: Graph, inv: Inventory, c: Context)
    requires GraphOk(g) && c.session !in g.sessions && c.fence == g.epoch
    ensures RelationsRegress(UpsertRelations(g.relations, inv.relations, c), c) <==> !RelationsMayClose(g, inv, c)
  {
    var up := UpsertRelations(g.relations, inv.relations, c);
    forall id
      ensures id in up && RelationBuried(up[id], c) && Regresses(up[id].fence, up[id].collection, c) <==>
              id in g.relations && g.relations[id].live && Regresses(g.relations[id].fence, g.relations[id].collection, c)
    {
      UpsertRelationsRow(g.relations, inv.relations, c, id);
    }
  }

  /**
   * When a run commits, said of its inventory and the stored rows alone: it holds the current epoch, it lists
   * each node once and none with an older version, and what it would close is not newer than the run.
   */
  lemma CommitsExactly(g: Graph, inv: Inventory, c: Context)
    requires GraphOk(g)
    ensures Commits(g, inv, c) <==>
      && inv.snapshotComplete && c.session !in g.sessions && c.fence == g.epoch && g.epoch != 0 && c.attested
      && DistinctIds(inv.nodes) && ItemsSupersede(g, inv, c)
      && NodesMayClose(g, inv, c) && (HasGap(inv) || RelationsMayClose(g, inv, c))
  {
    WholeIff(inv);
    if inv.snapshotComplete && c.session !in g.sessions && Current(g, c) {
      CountMeansAllWritten(g, inv, c);
      RelationsRegressIff(g, inv, c);
      if DistinctIds(inv.nodes) {
        AllWrittenIff(g, inv, c);
        if ItemsSupersede(g, inv, c) { NodesRegressIff(g, inv, c); }
      }
    }
  }

  // ----- Fencing and versions -----

  /** No run changes a node or a relation stored under a higher fencing epoch. */
  lemma FencedRowsUntouched(g: Graph, inv: Inventory, c: Context, id: Id)
    ensures id in g.nodes && g.nodes[id].fence > c.fence ==>
      id in Reconciled(g, inv, c).nodes && Reconciled(g, inv, c).nodes[id] == g.nodes[id]
    ensures id in g.relations && g.relations[id].fence > c.fence ==>
      id in Reconciled(g, inv, c).relations && Reconciled(g, inv, c).relations[id] == g.relations[id]
  {
    UpsertNodesRow(g.nodes, inv.nodes, c, id);
    UpsertRelationsRow(g.relations, inv.relations, c, id);
  }

  function NodeVersion(row: NodeRow): Version { Version(Some(row.fence), Some(row.collection), row.stream) }

  function RelationVersion(row: RelationRow): Version { Version(Some(row.fence), Some(row.collection), None) }

  /** Every row is kept, and its version is not lowered. */
  ghost predicate VersionsKept(g: Graph, t: Graph) {
    && (forall id | id in g.nodes :: id in t.nodes && Compare(NodeVersion(g.nodes[id]), NodeVersion(t.nodes[id])) >= 0)
    && (forall id | id in g.relations ::
          id in t.relations && Compare(RelationVersion(g.relations[id]), RelationVersion(t.relations[id])) >= 0)
  }

  lemma NotOlderVersion(fence: int, collection: int, stream: Option<int>, f: int, c: int)
    requires fence < f || (fence == f && collection <= c)
    ensures Compare(Version(Some(fence), Some(collection), stream), Version(Some(f), Some(c), stream)) >= 0
  {
    GuardIsCompare(f, c, stream, fence, collection, stream);
  }

  lemma NodeVersionKept(g: Graph, inv: Inventory, c: Context, id: Id)
    requires Commits(g, inv, c) && id in g.nodes
    ensures var t := Drafted(g, inv, c); id in t.nodes && Compare(NodeVersion(g.nodes[id]), NodeVersion(t.nodes[id])) >= 0
  {
    var row, up := g.nodes[id], UpsertNodes(g.nodes, inv.nodes, c);
    UpsertNodesRow(g.nodes, inv.nodes, c, id);
    NotOlderVersion(row.fence, row.collection, row.stream, row.fence, row.collection);
    if Written(g.nodes, inv.nodes, c, id) {
      var k :| 0 <= k < |inv.nodes| && inv.nodes[k].id == id && up[id] == NodeOf(inv.nodes[k], c);
      WrittenSupersedes(g.nodes, inv.nodes, c, id);
    } else if Buried(row, CompleteSources(inv), c) {
      assert id in up.Keys && !Regresses(row.fence, row.collection, c);
      NotOlderVersion(row.fence, row.collection, row.stream, c.fence, c.collection);
    }
  }

  /** The row an upsert pass leaves is not older than the one it found. */
  lemma {:induction false} WrittenSupersedes(nodes: map<Id, NodeRow>, items: seq<NodeItem>, c: Context, id: Id)
    requires id in nodes
    ensures var after := UpsertNodes(nodes, items, c);
      id in after && Compare(NodeVersion(nodes[id]), NodeVersion(after[id])) >= 0
  {
    var row := nodes[id];
    NotOlderVersion(row.fence, row.collection, row.stream, row.fence, row.collection);
    if items != [] {
      var before, last := items[..|items| - 1], items[|items| - 1];
      WrittenSupersedes(nodes, before, c, id);
      var mid := UpsertNodes(nodes, before, c)[id];
      if last.id == id && Supersedes(last, c, mid) {
        GuardIsCompare(c.fence, c.collection, last.stream, mid.fence, mid.collection, mid.stream);
        CompareIsTotalOrder(NodeVersion(row), NodeVersion(mid), NodeVersion(NodeOf(last, c)));
      }
    }
  }

  lemma RelationVersionKept(g: Graph, inv: Inventory, c: Context, id: Id)
    requires Commits(g, inv, c) && id in g.relations
    ensures var t := Drafted(g, inv, c);
      id in t.relations && Compare(RelationVersion(g.relations[id]), RelationVersion(t.relations[id])) >= 0
  {
    var row, up := g.relations[id], UpsertRelations(g.relations, inv.relations, c);
    UpsertRelationsRow(g.relations, inv.relations, c, id);
    NotOlderVersion(row.fence, row.collection, None, row.fence, row.collection);
    if !Regresses(row.fence, row.collection, c) {
      NotOlderVersion(row.fence, row.collection, None, c.fence, c.collection);
    } else {
      assert up[id] == row;
      assert RelationsComplete(inv) ==> id in up.Keys && !RelationBuried(row, c);
    }
  }

  /** No run, committed or not, lowers a stored version or loses a row. */
  lemma VersionsNeverFall(g: Graph, inv: Inventory, c: Context)
    ensures VersionsKept(g, Reconciled(g, inv, c))
  {
    if Commits(g, inv, c) {
      forall id | id in g.nodes
        ensures id in Drafted(g, inv, c).nodes
        ensures Compare(NodeVersion(g.nodes[id]), NodeVersion(Drafted(g, inv, c).nodes[id])) >= 0
      {
        NodeVersionKept(g, inv, c, id);
      }
      forall id | id in g.relations
        ensures id in Drafted(g, inv, c).relations
        ensures Compare(RelationVersion(g.relations[id]), RelationVersion(Drafted(g, inv, c).relations[id])) >= 0
      {
        RelationVersionKept(g, inv, c, id);
      }
    } else {
      VersionsReflexive(g);
    }
  }

  lemma VersionsReflexive(g: Graph)
    ensures VersionsKept(g, g)
  {
    forall id | id in g.nodes ensures Compare(NodeVersion(g.nodes[id]), NodeVersion(g.nodes[id])) >= 0 {
      var row := g.nodes[id];
      NotOlderVersion(row.fence, row.collection, row.stream, row.fence, row.collection);
    }
    forall id | id in g.relations ensures Compare(RelationVersion(g.relations[id]), RelationVersion(g.relations[id])) >= 0 {
      var row := g.relations[id];
      NotOlderVersion(row.fence, row.collection, None, row.fence, row.collection);
    }
  }

  lemma VersionsTransitive(g: Graph, t: Graph, u: Graph)
    requires VersionsKept(g, t) && VersionsKept(t, u)
    ensures VersionsKept(g, u)
  {
    forall id | id in g.nodes ensures id in u.nodes && Compare(NodeVersion(g.nodes[id]), NodeVersion(u.nodes[id])) >= 0 {
      CompareIsTotalOrder(NodeVersion(g.nodes[id]), NodeVersion(t.nodes[id]), NodeVersion(u.nodes[id]));
    }
    forall id | id in g.relations ensures id in u.relations && Compare(RelationVersion(g.relations[id]), RelationVersion(u.relations[id])) >= 0 {
      CompareIsTotalOrder(RelationVersion(g.relations[id]), RelationVersion(t.relations[id]), RelationVersion(u.relations[id]));
    }
  }

  // ----- Histories -----

  /** Stored rows carry recorded sessions. */
  predicate SessionsKnown(g: Graph) {
    && (forall id | id in g.nodes :: g.nodes[id].session in g.sessions)
    && (forall id | id in g.relations :: g.relations[id].session in g.sessions)
  }

  /** ... and no row is ahead of the current epoch. */
  predicate GraphOk(g: Graph) {
    && SessionsKnown(g)
    && (forall id | id in g.nodes :: g.nodes[id].fence <= g.epoch)
    && (forall id | id in g.relations :: g.relations[id].fence <= g.epoch)
  }

  lemma ReconciledKeepsOk(g: Graph, inv: Inventory, c: Context)
    requires GraphOk(g)
    ensures GraphOk(Reconciled(g, inv, c))
  {
    var after := Reconciled(g, inv, c);
    if Commits(g, inv, c) {
      forall id | id in after.nodes ensures after.nodes[id].session in after.sessions && after.nodes[id].fence <= after.epoch {
        UpsertNodesRow(g.nodes, inv.nodes, c, id);
      }
      forall id | id in after.relations ensures after.relations[id].session in after.sessions && after.relations[id].fence <= after.epoch {
        UpsertRelationsRow(g.relations, inv.relations, c, id);
      }
    }
  }

  datatype Event = NewLeader | Pass(inventory: Inventory, context: Context)

  function Happens(g: Graph, e: Event): Graph {
    match e
    case NewLeader => g.(epoch := g.epoch + 1)
    case Pass(inv, c) => Reconciled(g, inv, c)
  }

  function Replay(g: Graph, events: seq<Event>): Graph {
    if events == [] then g else Happens(Replay(g, events[..|events| - 1]), events[|events| - 1])
  }

  lemma HappensKeeps(g: Graph, e: Event)
    requires GraphOk(g)
    ensures GraphOk(Happens(g, e)) && VersionsKept(g, Happens(g, e)) && Happens(g, e).epoch >= g.epoch
  {
    match e
    case NewLeader => VersionsReflexive(g);
    case Pass(inv, c) =>
      ReconciledKeepsOk(g, inv, c);
      VersionsNeverFall(g, inv, c);
  }

  /** Over any history of leaders and runs, no row is lost, no version falls and every row stays within the epoch. */
  lemma {:induction false} HistoryKeepsVersions(g: Graph, events: seq<Event>)
    requires GraphOk(g)
    ensures GraphOk(Replay(g, events)) && VersionsKept(g, Replay(g, events)) && Replay(g, events).epoch >= g.epoch
  {
    if events == [] {
      VersionsReflexive(g);
    } else {
      var before := events[..|events| - 1];
      HistoryKeepsVersions(g, before);
      HappensKeeps(Replay(g, before), events[|events| - 1]);
      VersionsTransitive(g, Replay(g, before), Replay(g, events));
    }
  }

  /** Runs of deposed leaders change no node, no relation and no session, whoever leads in between. */
  lemma {:induction false} DeposedLeadersChangeNothing(g: Graph, events: seq<Event>)
    requires forall k | 0 <= k < |events| :: events[k].Pass? ==> events[k].context.fence < g.epoch
    ensures Replay(g, events) == g.(epoch := Replay(g, events).epoch) && Replay(g, events).epoch >= g.epoch
  {
    if events != [] {
      var before, last := events[..|events| - 1], events[|events| - 1];
      DeposedLeadersChangeNothing(g, before);
      assert last.Pass? ==> last.context.fence < g.epoch;
    }
  }

  // ----- What a committed run leaves -----

  predicate ListsUnder(items: seq<NodeItem>, id: Id, authority: string) {
    exists k :: 0 <= k < |items| && items[k].id == id && items[k].authority == authority
  }

  predicate LiveUnder(g: Graph, id: Id, authority: string) {
    id in g.nodes && g.nodes[id].live && g.nodes[id].authority == authority
  }

  /**
   * After any committed run the live nodes of an authority are exactly those listed under it, if some source of the
   * run reports that authority as configured and complete, or if no sources are given and it is Kubernetes.
   */
  lemma CompleteAuthorityIsInventory(g: Graph, inv: Inventory, c: Context, id: Id, authority: string)
    requires GraphOk(g) && Commits(g, inv, c)
    requires match inv.sources
             case None => authority == "kubernetes"
             case Some(ss) => exists s :: s in ss && s.name == authority && s.configured && s.complete
    ensures LiveUnder(Reconciled(g, inv, c), id, authority) <==> ListsUnder(inv.nodes, id, authority)
  {
    if Lists(inv.nodes, id) {
      var k :| 0 <= k < |inv.nodes| && inv.nodes[k].id == id;
      ListedNodeIsWritten(g, inv, c, k);
      CountMeansAllWritten(g, inv, c);
      assert forall j | 0 <= j < |inv.nodes| && inv.nodes[j].id == id :: j == k;
    } else {
      UpsertNodesRow(g.nodes, inv.nodes, c, id);
    }
  }

  /** Whatever the versions, and whether the run commits or not: an unlisted node that no source so reports is left alone. */
  lemma IncompleteAuthorityUntouched(g: Graph, inv: Inventory, c: Context, id: Id)
    requires id in g.nodes && !Lists(inv.nodes, id)
    requires match inv.sources
             case None => g.nodes[id].authority != "kubernetes"
             case Some(ss) => forall s | s in ss && s.name == g.nodes[id].authority :: !s.configured || !s.complete
    ensures id in Reconciled(g, inv, c).nodes && Reconciled(g, inv, c).nodes[id] == g.nodes[id]
  {
    UpsertNodesRow(g.nodes, inv.nodes, c, id);
  }

  /** The two together, for every node and authority. */
  lemma PassKeepsAndClears(g: Graph, inv: Inventory, c: Context)
    ensures var after := Reconciled(g, inv, c);
      && (forall id | id in g.nodes && !Lists(inv.nodes, id) && !ReportedWhole(inv, g.nodes[id].authority) ::
            id in after.nodes && after.nodes[id] == g.nodes[id])
      && (Commits(g, inv, c) && GraphOk(g) ==>
            forall id: Id, authority: string | ReportedWhole(inv, authority) :: LiveUnder(after, id, authority) <==> ListsUnder(inv.nodes, id, authority))
  {
    forall id | id in g.nodes && !Lists(inv.nodes, id) && !ReportedWhole(inv, g.nodes[id].authority)
      ensures id in Reconciled(g, inv, c).nodes && Reconciled(g, inv, c).nodes[id] == g.nodes[id]
    {
      IncompleteAuthorityUntouched(g, inv, c, id);
    }
    if Commits(g, inv, c) && GraphOk(g) {
      forall id: Id, authority: string | ReportedWhole(inv, authority)
        ensures LiveUnder(Reconciled(g, inv, c), id, authority) <==> ListsUnder(inv.nodes, id, authority)
      {
        CompleteAuthorityIsInventory(g, inv, c, id, authority);
      }
    }
  }

  /** The row of a listed node, field by field. */
  lemma ListedNodeRow(g: Graph, inv: Inventory, c: Context, k: nat)
    requires GraphOk(g) && Commits(g, inv, c) && k < |inv.nodes|
    ensures var item, after := inv.nodes[k], Reconciled(g, inv, c).nodes;
      item.id in after && after[item.id] == NodeRow(item.authority, true, c.session, c.fence, c.collection, item.stream, item.facts)
  {
    ListedNodeIsWritten(g, inv, c, k);
  }

  /** A closed node takes the version of the run that closes it and keeps what was last observed of it; a dead one stays as it is. */
  lemma UnlistedNodeRow(g: Graph, inv: Inventory, c: Context, id: Id)
    requires GraphOk(g) && Commits(g, inv, c) && !Lists(inv.nodes, id)
    ensures var after := Reconciled(g, inv, c).nodes;
      if id in g.nodes
      then var row := g.nodes[id];
           id in after && after[id] == (if row.live && ReportedWhole(inv, row.authority)
                                        then NodeRow(row.authority, false, c.session, c.fence, c.collection, row.stream, row.facts) else row)
      else id !in after
  {
    UpsertNodesRow(g.nodes, inv.nodes, c, id);
    WholeIff(inv);
  }

  /** The same of a relation, which is closed only when no configured source has a gap. */
  lemma UnlistedRelationRow(g: Graph, inv: Inventory, c: Context, id: Id)
    requires GraphOk(g) && Commits(g, inv, c) && !ListsRelation(inv.relations, id)
    ensures var after := Reconciled(g, inv, c).relations;
      if id in g.relations
      then var row := g.relations[id];
           id in after && after[id] == (if row.live && !HasGap(inv)
                                        then RelationRow(false, c.session, c.fence, c.collection, row.evidence) else row)
      else id !in after
  {
    UpsertRelationsRow(g.relations, inv.relations, c, id);
    WholeIff(inv);
  }

  /**
   * Relations after a committed run on any tables. An unlisted one is closed when every configured source is complete
   * and left alone otherwise; a listed one is live unless its stored row is newer than the run and not itself live.
   */
  lemma RelationsFollowInventory(g: Graph, inv: Inventory, c: Context, id: Id)
    requires GraphOk(g) && Commits(g, inv, c)
    ensures var after := Reconciled(g, inv, c).relations;
      && (ListsRelation(inv.relations, id) ==> id in after)
      && (ListsRelation(inv.relations, id) ==>
            (after[id].live <==> !(id in g.relations && !RelationSupersedes(c, g.relations[id]) && !g.relations[id].live)))
      && (!ListsRelation(inv.relations, id) && RelationsComplete(inv) ==> id !in after || !after[id].live)
      && (!ListsRelation(inv.relations, id) && !RelationsComplete(inv) && id in g.relations ==> id in after && after[id] == g.relations[id])
  {
    UpsertRelationsRow(g.relations, inv.relations, c, id);
    if RelationsComplete(inv) { RelationsRegressIff(g, inv, c); }
  }

  /** A listing that is older than a stored row is refused whole: the run is rolled back, nothing is closed. */
  lemma OlderListingIsRolledBack(g: Graph, inv: Inventory, c: Context, k: nat)
    requires GraphOk(g) && k < |inv.nodes| && inv.nodes[k].id in g.nodes && !Supersedes(inv.nodes[k], c, g.nodes[inv.nodes[k].id])
    ensures Reconciled(g, inv, c) == g
  {
    CommitsExactly(g, inv, c);
  }

  // ----- Relations over a history -----

  const EMPTY: Graph := Graph(map[], map[], {}, 0)

  /** Clocks do not run backwards, and the runs of one leader follow each other. */
  predicate Ascends(events: seq<Event>) {
    forall j, k | 0 <= j < k < |events| && events[j].Pass? && events[k].Pass? && events[j].context.fence == events[k].context.fence ::
      events[j].context.collection <= events[k].context.collection
  }

  /** The row carries the version of an earlier run. */
  predicate Stamped(events: seq<Event>, row: RelationRow) {
    exists k :: 0 <= k < |events| && events[k].Pass? && events[k].context.fence == row.fence && events[k].context.collection == row.collection
  }

  lemma StampedLater(before: seq<Event>, last: Event, row: RelationRow)
    requires Stamped(before, row)
    ensures Stamped(before + [last], row)
  {
    var k :| 0 <= k < |before| && before[k].Pass? && before[k].context.fence == row.fence && before[k].context.collection == row.collection;
    assert (before + [last])[k] == before[k];
  }

  /** A run leaves a relation as it was or stamps it with its own version. */
  lemma RunStamps(g: Graph, inv: Inventory, c: Context, id: Id)
    requires id in Reconciled(g, inv, c).relations
    ensures var row := Reconciled(g, inv, c).relations[id];
      (id in g.relations && row == g.relations[id]) || (row.fence == c.fence && row.collection == c.collection)
  {
    UpsertRelationsRow(g.relations, inv.relations, c, id);
  }

  lemma {:induction false} RelationsAreStamped(events: seq<Event>, id: Id)
    requires id in Replay(EMPTY, events).relations
    ensures Stamped(events, Replay(EMPTY, events).relations[id])
  {
    if events != [] {
      var before, last := events[..|events| - 1], events[|events| - 1];
      var g, row := Replay(EMPTY, before), Replay(EMPTY, events).relations[id];
      assert before + [last] == events;
      if last.Pass? { RunStamps(g, last.inventory, last.context, id); }
      if id in g.relations && row == g.relations[id] {
        RelationsAreStamped(before, id);
        StampedLater(before, last, row);
      } else {
        assert events[|before|] == last;
      }
    }
  }

  /** The next run is not older than any stored relation of its own epoch, and no relation is ahead of its epoch. */
  lemma NextRunSupersedes(events: seq<Event>, inv: Inventory, c: Context, id: Id)
    requires Ascends(events + [Pass(inv, c)]) && Current(Replay(EMPTY, events), c) && id in Replay(EMPTY, events).relations
    ensures RelationSupersedes(c, Replay(EMPTY, events).relations[id])
  {
    var row, all := Replay(EMPTY, events).relations[id], events + [Pass(inv, c)];
    HistoryKeepsVersions(EMPTY, events);
    RelationsAreStamped(events, id);
    var k :| 0 <= k < |events| && events[k].Pass? && events[k].context.fence == row.fence && events[k].context.collection == row.collection;
    assert all[k] == events[k] && all[|events|] == Pass(inv, c);
  }

  /**
   * The relation half, over every history from the empty graph: after a committed run every listed relation is live,
   * and when no configured source is incomplete no other one is; otherwise the others are left alone.
   */
  lemma RelationsAreInventory(events: seq<Event>, inv: Inventory, c: Context, id: Id)
    requires Ascends(events + [Pass(inv, c)]) && Commits(Replay(EMPTY, events), inv, c)
    ensures var g := Replay(EMPTY, events); var after := Reconciled(g, inv, c).relations;
      && (ListsRelation(inv.relations, id) ==> id in after && after[id].live && after[id].session == c.session)
      && ((inv.sources.None? || forall s | s in inv.sources.value && s.configured :: s.complete) ==>
            (id in after && after[id].live <==> ListsRelation(inv.relations, id)))
      && ((inv.sources.Some? && exists s :: s in inv.sources.value && s.configured && !s.complete) && !ListsRelation(inv.relations, id) ==>
            (id in after <==> id in g.relations) && (id in after ==> after[id] == g.relations[id]))
  {
    var g := Replay(EMPTY, events);
    HistoryKeepsVersions(EMPTY, events);
    UpsertRelationsRow(g.relations, inv.relations, c, id);
    RelationsFollowInventory(g, inv, c, id);
    if id in g.relations { NextRunSupersedes(events, inv, c, id); }
  }

  /** The evidence of a listed relation is that of one of its items in the run. */
  lemma ListedRelationRow(events: seq<Event>, inv: Inventory, c: Context, id: Id)
    requires Ascends(events + [Pass(inv, c)]) && Commits(Replay(EMPTY, events), inv, c) && ListsRelation(inv.relations, id)
    ensures var after := Reconciled(Replay(EMPTY, events), inv, c).relations;
      id in after && exists k :: 0 <= k < |inv.relations| && inv.relations[k].id == id
                                 && after[id] == RelationRow(true, c.session, c.fence, c.collection, inv.relations[k].evidence)
  {
    var g := Replay(EMPTY, events);
    HistoryKeepsVersions(EMPTY, events);
    if id in g.relations { NextRunSupersedes(events, inv, c, id); }
    RelationWrittenBy(g.relations, inv.relations, c, id);
  }

  lemma {:induction false} RelationWrittenBy(relations: map<Id, RelationRow>, items: seq<RelationItem>, c: Context, id: Id)
    requires ListsRelation(items, id) && (id in relations ==> RelationSupersedes(c, relations[id]))
    ensures var after := UpsertRelations(relations, items, c);
      id in after && exists k :: 0 <= k < |items| && items[k].id == id
                                 && after[id] == RelationRow(true, c.session, c.fence, c.collection, items[k].evidence)
  {
    var before, last := items[..|items| - 1], items[|items| - 1];
    if last.id == id {
      UpsertRelationsRow(relations, before, c, id);
    } else {
      assert ListsRelation(before, id);
      RelationWrittenBy(relations, before, c, id);
    }
  }
}

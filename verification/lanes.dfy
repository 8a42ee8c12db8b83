/** The body of a `for_each` loop: derived from the graph, and run once for every item. */
module Lanes {
  import opened Wrappers
  import opened Values
  import opened Schema
  import opened Activation
  import opened Topology
  import opened Semantics
  import opened Diagnostics
  import opened Engine

  // ---- reachability ---------------------------------------------------------------------------------------

  /** An edge leads from `a` to `b`. */
  ghost predicate Leads(edges: seq<Edge>, a: string, b: string) {
    exists i :: 0 <= i < |edges| && edges[i].source == a && edges[i].target == b
  }

  ghost predicate IsPath(edges: seq<Edge>, path: seq<string>) {
    path != [] && forall i {:trigger path[i]} :: 0 <= i < |path| - 1 ==> Leads(edges, path[i], path[i + 1])
  }

  /** Some path leads to `id` from one of `starts`. */
  ghost predicate Reach(edges: seq<Edge>, starts: seq<string>, id: string) {
    exists path :: IsPath(edges, path) && path[0] in starts && path[|path| - 1] == id
  }

  function Targets(edges: seq<Edge>, id: string): seq<string> {
    if edges == [] then []
    else
      var n := |edges| - 1;
      Targets(edges[..n], id) + if edges[n].source == id then [edges[n].target] else []
  }

  lemma {:induction false} TargetsAre(edges: seq<Edge>, id: string, x: string)
    ensures x in Targets(edges, id) <==> Leads(edges, id, x)
  {
    if edges != [] {
      var n := |edges| - 1;
      TargetsAre(edges[..n], id, x);
      if Leads(edges[..n], id, x) {
        var i :| 0 <= i < n && edges[..n][i].source == id && edges[..n][i].target == x;
        assert edges[i].source == id && edges[i].target == x;
      }
      if i :| 0 <= i < |edges| && edges[i].source == id && edges[i].target == x {
        if i < n { assert edges[..n][i] == edges[i]; }
      }
    }
  }

  lemma ReachStart(edges: seq<Edge>, starts: seq<string>, id: string)
    requires id in starts
    ensures Reach(edges, starts, id)
  {
    assert IsPath(edges, [id]);
  }

  lemma ReachOn(edges: seq<Edge>, starts: seq<string>, a: string, b: string)
    requires Reach(edges, starts, a) && Leads(edges, a, b)
    ensures Reach(edges, starts, b)
  {
    var path :| IsPath(edges, path) && path[0] in starts && path[|path| - 1] == a;
    var longer := path + [b];
    forall i | 0 <= i < |longer| - 1 ensures Leads(edges, longer[i], longer[i + 1]) {
      if i < |path| - 1 { assert Leads(edges, path[i], path[i + 1]); }
    }
    assert IsPath(edges, longer);
  }

  /** A set that holds the starts and is closed under the edges holds everything reachable. */
  lemma {:induction false} ClosedHolds(edges: seq<Edge>, starts: seq<string>, closed: set<string>, path: seq<string>, k: nat)
    requires IsPath(edges, path) && path[0] in starts && k < |path|
    requires forall id :: id in starts ==> id in closed
    requires forall a, b :: a in closed && Leads(edges, a, b) ==> b in closed
    ensures path[k] in closed
  {
    if k > 0 {
      ClosedHolds(edges, starts, closed, path, k - 1);
      assert Leads(edges, path[k - 1], path[k - 1 + 1]);
    }
  }

  /** Everything that could ever be queued. */
  ghost function Universe(edges: seq<Edge>, starts: seq<string>): set<string> {
    (set i | 0 <= i < |starts| :: starts[i]) + (set i | 0 <= i < |edges| :: edges[i].target)
  }

  /** The queue and the set seen so far account for everything reachable. */
  ghost predicate Exploring(edges: seq<Edge>, starts: seq<string>, seen: set<string>, queue: seq<string>) {
    && (forall id :: id in seen ==> Reach(edges, starts, id))
    && (forall id :: id in queue ==> Reach(edges, starts, id) && id in Universe(edges, starts))
    && (forall id :: id in starts ==> id in seen || id in queue)
    && (forall a, b :: a in seen && Leads(edges, a, b) ==> b in seen || b in queue)
  }

  lemma Explore(edges: seq<Edge>, starts: seq<string>, seen: set<string>, queue: seq<string>)
    requires queue != [] && Exploring(edges, starts, seen, queue)
    ensures var id, rest := queue[|queue| - 1], queue[..|queue| - 1];
      && (id in seen ==> Exploring(edges, starts, seen, rest))
      && Exploring(edges, starts, seen + {id}, rest + Targets(edges, id))
      && id in Universe(edges, starts)
  {
    hide Reach, Leads;
    var id, rest := queue[|queue| - 1], queue[..|queue| - 1];
    assert queue == rest + [id];
    var next := rest + Targets(edges, id);
    forall x | x in Targets(edges, id) ensures Reach(edges, starts, x) && x in Universe(edges, starts) {
      TargetsAre(edges, id, x);
      ReachOn(edges, starts, id, x);
      LeadsInside(edges, starts, id, x);
    }
    forall a, b | a in seen + {id} && Leads(edges, a, b) ensures b in seen + {id} || b in next {
      if a == id { TargetsAre(edges, id, b); }
    }
  }

  lemma LeadsInside(edges: seq<Edge>, starts: seq<string>, a: string, b: string)
    requires Leads(edges, a, b)
    ensures b in Universe(edges, starts)
  {
  }

  function TargetsIn(adjacency: map<string, seq<string>>, id: string): seq<string> {
    if id in adjacency then adjacency[id] else []
  }

  /** Each source's targets, in document order. */
  method Adjacency(edges: seq<Edge>) returns (adjacency: map<string, seq<string>>)
    ensures forall id :: TargetsIn(adjacency, id) == Targets(edges, id)
  {
    adjacency := map[];
    for i := 0 to |edges|
      invariant forall id :: TargetsIn(adjacency, id) == Targets(edges[..i], id)
    {
      assert edges[..i + 1][..i] == edges[..i];
      var e := edges[i];
      adjacency := adjacency[e.source := TargetsIn(adjacency, e.source) + [e.target]];
    }
    assert edges[..|edges|] == edges;
  }

  /** Every node reachable from `starts`, the starts included: exactly the forward closure. */
  method Reachable(adjacency: map<string, seq<string>>, starts: seq<string>, ghost edges: seq<Edge>)
    returns (seen: set<string>)
    requires forall id :: TargetsIn(adjacency, id) == Targets(edges, id)
    ensures forall id :: id in seen <==> Reach(edges, starts, id)
  {
    seen := {};
    var queue := starts;
    ExploreStart(edges, starts);
    hide Exploring, Universe, Targets, Reach;
    while queue != []
      invariant Exploring(edges, starts, seen, queue)
      decreases |Universe(edges, starts) - seen|, |queue|
    {
      Explore(edges, starts, seen, queue);
      ghost var left := Universe(edges, starts) - seen;
      var id := queue[|queue| - 1];
      queue := queue[..|queue| - 1];
      if id in seen {
        continue;
      }
      seen := seen + {id};
      Shrinks(Universe(edges, starts), left, seen, id);
      queue := queue + TargetsIn(adjacency, id);
    }
    ExploreEnd(edges, starts, seen);
  }

  lemma Shrinks(universe: set<string>, left: set<string>, seen: set<string>, id: string)
    requires id in universe && id in left && id in seen && universe - seen == left - {id}
    ensures |universe - seen| < |left|
  {
  }

  lemma ExploreStart(edges: seq<Edge>, starts: seq<string>)
    ensures Exploring(edges, starts, {}, starts)
  {
    forall id | id in starts ensures Reach(edges, starts, id) && id in Universe(edges, starts) {
      ReachStart(edges, starts, id);
    }
  }

  lemma ExploreEnd(edges: seq<Edge>, starts: seq<string>, seen: set<string>)
    requires Exploring(edges, starts, seen, [])
    ensures forall id :: id in seen <==> Reach(edges, starts, id)
  {
    forall id | Reach(edges, starts, id) ensures id in seen {
      var path :| IsPath(edges, path) && path[0] in starts && path[|path| - 1] == id;
      ClosedHolds(edges, starts, seen, path, |path| - 1);
    }
  }

  // ---- the lane -------------------------------------------------------------------------------------------

  function EdgesFrom(edges: seq<Edge>, id: string, port: string): seq<Edge> {
    if edges == [] then []
    else
      var n := |edges| - 1;
      EdgesFrom(edges[..n], id, port) + if edges[n].source == id && edges[n].SourcePort() == port then [edges[n]] else []
  }

  function EndsOf(edges: seq<Edge>): (r: seq<string>)
    ensures |r| == |edges| && forall i :: 0 <= i < |r| ==> r[i] == edges[i].target
  {
    seq(|edges|, i requires 0 <= i < |edges| => edges[i].target)
  }

  function NodesIn(nodes: seq<Node>, body: set<string>): seq<Node> {
    if nodes == [] then []
    else
      var n := |nodes| - 1;
      NodesIn(nodes[..n], body) + if nodes[n].id in body then [nodes[n]] else []
  }

  function EdgesIn(edges: seq<Edge>, body: set<string>): seq<Edge> {
    if edges == [] then []
    else
      var n := |edges| - 1;
      EdgesIn(edges[..n], body) + if edges[n].source in body && edges[n].target in body then [edges[n]] else []
  }

  function EntriesIn(edges: seq<Edge>, body: set<string>): seq<Edge> {
    if edges == [] then []
    else
      var n := |edges| - 1;
      EntriesIn(edges[..n], body) + if edges[n].target in body then [edges[n]] else []
  }

  /** Reachable from the item port, not from the done port, and not the loop itself. */
  ghost predicate InBody(g: Graph, loop: string, id: string) {
    && Reach(g.edges, EndsOf(EdgesFrom(g.edges, loop, "item")), id)
    && !Reach(g.edges, EndsOf(EdgesFrom(g.edges, loop, "done")), id)
    && id != loop
  }

  ghost predicate IsBody(g: Graph, loop: string, body: set<string>) {
    forall id :: id in body <==> InBody(g, loop, id)
  }

  function Induced(g: Graph, body: set<string>): Graph {
    Graph(NodesIn(g.nodes, body), EdgesIn(g.edges, body))
  }

  datatype Lane = Lane(graph: Graph, entries: seq<Edge>)

  /** The loop body, derived from how the graph is drawn; none without an edge on the item port. */
  method ForEachLane(g: Graph, loop: string) returns (lane: Option<Lane>, ghost body: set<string>)
    ensures IsBody(g, loop, body)
    ensures lane.None? <==> EdgesFrom(g.edges, loop, "item") == []
    ensures lane.Some? ==>
      lane.value == Lane(Induced(g, body), EntriesIn(EdgesFrom(g.edges, loop, "item"), body))
  {
    var itemEdges, doneEdges := EdgesFrom(g.edges, loop, "item"), EdgesFrom(g.edges, loop, "done");
    hide Reach, Targets, EdgesFrom;
    var adjacency := Adjacency(g.edges);
    var done := Reachable(adjacency, EndsOf(doneEdges), g.edges);
    var item := Reachable(adjacency, EndsOf(itemEdges), g.edges);
    var inside := set id | id in item && id !in done && id != loop;
    body := inside;
    if itemEdges == [] {
      return None, body;
    }
    lane := Some(Lane(Induced(g, inside), EntriesIn(itemEdges, inside)));
  }

  /** No edge enters the body from beyond the loop: what is reachable from the done port stays outside. */
  lemma NoWayBackIn(g: Graph, loop: string, e: Edge)
    requires e in g.edges && Reach(g.edges, EndsOf(EdgesFrom(g.edges, loop, "done")), e.source)
    ensures !InBody(g, loop, e.target)
  {
    hide Reach;
    var i :| 0 <= i < |g.edges| && g.edges[i] == e;
    assert Leads(g.edges, e.source, e.target);
    ReachOn(g.edges, EndsOf(EdgesFrom(g.edges, loop, "done")), e.source, e.target);
  }

  // ---- the induced graph ------------------------------------------------------------------------------------

  lemma {:induction false} NodesInAre(nodes: seq<Node>, body: set<string>, node: Node)
    ensures node in NodesIn(nodes, body) <==> node in nodes && node.id in body
  {
    if nodes != [] {
      var n := |nodes| - 1;
      NodesInAre(nodes[..n], body, node);
      assert nodes == nodes[..n] + [nodes[n]];
    }
  }

  lemma {:induction false} EdgesInAre(edges: seq<Edge>, body: set<string>, e: Edge)
    ensures e in EdgesIn(edges, body) <==> e in edges && e.source in body && e.target in body
  {
    if edges != [] {
      var n := |edges| - 1;
      EdgesInAre(edges[..n], body, e);
      assert edges == edges[..n] + [edges[n]];
    }
  }

  lemma {:induction false} IdsIn(nodes: seq<Node>, body: set<string>, id: string)
    ensures id in IdSet(NodesIn(nodes, body)) <==> id in IdSet(nodes) && id in body
  {
    if nodes != [] {
      var n := |nodes| - 1;
      IdsIn(nodes[..n], body, id);
      var front := NodesIn(nodes[..n], body);
      assert (front + [nodes[n]])[..|front|] == front;
      assert front + [] == front;
    }
  }

  ghost predicate AllDistinct(nodes: seq<Node>) {
    forall i, j :: 0 <= i < j < |nodes| ==> nodes[i].id != nodes[j].id
  }

  lemma DistinctIsUnique(g: Graph)
    ensures UniqueIds(g) <==> AllDistinct(g.nodes)
  {
    if UniqueIds(g) {
      forall i, j | 0 <= i < j < |g.nodes| ensures g.nodes[i].id != g.nodes[j].id { assert !SameId(g, i, j); }
    }
  }

  lemma {:induction false} DistinctIn(nodes: seq<Node>, body: set<string>)
    requires AllDistinct(nodes)
    ensures AllDistinct(NodesIn(nodes, body))
  {
    if nodes != [] {
      var n := |nodes| - 1;
      var front := NodesIn(nodes[..n], body);
      DistinctIn(nodes[..n], body);
      forall i | 0 <= i < |front| ensures front[i].id != nodes[n].id {
        NodesInAre(nodes[..n], body, front[i]);
        assert front[i] in nodes[..n];
      }
    }
  }

  lemma InducedUnique(g: Graph, body: set<string>)
    requires UniqueIds(g)
    ensures UniqueIds(Induced(g, body))
  {
    DistinctIsUnique(g);
    DistinctIn(g.nodes, body);
    DistinctIsUnique(Induced(g, body));
  }

  lemma InducedKeySafe(g: Graph, body: set<string>)
    requires KeySafe(g)
    ensures KeySafe(Induced(g, body))
  {
    var lane := Induced(g, body);
    forall i, j | 0 <= i < |lane.nodes| && 0 <= j < |lane.nodes| ensures !Extends(lane.nodes[i].id, lane.nodes[j].id) {
      NodesInAre(g.nodes, body, lane.nodes[i]);
      NodesInAre(g.nodes, body, lane.nodes[j]);
      var x :| 0 <= x < |g.nodes| && g.nodes[x] == lane.nodes[i];
      var y :| 0 <= y < |g.nodes| && g.nodes[y] == lane.nodes[j];
      assert !Extends(g.nodes[x].id, g.nodes[y].id);
    }
  }

  /** The body of a graph that can be sorted can be sorted too. */
  lemma InducedSortable(g: Graph, body: set<string>)
    requires Sortable(g)
    ensures Sortable(Induced(g, body))
  {
    var lane := Induced(g, body);
    InducedUnique(g, body);
    if !Sortable(lane) {
      var stuck := UnsortableIsStuck(lane);
      StuckOutside(g, body, stuck);
      StuckHasNoOrder(g, stuck);
    }
  }

  lemma StuckOutside(g: Graph, body: set<string>, stuck: set<string>)
    requires Stuck(Induced(g, body), stuck)
    ensures Stuck(g, stuck)
  {
    var lane := Induced(g, body);
    forall id | id in stuck ensures id in Ids(g) && Blocked(g, stuck, id) {
      IdsIn(g.nodes, body, id);
      assert Blocked(lane, stuck, id);
      var e :| e in lane.edges && e.target == id && (e.source in stuck || e.source !in Ids(lane));
      EdgesInAre(g.edges, body, e);
      IdsIn(g.nodes, body, e.source);
    }
  }

  // ---- the body hangs together ------------------------------------------------------------------------------

  /** Walked backwards, a path only moves to earlier places of a visiting order. */
  lemma {:induction false} PathBack(g: Graph, order: seq<Node>, path: seq<string>, k: nat, place: nat) returns (first: nat)
    requires VisitOrder(g, order) && IsPath(g.edges, path) && k < |path|
    requires place < |order| && order[place].id == path[k]
    ensures first <= place && order[first].id == path[0]
    decreases k
  {
    first := place;
    if k > 0 {
      assert Leads(g.edges, path[k - 1], path[k - 1 + 1]);
      var i :| 0 <= i < |g.edges| && g.edges[i].source == path[k - 1] && g.edges[i].target == path[k];
      assert Placed(order, place, g.edges[i].source);
      var j :| 0 <= j < place && order[j].id == path[k - 1];
      first := PathBack(g, order, path, k - 1, j);
    }
  }

  /** In a graph that can be sorted no path from a node's successor leads back to the node. */
  lemma NoWayBack(g: Graph, loop: string, path: seq<string>, k: nat)
    requires Sortable(g) && loop in Ids(g) && IsPath(g.edges, path) && k < |path| && Leads(g.edges, loop, path[0])
    ensures path[k] != loop
  {
    if path[k] in Ids(g) {
      var order := VisitOrderExists(g);
      PlacedIds(g, order, path[k]);
      var place :| 0 <= place < |order| && order[place].id == path[k];
      var first := PathBack(g, order, path, k, place);
      var i :| 0 <= i < |g.edges| && g.edges[i].source == loop && g.edges[i].target == path[0];
      assert Placed(order, first, g.edges[i].source);
      var j :| 0 <= j < first && order[j].id == loop;
      assert !SameVisit(order, j, place);
    }
  }

  lemma {:induction false} EdgesFromAre(edges: seq<Edge>, id: string, port: string, e: Edge)
    ensures e in EdgesFrom(edges, id, port) <==> e in edges && e.source == id && e.SourcePort() == port
  {
    if edges != [] {
      var n := |edges| - 1;
      EdgesFromAre(edges[..n], id, port, e);
      assert edges == edges[..n] + [edges[n]];
    }
  }

  lemma {:induction false} EntriesInAre(edges: seq<Edge>, body: set<string>, e: Edge)
    ensures e in EntriesIn(edges, body) <==> e in edges && e.target in body
  {
    if edges != [] {
      var n := |edges| - 1;
      EntriesInAre(edges[..n], body, e);
      assert edges == edges[..n] + [edges[n]];
    }
  }

  lemma PathTail(edges: seq<Edge>, starts: seq<string>, path: seq<string>, k: nat)
    requires IsPath(edges, path) && k < |path| && Reach(edges, starts, path[k])
    ensures Reach(edges, starts, path[|path| - 1])
    decreases |path| - k
  {
    if k < |path| - 1 {
      hide Reach;
      assert Leads(edges, path[k], path[k + 1]);
      ReachOn(edges, starts, path[k], path[k + 1]);
      PathTail(edges, starts, path, k + 1);
    }
  }

  lemma PathHead(edges: seq<Edge>, starts: seq<string>, path: seq<string>, k: nat)
    requires IsPath(edges, path) && k < |path| && path[0] in starts
    ensures Reach(edges, starts, path[k])
  {
    var head := path[..k + 1];
    forall i | 0 <= i < |head| - 1 ensures Leads(edges, head[i], head[i + 1]) {
      assert Leads(edges, path[i], path[i + 1]);
    }
    assert IsPath(edges, head);
  }

  /** Every node of the body is reached from one of the lane's entries without leaving the body. */
  lemma BodyFromEntries(g: Graph, loop: string, body: set<string>, id: string)
    requires Sortable(g) && loop in Ids(g) && IsBody(g, loop, body) && id in body
    ensures Reach(EdgesIn(g.edges, body), EndsOf(EntriesIn(EdgesFrom(g.edges, loop, "item"), body)), id)
  {
    var item, done := EdgesFrom(g.edges, loop, "item"), EndsOf(EdgesFrom(g.edges, loop, "done"));
    assert InBody(g, loop, id);
    var path :| IsPath(g.edges, path) && path[0] in EndsOf(item) && path[|path| - 1] == id;
    var i :| 0 <= i < |item| && item[i].target == path[0];
    EdgesFromAre(g.edges, loop, "item", item[i]);
    assert item[i] in item;
    LeadsBy(g.edges, item[i]);
    forall k | 0 <= k < |path| ensures path[k] in body {
      PathHead(g.edges, EndsOf(item), path, k);
      if Reach(g.edges, done, path[k]) { PathTail(g.edges, done, path, k); }
      NoWayBack(g, loop, path, k);
      assert InBody(g, loop, path[k]);
    }
    hide Sortable, IsBody, EdgesFrom;
    PathInside(g.edges, body, path);
    EntriesInAre(item, body, item[i]);
    var entries := EntriesIn(item, body);
    var j :| 0 <= j < |entries| && entries[j] == item[i];
    assert EndsOf(entries)[j] == path[0];
  }

  lemma LeadsBy(edges: seq<Edge>, e: Edge)
    requires e in edges
    ensures Leads(edges, e.source, e.target)
  {
    var i :| 0 <= i < |edges| && edges[i] == e;
  }

  lemma PathInside(edges: seq<Edge>, body: set<string>, path: seq<string>)
    requires IsPath(edges, path) && forall k :: 0 <= k < |path| ==> path[k] in body
    ensures IsPath(EdgesIn(edges, body), path)
  {
    forall i | 0 <= i < |path| - 1 ensures Leads(EdgesIn(edges, body), path[i], path[i + 1]) {
      assert Leads(edges, path[i], path[i + 1]);
      var j :| 0 <= j < |edges| && edges[j].source == path[i] && edges[j].target == path[i + 1];
      EdgesInAre(edges, body, edges[j]);
      LeadsBy(EdgesIn(edges, body), edges[j]);
    }
  }

  // ---- one lane run an item -----------------------------------------------------------------------------------

  const HARD_MAX_ITEMS := 10_000

  /** An item whose lane failed, and why. */
  datatype Failed = Failed(index: nat, item: Json, reason: Reason)

  /** What `done` carries: a result is absent where the item's lane failed. */
  datatype Aggregate = Aggregate(items: seq<Json>, results: seq<Option<map<string, Json>>>, failures: seq<Failed>, count: nat)

  datatype LoopOutcome =
    | Aggregated(value: Aggregate)
    | EmptyLane
    | BadCap
    | TooMany
    | LanePaused(reason: Reason)

  /** The item put on one entry edge's handle. */
  function Seeded(seeds: map<string, Fields>, e: Edge, item: Json): map<string, Fields> {
    seeds[e.target := Insert(if e.target in seeds then seeds[e.target] else [], e.TargetPort(), item)]
  }

  /** The item on the handle of every entry edge. */
  function LaneSeeds(entries: seq<Edge>, item: Json): map<string, Fields> {
    if entries == [] then map[]
    else Seeded(LaneSeeds(entries[..|entries| - 1], item), entries[|entries| - 1], item)
  }

  method SeedLane(entries: seq<Edge>, item: Json) returns (seeds: map<string, Fields>)
    ensures seeds == LaneSeeds(entries, item)
  {
    hide Seeded;
    seeds := map[];
    for i := 0 to |entries|
      invariant seeds == LaneSeeds(entries[..i], item)
    {
      assert entries[..i + 1][..i] == entries[..i];
      seeds := Seeded(seeds, entries[i], item);
    }
    assert entries[..|entries|] == entries;
  }

  /** The lane's own run: the same kinds and executors, but no node bindings, and nothing resumed. */
  function LaneSetup(s: Setup, lane: Lane, item: Json): Setup {
    Setup(lane.graph, s.kinds, s.otherKinds, s.configPorts, s.registry.(byNode := map[]), s.run,
      LaneSeeds(lane.entries, item), map[])
  }

  /** What the lane means for one item. */
  ghost function ItemMeaning(s: Setup, lane: Lane, item: Json): Verdicts
    requires Sortable(lane.graph)
  {
    Meaning(LaneSetup(s, lane, item))
  }

  /** The lane stops for this reason on this item: that of the first node to halt. */
  ghost predicate ItemStops(s: Setup, lane: Lane, item: Json, reason: Reason)
    requires Sortable(lane.graph)
  {
    HaltsFirst(LaneSetup(s, lane, item), ItemMeaning(s, lane, item), reason)
  }

  /** The item's slot of the aggregate: its outputs, or nothing and one failure. */
  ghost predicate ItemRecorded(
      s: Setup, lane: Lane, items: seq<Json>, results: seq<Option<map<string, Json>>>, failures: seq<Failed>, i: nat)
    requires Sortable(lane.graph) && i < |items| && i < |results|
  {
    var m := ItemMeaning(s, lane, items[i]);
    && (results[i].Some? <==> AbortFree(m))
    && (results[i].Some? ==> results[i].value == OutputsOf(m))
    && (results[i].None? <==> exists k :: 0 <= k < |failures| && failures[k].index == i)
  }

  /** Each failure, in order of the items, with its item and the reason the item's lane stopped for. */
  ghost predicate FailuresFit(s: Setup, lane: Lane, items: seq<Json>, failures: seq<Failed>, n: nat)
    requires Sortable(lane.graph)
  {
    && n <= |items|
    && (forall k :: 0 <= k < |failures| ==> failures[k].index < n && failures[k].item == items[failures[k].index])
    && (forall j, k :: 0 <= j < k < |failures| ==> failures[j].index < failures[k].index)
    && (forall k :: 0 <= k < |failures| ==>
          !failures[k].reason.Pause? && ItemStops(s, lane, items[failures[k].index], failures[k].reason))
  }

  /** Every item before the `n`th has its slot, and every failure its item. */
  ghost predicate Recorded(
      s: Setup, lane: Lane, items: seq<Json>, results: seq<Option<map<string, Json>>>, failures: seq<Failed>, n: nat)
    requires Sortable(lane.graph)
  {
    && n <= |items| && |results| == n && FailuresFit(s, lane, items, failures, n)
    && forall i {:trigger ItemRecorded(s, lane, items, results, failures, i)} ::
         0 <= i < n ==> ItemRecorded(s, lane, items, results, failures, i)
  }

  lemma RecordDone(
      s: Setup, lane: Lane, items: seq<Json>, results: seq<Option<map<string, Json>>>, failures: seq<Failed>,
      outputs: map<string, Json>)
    requires Sortable(lane.graph) && |results| < |items| && Recorded(s, lane, items, results, failures, |results|)
    requires var m := ItemMeaning(s, lane, items[|results|]); AbortFree(m) && outputs == OutputsOf(m)
    ensures Recorded(s, lane, items, results + [Some(outputs)], failures, |results| + 1)
  {
    hide ItemMeaning, Sortable, AbortFree, ItemStops;
    var more, n := results + [Some(outputs)], |results|;
    forall i | 0 <= i < n + 1 ensures ItemRecorded(s, lane, items, more, failures, i) {
      if i < n { assert ItemRecorded(s, lane, items, results, failures, i); }
    }
  }

  lemma RecordFailed(
      s: Setup, lane: Lane, items: seq<Json>, results: seq<Option<map<string, Json>>>, failures: seq<Failed>,
      reason: Reason)
    requires Sortable(lane.graph) && |results| < |items| && Recorded(s, lane, items, results, failures, |results|)
    requires !AbortFree(ItemMeaning(s, lane, items[|results|])) && !reason.Pause?
    requires ItemStops(s, lane, items[|results|], reason)
    ensures var n := |results|;
      Recorded(s, lane, items, results + [None], failures + [Failed(n, items[n], reason)], n + 1)
  {
    hide ItemMeaning, Sortable, AbortFree, ItemStops;
    var n := |results|;
    var more, worse := results + [None], failures + [Failed(n, items[n], reason)];
    assert worse[|failures|].index == n;
    forall i | 0 <= i < n + 1 ensures ItemRecorded(s, lane, items, more, worse, i) {
      if i < n {
        assert ItemRecorded(s, lane, items, results, failures, i);
        if k :| 0 <= k < |failures| && failures[k].index == i { assert worse[k].index == i; }
      }
    }
  }

  /** Some item's lane stops on a pause, and every item before it has its slot. */
  ghost predicate PausesAt(s: Setup, lane: Lane, items: seq<Json>, reason: Reason)
    requires Sortable(lane.graph)
  {
    reason.Pause? && exists results, failures {:trigger Recorded(s, lane, items, results, failures, |results|)} ::
      && |results| < |items| && Recorded(s, lane, items, results, failures, |results|)
      && ItemStops(s, lane, items[|results|], reason)
  }

  lemma PauseHere(
      s: Setup, lane: Lane, items: seq<Json>, results: seq<Option<map<string, Json>>>, failures: seq<Failed>,
      reason: Reason)
    requires Sortable(lane.graph) && |results| < |items| && Recorded(s, lane, items, results, failures, |results|)
    requires reason.Pause? && ItemStops(s, lane, items[|results|], reason)
    ensures PausesAt(s, lane, items, reason)
  {
  }

  /**
   * Run the lane once an item and aggregate. A pause stops the loop; a lane that merely fails is recorded and the
   * loop goes on. Each result is what the lane means for its item, absent exactly where the lane fails.
   */
  method ForEach(s: Setup, lane: Lane, items: seq<Json>, maxItems: Option<int>) returns (r: LoopOutcome)
    requires UniqueIds(lane.graph) && KeySafe(lane.graph) && Sortable(lane.graph)
    ensures r.EmptyLane? <==> lane.graph.nodes == []
    ensures r.BadCap? <==> lane.graph.nodes != [] && (maxItems.None? || !(1 <= maxItems.value <= HARD_MAX_ITEMS))
    ensures r.TooMany? <==>
      lane.graph.nodes != [] && maxItems.Some? && 1 <= maxItems.value <= HARD_MAX_ITEMS && |items| > maxItems.value
    ensures r.Aggregated? ==>
      && r.value.items == items && r.value.count == |items|
      && Recorded(s, lane, items, r.value.results, r.value.failures, |items|)
    ensures r.LanePaused? ==> PausesAt(s, lane, items, r.reason)
  {
    hide ItemStops, FailuresFit, Meaning, Sortable, Reports, AbortFree, KeySafe, Recorded, ItemMeaning;
    if lane.graph.nodes == [] {
      return EmptyLane;
    }
    if maxItems.None? || !(1 <= maxItems.value <= HARD_MAX_ITEMS) {
      return BadCap;
    }
    if |items| > maxItems.value {
      return TooMany;
    }
    var results: seq<Option<map<string, Json>>>, failures: seq<Failed> := [], [];
    NothingRecorded(s, lane, items);
    while |results| < |items|
      invariant |results| <= |items| && Recorded(s, lane, items, results, failures, |results|)
      decreases |items| - |results|
    {
      var index := |results|;
      var nested := RunItem(s, lane, items[index]);
      if nested.ok {
        RecordDone(s, lane, items, results, failures, nested.outputs);
        results := results + [Some(nested.outputs)];
        continue;
      }
      var reason := if nested.error.Some? then nested.error.value else Failure("unknown error");
      if reason.Pause? {
        PauseHere(s, lane, items, results, failures, reason);
        return LanePaused(reason);
      }
      RecordFailed(s, lane, items, results, failures, reason);
      results := results + [None];
      failures := failures + [Failed(index, items[index], reason)];
    }
    r := Aggregated(Aggregate(items, results, failures, |items|));
  }

  lemma NothingRecorded(s: Setup, lane: Lane, items: seq<Json>)
    requires Sortable(lane.graph)
    ensures Recorded(s, lane, items, [], [], 0)
  {
  }

  method RunItem(s: Setup, lane: Lane, item: Json) returns (nested: RunResult)
    requires UniqueIds(lane.graph) && KeySafe(lane.graph) && Sortable(lane.graph)
    ensures nested.ok <==> AbortFree(ItemMeaning(s, lane, item))
    ensures nested.ok ==> nested.outputs == OutputsOf(ItemMeaning(s, lane, item))
    ensures !nested.ok ==> nested.error.Some? && ItemStops(s, lane, item, nested.error.value)
  {
    hide HaltsFirst, InKahnOrder, Meaning, Sortable, Reports, AbortFree, KeySafe;
    var seeds := SeedLane(lane.entries, item);
    var t := Setup(lane.graph, s.kinds, s.otherKinds, s.configPorts, s.registry.(byNode := map[]), s.run, seeds, map[]);
    assert t == LaneSetup(s, lane, item);
    ghost var order, stop;
    nested, order, stop := Run(t);
    RunMeans(t, Meaning(t), order, stop, nested);
    if !nested.ok { ErrorIsFirst(t, Meaning(t), order, stop, nested); }
  }

  /** A result is absent exactly where one failure, and no other, carries its index. */
  lemma AbsentIffOneFailure(
      s: Setup, lane: Lane, items: seq<Json>, results: seq<Option<map<string, Json>>>, failures: seq<Failed>, i: nat)
    requires Sortable(lane.graph) && Recorded(s, lane, items, results, failures, |items|) && i < |items|
    ensures results[i].None? <==>
      exists k :: 0 <= k < |failures| && failures[k].index == i
                  && forall l :: 0 <= l < |failures| && l != k ==> failures[l].index != i
  {
    hide ItemMeaning, Sortable, AbortFree, ItemStops;
    assert ItemRecorded(s, lane, items, results, failures, i);
    if k :| 0 <= k < |failures| && failures[k].index == i {
      forall l | 0 <= l < |failures| && l != k ensures failures[l].index != i {
        assert l < k ==> failures[l].index < failures[k].index;
        assert k < l ==> failures[k].index < failures[l].index;
      }
    }
  }
}

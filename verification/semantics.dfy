/** What a run means: one verdict a node, and no order of execution. */
module Semantics {
  import opened Wrappers
  import opened Values
  import opened Schema
  import opened Activation
  import opened Topology

  /** Why a run stopped: the error text, as far as anything in the engine reads it. */
  datatype Reason =
    | Pause(node: string, awaiting: string)   // decodes as a human pause on `node`
    | Boundary                                // the text older runtimes abort a fenced replay with
    | Cycle
    | NoExecutor(kind: Option<string>)
    | Failure(text: string)                   // anything else

  datatype Outcome = Value(value: Json) | Aborted(reason: Reason)

  /** What a binding points at: a host's executor, or the fence a replay puts round other nodes. */
  datatype Executor = Host(name: string) | Fence

  /** Bindings by node id, by every id a kind answers to, and the `*` fallback. */
  datatype Registry = Registry(byNode: map<string, Executor>, byKind: map<string, Executor>, fallback: Option<Executor>)

  /** A node-id binding outranks every kind binding, and those the fallback. */
  function Resolve(registry: Registry, node: Node): Option<Executor> {
    if node.id in registry.byNode then Some(registry.byNode[node.id])
    else if node.kind.Some? && node.kind.value in registry.byKind then Some(registry.byKind[node.kind.value])
    else registry.fallback
  }

  datatype Setup = Setup(
    graph: Graph,
    /** The runner's own catalogue. */
    kinds: Catalogue,
    /** The executor registry's catalogue, then the built-in one. */
    otherKinds: Catalogue,
    /** The ports a node derives from its own config, for the kinds that do. */
    configPorts: map<string, seq<string>>,
    registry: Registry,
    /** A host executor answers from the node and its inputs. */
    run: (string, Node, Fields) -> Outcome,
    seeds: map<string, Fields>,
    resume: map<string, Json>)

  /** A port no edge reads. */
  const FENCE_PORT := "fancy-flow:fenced"

  function Call(s: Setup, executor: Executor, node: Node, inputs: Fields): Outcome {
    match executor
    case Host(name) => s.run(name, node, inputs)
    case Fence => Value(Only(FENCE_PORT, Null))
  }

  datatype Verdict =
    | Dark                    // no incoming edge was active
    | Visual(text: string)   // reached, and walked straight past
    | Ran(value: Json)
    | Halted(reason: Reason)

  type Verdicts = map<string, Verdict>

  // ---- one node -----------------------------------------------------------------------------------

  /** What a node with this verdict puts on its ports, in publication order. */
  function Publishes(s: Setup, node: Node, v: Verdict): Fields {
    if v.Ran? then Publications(s.kinds, node, v.value) else []
  }

  /** A node without a verdict is as good as dark. */
  function At(m: Verdicts, id: string): Verdict {
    if id in m then m[id] else Dark
  }

  function PublishedBy(s: Setup, m: Verdicts, id: string): Fields {
    match Find(s.graph.nodes, id)
    case None => []
    case Some(node) => Publishes(s, node, At(m, id))
  }

  /** What an edge delivers. */
  function Arrival(s: Setup, m: Verdicts, e: Edge): Option<Json> {
    Get(PublishedBy(s, m, e.source), e.SourcePort())
  }

  function Arrivals(s: Setup, m: Verdicts, edges: seq<Edge>): (r: seq<Option<Json>>)
    ensures |r| == |edges| && forall i :: 0 <= i < |r| ==> r[i] == Arrival(s, m, edges[i])
  {
    seq(|edges|, i requires 0 <= i < |edges| => Arrival(s, m, edges[i]))
  }

  /** Each active edge in turn writes its target port over what was there. */
  function Gather(inputs: Fields, edges: seq<Edge>, arrived: seq<Option<Json>>): Fields
    requires |edges| == |arrived|
  {
    if edges == [] then inputs
    else
      var n := |edges| - 1;
      var front := Gather(inputs, edges[..n], arrived[..n]);
      if arrived[n].Some? then Insert(front, edges[n].TargetPort(), arrived[n].value) else front
  }

  function Seed(s: Setup, id: string): Fields {
    if id in s.seeds then s.seeds[id] else []
  }

  predicate NoneArrived(arrived: seq<Option<Json>>) {
    forall i :: 0 <= i < |arrived| ==> arrived[i].None?
  }

  /** The verdict on a node, given what its incoming edges deliver. */
  function Decide(s: Setup, node: Node, edges: seq<Edge>, arrived: seq<Option<Json>>): Verdict
    requires |edges| == |arrived|
  {
    if node.id in s.resume then Ran(s.resume[node.id])
    else if edges != [] && NoneArrived(arrived) then Dark
    else if VisualOnly(s.kinds, node).Some? then Visual(VisualOnly(s.kinds, node).value)
    else
      var executor := Resolve(s.registry, node);
      if executor.None? then Halted(NoExecutor(node.kind))
      else
        match Call(s, executor.value, node, Gather(Seed(s, node.id), edges, arrived))
        case Value(value) => Ran(value)
        case Aborted(reason) => Halted(reason)
  }

  function Judge(s: Setup, node: Node, m: Verdicts): Verdict {
    Decide(s, node, Incoming(s.graph, node.id), Arrivals(s, m, Incoming(s.graph, node.id)))
  }

  /** The node has no incoming edge, or at least one that delivers. */
  predicate Reached(s: Setup, m: Verdicts, id: string) {
    Incoming(s.graph, id) == [] || !NoneArrived(Arrivals(s, m, Incoming(s.graph, id)))
  }

  /**
   * `m` gives every node the verdict its own sources' verdicts call for. A solution of these equations exists for every
   * graph that can be sorted, and there is only one.
   */
  ghost predicate Solves(s: Setup, m: Verdicts) {
    && m.Keys == Ids(s.graph)
    && forall node {:trigger Judge(s, node, m)} :: node in s.graph.nodes ==> At(m, node.id) == Judge(s, node, m)
  }

  // ---- inputs -------------------------------------------------------------------------------------

  /** Among the edges into one handle the last active one in document order decides. */
  lemma {:induction false} LastActiveEdgeWins(
      inputs: Fields, edges: seq<Edge>, arrived: seq<Option<Json>>, j: nat)
    requires |edges| == |arrived| && j < |edges| && arrived[j].Some?
    requires forall k :: j < k < |edges| && arrived[k].Some? ==> edges[k].TargetPort() != edges[j].TargetPort()
    ensures Get(Gather(inputs, edges, arrived), edges[j].TargetPort()) == arrived[j]
  {
    var n := |edges| - 1;
    if j < n {
      LastActiveEdgeWins(inputs, edges[..n], arrived[..n], j);
    }
  }

  /** A handle no active edge writes keeps its seeded value: dead edges overwrite nothing. */
  lemma {:induction false} DeadEdgesWriteNothing(
      inputs: Fields, edges: seq<Edge>, arrived: seq<Option<Json>>, port: string)
    requires |edges| == |arrived|
    requires forall k :: 0 <= k < |edges| && arrived[k].Some? ==> edges[k].TargetPort() != port
    ensures Get(Gather(inputs, edges, arrived), port) == Get(inputs, port)
  {
    if edges != [] {
      var n := |edges| - 1;
      DeadEdgesWriteNothing(inputs, edges[..n], arrived[..n], port);
    }
  }

  // ---- one solution -------------------------------------------------------------------------------

  /** Verdicts that agree on a node's sources agree on the node. */
  lemma SameSources(s: Setup, a: Verdicts, b: Verdicts, node: Node)
    requires forall e :: e in s.graph.edges && e.target == node.id ==> Arrival(s, a, e) == Arrival(s, b, e)
    ensures Judge(s, node, a) == Judge(s, node, b)
  {
    var edges := Incoming(s.graph, node.id);
    IntoMembers(s.graph.edges, node.id);
    assert Arrivals(s, a, edges) == Arrivals(s, b, edges);
  }

  /** A solution as far as the first `k` nodes of an order. */
  ghost predicate SolvesUpTo(s: Setup, order: seq<Node>, k: nat, m: Verdicts)
    requires k <= |order|
  {
    && (forall id :: id in m <==> Placed(order, k, id))
    && forall j {:trigger Judge(s, order[j], m)} :: 0 <= j < k ==> At(m, order[j].id) == Judge(s, order[j], m)
  }

  /** Verdicts added later do not disturb a node already judged. */
  lemma JudgedAlike(s: Setup, order: seq<Node>, k: nat, a: Verdicts, b: Verdicts, j: nat)
    requires VisitOrder(s.graph, order) && k < |order| && j <= k
    requires forall id :: Placed(order, k, id) ==> At(a, id) == At(b, id)
    ensures Judge(s, order[j], a) == Judge(s, order[j], b)
  {
    hide Judge, Publishes;
    forall e | e in s.graph.edges && e.target == order[j].id ensures Arrival(s, a, e) == Arrival(s, b, e) {
      assert Placed(order, j, e.source);
      assert Placed(order, k, e.source);
    }
    SameSources(s, a, b, order[j]);
  }

  lemma ExtendSolution(s: Setup, order: seq<Node>, k: nat, m: Verdicts)
    requires VisitOrder(s.graph, order) && k < |order| && SolvesUpTo(s, order, k, m)
    ensures SolvesUpTo(s, order, k + 1, m[order[k].id := Judge(s, order[k], m)])
  {
    hide Judge;
    var longer := m[order[k].id := Judge(s, order[k], m)];
    NotPlacedYet(s.graph, order, k);
    forall j | 0 <= j <= k ensures At(longer, order[j].id) == Judge(s, order[j], longer) {
      JudgedAlike(s, order, k, m, longer, j);
      assert j < k ==> At(m, order[j].id) == Judge(s, order[j], m) && Placed(order, k, order[j].id);
    }
    forall id ensures id in longer <==> Placed(order, k + 1, id) {
      PlacedStep(order, k + 1, id);
    }
  }

  lemma {:induction false} SolutionUpTo(s: Setup, order: seq<Node>, k: nat) returns (m: Verdicts)
    requires VisitOrder(s.graph, order) && k <= |order|
    ensures SolvesUpTo(s, order, k, m)
  {
    hide Judge, VisitOrder;
    m := map[];
    if k > 0 {
      var front := SolutionUpTo(s, order, k - 1);
      ExtendSolution(s, order, k - 1, front);
      m := front[order[k - 1].id := Judge(s, order[k - 1], front)];
    }
  }

  /** A graph that can be sorted has a solution. */
  lemma SolutionExists(s: Setup)
    requires Sortable(s.graph)
    ensures exists m :: Solves(s, m)
  {
    hide Judge;
    var g := s.graph;
    var order := VisitOrderExists(g);
    var m := SolutionUpTo(s, order, |order|);
    forall node | node in g.nodes ensures At(m, node.id) == Judge(s, node, m) {
      var k := VisitedAt(g, order, node);
      assert At(m, order[k].id) == Judge(s, order[k], m);
    }
    forall id ensures id in m <==> id in Ids(g) {
      PlacedIds(g, order, id);
    }
    assert Solves(s, m);
  }

  /** And no second one, whatever the order of its nodes or of the argument. */
  lemma SolutionUnique(s: Setup, a: Verdicts, b: Verdicts)
    requires Sortable(s.graph) && Solves(s, a) && Solves(s, b)
    ensures a == b
  {
    hide Judge;
    var order := VisitOrderExists(s.graph);
    forall id | id in a ensures a[id] == b[id] {
      PlacedIds(s.graph, order, id);
      var k :| 0 <= k < |order| && order[k].id == id;
      SolutionUniqueAt(s, a, b, order, k);
    }
  }

  lemma {:induction false} SolutionUniqueAt(s: Setup, a: Verdicts, b: Verdicts, order: seq<Node>, k: nat)
    requires VisitOrder(s.graph, order) && Solves(s, a) && Solves(s, b) && k < |order|
    ensures At(a, order[k].id) == At(b, order[k].id)
    decreases k
  {
    hide Judge, Publishes;
    NodeInGraph(s.graph, order, k);
    forall e | e in s.graph.edges && e.target == order[k].id ensures Arrival(s, a, e) == Arrival(s, b, e) {
      assert Placed(order, k, e.source);
      var j :| 0 <= j < k && order[j].id == e.source;
      SolutionUniqueAt(s, a, b, order, j);
    }
    SameSources(s, a, b, order[k]);
    assert At(a, order[k].id) == Judge(s, order[k], a) && At(b, order[k].id) == Judge(s, order[k], b);
  }

  /** The meaning of a run: the one solution. */
  ghost function Meaning(s: Setup): (m: Verdicts)
    requires Sortable(s.graph)
    ensures Solves(s, m)
  {
    SolutionExists(s);
    var m :| Solves(s, m);
    m
  }

  /** What a finished run reports: every node that ran, and its value. */
  ghost function OutputsOf(m: Verdicts): map<string, Json> {
    map id | id in m && m[id].Ran? :: m[id].value
  }

  ghost predicate AbortFree(m: Verdicts) {
    forall id :: id in m ==> !m[id].Halted?
  }

  /**
   * The resume law. Feeding back any part of what a run put out changes no verdict, so the resumed run means
   * what the first one did; a resumed node's verdict no longer depends on any executor.
   */
  lemma ResumeLaw(s: Setup, resume: map<string, Json>)
    requires Sortable(s.graph) && s.resume == map[]
    requires forall id :: id in resume ==>
      id in OutputsOf(Meaning(s)) && resume[id] == OutputsOf(Meaning(s))[id]
    ensures Meaning(s.(resume := resume)) == Meaning(s)
  {
    var m, t := Meaning(s), s.(resume := resume);
    forall node | node in s.graph.nodes ensures At(m, node.id) == Judge(t, node, m) {
      assert At(m, node.id) == Judge(s, node, m);
      if node.id !in resume { ResumeElsewhere(s, resume, node, m); }
    }
    SolutionUnique(t, Meaning(t), m);
  }

  /** A node that is not resumed is judged as before. */
  lemma ResumeElsewhere(s: Setup, resume: map<string, Json>, node: Node, m: Verdicts)
    requires s.resume == map[] && node.id !in resume
    ensures Judge(s.(resume := resume), node, m) == Judge(s, node, m)
  {
    hide Publishes, Into, VisualOnly, Gather;
    var t, edges := s.(resume := resume), Incoming(s.graph, node.id);
    forall i | 0 <= i < |edges| ensures Arrivals(t, m, edges)[i] == Arrivals(s, m, edges)[i] {
      PublishesAlike(s, t, m, edges[i].source);
    }
    assert Arrivals(t, m, edges) == Arrivals(s, m, edges);
  }

  /** What a node publishes depends on the graph and the runner's catalogue only. */
  lemma PublishesAlike(s: Setup, t: Setup, m: Verdicts, id: string)
    requires s.graph == t.graph && s.kinds == t.kinds
    ensures PublishedBy(s, m, id) == PublishedBy(t, m, id)
  {
  }
}

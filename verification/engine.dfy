/** The graph walk, as the state machine every driver steps, and the runner that drives it. */
module Engine {
  import opened Wrappers
  import opened Values
  import opened Schema
  import opened Activation
  import opened Topology
  import opened Semantics
  import opened Diagnostics
  import Kahn

  // ---- what the walk has recorded after the first k nodes of its order -------------------------------

  /** Each publication in turn under the node's key for its port. */
  ghost function PutAll(store: map<string, Json>, id: string, published: Fields): map<string, Json> {
    if published == [] then store
    else
      var n := |published| - 1;
      PutAll(store, id, published[..n])[PortKey(id, published[n].0) := published[n].1]
  }

  ghost function Lit(s: Setup, m: Verdicts, order: seq<Node>, k: nat): map<string, Json>
    requires k <= |order|
  {
    if k == 0 then map[]
    else
      var node := order[k - 1];
      PutAll(Lit(s, m, order, k - 1), node.id, Publishes(s, node, At(m, node.id)))
  }

  ghost function Outs(m: Verdicts, order: seq<Node>, k: nat): map<string, Json>
    requires k <= |order|
  {
    if k == 0 then map[]
    else
      var id := order[k - 1].id;
      if At(m, id).Ran? then Outs(m, order, k - 1)[id := At(m, id).value] else Outs(m, order, k - 1)
  }

  function OutputAll(log: Log, id: string, published: Fields): Log {
    if published == [] then log
    else
      var n := |published| - 1;
      Then(OutputAll(log, id, published[..n]), NodeOutput(id, published[n].0, published[n].1))
  }

  /** A finished node's events: its publications, then its closing status. */
  function PublishAll(log: Log, id: string, published: Fields, resumed: bool): Log {
    Then(OutputAll(log, id, published), NodeStatus(id, Done(resumed)))
  }

  /** The log once a node is about to execute. */
  function Started(s: Setup, m: Verdicts, log: Log, id: string): Log {
    Then(WarnAll(log, NodeWarnings(s, m, id)), NodeStatus(id, Running))
  }

  /** Everything the walk emits about one node. */
  function Emit(s: Setup, m: Verdicts, log: Log, node: Node): Log {
    var id := node.id;
    if id in s.resume then PublishAll(log, id, Publishes(s, node, At(m, id)), true)
    else
      match At(m, id)
      case Dark => Then(WarnAll(log, NodeWarnings(s, m, id)), NodeStatus(id, Idle("skipped")))
      case Visual(text) => Then(WarnAll(log, NodeWarnings(s, m, id)), NodeStatus(id, Idle(text)))
      case Ran(_) => PublishAll(Started(s, m, log, id), id, Publishes(s, node, At(m, id)), false)
      case Halted(reason) =>
        Then(Then(Started(s, m, log, id), NodeStatus(id, Errored(reason))), ErrorLog(id, reason))
  }

  ghost function History(s: Setup, m: Verdicts, order: seq<Node>, k: nat): Log
    requires k <= |order|
  {
    if k == 0 then Then(Empty, RunStart) else Emit(s, m, History(s, m, order, k - 1), order[k - 1])
  }

  // ---- reading a stored value back ------------------------------------------------------------------

  lemma {:induction false} PutAllKey(store: map<string, Json>, id: string, published: Fields, port: string)
    requires forall i :: 0 <= i < |published| ==> Get(published, published[i].0) == Some(published[i].1)
    ensures var key := PortKey(id, port);
      var after := PutAll(store, id, published);
      && (key in after <==> key in store || Get(published, port).Some?)
      && (Get(published, port).Some? ==> Some(after[key]) == Get(published, port))
      && (key in store && Get(published, port).None? ==> after[key] == store[key])
  {
    PutAllUpTo(store, id, published, |published|, port);
    assert published[..|published|] == published;
  }

  lemma {:induction false} PutAllUpTo(store: map<string, Json>, id: string, published: Fields, k: nat, port: string)
    requires k <= |published|
    requires forall i :: 0 <= i < |published| ==> Get(published, published[i].0) == Some(published[i].1)
    ensures var key := PortKey(id, port);
      var after := PutAll(store, id, published[..k]);
      && (key in after <==> key in store || exists i :: 0 <= i < k && published[i].0 == port)
      && ((exists i :: 0 <= i < k && published[i].0 == port) ==> Some(after[key]) == Get(published, port))
      && (key in store && (forall i :: 0 <= i < k ==> published[i].0 != port) ==> after[key] == store[key])
  {
    if k > 0 {
      PutAllUpTo(store, id, published, k - 1, port);
      assert published[..k][..k - 1] == published[..k - 1];
      SameNodeKey(id, published[k - 1].0, port);
    }
  }

  lemma SameNodeKey(id: string, p: string, q: string)
    ensures PortKey(id, p) == PortKey(id, q) <==> p == q
  {
    assert PortKey(id, p)[|id| + 1..] == p && PortKey(id, q)[|id| + 1..] == q;
  }

  lemma {:induction false} PutAllOther(store: map<string, Json>, id: string, published: Fields, key: string)
    requires forall port :: key != PortKey(id, port)
    ensures key in PutAll(store, id, published) <==> key in store
    ensures key in store ==> PutAll(store, id, published)[key] == store[key]
  {
    if published != [] {
      PutAllOther(store, id, published[..|published| - 1], key);
    }
  }

  /** What `stored` has under one node's key for one port. */
  ghost predicate HoldsFor(stored: map<string, Json>, id: string, port: string, value: Option<Json>) {
    var key := PortKey(id, port);
    (if key in stored then Some(stored[key]) else None) == value
  }

  /** Under its own key a visited node's publication is there, and nothing else ever is. */
  lemma {:induction false} LitKey(s: Setup, m: Verdicts, order: seq<Node>, k: nat, i: nat, port: string)
    requires KeySafe(s.graph) && VisitOrder(s.graph, order) && k <= |order| && i < |order|
    ensures HoldsFor(Lit(s, m, order, k), order[i].id, port,
              if i < k then Get(Publishes(s, order[i], At(m, order[i].id)), port) else None)
  {
    if k > 0 {
      var node, last := order[i], order[k - 1];
      var published := Publishes(s, last, At(m, last.id));
      LitKey(s, m, order, k - 1, i, port);
      if k - 1 == i {
        PublishedConsistent(s, last, At(m, last.id));
        PutAllKey(Lit(s, m, order, k - 1), last.id, published, port);
      } else {
        OtherNodeKey(s.graph, order, i, port, k - 1);
        PutAllOther(Lit(s, m, order, k - 1), last.id, published, PortKey(node.id, port));
      }
    }
  }

  lemma OtherNodeKey(g: Graph, order: seq<Node>, i: nat, port: string, j: nat)
    requires KeySafe(g) && VisitOrder(g, order) && i < |order| && j < |order| && i != j
    ensures forall p :: PortKey(order[i].id, port) != PortKey(order[j].id, p)
  {
    assert !SameVisit(order, i, j);
    assert InGraph(g, order[i]) && InGraph(g, order[j]);
    var x :| 0 <= x < |g.nodes| && g.nodes[x] == order[i];
    var y :| 0 <= y < |g.nodes| && g.nodes[y] == order[j];
    forall p ensures PortKey(order[i].id, port) != PortKey(order[j].id, p) {
      if PortKey(order[i].id, port) == PortKey(order[j].id, p) {
        KeysInjective(g, x, port, y, p);
      }
    }
  }

  lemma PublishedConsistent(s: Setup, node: Node, v: Verdict)
    ensures var p := Publishes(s, node, v);
      forall i :: 0 <= i < |p| ==> Get(p, p[i].0) == Some(p[i].1)
  {
    if v.Ran? {
      forall i | 0 <= i < |Publishes(s, node, v)| {
        PublicationsConsistent(s.kinds, node, v.value, i);
      }
    }
  }

  /** When the walk reaches a node, its stored port values answer for every incoming edge. */
  lemma EdgeAnswer(s: Setup, m: Verdicts, order: seq<Node>, k: nat, i: nat)
    requires UniqueIds(s.graph) && KeySafe(s.graph) && VisitOrder(s.graph, order) && k < |order|
    requires i < |Incoming(s.graph, order[k].id)|
    ensures var e := Incoming(s.graph, order[k].id)[i];
      HoldsFor(Lit(s, m, order, k), e.source, e.SourcePort(), Arrival(s, m, e))
  {
    var e := Incoming(s.graph, order[k].id)[i];
    var j := SourcePlace(s.graph, order, k, i);
    FindVisited(s.graph, order, j);
    LitKey(s, m, order, k, j, e.SourcePort());
  }

  /** The outputs recorded so far are those of the nodes passed that ran. */
  lemma {:induction false} OutsKey(m: Verdicts, order: seq<Node>, k: nat, id: string)
    requires k <= |order|
    ensures id in Outs(m, order, k) <==> Placed(order, k, id) && At(m, id).Ran?
    ensures id in Outs(m, order, k) ==> Outs(m, order, k)[id] == At(m, id).value
  {
    if k > 0 {
      OutsKey(m, order, k - 1, id);
      PlacedStep(order, k, id);
    }
  }

  /** Run through to the end, that is every node that ran. */
  lemma OutsComplete(g: Graph, m: Verdicts, order: seq<Node>)
    requires VisitOrder(g, order) && m.Keys == Ids(g)
    ensures Outs(m, order, |order|) == OutputsOf(m)
  {
    forall id ensures id in Outs(m, order, |order|) <==> id in OutputsOf(m) {
      OutsKey(m, order, |order|, id);
      if id in m { assert Placed(order, |order|, id); }
    }
    forall id | id in OutputsOf(m) ensures Outs(m, order, |order|)[id] == OutputsOf(m)[id] {
      OutsKey(m, order, |order|, id);
    }
  }

  // ---- reading the event stream back ------------------------------------------------------------------

  lemma {:induction false} OutputAllPorts(log: Log, node: string, published: Fields, id: string)
    ensures OutputPorts(OutputAll(log, node, published), id)
         == if node == id then OutputPorts(log, id) + Keys(published) else OutputPorts(log, id)
  {
    if published == [] {
      assert OutputPorts(log, id) + Keys(published) == OutputPorts(log, id);
    } else {
      var n := |published| - 1;
      OutputAllPorts(log, node, published[..n], id);
      Regroup(OutputPorts(log, id), Keys(published[..n]), [published[n].0]);
    }
  }

  lemma {:induction false} OutputAllWarnings(log: Log, node: string, published: Fields, id: string)
    ensures WarningsFor(OutputAll(log, node, published), id) == WarningsFor(log, id)
  {
    if published != [] {
      OutputAllWarnings(log, node, published[..|published| - 1], id);
    }
  }

  lemma StartedReadBack(s: Setup, m: Verdicts, log: Log, node: string, id: string)
    ensures var warned := WarnAll(log, NodeWarnings(s, m, node));
      && OutputPorts(warned, id) == OutputPorts(log, id)
      && WarningsFor(warned, id) == if node == id then WarningsFor(log, id) + NodeWarnings(s, m, id)
                                    else WarningsFor(log, id)
  {
    WarnedTarget(s, node, Incoming(s.graph, node), MeaningAnswers(s, m, Incoming(s.graph, node)));
    WarnAllReadBack(log, NodeWarnings(s, m, node), node, id);
  }

  /** A node's events carry its own publications, and nobody else's. */
  lemma EmitPorts(s: Setup, m: Verdicts, log: Log, node: Node, id: string)
    ensures OutputPorts(Emit(s, m, log, node), id)
         == if node.id == id then OutputPorts(log, id) + Keys(Publishes(s, node, At(m, id))) else OutputPorts(log, id)
  {
    hide NodeWarnings, Publications;
    var published := Publishes(s, node, At(m, node.id));
    StartedReadBack(s, m, log, node.id, id);
    if node.id in s.resume {
      OutputAllPorts(log, node.id, published, id);
    } else if At(m, node.id).Ran? {
      OutputAllPorts(Started(s, m, log, node.id), node.id, published, id);
    } else {
      EmptyRight(OutputPorts(log, id));
      assert published == [] && Keys(published) == [];
      var started := Started(s, m, log, node.id);
      assert OutputPorts(started, id) == OutputPorts(log, id);
      match At(m, node.id)
      case Dark =>
      case Visual(_) =>
      case Halted(reason) =>
        assert OutputPorts(Then(started, NodeStatus(node.id, Errored(reason))), id) == OutputPorts(started, id);
    }
  }

  lemma FreshLog(id: string)
    ensures OutputPorts(Then(Empty, RunStart), id) == [] && WarningsFor(Then(Empty, RunStart), id) == []
  {
  }

  lemma EmptyRight<T>(a: seq<T>)
    ensures a + [] == a && [] + a == a
  {
  }

  /** A node's events carry its own warnings, and nobody else's. */
  lemma EmitWarnings(s: Setup, m: Verdicts, log: Log, node: Node, id: string)
    ensures WarningsFor(Emit(s, m, log, node), id)
         == if node.id == id && id !in s.resume then WarningsFor(log, id) + NodeWarnings(s, m, id)
            else WarningsFor(log, id)
  {
    var published := Publishes(s, node, At(m, node.id));
    StartedReadBack(s, m, log, node.id, id);
    OutputAllWarnings(log, node.id, published, id);
    OutputAllWarnings(Started(s, m, log, node.id), node.id, published, id);
  }

  /** The event stream remembers each visited node's ports, in publication order. */
  lemma {:induction false} HistoryPorts(s: Setup, m: Verdicts, order: seq<Node>, k: nat, i: nat)
    requires Distinct(order) && k <= |order| && i < |order|
    ensures OutputPorts(History(s, m, order, k), order[i].id)
         == if i < k then Keys(Publishes(s, order[i], At(m, order[i].id))) else []
  {
    hide Publishes, Emit, Keys, OutputPorts;
    FreshLog(order[i].id);
    if k > 0 {
      HistoryPorts(s, m, order, k - 1, i);
      EmitPorts(s, m, History(s, m, order, k - 1), order[k - 1], order[i].id);
      assert SameVisit(order, i, k - 1) <==> i == k - 1;
      EmptyRight(Keys(Publishes(s, order[i], At(m, order[i].id))));
    }
  }

  /** And each visited node's warnings, unless it was resumed. */
  lemma {:induction false} HistoryWarnings(s: Setup, m: Verdicts, order: seq<Node>, k: nat, i: nat)
    requires Distinct(order) && k <= |order| && i < |order|
    ensures WarningsFor(History(s, m, order, k), order[i].id)
         == if i < k && order[i].id !in s.resume then NodeWarnings(s, m, order[i].id) else []
  {
    hide NodeWarnings, Emit, WarningsFor;
    FreshLog(order[i].id);
    if k > 0 {
      HistoryWarnings(s, m, order, k - 1, i);
      EmitWarnings(s, m, History(s, m, order, k - 1), order[k - 1], order[i].id);
      assert SameVisit(order, i, k - 1) <==> i == k - 1;
      EmptyRight(NodeWarnings(s, m, order[i].id));
    }
  }

  /** What the walk's own bookkeeping says about an edge's source. */
  function WalkAnswer(e: Edge, portValues: map<string, Json>, outputs: map<string, Json>, events: Log): Answer {
    Answer(e.source in outputs, PortKey(e.source, e.SourcePort()) in portValues, Dedup(OutputPorts(events, e.source)))
  }

  /** At a node the walk's bookkeeping answers for its sources as the whole run's meaning would. */
  lemma WalkAnswersAgree(s: Setup, m: Verdicts, order: seq<Node>, k: nat, i: nat)
    requires UniqueIds(s.graph) && KeySafe(s.graph) && VisitOrder(s.graph, order) && k < |order|
    requires i < |Incoming(s.graph, order[k].id)|
    ensures var e := Incoming(s.graph, order[k].id)[i];
      WalkAnswer(e, Lit(s, m, order, k), Outs(m, order, k), History(s, m, order, k)) == MeaningAnswer(s, m, e)
  {
    var e := Incoming(s.graph, order[k].id)[i];
    var j := SourcePlace(s.graph, order, k, i);
    FindVisited(s.graph, order, j);
    LitKey(s, m, order, k, j, e.SourcePort());
    OutsKey(m, order, k, e.source);
    HistoryPorts(s, m, order, k, j);
    KeysGet(PublishedBy(s, m, e.source), e.SourcePort());
  }

  // ---- verdicts at the cursor -------------------------------------------------------------------------

  /** The executor of `node` is called: it is reached, executable and not resumed. */
  ghost predicate Executes(s: Setup, m: Verdicts, node: Node) {
    && node.id !in s.resume
    && Reached(s, m, node.id)
    && VisualOnly(s.kinds, node).None?
    && Resolve(s.registry, node).Some?
  }

  function InputsOf(s: Setup, m: Verdicts, node: Node): Fields {
    Gather(Seed(s, node.id), Incoming(s.graph, node.id), Arrivals(s, m, Incoming(s.graph, node.id)))
  }

  lemma ExecutesVerdict(s: Setup, m: Verdicts, node: Node)
    requires Solves(s, m) && node in s.graph.nodes && Executes(s, m, node)
    ensures At(m, node.id) == match Call(s, Resolve(s.registry, node).value, node, InputsOf(s, m, node))
                          case Value(value) => Ran(value)
                          case Aborted(reason) => Halted(reason)
  {
    assert At(m, node.id) == Judge(s, node, m);
  }

  lemma GatherStep(inputs: Fields, edges: seq<Edge>, arrived: seq<Option<Json>>, k: nat)
    requires |edges| == |arrived| && k < |edges|
    ensures Gather(inputs, edges[..k + 1], arrived[..k + 1])
         == var front := Gather(inputs, edges[..k], arrived[..k]);
            if arrived[k].Some? then Insert(front, edges[k].TargetPort(), arrived[k].value) else front
  {
    assert edges[..k + 1][..k] == edges[..k] && arrived[..k + 1][..k] == arrived[..k];
  }

  lemma ResumedVerdict(s: Setup, m: Verdicts, node: Node)
    requires Solves(s, m) && node in s.graph.nodes && node.id in s.resume
    ensures At(m, node.id) == Ran(s.resume[node.id])
  {
    assert At(m, node.id) == Judge(s, node, m);
  }

  lemma DarkVerdict(s: Setup, m: Verdicts, node: Node)
    requires Solves(s, m) && node in s.graph.nodes && node.id !in s.resume
    requires !Reached(s, m, node.id)
    ensures At(m, node.id) == Dark
  {
    assert At(m, node.id) == Judge(s, node, m);
  }

  lemma LiveVerdict(s: Setup, m: Verdicts, node: Node)
    requires Solves(s, m) && node in s.graph.nodes && node.id !in s.resume
    requires Reached(s, m, node.id)
    ensures VisualOnly(s.kinds, node).Some? ==> At(m, node.id) == Visual(VisualOnly(s.kinds, node).value)
    ensures VisualOnly(s.kinds, node).None? && Resolve(s.registry, node).None? ==>
      At(m, node.id) == Halted(NoExecutor(node.kind))
  {
    assert At(m, node.id) == Judge(s, node, m);
  }

  // ---- the walk -------------------------------------------------------------------------------------

  datatype State = Walking | AwaitingOutcome | Finished

  datatype RunResult = RunResult(ok: bool, outputs: map<string, Json>, error: Option<Reason>, events: Log)

  /** None of the first `k` nodes halts. */
  ghost predicate NoHalt(m: Verdicts, order: seq<Node>, k: nat) {
    forall j :: 0 <= j < k && j < |order| ==> !At(m, order[j].id).Halted?
  }

  class Walk {
    const s: Setup
    /** The nodes in topological order. */
    const order: seq<Node>
    /** The verdicts the walk is measured against, and whether the graph has an order at all. */
    ghost const m: Verdicts
    ghost const sortable: bool

    var cursor: nat
    var state: State
    var portValues: map<string, Json>
    var outputs: map<string, Json>
    var events: Log
    var error: Option<Reason>

    /** What holds of the graph throughout. */
    ghost predicate WellOrdered() {
      UniqueIds(s.graph) && KeySafe(s.graph) && VisitOrder(s.graph, order)
    }

    /** The first `cursor` nodes are passed, and what they published is recorded. */
    ghost predicate Recorded()
      reads this
    {
      && cursor <= |order| && NoHalt(m, order, cursor)
      && portValues == Lit(s, m, order, cursor)
      && outputs == Outs(m, order, cursor)
    }

    /** What the state says about the node at the cursor, and the events so far. */
    ghost predicate InPhase()
      reads this
      requires cursor <= |order|
    {
      match state
      case Walking => error.None? && events == History(s, m, order, cursor)
      case AwaitingOutcome =>
        && error.None? && cursor < |order| && order[cursor].id !in s.resume
        && events == Started(s, m, History(s, m, order, cursor), order[cursor].id)
      case Finished =>
        if error.None? then cursor == |order| && events == History(s, m, order, cursor)
        else
          && cursor < |order| && At(m, order[cursor].id) == Halted(error.value)
          && events == History(s, m, order, cursor + 1)
    }

    ghost predicate Valid()
      reads this
    {
      if sortable then Recorded() && InPhase()
      else
        && state == Finished && order == [] && cursor == 0 && outputs == map[]
        && error == Some(Cycle) && events == Then(Empty, RunError(Cycle))
    }

    /** Begin a walk. A graph with no order is finished at once, with the error set. */
    constructor (s: Setup, ghost m: Verdicts)
      requires UniqueIds(s.graph)
      ensures Valid() && this.s == s && this.m == m && sortable == Sortable(s.graph)
      ensures state != AwaitingOutcome && (sortable ==> VisitOrder(s.graph, order) && InKahnOrder(s.graph, order))
    {
      this.s, this.m, this.sortable := s, m, Sortable(s.graph);
      cursor, portValues, outputs := 0, map[], map[];
      Kahn.UniqueEnds(s.graph);
      var sorted := Kahn.TopoSort(s.graph);
      if sorted.Some? {
        TopoVisits(s.graph, sorted.value);
        VisitsIds(s.graph, sorted.value);
        var order := InOrder(s.graph, sorted.value);
        this.order := order;
        state, events, error := Walking, Then(Empty, RunStart), None;
      } else {
        this.order := [];
        state, events, error := Finished, Then(Empty, RunError(Cycle)), Some(Cycle);
      }
    }

    /** A node has its value: keep it as output, put it on the ports it lights, and say so in the events. */
    method Publish(node: Node, result: Json, resumed: bool)
      modifies this`outputs, this`portValues, this`events
      ensures outputs == old(outputs)[node.id := result]
      ensures portValues == PutAll(old(portValues), node.id, Publications(s.kinds, node, result))
      ensures events == PublishAll(old(events), node.id, Publications(s.kinds, node, result), resumed)
    {
      outputs := outputs[node.id := result];
      var activated := ActivatedPorts(s.kinds, node, result);
      ghost var published := Publications(s.kinds, node, result);
      for i := 0 to |activated.ports|
        invariant portValues == PutAll(old(portValues), node.id, published[..i])
        invariant events == OutputAll(old(events), node.id, published[..i])
        invariant outputs == old(outputs)[node.id := result]
      {
        var port := activated.ports[i];
        // The port's own payload when there is one, read by key presence, else the shared value.
        var carried := Carried(activated, port);
        portValues := portValues[PortKey(node.id, port) := carried];
        events := Then(events, NodeOutput(node.id, port, carried));
        assert published[..i + 1][..i] == published[..i];
      }
      assert published[..|published|] == published;
      events := Then(events, NodeStatus(node.id, Done(resumed)));
    }

    /** What the bookkeeping so far says about each edge's source. */
    method Answers(incoming: seq<Edge>) returns (run: seq<Answer>)
      requires WellOrdered() && sortable && Recorded() && cursor < |order|
      requires incoming == Incoming(s.graph, order[cursor].id)
      requires events == History(s, m, order, cursor)
      ensures run == MeaningAnswers(s, m, incoming)
    {
      run := [];
      for i := 0 to |incoming|
        invariant run == MeaningAnswers(s, m, incoming[..i])
      {
        WalkAnswersAgree(s, m, order, cursor, i);
        MeaningAnswersStep(s, m, incoming, i);
        var answer := WalkAnswer(incoming[i], portValues, outputs, events);
        assert answer == MeaningAnswer(s, m, incoming[i]);
        run := run + [answer];
      }
      assert incoming[..|incoming|] == incoming;
    }

    /** Warn against the node at the cursor for each inbound edge that can never deliver. */
    method WarnUndelivered(node: Node, incoming: seq<Edge>)
      requires WellOrdered() && sortable && Recorded() && cursor < |order|
      requires node == order[cursor] && incoming == Incoming(s.graph, node.id)
      requires events == History(s, m, order, cursor)
      modifies this`events
      ensures events == WarnAll(old(events), NodeWarnings(s, m, node.id))
    {
      hide VisitOrder, Lit, Outs, History, Warnings, MeaningAnswers, WarnAll, NoHalt, Into;
      var run := Answers(incoming);
      var warnings := UndeliveredEdgeWarnings(s, node.id, incoming, run);
      assert warnings == NodeWarnings(s, m, node.id);
      Raise(warnings);
    }

    /** Append each warning in turn. */
    method Raise(warnings: seq<Warning>)
      modifies this`events
      ensures events == WarnAll(old(events), warnings)
    {
      for i := 0 to |warnings|
        invariant events == WarnAll(old(events), warnings[..i])
      {
        assert warnings[..i + 1][..i] == warnings[..i];
        events := Then(events, Warn(warnings[i]));
      }
      assert warnings[..|warnings|] == warnings;
    }

    /** Some incoming edge's source port was published on. */
    predicate AnyActive(incoming: seq<Edge>)
      reads this
    {
      exists i :: 0 <= i < |incoming| && PortKey(incoming[i].source, incoming[i].SourcePort()) in portValues
    }

    lemma AnyActiveMeans()
      requires WellOrdered() && sortable && Recorded() && cursor < |order|
      ensures var id := order[cursor].id;
        Incoming(s.graph, id) == [] || AnyActive(Incoming(s.graph, id)) <==> Reached(s, m, id)
    {
      var incoming := Incoming(s.graph, order[cursor].id);
      forall i | 0 <= i < |incoming|
        ensures PortKey(incoming[i].source, incoming[i].SourcePort()) in portValues
           <==> Arrivals(s, m, incoming)[i].Some?
      {
        EdgeAnswer(s, m, order, cursor, i);
      }
    }

    /** Walk past the node at the cursor: it is dark or visual only. */
    method PassBy(node: Node, text: string)
      requires sortable && Recorded()
      requires state == Walking && error.None? && cursor < |order| && node == order[cursor]
      requires node.id !in s.resume
      requires At(m, node.id) == Visual(text) || (At(m, node.id) == Dark && text == "skipped")
      requires events == WarnAll(History(s, m, order, cursor), NodeWarnings(s, m, node.id))
      modifies this`events, this`cursor
      ensures Valid() && cursor == old(cursor) + 1
    {
      hide NodeWarnings;
      events := Then(events, NodeStatus(node.id, Idle(text)));
      cursor := cursor + 1;
    }

    /** The node at the cursor stops the run. */
    method Fail(node: Node, reason: Reason)
      requires sortable && Recorded()
      requires error.None? && cursor < |order| && node == order[cursor]
      requires node.id !in s.resume && At(m, node.id) == Halted(reason)
      requires events == Started(s, m, History(s, m, order, cursor), node.id)
      modifies this`events, this`error, this`state
      ensures Valid() && state == Finished && error == Some(reason)
    {
      hide NodeWarnings;
      events := Then(Then(events, NodeStatus(node.id, Errored(reason))), ErrorLog(node.id, reason));
      error := Some(reason);
      state := Finished;
    }

    /** The node at the cursor has a result: publish it and move on. */
    method Deliver(node: Node, value: Json, resumed: bool)
      requires sortable && Recorded()
      requires state == Walking && error.None? && cursor < |order| && node == order[cursor]
      requires resumed == (node.id in s.resume) && At(m, node.id) == Ran(value)
      requires events == if resumed then History(s, m, order, cursor)
                         else Started(s, m, History(s, m, order, cursor), node.id)
      modifies this`events, this`cursor, this`outputs, this`portValues
      ensures Valid() && cursor == old(cursor) + 1
    {
      hide NodeWarnings, Publications, PutAll;
      Publish(node, value, resumed);
      cursor := cursor + 1;
    }

    /** Look at the node at the cursor: pass it, stop at it, or hand out its executor. */
    method Visit() returns (step: Option<Executor>)
      requires Valid() && state == Walking && cursor < |order| && sortable
      requires WellOrdered() && Solves(s, m)
      modifies this`events, this`cursor, this`outputs, this`portValues, this`state, this`error
      ensures Valid()
      ensures step.Some? ==> state == AwaitingOutcome && cursor == old(cursor)
                             && Executes(s, m, order[cursor])
                             && step == Resolve(s.registry, order[cursor])
      ensures step.None? ==> state == Finished || (state == Walking && cursor == old(cursor) + 1)
      ensures old(cursor) <= cursor
    {
      hide NodeWarnings, History, Lit, Outs, VisitOrder, Judge;
      var node := order[cursor];
      assert InGraph(s.graph, node) by { NodeInGraph(s.graph, order, cursor); }

      // A node completed in a prior run is republished, not executed.
      if node.id in s.resume {
        ResumedVerdict(s, m, node);
        Deliver(node, s.resume[node.id], true);
        return None;
      }

      var incoming := Incoming(s.graph, node.id);
      AnyActiveMeans();
      var active := AnyActive(incoming);
      WarnUndelivered(node, incoming);
      if incoming != [] && !active {
        DarkVerdict(s, m, node);
        PassBy(node, "skipped");
        return None;
      }
      step := Execute(node);
    }

    /** A reached node: walk past it if it is visual only, else find its executor. */
    method Execute(node: Node) returns (step: Option<Executor>)
      requires sortable && Recorded() && Solves(s, m) && node in s.graph.nodes
      requires state == Walking && error.None? && cursor < |order| && node == order[cursor]
      requires node.id !in s.resume && Reached(s, m, node.id)
      requires events == WarnAll(History(s, m, order, cursor), NodeWarnings(s, m, node.id))
      modifies this`events, this`cursor, this`state, this`error
      ensures Valid()
      ensures step.Some? ==> state == AwaitingOutcome && cursor == old(cursor)
                             && Executes(s, m, node) && step == Resolve(s.registry, node)
      ensures step.None? ==> state == Finished || (state == Walking && cursor == old(cursor) + 1)
      ensures old(cursor) <= cursor
    {
      LiveVerdict(s, m, node);
      var visual := VisualOnly(s.kinds, node);
      if visual.Some? {
        PassBy(node, visual.value);
        return None;
      }
      events := Then(events, NodeStatus(node.id, Running));
      step := Resolve(s.registry, node);
      if step.None? {
        // An unregistered kind fails closed.
        Fail(node, NoExecutor(node.kind));
      } else {
        state := AwaitingOutcome;
      }
    }

    /** Pass nodes by while nothing needs running; stop at one that does, or at the end. */
    method NextStep() returns (step: Option<Executor>)
      requires Valid() && state != AwaitingOutcome
      requires sortable ==> WellOrdered() && Solves(s, m)
      modifies this`events, this`cursor, this`outputs, this`portValues, this`state, this`error
      ensures Valid() && old(cursor) <= cursor
      ensures old(state) == Finished ==> step.None?
      ensures step.Some? <==> state == AwaitingOutcome
      ensures step.None? ==> state == Finished
      ensures step.Some? ==> sortable && Executes(s, m, order[cursor])
                             && step == Resolve(s.registry, order[cursor])
    {
      step := None;
      while step.None? && state != Finished
        invariant Valid() && old(cursor) <= cursor
        invariant old(state) == Finished ==> state == Finished && step.None?
        invariant step.Some? <==> state == AwaitingOutcome
        invariant step.Some? ==> sortable && Executes(s, m, order[cursor])
                                 && step == Resolve(s.registry, order[cursor])
        decreases |order| - cursor, step.None?, state == Walking
      {
        if cursor >= |order| {
          state := Finished;
        } else {
          step := Visit();
        }
      }
    }

    /** The inputs of the node about to execute: the seeded ones, then each active edge's value. */
    method CollectInputs() returns (inputs: Fields)
      requires Valid() && state == AwaitingOutcome && sortable && WellOrdered()
      ensures inputs == InputsOf(s, m, order[cursor])
    {
      var node := order[cursor];
      var incoming := Incoming(s.graph, node.id);
      ghost var arrived := Arrivals(s, m, incoming);
      inputs := Seed(s, node.id);
      for k := 0 to |incoming|
        invariant inputs == Gather(Seed(s, node.id), incoming[..k], arrived[..k])
      {
        var e := incoming[k];
        EdgeAnswer(s, m, order, cursor, k);
        GatherStep(Seed(s, node.id), incoming, arrived, k);
        if PortKey(e.source, e.SourcePort()) in portValues {
          inputs := Insert(inputs, e.TargetPort(), portValues[PortKey(e.source, e.SourcePort())]);
        }
      }
      assert incoming[..|incoming|] == incoming && arrived[..|incoming|] == arrived;
    }

    /** Report what the executor handed out by `NextStep` did. */
    method Resume(outcome: Outcome)
      requires Valid() && state == AwaitingOutcome && sortable && WellOrdered() && Solves(s, m)
      requires Executes(s, m, order[cursor])
      requires var node := order[cursor];
        outcome == Call(s, Resolve(s.registry, node).value, node, InputsOf(s, m, node))
      modifies this`events, this`cursor, this`outputs, this`portValues, this`state, this`error
      ensures Valid() && state != AwaitingOutcome
      ensures if outcome.Value? then cursor == old(cursor) + 1 else state == Finished && cursor == old(cursor)
    {
      state := Walking;
      var node := order[cursor];
      assert InGraph(s.graph, node);
      hide VisitOrder, Lit, Outs, History, NodeWarnings, InputsOf, NoHalt, Judge, Resolve, Call;
      ExecutesVerdict(s, m, node);
      match outcome
      case Value(value) =>
        Deliver(node, value, false);
      case Aborted(reason) =>
        // Verbatim: a human gate pauses through this same reason.
        Fail(node, reason);
    }

    /** A finished walk reports the run as far as the first node that halts, or the cycle. */
    method Finish() returns (r: RunResult)
      ensures Valid() && state == Finished && sortable && WellOrdered() ==> Reports(s, m, order, cursor, r)
      ensures Valid() && !sortable ==> CycleReported(r)
    {
      r := RunResult(error.None?, outputs, error, Then(events, RunEnd(error.None?)));
    }
  }

  method InOrder(g: Graph, order: seq<nat>) returns (nodes: seq<Node>)
    requires forall i :: 0 <= i < |order| ==> order[i] < |g.nodes|
    ensures nodes == Visits(g, order)
  {
    nodes := [];
    for i := 0 to |order|
      invariant nodes == Visits(g, order[..i])
    {
      assert order[..i + 1][..i] == order[..i];
      nodes := nodes + [g.nodes[order[i]]];
    }
    assert order[..|order|] == order;
  }

  // ---- the runner -----------------------------------------------------------------------------------

  /** What a run of a sortable graph reports: everything up to the first node, in order, that halts. */
  ghost predicate Reports(s: Setup, m: Verdicts, order: seq<Node>, stop: nat, r: RunResult) {
    && VisitOrder(s.graph, order) && stop <= |order| && NoHalt(m, order, stop)
    && r.outputs == Outs(m, order, stop)
    && if stop == |order| then
         r.ok && r.error == None && r.events == Then(History(s, m, order, stop), RunEnd(true))
       else
         && !r.ok && r.error.Some? && At(m, order[stop].id) == Halted(r.error.value)
         && r.events == Then(History(s, m, order, stop + 1), RunEnd(false))
  }

  ghost predicate CycleReported(r: RunResult) {
    r == RunResult(false, map[], Some(Cycle), Then(Then(Empty, RunError(Cycle)), RunEnd(false)))
  }

  /** Execute the graph: step the walk, run what it hands out, report back. */
  method Run(s: Setup) returns (r: RunResult, ghost order: seq<Node>, ghost stop: nat)
    requires UniqueIds(s.graph) && KeySafe(s.graph)
    ensures Sortable(s.graph) ==> Reports(s, Meaning(s), order, stop, r) && InKahnOrder(s.graph, order)
    ensures !Sortable(s.graph) ==> CycleReported(r)
  {
    hide KahnQueue;
    ghost var m := if Sortable(s.graph) then Meaning(s) else map[];
    var walk := new Walk(s, m);
    var step := walk.NextStep();
    while step.Some?
      invariant fresh(walk) && walk.s == s && walk.m == m && walk.Valid()
      invariant walk.sortable == Sortable(s.graph) && (walk.sortable ==> walk.WellOrdered())
      invariant step.Some? <==> walk.state == AwaitingOutcome
      invariant step.None? ==> walk.state == Finished
      invariant step.Some? ==> walk.sortable && Executes(s, m, walk.order[walk.cursor])
                               && step == Resolve(s.registry, walk.order[walk.cursor])
      decreases |walk.order| - walk.cursor, step.Some?
    {
      ghost var at := walk.cursor;
      var inputs := walk.CollectInputs();
      var outcome := Call(s, step.value, walk.order[walk.cursor], inputs);
      walk.Resume(outcome);
      step := walk.NextStep();
      assert at < walk.cursor || step.None?;
    }
    r := walk.Finish();
    order, stop := walk.order, walk.cursor;
  }

  /** A sortable run reports ok exactly when nothing halts, and then exactly the outputs of the meaning. */
  lemma RunMeans(s: Setup, m: Verdicts, order: seq<Node>, stop: nat, r: RunResult)
    requires Solves(s, m) && Reports(s, m, order, stop, r)
    ensures r.ok <==> AbortFree(m)
    ensures r.ok ==> r.outputs == OutputsOf(m)
  {
    if r.ok {
      forall id | id in m ensures !m[id].Halted? {
        assert Placed(order, |order|, id);
      }
      OutsComplete(s.graph, m, order);
    }
  }

  /** The first node to halt, in the order a run takes, halts for this reason. */
  ghost predicate HaltsFirst(s: Setup, m: Verdicts, reason: Reason) {
    exists order: seq<Node>, stop: nat {:trigger NoHalt(m, order, stop)} ::
      && VisitOrder(s.graph, order) && InKahnOrder(s.graph, order)
      && stop < |order| && NoHalt(m, order, stop) && At(m, order[stop].id) == Halted(reason)
  }

  /** A run that is not ok names the reason of that node; there is one such reason. */
  lemma ErrorIsFirst(s: Setup, m: Verdicts, order: seq<Node>, stop: nat, r: RunResult)
    requires Reports(s, m, order, stop, r) && InKahnOrder(s.graph, order) && !r.ok
    ensures r.error.Some? && HaltsFirst(s, m, r.error.value)
  {
    hide VisitOrder, InKahnOrder, History;
    assert NoHalt(m, order, stop);
  }

  lemma OneFirst(s: Setup, m: Verdicts, a: Reason, b: Reason)
    requires UniqueIds(s.graph) && HaltsFirst(s, m, a) && HaltsFirst(s, m, b)
    ensures a == b
  {
    hide VisitOrder, InKahnOrder;
    var order: seq<Node>, stop: nat :| VisitOrder(s.graph, order) && InKahnOrder(s.graph, order)
      && stop < |order| && NoHalt(m, order, stop) && At(m, order[stop].id) == Halted(a);
    var other: seq<Node>, place: nat :| VisitOrder(s.graph, other) && InKahnOrder(s.graph, other)
      && place < |other| && NoHalt(m, other, place) && At(m, other[place].id) == Halted(b);
    OneKahnOrder(s.graph, order, other);
  }
}

/** Run one node of a graph through the engine itself, with every other node fenced off. */
module Replay {
  import opened Wrappers
  import opened Values
  import opened Schema
  import opened Activation
  import opened Topology
  import opened Semantics
  import opened Diagnostics
  import opened Engine
  import opened Store
  import opened Frontier
  import opened Checkpoints

  // ---- the replayed run ---------------------------------------------------------------------------------

  /** The completed prefix: every completed row's output. */
  function CompletedOutputs(rows: Rows): map<string, Json> {
    map id | id in rows && rows[id].status.Completed? :: OrNull(rows[id].output)
  }

  /** Node bindings with every node but the target fenced. */
  function FenceAll(byNode: map<string, Executor>, nodes: seq<Node>, target: Option<string>): map<string, Executor> {
    if nodes == [] then byNode
    else
      var n := |nodes| - 1;
      var front := FenceAll(byNode, nodes[..n], target);
      if Some(nodes[n].id) == target then front else front[nodes[n].id := Fence]
  }

  /** The set-up of a replay: the same graph and catalogue, the fences, and what to resume. */
  function Fenced(s: Setup, target: Option<string>, resume: map<string, Json>): Setup {
    s.(registry := s.registry.(byNode := FenceAll(s.registry.byNode, s.graph.nodes, target)), resume := resume)
  }

  lemma {:induction false} FencedAt(byNode: map<string, Executor>, nodes: seq<Node>, target: Option<string>, id: string)
    ensures var after := FenceAll(byNode, nodes, target);
      if id in IdSet(nodes) && Some(id) != target then id in after && after[id] == Fence
      else (id in after <==> id in byNode) && (id in byNode ==> after[id] == byNode[id])
  {
    if nodes != [] {
      FencedAt(byNode, nodes[..|nodes| - 1], target, id);
    }
  }

  /** No edge reads the port fences publish on. */
  predicate NoFenceReads(g: Graph) {
    forall e :: e in g.edges ==> e.SourcePort() != FENCE_PORT
  }

  /** What every theorem about a durable run asks of its configuration. */
  ghost predicate Configured(s: Setup) {
    UniqueIds(s.graph) && KeySafe(s.graph) && NoFenceReads(s.graph) && s.resume == map[]
  }

  /** The replay of `target` from these rows, and the verdicts it reaches. */
  ghost predicate Replays(s: Setup, target: string, rows: Rows, t: Setup, mt: Verdicts) {
    && UniqueIds(s.graph) && NoFenceReads(s.graph) && s.resume == map[]
    && t == Fenced(s, Some(target), CompletedOutputs(rows)) && Solves(t, mt)
  }

  lemma ResumedAsRun(s: Setup, m: Verdicts, target: string, rows: Rows, t: Setup, mt: Verdicts, id: string)
    requires Replays(s, target, rows, t, mt) && id in Ids(s.graph) && id in rows
    requires RowFits(s, m, id, rows[id]) && rows[id].status.Completed?
    ensures At(mt, id) == At(m, id)
  {
    hide Resolve, Call, Gather, Arrivals, VisualOnly, PortsOf;
    var i := IndexOf(s.graph, id);
    assert At(mt, id) == Judge(t, s.graph.nodes[i], mt);
  }

  /** A fenced node runs nothing: it is dark, walked past, or lights only the dead port. */
  lemma FenceVerdict(s: Setup, target: string, rows: Rows, t: Setup, mt: Verdicts, id: string)
    requires Replays(s, target, rows, t, mt) && id in Ids(s.graph) && id != target && id !in CompletedOutputs(rows)
    ensures At(mt, id).Dark? || At(mt, id).Visual? || At(mt, id) == Ran(Only(FENCE_PORT, Null))
  {
    hide Gather, Arrivals, VisualOnly, CompletedOutputs;
    var i := IndexOf(s.graph, id);
    FencedAt(s.registry.byNode, s.graph.nodes, Some(target), id);
    assert At(mt, id) == Judge(t, s.graph.nodes[i], mt);
  }

  lemma FenceIsSilent(s: Setup, target: string, rows: Rows, t: Setup, mt: Verdicts, e: Edge)
    requires Replays(s, target, rows, t, mt) && e in s.graph.edges
    requires e.source in Ids(s.graph) && e.source != target && e.source !in CompletedOutputs(rows)
    ensures Arrival(t, mt, e) == None
  {
    FenceVerdict(s, target, rows, t, mt, e.source);
    if At(mt, e.source).Ran? {
      FindIff(s.graph.nodes, e.source);
      var node := Find(s.graph.nodes, e.source).value;
      OnePortResults(t.kinds, node, FENCE_PORT, Null);
      assert PublishedBy(t, mt, e.source) == [(FENCE_PORT, Null)];
    }
  }

  /** Once its source is settled, an edge delivers in the replay what it delivers in the run. */
  lemma ArrivesAlike(s: Setup, m: Verdicts, target: string, rows: Rows, t: Setup, mt: Verdicts, e: Edge)
    requires Replays(s, target, rows, t, mt) && e in s.graph.edges && e.source in Ids(s.graph)
    requires Settled(rows, e.source) && RowFits(s, m, e.source, rows[e.source]) && !Settled(rows, target)
    ensures Arrival(t, mt, e) == Arrival(s, m, e)
  {
    hide PortsOf, Publishes;
    if rows[e.source].status.Completed? {
      ResumedAsRun(s, m, target, rows, t, mt, e.source);
      PublishesAlike(s, t, mt, e.source);
    } else {
      QuietPorts(s, m, e.source);
      FenceIsSilent(s, target, rows, t, mt, e);
    }
  }

  /** All the sources of `id` are settled and their rows tell the truth. */
  ghost predicate Known(s: Setup, m: Verdicts, rows: Rows, id: string) {
    SourcesSettled(s.graph, rows, id)
    && forall e :: e in Incoming(s.graph, id) ==> e.source in Ids(s.graph) && RowFits(s, m, e.source, rows[e.source])
  }

  lemma ArrivalsAlike(s: Setup, m: Verdicts, target: string, rows: Rows, t: Setup, mt: Verdicts, id: string)
    requires Replays(s, target, rows, t, mt) && Known(s, m, rows, id) && !Settled(rows, target)
    ensures Arrivals(t, mt, Incoming(s.graph, id)) == Arrivals(s, m, Incoming(s.graph, id))
  {
    hide RowFits, Arrival, Into, Replays;
    var edges := Incoming(s.graph, id);
    IntoMembers(s.graph.edges, id);
    forall i | 0 <= i < |edges| ensures Arrivals(t, mt, edges)[i] == Arrivals(s, m, edges)[i] {
      assert edges[i] in edges;
      ArrivesAlike(s, m, target, rows, t, mt, edges[i]);
    }
  }

  /**
   * Replay fidelity. Once all its sources are settled the target gets, in the replay, the inputs and the verdict
   * of the full run, whatever unrelated nodes are still unfinished.
   */
  lemma ReplayFidelity(s: Setup, m: Verdicts, target: string, rows: Rows, t: Setup, mt: Verdicts, node: Node)
    requires Replays(s, target, rows, t, mt) && Solves(s, m)
    requires node in s.graph.nodes && node.id == target
    requires Known(s, m, rows, target) && !Settled(rows, target)
    ensures At(mt, target) == At(m, target)
    ensures InputsOf(t, mt, node) == InputsOf(s, m, node)
    ensures Executes(t, mt, node) <==> Executes(s, m, node)
  {
    hide RowFits, Arrival, Into, Gather, Known, VisualOnly;
    ArrivalsAlike(s, m, target, rows, t, mt, target);
    FencedAt(s.registry.byNode, s.graph.nodes, Some(target), target);
    assert Resolve(t.registry, node) == Resolve(s.registry, node);
    assert At(m, target) == Judge(s, node, m) && At(mt, target) == Judge(t, node, mt);
  }

  /** No executor but the target's is called, and no other node can stop the replay. */
  lemma OthersFenced(s: Setup, target: string, rows: Rows, t: Setup, mt: Verdicts, node: Node)
    requires Replays(s, target, rows, t, mt) && node in s.graph.nodes && node.id != target
    ensures Resolve(t.registry, node) == Some(Fence)
    ensures !At(mt, node.id).Halted?
  {
    hide Gather, Arrivals, VisualOnly;
    var i :| 0 <= i < |s.graph.nodes| && s.graph.nodes[i] == node;
    IdsHas(s.graph, i);
    FencedAt(s.registry.byNode, s.graph.nodes, Some(target), node.id);
    assert At(mt, node.id) == Judge(t, node, mt);
  }

  // ---- the replay itself ----------------------------------------------------------------------------------

  /** `ports`: each node's ports in publication order, read back off the events. */
  datatype ReplayResult = ReplayResult(result: RunResult, ports: map<string, seq<string>>)

  function PortsSeen(ports: map<string, seq<string>>, id: string): seq<string> {
    if id in ports then ports[id] else []
  }

  /** The `node-output` events of a log, folded into one list a node. */
  function CollectPorts(log: Log): map<string, seq<string>> {
    match log
    case Empty => map[]
    case Then(earlier, last) =>
      var ports := CollectPorts(earlier);
      if last.NodeOutput? then ports[last.node := PortsSeen(ports, last.node) + [last.port]] else ports
  }

  lemma {:induction false} PortsCollected(log: Log, id: string)
    ensures PortsSeen(CollectPorts(log), id) == OutputPorts(log, id)
  {
    if log.Then? {
      PortsCollected(log.earlier, id);
    }
  }

  /** The fenced nodes whose placeholder output is not an output. */
  function Placeholders(nodes: seq<Node>, target: Option<string>, resume: map<string, Json>): set<string> {
    set id | id in IdSet(nodes) && Some(id) != target && id !in resume
  }

  /** What a replay keeps of the run it drove. */
  function Kept(s: Setup, target: Option<string>, resume: map<string, Json>, run: RunResult): ReplayResult {
    var gone := Placeholders(s.graph.nodes, target, resume);
    ReplayResult(run.(outputs := run.outputs - gone), CollectPorts(run.events) - gone)
  }

  method BindFences(byNode: map<string, Executor>, nodes: seq<Node>, target: Option<string>)
    returns (fork: map<string, Executor>, fenced: seq<string>)
    ensures fork == FenceAll(byNode, nodes, target)
    ensures forall id :: id in fenced <==> id in IdSet(nodes) && Some(id) != target
  {
    fork, fenced := byNode, [];
    for i := 0 to |nodes|
      invariant fork == FenceAll(byNode, nodes[..i], target)
      invariant forall id :: id in fenced <==> id in IdSet(nodes[..i]) && Some(id) != target
    {
      assert nodes[..i + 1][..i] == nodes[..i];
      if Some(nodes[i].id) != target {
        fork := fork[nodes[i].id := Fence];
        fenced := fenced + [nodes[i].id];
      }
    }
    assert nodes[..|nodes|] == nodes;
  }

  method RemoveFenced(run: RunResult, ports: map<string, seq<string>>, fenced: seq<string>, resume: map<string, Json>)
    returns (r: ReplayResult)
    ensures var gone := set id | id in fenced && id !in resume;
      r == ReplayResult(run.(outputs := run.outputs - gone), ports - gone)
  {
    var outputs, left := run.outputs, ports;
    ghost var gone: set<string> := {};
    for i := 0 to |fenced|
      invariant gone == set id | id in fenced[..i] && id !in resume
      invariant outputs == run.outputs - gone && left == ports - gone
    {
      assert fenced[..i + 1] == fenced[..i] + [fenced[i]];
      if fenced[i] !in resume {
        outputs, left := outputs - {fenced[i]}, left - {fenced[i]};
        gone := gone + {fenced[i]};
      }
    }
    assert fenced[..|fenced|] == fenced;
    r := ReplayResult(run.(outputs := outputs), left);
  }

  /** The run a replay keeps its result from: the engine's own, of the fenced graph. */
  ghost predicate IsReplayRun(
      s: Setup, target: Option<string>, resume: map<string, Json>, run: RunResult, order: seq<Node>, stop: nat)
  {
    if Sortable(s.graph) then
      var t := Fenced(s, target, resume); Reports(t, Meaning(t), order, stop, run)
    else CycleReported(run)
  }

  ghost predicate FromReplay(s: Setup, target: Option<string>, resume: map<string, Json>, r: ReplayResult) {
    exists run, order, stop :: IsReplayRun(s, target, resume, run, order, stop) && r == Kept(s, target, resume, run)
  }

  /** Replay the graph up to and through `target`; with no target, only what can be told without executing. */
  method ReplayUpTo(s: Setup, target: Option<string>, resume: map<string, Json>) returns (r: ReplayResult)
    requires UniqueIds(s.graph) && KeySafe(s.graph)
    ensures FromReplay(s, target, resume, r)
  {
    hide FenceAll, Reports, Meaning, Sortable, CollectPorts, KeySafe, UniqueIds;
    var fork, fenced := BindFences(s.registry.byNode, s.graph.nodes, target);
    var t := s.(registry := s.registry.(byNode := fork), resume := resume);
    assert t == Fenced(s, target, resume);
    var result;
    ghost var order, stop;
    result, order, stop := Run(t);
    var ports := CollectPorts(result.events);
    r := RemoveFenced(result, ports, fenced, resume);
    assert (set id | id in fenced && id !in resume) == Placeholders(s.graph.nodes, target, resume);
    assert IsReplayRun(s, target, resume, result, order, stop);
  }

  // ---- how a job ends ---------------------------------------------------------------------------------------

  datatype Ending =
    | Produced(output: Json, ports: seq<string>)
    | Parked(reason: Reason)
    | Unreached
    | Broke(reason: Reason)

  /** What a replay says about its target. An error that is the old boundary text counts as never having run. */
  function Classify(r: ReplayResult, id: string): Ending {
    if id in r.result.outputs then Produced(r.result.outputs[id], PortsSeen(r.ports, id))
    else if r.result.error.Some? && OwnPause(id, r.result.error.value) then Parked(r.result.error.value)
    else if r.result.error == Some(Boundary) || r.result.ok then Unreached
    else Broke(if r.result.error.Some? then r.result.error.value else Failure("produced no output and no error"))
  }

  /** What the run means for the node. */
  function EndingOf(s: Setup, m: Verdicts, id: string): Ending {
    match At(m, id)
    case Ran(value) => Produced(value, PortsOf(s, m, id))
    case Dark => Unreached
    case Visual(_) => Unreached
    case Halted(reason) =>
      if OwnPause(id, reason) then Parked(reason) else if reason == Boundary then Unreached else Broke(reason)
  }

  /** Where a replay that stops, stops: at the target. */
  lemma StopsAtTarget(
      s: Setup, target: string, rows: Rows, t: Setup, mt: Verdicts, order: seq<Node>, stop: nat, run: RunResult)
    requires Replays(s, target, rows, t, mt) && Reports(t, mt, order, stop, run)
    ensures stop < |order| ==> order[stop].id == target
  {
    if stop < |order| {
      NodeInGraph(s.graph, order, stop);
      if order[stop].id != target { OthersFenced(s, target, rows, t, mt, order[stop]); }
    }
  }

  /** The target keeps exactly what the run recorded for it. */
  lemma TargetKept(s: Setup, target: string, resume: map<string, Json>, run: RunResult)
    ensures var r := Kept(s, Some(target), resume, run);
      && (target in r.result.outputs <==> target in run.outputs)
      && (target in run.outputs ==> r.result.outputs[target] == run.outputs[target])
      && r.result.ok == run.ok && r.result.error == run.error && r.result.events == run.events
      && PortsSeen(r.ports, target) == OutputPorts(run.events, target)
  {
    PortsCollected(run.events, target);
  }

  /** The target's own outcome in the replayed run. */
  lemma TargetReported(
      s: Setup, target: string, rows: Rows, t: Setup, mt: Verdicts, order: seq<Node>, stop: nat, run: RunResult, i: nat)
    requires Replays(s, target, rows, t, mt) && Reports(t, mt, order, stop, run)
    requires i < |order| && order[i].id == target
    ensures target in run.outputs <==> At(mt, target).Ran?
    ensures At(mt, target).Ran? ==> run.outputs[target] == At(mt, target).value
    ensures At(mt, target).Halted? ==> !run.ok && run.error == Some(At(mt, target).reason)
    ensures !At(mt, target).Halted? ==> run.ok && run.error == None && stop == |order|
    ensures At(mt, target).Halted? ==> stop == i
  {
    hide History, Lit, Judge;
    StopsAtTarget(s, target, rows, t, mt, order, stop, run);
    OutsKey(mt, order, stop, target);
    if stop < |order| {
      assert SameVisit(order, i, stop);
      NotPlacedYet(t.graph, order, stop);
    } else {
      assert Placed(order, stop, target);
    }
  }

  lemma ReportedPorts(
      t: Setup, mt: Verdicts, order: seq<Node>, stop: nat, run: RunResult, i: nat)
    requires Reports(t, mt, order, stop, run) && i < |order| && stop == |order| && UniqueIds(t.graph)
    ensures OutputPorts(run.events, order[i].id) == PortsOf(t, mt, order[i].id)
  {
    hide History, Lit;
    HistoryPorts(t, mt, order, stop, i);
    FindVisited(t.graph, order, i);
  }

  /** The engine's verdict on a job is the run's: the two cannot disagree about a branch, a value or a port. */
  lemma JobEnds(
      s: Setup, m: Verdicts, target: string, rows: Rows, t: Setup, mt: Verdicts, order: seq<Node>, stop: nat,
      run: RunResult)
    requires Replays(s, target, rows, t, mt) && Solves(s, m) && target in Ids(s.graph)
    requires Known(s, m, rows, target) && !Settled(rows, target)
    requires Reports(t, mt, order, stop, run)
    ensures Classify(Kept(s, Some(target), CompletedOutputs(rows), run), target) == EndingOf(s, m, target)
  {
    hide History, Lit, Known, RowFits, FenceAll, Judge;
    PlacedIds(s.graph, order, target);
    var i :| 0 <= i < |order| && order[i].id == target;
    NodeInGraph(s.graph, order, i);
    ReplayFidelity(s, m, target, rows, t, mt, order[i]);
    TargetKept(s, target, CompletedOutputs(rows), run);
    TargetReported(s, target, rows, t, mt, order, stop, run, i);
    if At(m, target).Ran? {
      ReportedPorts(t, mt, order, stop, run, i);
      SamePorts(s, m, t, mt, target);
    }
  }

  lemma SamePorts(s: Setup, m: Verdicts, t: Setup, mt: Verdicts, id: string)
    requires s.graph == t.graph && s.kinds == t.kinds && At(m, id) == At(mt, id)
    ensures PortsOf(s, m, id) == PortsOf(t, mt, id)
  {
    PublishesAlike(s, t, m, id);
  }

  // ---- the warnings a job forwards ----------------------------------------------------------------------------

  /** Answers that agree earn the same warnings. */
  lemma {:induction false} WarningsAlike(s: Setup, t: Setup, target: string, edges: seq<Edge>, run: seq<Answer>)
    requires |edges| == |run|
    requires s.graph == t.graph && s.kinds == t.kinds && s.otherKinds == t.otherKinds && s.configPorts == t.configPorts
    ensures Warnings(s, target, edges, run) == Warnings(t, target, edges, run)
  {
    if edges != [] {
      var n := |edges| - 1;
      WarningsAlike(s, t, target, edges[..n], run[..n]);
    }
  }

  lemma {:induction false} AnswersAlike(s: Setup, m: Verdicts, t: Setup, mt: Verdicts, edges: seq<Edge>)
    requires forall i :: 0 <= i < |edges| ==> MeaningAnswer(s, m, edges[i]) == MeaningAnswer(t, mt, edges[i])
    ensures MeaningAnswers(s, m, edges) == MeaningAnswers(t, mt, edges)
  {
    hide MeaningAnswer;
    if edges != [] {
      AnswersAlike(s, m, t, mt, edges[..|edges| - 1]);
    }
  }

  /** A node that is dark, or walked past, in the run is so in the replay. */
  lemma QuietAlike(s: Setup, m: Verdicts, target: string, rows: Rows, t: Setup, mt: Verdicts, id: string)
    requires Replays(s, target, rows, t, mt) && Solves(s, m) && id in Ids(s.graph) && id !in CompletedOutputs(rows)
    requires Known(s, m, rows, id) && !Settled(rows, target)
    requires At(m, id).Dark? || At(m, id).Visual?
    ensures At(mt, id) == At(m, id)
  {
    hide RowFits, Arrival, Into, Gather, Known, VisualOnly, CompletedOutputs, FenceAll, Resolve, Call;
    ArrivalsAlike(s, m, target, rows, t, mt, id);
    var i := IndexOf(s.graph, id);
    var node := s.graph.nodes[i];
    assert At(m, id) == Judge(s, node, m) && At(mt, id) == Judge(t, node, mt);
  }

  /** Where nothing aborts, a settled source answers in the replay as it does in the run. */
  lemma AnswerAlike(s: Setup, m: Verdicts, target: string, rows: Rows, t: Setup, mt: Verdicts, e: Edge)
    requires Replays(s, target, rows, t, mt) && Solves(s, m) && !Settled(rows, target)
    requires Settled(rows, e.source) && RowFits(s, m, e.source, rows[e.source]) && e.source in Ids(s.graph)
    requires Known(s, m, rows, e.source) && !At(m, e.source).Halted?
    ensures MeaningAnswer(s, m, e) == MeaningAnswer(t, mt, e)
  {
    if rows[e.source].status.Completed? {
      ResumedAsRun(s, m, target, rows, t, mt, e.source);
    } else {
      QuietAlike(s, m, target, rows, t, mt, e.source);
    }
    SamePorts(s, m, t, mt, e.source);
  }

  /** Sound rows know everything about the sources of a node whose sources are settled. */
  lemma SoundKnows(s: Setup, rows: Rows, id: string)
    requires Sound(s, rows) && Sortable(s.graph) && SourcesSettled(s.graph, rows, id)
    ensures Known(s, Meaning(s), rows, id)
    ensures forall e :: e in Incoming(s.graph, id) ==> Known(s, Meaning(s), rows, e.source)
  {
    hide RowFits, Meaning, Into;
    forall e | e in Incoming(s.graph, id) ensures Known(s, Meaning(s), rows, e.source) {
      assert SourcesSettled(s.graph, rows, e.source);
    }
  }

  /** A job raises against its own node the warnings the single-process run raises. */
  lemma JobWarnings(
      s: Setup, m: Verdicts, target: string, rows: Rows, t: Setup, mt: Verdicts, order: seq<Node>, stop: nat,
      run: RunResult)
    requires Replays(s, target, rows, t, mt) && Solves(s, m) && target in Ids(s.graph) && AbortFree(m)
    requires Known(s, m, rows, target) && !Settled(rows, target)
    requires forall e :: e in Incoming(s.graph, target) ==> Known(s, m, rows, e.source)
    requires Reports(t, mt, order, stop, run)
    ensures WarningsFor(run.events, target) == NodeWarnings(s, m, target)
  {
    hide History, Lit, RowFits, FenceAll, Judge, MeaningAnswer, Warnings;
    PlacedIds(s.graph, order, target);
    var i :| 0 <= i < |order| && order[i].id == target;
    NodeInGraph(s.graph, order, i);
    ReplayFidelity(s, m, target, rows, t, mt, order[i]);
    TargetReported(s, target, rows, t, mt, order, stop, run, i);
    HistoryWarnings(t, mt, order, stop, i);
    var edges := Incoming(s.graph, target);
    forall j | 0 <= j < |edges| ensures MeaningAnswer(s, m, edges[j]) == MeaningAnswer(t, mt, edges[j]) {
      assert edges[j] in edges;
      AnswerAlike(s, m, target, rows, t, mt, edges[j]);
    }
    AnswersAlike(s, m, t, mt, edges);
    WarningsAlike(s, t, target, edges, MeaningAnswers(s, m, edges));
  }
}

/** The rule for an edge that can never deliver, and its events. */
module Diagnostics {
  import opened Wrappers
  import opened Values
  import opened Schema
  import opened Activation
  import opened Semantics

  // ---- events -------------------------------------------------------------------------------------

  /** A `log`/`warn` against `target`: the edge, and what its source published instead, in publication order. */
  datatype Warning = Warning(target: string, edge: string, source: string, handle: string, available: seq<string>)

  datatype Status = Idle(text: string) | Running | Done(resumed: bool) | Errored(reason: Reason)

  datatype Event =
    | RunStart
    | RunError(reason: Reason)
    | RunEnd(ok: bool)
    | NodeStatus(node: string, status: Status)
    | NodeOutput(node: string, port: string, value: Json)
    | ErrorLog(node: string, reason: Reason)
    | Warn(warning: Warning)
  {
    /** The node an event names, if it names one. */
    function NodeId(): Option<string> {
      match this
      case NodeStatus(n, _) => Some(n)
      case NodeOutput(n, _, _) => Some(n)
      case ErrorLog(n, _) => Some(n)
      case Warn(w) => Some(w.target)
      case _ => None
    }
  }

  /** An append-only event stream. */
  datatype Log = Empty | Then(earlier: Log, last: Event)

  /** The ports `id` published on, read back off the event stream. */
  function OutputPorts(log: Log, id: string): seq<string> {
    match log
    case Empty => []
    case Then(earlier, last) =>
      if last.NodeOutput? && last.node == id then OutputPorts(earlier, id) + [last.port] else OutputPorts(earlier, id)
  }

  /** The warnings raised against `id`, in order. */
  function WarningsFor(log: Log, id: string): seq<Warning> {
    match log
    case Empty => []
    case Then(earlier, last) =>
      if last.Warn? && last.warning.target == id then WarningsFor(earlier, id) + [last.warning]
      else WarningsFor(earlier, id)
  }

  function WarnAll(log: Log, warnings: seq<Warning>): Log {
    if warnings == [] then log
    else Then(WarnAll(log, warnings[..|warnings| - 1]), Warn(warnings[|warnings| - 1]))
  }

  lemma {:induction false} WarnAllReadBack(log: Log, warnings: seq<Warning>, target: string, id: string)
    requires forall w :: w in warnings ==> w.target == target
    ensures WarningsFor(WarnAll(log, warnings), id)
         == if id == target then WarningsFor(log, id) + warnings else WarningsFor(log, id)
    ensures OutputPorts(WarnAll(log, warnings), id) == OutputPorts(log, id)
  {
    if warnings == [] {
      assert WarningsFor(log, id) + warnings == WarningsFor(log, id);
    } else {
      var front, last := warnings[..|warnings| - 1], warnings[|warnings| - 1];
      WarnAllReadBack(log, front, target, id);
      assert warnings == front + [last];
      Regroup(WarningsFor(log, id), front, [last]);
    }
  }

  // ---- which ports a node could publish -------------------------------------------------------------

  /** The runner's catalogue first, then the executors', then the built-in one. */
  function KindOf(s: Setup, node: Node): Option<Kind> {
    if node.kind.None? then None
    else if node.kind.value in s.kinds then Some(s.kinds[node.kind.value])
    else if node.kind.value in s.otherKinds then Some(s.otherKinds[node.kind.value])
    else None
  }

  /** The node's own declaration, then config-derived ports, then the kind's, and `out` for an unknown kind. */
  function PossiblePorts(s: Setup, node: Node): seq<string> {
    if node.outputs.Some? then node.outputs.value
    else if KindOf(s, node).None? then ["out"]
    else if node.id in s.configPorts && s.configPorts[node.id] != [] then s.configPorts[node.id]
    else if KindOf(s, node).value.outputs.Some? then KindOf(s, node).value.outputs.value
    else []
  }

  // ---- the rule -----------------------------------------------------------------------------------

  /**
   * What a driver has recorded about an edge's source: whether it ran to an output, whether it published the
   * port the edge reads, and every port it published, in publication order.
   */
  datatype Answer = Answer(completed: bool, published: bool, available: seq<string>)

  /** The warning an edge earns: its source finished, did not light this port, and never could. */
  function EdgeWarnings(s: Setup, target: string, e: Edge, run: Answer): seq<Warning> {
    if run.published || !run.completed then []
    else if Find(s.graph.nodes, e.source).None? then []
    else if e.SourcePort() in PossiblePorts(s, Find(s.graph.nodes, e.source).value) then []
    else [Warning(target, e.id, e.source, e.SourcePort(), run.available)]
  }

  function Warnings(s: Setup, target: string, edges: seq<Edge>, run: seq<Answer>): seq<Warning>
    requires |edges| == |run|
  {
    if edges == [] then []
    else
      var n := |edges| - 1;
      Warnings(s, target, edges[..n], run[..n]) + EdgeWarnings(s, target, edges[n], run[n])
  }

  lemma {:induction false} WarnedTarget(s: Setup, target: string, edges: seq<Edge>, run: seq<Answer>)
    requires |edges| == |run|
    ensures forall w :: w in Warnings(s, target, edges, run) ==> w.target == target
  {
    if edges != [] {
      var n := |edges| - 1;
      WarnedTarget(s, target, edges[..n], run[..n]);
    }
  }

  method UndeliveredEdgeWarnings(s: Setup, target: string, incoming: seq<Edge>, run: seq<Answer>)
    returns (warnings: seq<Warning>)
    requires |incoming| == |run|
    ensures warnings == Warnings(s, target, incoming, run)
  {
    warnings := [];
    for k := 0 to |incoming|
      invariant warnings == Warnings(s, target, incoming[..k], run[..k])
    {
      assert incoming[..k + 1][..k] == incoming[..k] && run[..k + 1][..k] == run[..k];
      var e := incoming[k];
      if run[k].published || !run[k].completed {
        continue;
      }
      var source := Find(s.graph.nodes, e.source);
      if source.None? {
        continue;
      }
      if e.SourcePort() in PossiblePorts(s, source.value) {
        continue;
      }
      warnings := warnings + [Warning(target, e.id, e.source, e.SourcePort(), run[k].available)];
    }
    assert incoming[..|incoming|] == incoming && run[..|run|] == run;
  }

  // ---- the facts of a finished run ------------------------------------------------------------------

  function PortsOf(s: Setup, m: Verdicts, id: string): seq<string> {
    Keys(PublishedBy(s, m, id))
  }

  /** What a run with these verdicts has recorded about an edge's source. */
  function MeaningAnswer(s: Setup, m: Verdicts, e: Edge): Answer {
    Answer(At(m, e.source).Ran?, e.SourcePort() in PortsOf(s, m, e.source), Dedup(PortsOf(s, m, e.source)))
  }

  function MeaningAnswers(s: Setup, m: Verdicts, edges: seq<Edge>): (r: seq<Answer>)
    ensures |r| == |edges|
  {
    if edges == [] then []
    else MeaningAnswers(s, m, edges[..|edges| - 1]) + [MeaningAnswer(s, m, edges[|edges| - 1])]
  }

  lemma MeaningAnswersStep(s: Setup, m: Verdicts, edges: seq<Edge>, i: nat)
    requires i < |edges|
    ensures MeaningAnswers(s, m, edges[..i + 1]) == MeaningAnswers(s, m, edges[..i]) + [MeaningAnswer(s, m, edges[i])]
  {
    assert edges[..i + 1][..i] == edges[..i];
  }

  lemma {:induction false} MeaningAnswerAt(s: Setup, m: Verdicts, edges: seq<Edge>, i: nat)
    requires i < |edges|
    ensures MeaningAnswers(s, m, edges)[i] == MeaningAnswer(s, m, edges[i])
  {
    if i < |edges| - 1 { MeaningAnswerAt(s, m, edges[..|edges| - 1], i); }
  }

  /** The warnings a run raises against one node. */
  function NodeWarnings(s: Setup, m: Verdicts, id: string): seq<Warning> {
    Warnings(s, id, Incoming(s.graph, id), MeaningAnswers(s, m, Incoming(s.graph, id)))
  }
}

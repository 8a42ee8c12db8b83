/** The durable run and the single-process run of one graph, side by side. */
module Equivalence {
  import opened Wrappers
  import opened Values
  import opened Schema
  import opened Activation
  import opened Topology
  import opened Semantics
  import opened Diagnostics
  import opened Engine
  import opened Store
  import opened Frontier
  import opened Retry
  import opened Checkpoints
  import opened Replay
  import opened Jobs
  import opened Coordinator

  /** Something aborts, and only ever with the text older replays used for a boundary. */
  ghost predicate BoundaryOnly(m: Verdicts) {
    Succeeds(m) && !AbortFree(m)
  }

  /** No executor aborts with the boundary text: the guard a host can check before it runs anything. */
  ghost predicate NeverBoundary(s: Setup) {
    forall name, node: Node, inputs {:trigger s.run(name, node, inputs)} :: s.run(name, node, inputs) != Aborted(Boundary)
  }

  lemma NoBoundaryVerdict(s: Setup, m: Verdicts, id: string)
    requires Solves(s, m) && NeverBoundary(s) && id in Ids(s.graph)
    ensures At(m, id) != Halted(Boundary)
  {
    hide Gather, Arrivals, VisualOnly, Into;
    var i := IndexOf(s.graph, id);
    assert At(m, id) == Judge(s, s.graph.nodes[i], m);
  }

  /** Under that guard whatever aborts is an error to both drivers. */
  lemma NeverBoundaryOnly(s: Setup)
    requires Sortable(s.graph) && NeverBoundary(s)
    ensures !BoundaryOnly(Meaning(s))
  {
    hide Solves, Meaning, NeverBoundary, Sortable;
    var m := Meaning(s);
    ShapeOf(s, m);
    forall id | id in m ensures m[id] != Halted(Boundary) { NoBoundaryVerdict(s, m, id); }
  }

  /** The two results tell the same story. */
  ghost predicate SameStory(durable: DurableRunResult, single: RunResult) {
    && durable.ok == single.ok
    && (durable.ok ==> forall id {:trigger Get(durable.outputs, id)} ::
          Get(durable.outputs, id) == if id in single.outputs then Some(single.outputs[id]) else None)
  }

  lemma OutputsAgree(m: Verdicts, outputs: Fields, id: string)
    requires Get(outputs, id) == OutputOf(m, id)
    ensures Get(outputs, id) == if id in OutputsOf(m) then Some(OutputsOf(m)[id]) else None
  {
  }

  /** Freed of aborts, a run succeeds. */
  lemma AbortFreeSucceeds(m: Verdicts)
    ensures AbortFree(m) ==> Succeeds(m)
  {
  }

  lemma RunnerWarnings(s: Setup, m: Verdicts, order: seq<Node>, stop: nat, r: RunResult, id: string)
    requires Solves(s, m) && s.resume == map[] && Reports(s, m, order, stop, r) && r.ok && id in Ids(s.graph)
    ensures WarningsFor(r.events, id) == NodeWarnings(s, m, id)
  {
    hide History, NodeWarnings, Solves, NoHalt;
    PlacedIds(s.graph, order, id);
    var i :| 0 <= i < |order| && order[i].id == id;
    HistoryWarnings(s, m, order, stop, i);
  }

  /**
   * Durable equals single-process. On a graph with no order neither reports ok. On any other, whatever the
   * concurrency and the retry policy, the two tell the same story unless every abort carries the boundary text;
   * and where neither fails each node is warned about alike.
   */
  method RunBoth(s: Setup, runKey: string, retry: RetryPolicy, maxConcurrent: nat)
    returns (durable: DurableRunResult, heard: Log, single: RunResult)
    requires Configured(s)
    ensures !Sortable(s.graph) ==> !durable.ok && !single.ok
    ensures Sortable(s.graph) ==> (SameStory(durable, single) <==> !BoundaryOnly(Meaning(s)))
    ensures NeverBoundary(s) ==> SameStory(durable, single)
    ensures Sortable(s.graph) ==> (single.ok <==> AbortFree(Meaning(s)))
    ensures single.ok ==> forall id :: id in Ids(s.graph) ==> WarningsFor(heard, id) == WarningsFor(single.events, id)
  {
    hide Meaning, Sortable, Solves, Sound, Told, Reports, AbortFree, Succeeds, NodeWarnings, WarningsFor, Advanced,
         KeySafe, BoundaryOnly, NeverBoundary;
    var store := new InMemoryClaimStore();
    var driver := new Coordinator(s, runKey, store, retry, maxConcurrent, true);
    EmptySound(s);
    if Sortable(s.graph) { NothingTold(s, Meaning(s)); }
    assert HeldIds(driver.Rows()) == {};
    durable := driver.RunToCompletion(None);
    heard := driver.heard;
    ghost var order, stop;
    single, order, stop := Run(s);
    if Sortable(s.graph) {
      Compare(s, Meaning(s), durable, single, order, stop);
      if NeverBoundary(s) { NeverBoundaryOnly(s); }
      if single.ok { WarnedAlike(s, Meaning(s), driver.Rows(), heard, order, stop, single); }
    }
  }

  lemma NothingTold(s: Setup, m: Verdicts)
    ensures Told(s, m, map[], Empty)
  {
    hide NodeWarnings;
  }

  lemma Compare(s: Setup, m: Verdicts, durable: DurableRunResult, single: RunResult, order: seq<Node>, stop: nat)
    requires Solves(s, m) && Reports(s, m, order, stop, single)
    requires durable.ok <==> Succeeds(m)
    requires durable.ok ==> forall id :: Get(durable.outputs, id) == OutputOf(m, id)
    ensures SameStory(durable, single) <==> !BoundaryOnly(m)
    ensures single.ok <==> AbortFree(m)
    ensures single.ok ==> durable.ok
  {
    hide Solves, Reports, AbortFree, Succeeds;
    RunMeans(s, m, order, stop, single);
    AbortFreeSucceeds(m);
    if single.ok {
      forall id { OutputsAgree(m, durable.outputs, id); }
    }
  }

  lemma WarnedAlike(s: Setup, m: Verdicts, rows: Rows, heard: Log, order: seq<Node>, stop: nat, single: RunResult)
    requires Solves(s, m) && s.resume == map[] && Reports(s, m, order, stop, single) && single.ok
    requires Told(s, m, rows, heard) && IsComplete(s.graph, rows)
    ensures forall id :: id in Ids(s.graph) ==> WarningsFor(heard, id) == WarningsFor(single.events, id)
  {
    hide Solves, Reports, NodeWarnings, WarningsFor;
    forall id | id in Ids(s.graph) ensures WarningsFor(heard, id) == WarningsFor(single.events, id) {
      RunnerWarnings(s, m, order, stop, single, id);
      var i := IndexOf(s.graph, id);
      assert Settled(rows, s.graph.nodes[i].id);
    }
  }

  /**
   * Crash and resume. Stopped after any number of passes and continued by a new coordinator over the same store,
   * a run that is not parked on a person ends as it would have uninterrupted.
   */
  method StopAndResume(s: Setup, runKey: string, retry: RetryPolicy, maxConcurrent: nat, passes: nat, retry2: RetryPolicy)
    returns (first: DurableRunResult, second: DurableRunResult)
    requires Configured(s)
    ensures !Sortable(s.graph) ==> !second.ok
    ensures Sortable(s.graph) && first.pause.None? ==> (second.ok <==> Succeeds(Meaning(s)))
    ensures Sortable(s.graph) && second.ok ==> forall id :: Get(second.outputs, id) == OutputOf(Meaning(s), id)
  {
    hide Meaning, Sortable, Sound, Told, AbortFree, Succeeds, Advanced, KeySafe;
    var store := new InMemoryClaimStore();
    var driver := new Coordinator(s, runKey, store, retry, maxConcurrent, false);
    EmptySound(s);
    ghost var before := driver.Rows();
    assert HeldIds(before) == {};
    first := driver.RunToCompletion(Some(passes));
    var next := new Coordinator(s, runKey, store, retry2, maxConcurrent, false);
    if first.pause.None? { AdvancedLater(before, driver.Rows()); }
    second := next.RunToCompletion(None);
  }

  // ---- where the two do differ ----------------------------------------------------------------------------

  /** One node whose executor aborts with the boundary text. */
  function BoundarySetup(run: (string, Node, Fields) -> Outcome): Setup {
    Setup(Graph([Node("a", None, [], None)], []), map[], map[], map[],
      Registry(map["a" := Host("stop")], map[], None), run, map[], map[])
  }

  /** The durable run takes such an abort for a node never reached and reports ok; the runner reports the error. */
  lemma BoundaryDiffers(run: (string, Node, Fields) -> Outcome)
    requires run("stop", Node("a", None, [], None), []) == Aborted(Boundary)
    ensures var s := BoundarySetup(run);
      Configured(s) && Sortable(s.graph) && BoundaryOnly(Meaning(s))
  {
    var s := BoundarySetup(run);
    var node := s.graph.nodes[0];
    assert TopoOrder(s.graph, [0]);
    assert Sortable(s.graph);
    var m := Meaning(s);
    assert node in s.graph.nodes && Incoming(s.graph, "a") == [];
    assert At(m, "a") == Judge(s, node, m);
    assert Gather([], [], []) == [];
    assert At(m, "a") == Halted(Boundary);
    assert IdSet(s.graph.nodes[..0]) == {};
    assert Ids(s.graph) == {"a"};
  }
}

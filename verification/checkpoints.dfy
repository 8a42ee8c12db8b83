/** When a run's rows tell the truth: what each one says against what the run means. */
module Checkpoints {
  import opened Wrappers
  import opened Values
  import opened Schema
  import opened Activation
  import opened Topology
  import opened Semantics
  import opened Diagnostics
  import opened Store
  import opened Frontier

  /** The node asks for a person itself. */
  predicate OwnPause(id: string, reason: Reason) {
    reason.Pause? && reason.node == id
  }

  predicate IsNamedNote(g: Graph, id: string) {
    Find(g.nodes, id).Some? && IsNote(Find(g.nodes, id).value)
  }

  /** Nothing runs here: every branch in is dead, or the node is an annotation. */
  predicate Collapses(s: Setup, m: Verdicts, id: string) {
    At(m, id).Dark? || IsNamedNote(s.graph, id)
  }

  /** What a row may say about a node, given the node's verdict. */
  predicate RowFits(s: Setup, m: Verdicts, id: string, row: Row) {
    var v := At(m, id);
    match row.status
    case Completed => v.Ran? && row.output == Some(v.value) && row.ports == PortsOf(s, m, id)
    case Skipped => row.ports == [] && (v.Dark? || v.Visual? || v == Halted(Boundary))
    case Failed =>
      row.ports == [] && v.Halted? && row.error == Some(v.reason) && v.reason != Boundary && !OwnPause(id, v.reason)
    case Claimed => row.ports == [] && !Collapses(s, m, id)
    case Paused => row.ports == [] && v.Halted? && row.error == Some(v.reason) && OwnPause(id, v.reason)
  }

  ghost predicate Fits(s: Setup, m: Verdicts, rows: Rows) {
    forall id :: id in rows ==> RowFits(s, m, id, rows[id])
  }

  ghost predicate SourcesSettled(g: Graph, rows: Rows, id: string) {
    forall e :: e in Incoming(g, id) ==> Settled(rows, e.source)
  }

  /** No node has a row before all its sources are settled. */
  ghost predicate Grounded(g: Graph, rows: Rows) {
    forall id {:trigger SourcesSettled(g, rows, id)} :: id in rows ==> SourcesSettled(g, rows, id)
  }

  /** A node no order can ever reach: on a cycle, behind one, or behind an edge from nowhere. */
  ghost predicate Doomed(g: Graph, id: string) {
    exists stuck :: Stuck(g, stuck) && id in stuck
  }

  /** The rows are those of nodes of the graph, in order, and where the run has a meaning they agree with it. */
  ghost predicate Sound(s: Setup, rows: Rows) {
    && (forall id :: id in rows ==> id in Ids(s.graph) && !Doomed(s.graph, id))
    && Grounded(s.graph, rows)
    && (Sortable(s.graph) ==> Fits(s, Meaning(s), rows))
  }

  lemma EmptySound(s: Setup)
    ensures Sound(s, map[])
  {
  }

  // ---- every write keeps the rows sound -----------------------------------------------------------------

  /** A node whose sources have rows is not doomed itself. */
  lemma Reachable(g: Graph, rows: Rows, id: string)
    requires forall x :: x in rows ==> x in Ids(g) && !Doomed(g, x)
    requires SourcesSettled(g, rows, id)
    ensures !Doomed(g, id)
  {
    if stuck :| Stuck(g, stuck) && id in stuck {
      assert Blocked(g, stuck, id);
      var e :| e in g.edges && e.target == id && (e.source in stuck || e.source !in Ids(g));
      IntoMembers(g.edges, id);
      assert e in Incoming(g, id);
      assert Doomed(g, e.source);
    }
  }

  /** A fitting row may be written once the sources are settled, if it does not unsettle the node. */
  lemma PutSound(s: Setup, rows: Rows, id: string, row: Row)
    requires Sound(s, rows) && id in Ids(s.graph) && SourcesSettled(s.graph, rows, id)
    requires Settled(rows, id) ==> row.status.IsSettled()
    requires Sortable(s.graph) ==> RowFits(s, Meaning(s), id, row)
    ensures Sound(s, rows[id := row])
    ensures SourcesSettled(s.graph, rows[id := row], id)
  {
    hide RowFits, Doomed, Meaning, Into;
    Reachable(s.graph, rows, id);
    var after := rows[id := row];
    forall x | x in after ensures SourcesSettled(s.graph, after, x) {
      assert SourcesSettled(s.graph, rows, x);
    }
  }

  /** A row that is not settled may be dropped. */
  lemma ReleaseSound(s: Setup, rows: Rows, id: string)
    requires Sound(s, rows) && !Settled(rows, id)
    ensures Sound(s, rows - {id})
  {
    hide RowFits, Doomed, Meaning, Into;
    var after := rows - {id};
    forall x | x in after ensures SourcesSettled(s.graph, after, x) {
      assert SourcesSettled(s.graph, rows, x);
    }
  }

  // ---- the frontier's answers are the meaning's -----------------------------------------------------------

  /** Every settled node lit exactly the ports the run means it to. */
  ghost predicate Agrees(s: Setup, m: Verdicts, settled: Ports) {
    forall id :: id in settled ==> settled[id] == PortsOf(s, m, id)
  }

  lemma QuietPorts(s: Setup, m: Verdicts, id: string)
    requires !At(m, id).Ran?
    ensures PublishedBy(s, m, id) == [] && PortsOf(s, m, id) == []
  {
  }

  lemma FitsAgree(s: Setup, m: Verdicts, rows: Rows)
    requires Fits(s, m, rows)
    ensures Agrees(s, m, SettledPorts(rows))
  {
    hide PortsOf;
    forall id | id in SettledPorts(rows) ensures SettledPorts(rows)[id] == PortsOf(s, m, id) {
      assert RowFits(s, m, id, rows[id]);
      if !rows[id].status.Completed? { QuietPorts(s, m, id); }
    }
  }

  lemma EdgeAgrees(s: Setup, m: Verdicts, settled: Ports, e: Edge)
    requires Agrees(s, m, settled) && e.source in settled
    ensures EdgeActive(settled, e) <==> Arrival(s, m, e).Some?
  {
    KeysGet(PublishedBy(s, m, e.source), e.SourcePort());
  }

  lemma ActiveAgrees(s: Setup, m: Verdicts, settled: Ports, id: string)
    requires Agrees(s, m, settled) && Unblocked(settled, Incoming(s.graph, id))
    ensures SomeActive(settled, Incoming(s.graph, id)) <==> !NoneArrived(Arrivals(s, m, Incoming(s.graph, id)))
  {
    hide EdgeActive, Arrival, Into, PortsOf;
    var edges := Incoming(s.graph, id);
    forall i | 0 <= i < |edges| ensures EdgeActive(settled, edges[i]) <==> Arrivals(s, m, edges)[i].Some? {
      EdgeAgrees(s, m, settled, edges[i]);
    }
    if e :| e in edges && EdgeActive(settled, e) {
      var i :| 0 <= i < |edges| && edges[i] == e;
      assert Arrivals(s, m, edges)[i].Some?;
    }
    if i :| 0 <= i < |edges| && Arrivals(s, m, edges)[i].Some? {
      assert EdgeActive(settled, edges[i]);
    }
  }

  /** No node is resumed, so a verdict of `Ran` or `Halted` comes from an executor. */
  lemma DecideAgrees(s: Setup, m: Verdicts, settled: Ports, node: Node)
    requires UniqueIds(s.graph) && Solves(s, m) && s.resume == map[] && node in s.graph.nodes
    requires Agrees(s, m, settled)
    ensures Skippable(s.graph, settled, node) ==> Collapses(s, m, node.id) && !At(m, node.id).Ran?
    ensures Runnable(s.graph, settled, node) ==> !Collapses(s, m, node.id)
  {
    hide Gather, Resolve, Call, VisualOnly, PortsOf, Agrees;
    var i :| 0 <= i < |s.graph.nodes| && s.graph.nodes[i] == node;
    NamedAt(s.graph, i);
    if Unblocked(settled, Incoming(s.graph, node.id)) {
      ActiveAgrees(s, m, settled, node.id);
    }
    hide SomeActive, Unblocked, Arrivals, Into;
    assert At(m, node.id) == Judge(s, node, m);
  }

  /** A note never runs. */
  lemma NotesAreQuiet(s: Setup, m: Verdicts, id: string)
    requires Solves(s, m) && s.resume == map[] && Collapses(s, m, id)
    ensures At(m, id).Dark? || At(m, id).Visual?
  {
    if IsNamedNote(s.graph, id) {
      var node := Find(s.graph.nodes, id).value;
      hide Gather, Resolve, Call, Find, IsNamedNote;
      assert IsNote(node);
      assert At(m, node.id) == Judge(s, node, m);
    }
  }

  /** Each skip collapses, and what is settled so far still agrees. */
  lemma {:induction false} CascadeAgrees(
      s: Setup, m: Verdicts, base: Ports, held: set<string>, skipped: seq<string>, k: nat)
    requires UniqueIds(s.graph) && Solves(s, m) && s.resume == map[] && Agrees(s, m, base)
    requires Cascade(s.graph, base, held, skipped) && k <= |skipped|
    ensures Agrees(s, m, With(base, skipped[..k]))
    ensures forall j :: 0 <= j < k ==> Collapses(s, m, skipped[j])
  {
    hide Agrees, Collapses, Solves;
    if k > 0 {
      CascadeAgrees(s, m, base, held, skipped, k - 1);
      var now, id := With(base, skipped[..k - 1]), skipped[k - 1];
      assert Dies(s.graph, now, held, id);
      SkipAgrees(s, m, now, held, id);
      assert skipped[..k][..k - 1] == skipped[..k - 1];
    } else {
      assert skipped[..0] == [];
    }
  }

  lemma SkipAgrees(s: Setup, m: Verdicts, settled: Ports, held: set<string>, id: string)
    requires UniqueIds(s.graph) && Solves(s, m) && s.resume == map[] && Agrees(s, m, settled)
    requires Dies(s.graph, settled, held, id)
    ensures Collapses(s, m, id) && Agrees(s, m, settled[id := []])
  {
    hide Skippable, Collapses, PortsOf, Solves;
    var node :| node in s.graph.nodes && node.id == id && Skippable(s.graph, settled, node);
    DecideAgrees(s, m, settled, node);
    QuietPorts(s, m, id);
  }

  /**
   * The frontier and the walk cannot disagree: on any rows that fit, what the frontier skips is what the run never
   * executes, and what it readies is something else.
   */
  lemma FrontierAgrees(s: Setup, m: Verdicts, rows: Rows, ready: seq<string>, skipped: seq<string>)
    requires UniqueIds(s.graph) && Solves(s, m) && s.resume == map[] && Agrees(s, m, SettledPorts(rows))
    requires Answers(s.graph, rows, ready, skipped)
    ensures forall i :: 0 <= i < |skipped| ==> Collapses(s, m, skipped[i])
    ensures forall i :: 0 <= i < |ready| ==> !Collapses(s, m, ready[i])
    ensures Agrees(s, m, With(SettledPorts(rows), skipped))
  {
    hide Skippable, Runnable, Collapses, PortsOf, Agrees;
    var base, held := SettledPorts(rows), HeldIds(rows);
    CascadeAgrees(s, m, base, held, skipped, |skipped|);
    assert skipped[..|skipped|] == skipped;
    forall i | 0 <= i < |ready| ensures !Collapses(s, m, ready[i]) {
      assert ready[i] in ready;
      var node :| node in s.graph.nodes && node.id == ready[i] && Runnable(s.graph, With(base, skipped), node);
      DecideAgrees(s, m, With(base, skipped), node);
    }
  }
}

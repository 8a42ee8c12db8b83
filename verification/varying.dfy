/** One run against another that differs in one executor. */
module Varying {
  import opened Wrappers
  import opened Values
  import opened Schema
  import opened Activation
  import opened Topology
  import opened Semantics
  import opened Store
  import opened Frontier
  import opened Checkpoints
  import opened Jobs

  /**
   * The same run, except for what the executor of `gate` does. A person's answer is such a change, and so is an
   * executor that fails once and succeeds the next time.
   */
  ghost predicate SameButFor(s: Setup, t: Setup, gate: string) {
    && t == s.(run := t.run)
    && forall name, node: Node, inputs {:trigger t.run(name, node, inputs)} ::
         node.id != gate ==> t.run(name, node, inputs) == s.run(name, node, inputs)
  }

  lemma JudgedSame(s: Setup, t: Setup, gate: string, m: Verdicts, mt: Verdicts, node: Node)
    requires SameButFor(s, t, gate) && node.id != gate
    requires Arrivals(t, mt, Incoming(s.graph, node.id)) == Arrivals(s, m, Incoming(s.graph, node.id))
    ensures Judge(t, node, mt) == Judge(s, node, m)
  {
    hide Arrivals, Gather, VisualOnly, Into;
  }

  /** These nodes' incoming edges come from these nodes. */
  ghost predicate Upstream(g: Graph, ids: set<string>) {
    forall id, e {:trigger id in ids, e in Incoming(g, id)} :: id in ids && e in Incoming(g, id) ==> e.source in ids
  }

  /** Nodes whose verdicts do not hang on the gate are judged alike before and after the answer. */
  lemma {:induction false} VerdictKept(
      s: Setup, t: Setup, gate: string, m: Verdicts, mt: Verdicts, ids: set<string>, order: seq<Node>, k: nat)
    requires VisitOrder(s.graph, order) && k < |order| && SameButFor(s, t, gate)
    requires Solves(s, m) && Solves(t, mt) && Upstream(s.graph, ids) && gate !in ids && order[k].id in ids
    ensures At(mt, order[k].id) == At(m, order[k].id)
    decreases k
  {
    var node, edges := order[k], Incoming(s.graph, order[k].id);
    NodeInGraph(s.graph, order, k);
    hide VisitOrder, Judge, Arrival, Into;
    forall i | 0 <= i < |edges| ensures Arrivals(t, mt, edges)[i] == Arrivals(s, m, edges)[i] {
      assert edges[i] in edges;
      var j := SourcePlace(s.graph, order, k, i);
      VerdictKept(s, t, gate, m, mt, ids, order, j);
      ArrivesSame(s, t, m, mt, edges[i]);
    }
    assert Arrivals(t, mt, edges) == Arrivals(s, m, edges);
    JudgedSame(s, t, gate, m, mt, node);
    assert At(m, node.id) == Judge(s, node, m) && At(mt, node.id) == Judge(t, node, mt);
  }

  /** The rows but the gate's hang on settled rows alone. */
  lemma RowsUpstream(g: Graph, rows: Rows, gate: string)
    requires Grounded(g, rows) && !Settled(rows, gate)
    ensures Upstream(g, rows.Keys - {gate})
  {
    forall id, e | id in rows && e in Incoming(g, id) ensures e.source in rows && e.source != gate {
      assert SourcesSettled(g, rows, id);
    }
  }

  lemma ArrivesSame(s: Setup, t: Setup, m: Verdicts, mt: Verdicts, e: Edge)
    requires s.graph == t.graph && s.kinds == t.kinds && At(mt, e.source) == At(m, e.source)
    ensures Arrival(t, mt, e) == Arrival(s, m, e)
  {
    PublishesAlike(s, t, mt, e.source);
  }

  lemma RowKept(s: Setup, t: Setup, m: Verdicts, mt: Verdicts, id: string, row: Row)
    requires s.graph == t.graph && s.kinds == t.kinds && At(mt, id) == At(m, id) && RowFits(s, m, id, row)
    ensures RowFits(t, mt, id, row)
  {
    PublishesAlike(s, t, mt, id);
  }

  lemma SameGraphOf(s: Setup, t: Setup, gate: string)
    requires SameButFor(s, t, gate)
    ensures t.graph == s.graph && t.kinds == s.kinds && t.resume == s.resume
  {
  }

  /** Nothing the gate hangs on hangs on the gate. */
  lemma BeforeUpstream(g: Graph, order: seq<Node>, k: nat)
    requires VisitOrder(g, order) && k < |order|
    ensures Upstream(g, Before(order, k)) && order[k].id !in Before(order, k)
  {
    NotPlacedYet(g, order, k);
    forall id, e | id in Before(order, k) && e in Incoming(g, id) ensures e.source in Before(order, k) {
      var i :| 0 <= i < k && order[i].id == id;
      var l :| 0 <= l < |Incoming(g, id)| && Incoming(g, id)[l] == e;
      var j := SourcePlace(g, order, i, l);
    }
  }

  ghost function Before(order: seq<Node>, k: nat): set<string>
    requires k <= |order|
  {
    set j | 0 <= j < k :: order[j].id
  }

  /** Its sources are judged alike, so it is handed the same inputs before and after the answer. */
  lemma HandedSame(s: Setup, t: Setup, m: Verdicts, mt: Verdicts, node: Node)
    requires UniqueIds(s.graph) && Sortable(s.graph) && SameButFor(s, t, node.id) && node in s.graph.nodes
    requires Solves(s, m) && Solves(t, mt)
    ensures Arrivals(t, mt, Incoming(t.graph, node.id)) == Arrivals(s, m, Incoming(s.graph, node.id))
  {
    hide VisitOrder, Solves, Arrival, Into, Upstream, Before;
    var order := VisitOrderExists(s.graph);
    var k := VisitedAt(s.graph, order, node);
    var edges := Incoming(s.graph, node.id);
    BeforeUpstream(s.graph, order, k);
    forall i | 0 <= i < |edges| ensures Arrivals(t, mt, edges)[i] == Arrivals(s, m, edges)[i] {
      var j := SourcePlace(s.graph, order, k, i);
      assert order[j].id in Before(order, k) by { InBefore(order, k, j); }
      VerdictKept(s, t, node.id, m, mt, Before(order, k), order, j);
      ArrivesSame(s, t, m, mt, edges[i]);
    }
    assert Arrivals(t, mt, edges) == Arrivals(s, m, edges);
  }

  lemma InBefore(order: seq<Node>, k: nat, j: nat)
    requires j < k <= |order|
    ensures order[j].id in Before(order, k)
  {
  }

  // ---- rows ---------------------------------------------------------------------------------------------------

  /** The rows but the changed node's fit the changed run. */
  lemma RowsKept(s: Setup, t: Setup, gate: string, m: Verdicts, mt: Verdicts, rows: Rows)
    requires UniqueIds(s.graph) && Sortable(s.graph) && SameButFor(s, t, gate) && Solves(s, m) && Solves(t, mt)
    requires Grounded(s.graph, rows) && Fits(s, m, rows) && !Settled(rows, gate) && rows.Keys <= Ids(s.graph)
    ensures Fits(t, mt, rows - {gate})
  {
    var order := VisitOrderExists(s.graph);
    var left := rows - {gate};
    hide VisitOrder, RowFits, Solves, SameButFor, Into, Upstream;
    SameGraphOf(s, t, gate);
    RowsUpstream(s.graph, rows, gate);
    forall id | id in left ensures RowFits(t, mt, id, left[id]) {
      PlacedIds(s.graph, order, id);
      var k :| 0 <= k < |order| && order[k].id == id;
      VerdictKept(s, t, gate, m, mt, rows.Keys - {gate}, order, k);
      RowKept(s, t, m, mt, id, left[id]);
    }
  }

  /** Dropping the changed node's row leaves rows that are sound for the changed run. */
  lemma ChangeKeepsSound(s: Setup, t: Setup, gate: string, rows: Rows)
    requires UniqueIds(s.graph) && SameButFor(s, t, gate)
    requires Sound(s, rows) && !Settled(rows, gate)
    ensures Sound(t, rows - {gate})
  {
    ReleaseSound(s, rows, gate);
    hide Meaning, Fits, Doomed, Solves, SameButFor, Into, Sortable, Grounded;
    SameGraphOf(s, t, gate);
    if Sortable(s.graph) { RowsKept(s, t, gate, Meaning(s), Meaning(t), rows); }
  }

  /** Where nothing runs at the changed node, nothing runs there after the change. */
  lemma CollapseKept(s: Setup, t: Setup, m: Verdicts, mt: Verdicts, id: string)
    requires UniqueIds(s.graph) && Sortable(s.graph) && SameButFor(s, t, id) && Solves(s, m) && Solves(t, mt)
    requires id in Ids(s.graph)
    ensures Collapses(t, mt, id) <==> Collapses(s, m, id)
  {
    hide Arrivals, Gather, VisualOnly, Into, Sortable, IsNamedNote, UniqueIds;
    var i := IndexOf(s.graph, id);
    var node := s.graph.nodes[i];
    HandedSame(s, t, m, mt, node);
    assert At(m, id) == Judge(s, node, m) && At(mt, id) == Judge(t, node, mt);
  }

  lemma DispatchableKept(s: Setup, t: Setup, rows: Rows, id: string)
    requires UniqueIds(s.graph) && SameButFor(s, t, id) && Dispatchable(s, rows, id)
    ensures Dispatchable(t, rows, id)
  {
    hide Meaning, Collapses, Solves, SameButFor, Into, Sortable, SourcesSettled;
    SameGraphOf(s, t, id);
    if Sortable(s.graph) { CollapseKept(s, t, Meaning(s), Meaning(t), id); }
  }

  /** A claim on the changed node stands. */
  lemma ClaimKeepsSound(s: Setup, t: Setup, rows: Rows, id: string)
    requires UniqueIds(s.graph) && SameButFor(s, t, id) && Sound(s, rows)
    requires id in rows && rows[id].status.Claimed?
    ensures Sound(t, rows)
  {
    hide Doomed, Meaning, Collapses, Into, Sortable, SameButFor, UniqueIds, Solves;
    SameGraphOf(s, t, id);
    ChangeKeepsSound(s, t, id, rows);
    if Sortable(s.graph) {
      assert RowFits(s, Meaning(s), id, rows[id]);
      CollapseKept(s, t, Meaning(s), Meaning(t), id);
    }
    var left := rows - {id};
    assert SourcesSettled(s.graph, rows, id);
    forall e | e in Incoming(s.graph, id) ensures Settled(left, e.source) { assert Settled(rows, e.source); }
    PutSound(t, left, id, rows[id]);
    assert left[id := rows[id]] == rows;
  }
}

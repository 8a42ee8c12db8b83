/** What rests on settled rows alone, whatever executors answer. */
module Settling {
  import opened Wrappers
  import opened Schema
  import opened Activation
  import opened Topology
  import opened Store
  import opened Frontier
  import opened Checkpoints

  /** By what is settled the node may run. */
  ghost predicate Live(g: Graph, rows: Rows, id: string) {
    exists node :: node in g.nodes && node.id == id && Runnable(g, SettledPorts(rows), node)
  }

  /** A job for the node may be started. */
  ghost predicate Startable(g: Graph, rows: Rows, id: string) {
    id in Ids(g) && SourcesSettled(g, rows, id) && Live(g, rows, id)
  }

  /** Every row's node has its sources settled, and a node that is more than skipped is live by them. */
  ghost predicate Legit(g: Graph, rows: Rows) {
    forall id {:trigger SourcesSettled(g, rows, id)} :: id in rows ==>
      id in Ids(g) && SourcesSettled(g, rows, id) && (rows[id].status.Skipped? || Live(g, rows, id))
  }

  lemma PortsGrow(seen: Rows, rows: Rows)
    requires Later(seen, rows)
    ensures Grows(SettledPorts(seen), SettledPorts(rows))
  {
    forall id | id in SettledPorts(seen) ensures id in SettledPorts(rows) && SettledPorts(rows)[id] == SettledPorts(seen)[id] {
      assert Settled(seen, id);
    }
  }

  lemma SourcesLater(g: Graph, seen: Rows, rows: Rows, id: string)
    requires Later(seen, rows) && SourcesSettled(g, seen, id)
    ensures SourcesSettled(g, rows, id)
  {
    hide Into;
    forall e | e in Incoming(g, id) ensures Settled(rows, e.source) { assert Settled(seen, e.source); }
  }

  lemma LiveLater(g: Graph, seen: Rows, rows: Rows, id: string)
    requires Later(seen, rows) && Live(g, seen, id)
    ensures Live(g, rows, id)
  {
    hide Runnable, SettledPorts, Grows;
    var node :| node in g.nodes && node.id == id && Runnable(g, SettledPorts(seen), node);
    PortsGrow(seen, rows);
    RunnableGrows(g, SettledPorts(seen), SettledPorts(rows), node);
  }

  lemma StartableLater(g: Graph, seen: Rows, rows: Rows, id: string)
    requires Later(seen, rows) && Startable(g, seen, id)
    ensures Startable(g, rows, id)
  {
    SourcesLater(g, seen, rows, id);
    LiveLater(g, seen, rows, id);
  }

  /** A row may be written for a node that is not settled, once its sources are. */
  lemma PutLegit(g: Graph, rows: Rows, id: string, row: Row)
    requires Legit(g, rows) && id in Ids(g) && SourcesSettled(g, rows, id) && !Settled(rows, id)
    requires row.status.Skipped? || Live(g, rows, id)
    ensures Legit(g, rows[id := row]) && Later(rows, rows[id := row])
  {
    hide SourcesSettled, Live;
    var after := rows[id := row];
    forall x | x in after
      ensures x in Ids(g) && SourcesSettled(g, after, x) && (after[x].status.Skipped? || Live(g, after, x))
    {
      assert SourcesSettled(g, rows, x);
      SourcesLater(g, rows, after, x);
      if Live(g, rows, x) { LiveLater(g, rows, after, x); }
    }
  }

  lemma ReleaseLegit(g: Graph, rows: Rows, id: string)
    requires Legit(g, rows) && !Settled(rows, id)
    ensures Legit(g, rows - {id}) && Later(rows, rows - {id})
  {
    hide SourcesSettled, Live;
    var after := rows - {id};
    forall x | x in after
      ensures x in Ids(g) && SourcesSettled(g, after, x) && (after[x].status.Skipped? || Live(g, after, x))
    {
      assert SourcesSettled(g, rows, x);
      SourcesLater(g, rows, after, x);
      if Live(g, rows, x) { LiveLater(g, rows, after, x); }
    }
  }

  /** A node nothing can run is skipped, if it has a row at all. */
  lemma DeadIsSkipped(g: Graph, rows: Rows, node: Node)
    requires UniqueIds(g) && Legit(g, rows) && node in g.nodes && Skippable(g, SettledPorts(rows), node)
    ensures node.id in rows ==> rows[node.id].status.Skipped?
  {
    hide Unblocked, SomeActive, SettledPorts, Into;
    if node.id in rows && Live(g, rows, node.id) {
      var other :| other in g.nodes && other.id == node.id && Runnable(g, SettledPorts(rows), other);
      OneNode(g, node, other);
    }
    assert node.id in rows ==> SourcesSettled(g, rows, node.id) || !SourcesSettled(g, rows, node.id);
  }

  /** What a snapshot's cascade settles stands in the rows as the cascade has it. */
  lemma {:induction false} CascadeStands(
      g: Graph, seen: Rows, rows: Rows, ready: seq<string>, skipped: seq<string>, k: nat)
    requires UniqueIds(g) && Legit(g, rows) && Later(seen, rows) && Answers(g, seen, ready, skipped) && k <= |skipped|
    requires forall j :: 0 <= j < k ==> Settled(rows, skipped[j])
    ensures Grows(With(SettledPorts(seen), skipped[..k]), SettledPorts(rows))
  {
    hide Skippable, Runnable, Legit, Exhausted, Ready;
    if k == 0 {
      assert skipped[..0] == [];
      PortsGrow(seen, rows);
    } else {
      CascadeStands(g, seen, rows, ready, skipped, k - 1);
      var now, id := With(SettledPorts(seen), skipped[..k - 1]), skipped[k - 1];
      assert skipped[..k][..k - 1] == skipped[..k - 1];
      assert Dies(g, now, HeldIds(seen), id);
      var node :| node in g.nodes && node.id == id && Skippable(g, now, node);
      SkippableGrows(g, now, SettledPorts(rows), node);
      DeadIsSkipped(g, rows, node);
    }
  }

  /**
   * A skip decided from any snapshot, however stale, lands on a free or already skipped node: never on one that is
   * claimed, parked, completed or failed.
   */
  lemma StaleSkipLands(g: Graph, seen: Rows, rows: Rows, ready: seq<string>, skipped: seq<string>, k: nat)
    requires UniqueIds(g) && Legit(g, rows) && Later(seen, rows) && Answers(g, seen, ready, skipped) && k < |skipped|
    requires forall j :: 0 <= j < k ==> Settled(rows, skipped[j])
    ensures skipped[k] in rows ==> rows[skipped[k]].status.Skipped?
    ensures AfterSkip(rows, skipped[k]) == if skipped[k] in rows then rows else rows[skipped[k] := NewRow(Skipped)]
    ensures Legit(g, AfterSkip(rows, skipped[k])) && Later(rows, AfterSkip(rows, skipped[k]))
  {
    hide Skippable, Runnable, Legit, Exhausted, Ready, Cascade, SourcesSettled, Live;
    CascadeStands(g, seen, rows, ready, skipped, k);
    var now, id := With(SettledPorts(seen), skipped[..k]), skipped[k];
    DiesAt(g, seen, ready, skipped, k);
    var node :| node in g.nodes && node.id == id && Skippable(g, now, node);
    SkippableGrows(g, now, SettledPorts(rows), node);
    DeadIsSkipped(g, rows, node);
    if id !in rows {
      SkippableSettled(g, rows, node);
      PutLegit(g, rows, id, NewRow(Skipped));
    }
  }

  lemma DiesAt(g: Graph, seen: Rows, ready: seq<string>, skipped: seq<string>, k: nat)
    requires Answers(g, seen, ready, skipped) && k < |skipped|
    ensures Dies(g, With(SettledPorts(seen), skipped[..k]), HeldIds(seen), skipped[k])
  {
  }

  lemma SkippableSettled(g: Graph, rows: Rows, node: Node)
    requires node in g.nodes && Skippable(g, SettledPorts(rows), node)
    ensures node.id in Ids(g) && SourcesSettled(g, rows, node.id)
  {
    var i :| 0 <= i < |g.nodes| && g.nodes[i] == node;
    IdsHas(g, i);
  }

  /** Once the cascade is settled, each ready node may have a job, then and ever after. */
  lemma ReadyStarts(g: Graph, seen: Rows, rows: Rows, ready: seq<string>, skipped: seq<string>, i: nat)
    requires UniqueIds(g) && Legit(g, rows) && Later(seen, rows) && Answers(g, seen, ready, skipped) && i < |ready|
    requires forall j :: 0 <= j < |skipped| ==> Settled(rows, skipped[j])
    ensures Startable(g, rows, ready[i])
  {
    hide Skippable, Legit, Exhausted, Cascade, Into;
    CascadeStands(g, seen, rows, ready, skipped, |skipped|);
    assert skipped[..|skipped|] == skipped;
    assert ready[i] in ready;
    var now := With(SettledPorts(seen), skipped);
    var node :| node in g.nodes && node.id == ready[i] && Runnable(g, now, node);
    RunnableGrows(g, now, SettledPorts(rows), node);
    var j :| 0 <= j < |g.nodes| && g.nodes[j] == node;
    IdsHas(g, j);
  }

  // ---- decisions are stable -------------------------------------------------------------------------------

  lemma BaseGrows(seen: Rows, rows: Rows, skipped2: seq<string>)
    requires Later(seen, rows) && forall i :: 0 <= i < |skipped2| ==> skipped2[i] !in rows
    ensures Grows(SettledPorts(seen), With(SettledPorts(rows), skipped2))
    ensures Grows(SettledPorts(rows), With(SettledPorts(rows), skipped2))
  {
    PortsGrow(seen, rows);
    forall id | id in SettledPorts(rows)
      ensures id in With(SettledPorts(rows), skipped2) && With(SettledPorts(rows), skipped2)[id] == SettledPorts(rows)[id]
    {
      WithKeys(SettledPorts(rows), skipped2, id);
    }
  }

  /** A node nothing can run once this cascade is settled is settled by then, with no ports. */
  lemma DeadIsSettled(g: Graph, rows: Rows, ready: seq<string>, skipped: seq<string>, node: Node)
    requires UniqueIds(g) && Legit(g, rows) && Answers(g, rows, ready, skipped) && node in g.nodes
    requires Skippable(g, With(SettledPorts(rows), skipped), node)
    ensures var all := With(SettledPorts(rows), skipped); node.id in all && all[node.id] == []
  {
    hide Skippable, Runnable, Cascade, SourcesSettled;
    var all := With(SettledPorts(rows), skipped);
    SkippedHaveNoRow(g, rows, ready, skipped);
    WithKeys(SettledPorts(rows), skipped, node.id);
    assert !Dies(g, all, HeldIds(rows), node.id);
    if node.id in rows && !rows[node.id].status.Skipped? {
      assert SourcesSettled(g, rows, node.id) || !SourcesSettled(g, rows, node.id);
      var other :| other in g.nodes && other.id == node.id && Runnable(g, SettledPorts(rows), other);
      BaseGrows(rows, rows, skipped);
      RunnableGrows(g, SettledPorts(rows), all, other);
      OneNode(g, node, other);
      NeverBoth(g, all, node);
    }
  }

  lemma NeverBoth(g: Graph, settled: Ports, node: Node)
    requires Runnable(g, settled, node)
    ensures !Skippable(g, settled, node)
  {
  }

  /** What an older snapshot's cascade settles, a later one has settled or settles too, alike. */
  lemma {:induction false} CascadeKept(
      g: Graph, seen: Rows, rows: Rows, ready: seq<string>, skipped: seq<string>, ready2: seq<string>, skipped2: seq<string>,
      k: nat)
    requires UniqueIds(g) && Legit(g, rows) && Later(seen, rows)
    requires Answers(g, seen, ready, skipped) && Answers(g, rows, ready2, skipped2) && k <= |skipped|
    ensures Grows(With(SettledPorts(seen), skipped[..k]), With(SettledPorts(rows), skipped2))
  {
    hide Skippable, Runnable, Legit, Answers;
    var all := With(SettledPorts(rows), skipped2);
    if k == 0 {
      assert skipped[..0] == [];
      SkippedHaveNoRow(g, rows, ready2, skipped2);
      BaseGrows(seen, rows, skipped2);
    } else {
      CascadeKept(g, seen, rows, ready, skipped, ready2, skipped2, k - 1);
      var now, id := With(SettledPorts(seen), skipped[..k - 1]), skipped[k - 1];
      assert skipped[..k][..k - 1] == skipped[..k - 1];
      DiesAt(g, seen, ready, skipped, k - 1);
      var node :| node in g.nodes && node.id == id && Skippable(g, now, node);
      SkippableGrows(g, now, all, node);
      DeadIsSettled(g, rows, ready2, skipped2, node);
    }
  }

  /** By the end of a cascade what it skips can still not be run. */
  lemma SkippedStaysDead(g: Graph, rows: Rows, ready: seq<string>, skipped: seq<string>, id: string) returns (node: Node)
    requires Answers(g, rows, ready, skipped) && id in skipped
    ensures node in g.nodes && node.id == id && Skippable(g, With(SettledPorts(rows), skipped), node)
  {
    hide Skippable, Runnable, Ready;
    var k :| 0 <= k < |skipped| && skipped[k] == id;
    var now := With(SettledPorts(rows), skipped[..k]);
    DiesAt(g, rows, ready, skipped, k);
    node :| node in g.nodes && node.id == id && Skippable(g, now, node);
    CascadeInside(g, g, SettledPorts(rows), HeldIds(rows), skipped, skipped, k);
    SkippableGrows(g, now, With(SettledPorts(rows), skipped), node);
  }

  lemma ReadyNow(g: Graph, rows: Rows, ready: seq<string>, skipped: seq<string>, id: string) returns (node: Node)
    requires Answers(g, rows, ready, skipped) && id in ready
    ensures node in g.nodes && node.id == id && Runnable(g, With(SettledPorts(rows), skipped), node)
    ensures id !in With(SettledPorts(rows), skipped)
  {
    hide Runnable, Cascade, Exhausted;
    node :| node in g.nodes && node.id == id && Runnable(g, With(SettledPorts(rows), skipped), node);
  }

  /** A ready node still runs once a later cascade is settled. */
  lemma ReadyKept(
      g: Graph, seen: Rows, rows: Rows, ready: seq<string>, skipped: seq<string>, ready2: seq<string>, skipped2: seq<string>,
      id: string)
    returns (node: Node)
    requires UniqueIds(g) && Legit(g, rows) && Later(seen, rows) && id in ready
    requires Answers(g, seen, ready, skipped) && Answers(g, rows, ready2, skipped2)
    ensures node in g.nodes && node.id == id && Runnable(g, With(SettledPorts(rows), skipped2), node)
    ensures id !in skipped2
  {
    hide Skippable, Runnable, Legit, Answers;
    CascadeKept(g, seen, rows, ready, skipped, ready2, skipped2, |skipped|);
    assert skipped[..|skipped|] == skipped;
    node := ReadyNow(g, seen, ready, skipped, id);
    RunnableGrows(g, With(SettledPorts(seen), skipped), With(SettledPorts(rows), skipped2), node);
    NeverBoth(g, With(SettledPorts(rows), skipped2), node);
    if id in skipped2 {
      var other := SkippedStaysDead(g, rows, ready2, skipped2, id);
      OneNode(g, node, other);
    }
  }

  /**
   * Decisions are stable as rows settle, on any graph and whatever executions end in: a node once skipped is never
   * handed out later, and a ready node is never skipped and stays ready until it has a row.
   */
  lemma DecisionsStable(
      g: Graph, seen: Rows, rows: Rows, ready: seq<string>, skipped: seq<string>, ready2: seq<string>, skipped2: seq<string>,
      id: string)
    requires UniqueIds(g) && Legit(g, rows) && Later(seen, rows)
    requires Answers(g, seen, ready, skipped) && Answers(g, rows, ready2, skipped2)
    ensures id in skipped ==> id !in ready2
    ensures id in ready ==> id !in skipped2
    ensures id in ready && id !in rows ==> id in ready2
  {
    hide Skippable, Runnable, Legit, Answers;
    if id in ready {
      var node := ReadyKept(g, seen, rows, ready, skipped, ready2, skipped2, id);
      if id !in rows { StillReady(g, rows, ready2, skipped2, node); }
    }
    if id in skipped && id in ready2 {
      CascadeKept(g, seen, rows, ready, skipped, ready2, skipped2, |skipped|);
      assert skipped[..|skipped|] == skipped;
      var node := ReadyNow(g, rows, ready2, skipped2, id);
      SkippedHaveNoRow(g, seen, ready, skipped);
      SettledBase(seen, skipped, id);
    }
  }

  lemma SettledBase(rows: Rows, skipped: seq<string>, id: string)
    requires id in skipped && forall i :: 0 <= i < |skipped| ==> skipped[i] !in rows
    ensures id in With(SettledPorts(rows), skipped)
  {
    WithKeys(SettledPorts(rows), skipped, id);
  }

  lemma StillReady(g: Graph, rows: Rows, ready: seq<string>, skipped: seq<string>, node: Node)
    requires Answers(g, rows, ready, skipped) && node in g.nodes && node.id !in rows && node.id !in skipped
    requires Runnable(g, With(SettledPorts(rows), skipped), node)
    ensures node.id in ready
  {
    hide Runnable, Cascade, Exhausted;
    SkippedHaveNoRow(g, rows, ready, skipped);
    WithKeys(SettledPorts(rows), skipped, node.id);
    assert Ready(g, With(SettledPorts(rows), skipped), HeldIds(rows), node.id);
  }
}

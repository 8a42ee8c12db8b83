/**
 * Kahn's loop where ids are unique.
 *
 * The queue is then an order: no node is in it twice, each comes after all its sources, every in-degree counts the
 * edges still to come, and the ids are queued as the first-in-first-out law has it. One edge keeps this in the middle
 * of a turn, all the edges keep it over the turn, and the start has it.
 */
module Queueing {
  import opened Wrappers
  import opened Schema
  import opened Topology
  import opened Turning

  /** `indexOf` names every node's index and nothing else. */
  ghost predicate Indexed(g: Graph, indexOf: map<string, nat>) {
    && (forall i :: 0 <= i < |g.nodes| ==> g.nodes[i].id in indexOf && indexOf[g.nodes[i].id] == i)
    && (forall id :: id in indexOf ==> indexOf[id] < |g.nodes| && g.nodes[indexOf[id]].id == id)
    && indexOf.Keys == Ids(g)
  }

  /** The ids of the queue's first `at` nodes. */
  ghost function Done(g: Graph, queue: seq<nat>, at: nat): (done: set<string>)
    requires PartialOrder(g, queue) && at <= |queue|
    ensures done == Members(IdsAt(g, queue)[..at])
  {
    Members(IdsAt(g, queue)[..at])
  }

  /** Every in-degree counts the edges still to come, and the queue holds the nodes that wait for none. */
  ghost predicate Counts(g: Graph, degrees: seq<nat>, queue: seq<nat>, done: set<string>) {
    && |degrees| == |g.nodes|
    && (forall t :: 0 <= t < |degrees| ==> degrees[t] == Pending(g.edges, g.nodes[t].id, done))
    && Waiting(degrees, queue)
  }

  /** `ids` is what the first-in-first-out law makes of its first `at` entries. */
  ghost predicate Lawful(g: Graph, ids: seq<string>, at: nat) {
    && at <= |ids|
    && ids == Entries(g, |g.nodes|) + FreedBy(g, ids, at)
    && (forall j :: 0 <= j < at ==> j < |Entries(g, |g.nodes|) + FreedBy(g, ids, j)|)
  }

  lemma FreesIff(g: Graph, done: set<string>, k: nat)
    requires k < |g.edges| && g.edges[k].source !in done && g.edges[k].target in Ids(g)
    ensures var e := g.edges[k];
            Between(g.edges[..k + 1], e.source, e.target) <= Pending(g.edges, e.target, done)
    ensures var e := g.edges[k];
            Pending(g.edges, e.target, done) == Between(g.edges[..k + 1], e.source, e.target)
            <==> Frees(g, done, e.source, k)
  {
    var e := g.edges[k];
    PendingAfter(g.edges, e.target, done, e.source);
    PendingZero(g.edges, e.target, done + {e.source});
    BetweenPrefix(g.edges, k + 1, e.source, e.target);
  }

  /** A freed node may join the queue: all its sources are already in place. */
  lemma JoinQueue(g: Graph, queue: seq<nat>, at: nat, k: nat, t: nat)
    requires PartialOrder(g, queue) && at < |queue| && k < |g.edges| && t < |g.nodes| && t !in queue
    requires g.edges[k].target == g.nodes[t].id
    requires Frees(g, Done(g, queue, at), g.nodes[queue[at]].id, k)
    ensures PartialOrder(g, queue + [t])
    ensures IdsAt(g, queue + [t]) == IdsAt(g, queue) + [g.edges[k].target]
  {
    var longer := queue + [t];
    forall p, e | 0 <= p < |longer| && e in g.edges && e.target == g.nodes[longer[p]].id
      ensures Before(g, longer, p, e.source)
    {
      if p < |queue| {
        assert Before(g, queue, p, e.source);
        var j :| 0 <= j < p && g.nodes[queue[j]].id == e.source;
        assert longer[j] == queue[j];
      } else if e.source == g.nodes[queue[at]].id {
        assert longer[at] == queue[at];
      } else {
        var ids := IdsAt(g, queue)[..at];
        assert e.source in Members(ids);
        var j :| 0 <= j < |ids| && ids[j] == e.source;
        assert longer[j] == queue[j];
      }
    }
  }

  /** Part way through the edges of `u`: each in-degree is down by the edges of `u` already seen. */
  ghost predicate Counting(g: Graph, degrees: seq<nat>, done: set<string>, u: string, k: nat)
    requires k <= |g.edges|
  {
    && |degrees| == |g.nodes|
    && forall t :: 0 <= t < |degrees| ==>
         degrees[t] + Between(g.edges[..k], u, g.nodes[t].id) == Pending(g.edges, g.nodes[t].id, done)
  }

  ghost predicate Waiting(degrees: seq<nat>, queue: seq<nat>) {
    forall t: nat :: t < |degrees| ==> (t in queue <==> degrees[t] == 0)
  }

  lemma CountStart(g: Graph, degrees: seq<nat>, queue: seq<nat>, done: set<string>, u: string)
    requires Counts(g, degrees, queue, done)
    ensures Counting(g, degrees, done, u, 0) && Waiting(degrees, queue)
  {
  }

  lemma WaitingStep(degrees: seq<nat>, queue: seq<nat>, target: nat)
    requires Waiting(degrees, queue) && target < |degrees| && degrees[target] > 0
    ensures target !in queue
    ensures Waiting(degrees[target := degrees[target] - 1], if degrees[target] == 1 then queue + [target] else queue)
  {
  }

  lemma CountStep(g: Graph, degrees: seq<nat>, done: set<string>, u: string, k: nat, target: nat)
    requires UniqueIds(g) && k < |g.edges| && Counting(g, degrees, done, u, k) && u !in done
    requires g.edges[k].source == u && target < |g.nodes| && g.nodes[target].id == g.edges[k].target
    ensures degrees[target] > 0
    ensures Counting(g, degrees[target := degrees[target] - 1], done, u, k + 1)
    ensures degrees[target] == 1 <==> Frees(g, done, u, k)
  {
    IdsHas(g, target);
    FreesIff(g, done, k);
    forall t | 0 <= t < |degrees|
      ensures Between(g.edges[..k + 1], u, g.nodes[t].id)
           == Between(g.edges[..k], u, g.nodes[t].id) + if t == target then 1 else 0
    {
      BetweenStep(g.edges, k, u, g.nodes[t].id);
      assert SameId(g, t, target) ==> t == target;
    }
  }

  lemma CountSame(g: Graph, degrees: seq<nat>, done: set<string>, u: string, k: nat)
    requires k < |g.edges| && Counting(g, degrees, done, u, k)
    requires g.edges[k].source != u || g.edges[k].target !in Ids(g)
    ensures Counting(g, degrees, done, u, k + 1)
  {
    forall t | 0 <= t < |degrees|
      ensures Between(g.edges[..k + 1], u, g.nodes[t].id) == Between(g.edges[..k], u, g.nodes[t].id)
    {
      IdsHas(g, t);
      BetweenStep(g.edges, k, u, g.nodes[t].id);
    }
  }

  lemma NotYetDone(g: Graph, queue: seq<nat>, at: nat)
    requires UniqueIds(g) && PartialOrder(g, queue) && at < |queue|
    ensures g.nodes[queue[at]].id !in Done(g, queue, at)
  {
    forall j | 0 <= j < at ensures IdsAt(g, queue)[..at][j] != g.nodes[queue[at]].id {
      assert !SameId(g, queue[j], queue[at]);
    }
  }

  lemma DoneKept(g: Graph, queue: seq<nat>, grown: seq<nat>, at: nat)
    requires PartialOrder(g, queue) && PartialOrder(g, grown) && at < |queue| && queue <= grown
    ensures Done(g, grown, at) == Done(g, queue, at) && grown[at] == queue[at]
    ensures Done(g, grown, at + 1) == Done(g, queue, at) + {g.nodes[queue[at]].id}
  {
    var before, after := IdsAt(g, queue)[..at], IdsAt(g, grown);
    assert after[..at] == before;
    assert after[..at + 1] == before + [g.nodes[queue[at]].id];
    MembersSnoc(before, g.nodes[queue[at]].id);
  }

  lemma MembersSnoc(ids: seq<string>, id: string)
    ensures Members(ids + [id]) == Members(ids) + {id}
  {
    var longer := ids + [id];
    assert longer[|ids|] == id;
    forall x | x in Members(ids) ensures x in Members(longer) {
      var i :| 0 <= i < |ids| && ids[i] == x;
      assert longer[i] == x;
    }
  }

  lemma CountedOff(g: Graph, degrees: seq<nat>, queue: seq<nat>, grown: seq<nat>, at: nat)
    requires UniqueIds(g) && PartialOrder(g, queue) && PartialOrder(g, grown)
    requires at < |queue| && queue <= grown && Waiting(degrees, grown)
    requires Counting(g, degrees, Done(g, queue, at), g.nodes[queue[at]].id, |g.edges|)
    ensures Counts(g, degrees, grown, Done(g, grown, at + 1))
  {
    assert g.edges[..|g.edges|] == g.edges;
    NotYetDone(g, queue, at);
    DoneKept(g, queue, grown, at);
    forall t | 0 <= t < |degrees|
      ensures degrees[t] == Pending(g.edges, g.nodes[t].id, Done(g, grown, at + 1))
    {
      PendingAfter(g.edges, g.nodes[t].id, Done(g, queue, at), g.nodes[queue[at]].id);
    }
  }

  lemma StillLawful(g: Graph, ids: seq<string>, grown: seq<string>, at: nat)
    requires Lawful(g, ids, at) && at < |ids|
    requires grown == ids + Freed(g, Members(ids[..at]), ids[at], |g.edges|)
    ensures Lawful(g, grown, at + 1)
  {
    forall j | 0 <= j <= at ensures FreedBy(g, grown, j) == FreedBy(g, ids, j) {
      assert grown[..j] == ids[..j];
      FreedByPrefix(g, grown, ids, j);
    }
    assert grown[..at] == ids[..at];
    assert FreedBy(g, grown, at + 1) == FreedBy(g, ids, at) + Freed(g, Members(ids[..at]), ids[at], |g.edges|);
  }

  /** When the queue runs dry short of the whole graph, what is left is stuck. */
  lemma LeftOverIsStuck(g: Graph, degrees: seq<nat>, queue: seq<nat>) returns (stuck: set<string>)
    requires UniqueIds(g) && PartialOrder(g, queue) && |queue| < |g.nodes|
    requires Counts(g, degrees, queue, Done(g, queue, |queue|))
    ensures Stuck(g, stuck)
  {
    var done := Done(g, queue, |queue|);
    assert IdsAt(g, queue)[..|queue|] == IdsAt(g, queue);
    stuck := Ids(g) - done;
    Pigeon(g, queue);
    var left :| 0 <= left < |g.nodes| && forall j :: 0 <= j < |queue| ==> g.nodes[queue[j]].id != g.nodes[left].id;
    IdsHas(g, left);
    assert g.nodes[left].id in stuck;
    forall t: nat | t in queue ensures g.nodes[t].id in done {
      var j :| 0 <= j < |queue| && queue[j] == t;
      assert IdsAt(g, queue)[j] in done;
    }
    forall id | id in stuck ensures Blocked(g, stuck, id) {
      var t := IndexOf(g, id);
      assert t !in queue;
      PendingZero(g.edges, id, done);
    }
  }

  lemma PrefixSnoc(queue: seq<nat>, grown: seq<nat>, at: nat)
    requires queue <= grown && at < |queue|
    ensures grown[..at + 1] == queue[..at] + [queue[at]]
  {
  }

  lemma LastIndexed(g: Graph)
    requires UniqueIds(g)
    ensures Indexed(g, LastIndex(g.nodes))
  {
    forall i | 0 <= i < |g.nodes| ensures g.nodes[i].id in LastIndex(g.nodes) && LastIndex(g.nodes)[g.nodes[i].id] == i {
      IdsHas(g, i);
      LastIndexIs(g.nodes, g.nodes[i].id);
      assert !SameId(g, i, LastIndex(g.nodes)[g.nodes[i].id]) || i == LastIndex(g.nodes)[g.nodes[i].id];
    }
    forall id | id in LastIndex(g.nodes) { LastIndexIs(g.nodes, id); }
    forall id ensures id in LastIndex(g.nodes) <==> id in Ids(g) { LastIndexIs(g.nodes, id); }
  }

  /** Part way through the edges of the node at `at`, the queue is still an order and the counts still exact. */
  ghost predicate Ordered(g: Graph, p: Tally, at: nat, k: nat) {
    && PartialOrder(g, p.queue) && at < |p.queue| && k <= |g.edges|
    && Counting(g, p.degrees, Done(g, p.queue, at), g.nodes[p.queue[at]].id, k) && Waiting(p.degrees, p.queue)
  }

  /**
   * One edge: the in-degree it counts down was above zero, so no decrement saturates, and its target is queued
   * exactly when this was the edge that frees it.
   */
  lemma EdgeOrdered(g: Graph, p: Tally, at: nat, k: nat)
    requires UniqueIds(g) && Indexed(g, LastIndex(g.nodes)) && Ordered(g, p, at, k) && k < |g.edges|
    ensures var u := g.nodes[p.queue[at]].id; var e := g.edges[k];
      var next := CountOne(LastIndex(g.nodes), u, e, p);
      && (e.source == u && e.target in Ids(g) ==> p.degrees[LastIndex(g.nodes)[e.target]] > 0)
      && p.queue <= next.queue && Ordered(g, next, at, k + 1)
      && IdsAt(g, next.queue) == IdsAt(g, p.queue) + if Frees(g, Done(g, p.queue, at), u, k) then [e.target] else []
  {
    hide Pending, Between, Members, LastIndex, Frees, Counting;
    var e, u, done := g.edges[k], g.nodes[p.queue[at]].id, Done(g, p.queue, at);
    var next := CountOne(LastIndex(g.nodes), u, e, p);
    CountingSize(g, p.degrees, done, u, k);
    if e.source == u && e.target in Ids(g) {
      var target := LastIndex(g.nodes)[e.target];
      NotYetDone(g, p.queue, at);
      CountStep(g, p.degrees, done, u, k, target);
      WaitingStep(p.degrees, p.queue, target);
      if p.degrees[target] == 1 { JoinQueue(g, p.queue, at, k, target); }
    } else {
      CountSame(g, p.degrees, done, u, k);
      FreesInside(g, done, u, k);
    }
    DoneKept(g, p.queue, next.queue, at);
    assert IdsAt(g, p.queue) + [] == IdsAt(g, p.queue);
  }

  lemma CountingSize(g: Graph, degrees: seq<nat>, done: set<string>, u: string, k: nat)
    requires k <= |g.edges| && Counting(g, degrees, done, u, k)
    ensures |degrees| == |g.nodes|
  {
  }

  lemma FreesInside(g: Graph, done: set<string>, u: string, k: nat)
    requires k < |g.edges| && (g.edges[k].source != u || g.edges[k].target !in Ids(g))
    ensures !Frees(g, done, u, k)
  {
  }

  lemma {:induction false} EdgesOrdered(g: Graph, p: Tally, at: nat, k: nat)
    requires UniqueIds(g) && Indexed(g, LastIndex(g.nodes)) && Ordered(g, p, at, 0) && k <= |g.edges|
    ensures var u := g.nodes[p.queue[at]].id;
      var next := CountOff(LastIndex(g.nodes), u, g.edges[..k], p);
      && p.queue <= next.queue && Ordered(g, next, at, k)
      && IdsAt(g, next.queue) == IdsAt(g, p.queue) + Freed(g, Done(g, p.queue, at), u, k)
  {
    hide Pending, Between, Members, LastIndex, Frees, Counting, Waiting, Indexed, CountOne;
    var u, done := g.nodes[p.queue[at]].id, Done(g, p.queue, at);
    if k > 0 {
      EdgesOrdered(g, p, at, k - 1);
      var before := CountOff(LastIndex(g.nodes), u, g.edges[..k - 1], p);
      assert g.edges[..k][..k - 1] == g.edges[..k - 1];
      DoneKept(g, p.queue, before.queue, at);
      EdgeOrdered(g, before, at, k - 1);
      Regroup(IdsAt(g, p.queue), Freed(g, done, u, k - 1), if Frees(g, done, u, k - 1) then [g.edges[k - 1].target] else []);
    } else {
      assert g.edges[..0] == [];
      assert IdsAt(g, p.queue) + [] == IdsAt(g, p.queue);
    }
  }

  /** The state between two turns. */
  ghost predicate InOrder(g: Graph, p: Tally, at: nat) {
    && PartialOrder(g, p.queue) && at <= |p.queue|
    && Counts(g, p.degrees, p.queue, Done(g, p.queue, at))
    && Lawful(g, IdsAt(g, p.queue), at)
  }

  /** A turn appends exactly the nodes it frees, in edge order, and leaves every in-degree counting what is pending. */
  lemma TurnInOrder(g: Graph, p: Tally, at: nat)
    requires UniqueIds(g) && InOrder(g, p, at) && at < |p.queue|
    ensures InOrder(g, Turn(g, p, at), at + 1) && p.queue <= Turn(g, p, at).queue
    ensures IdsAt(g, Turn(g, p, at).queue)
         == IdsAt(g, p.queue) + Freed(g, Done(g, p.queue, at), g.nodes[p.queue[at]].id, |g.edges|)
  {
    hide Pending, Between, LastIndex, Frees, Counting, Counts, Waiting, Indexed, CountOff, Lawful;
    var u := g.nodes[p.queue[at]].id;
    LastIndexed(g);
    CountStart(g, p.degrees, p.queue, Done(g, p.queue, at), u);
    assert g.edges[..|g.edges|] == g.edges;
    EdgesOrdered(g, p, at, |g.edges|);
    DoneKept(g, p.queue, Turn(g, p, at).queue, at);
    CountedOff(g, Turn(g, p, at).degrees, p.queue, Turn(g, p, at).queue, at);
    StillLawful(g, IdsAt(g, p.queue), IdsAt(g, Turn(g, p, at).queue), at);
  }

  lemma {:induction false} EnteringAre(degrees: seq<nat>, i: nat)
    requires i <= |degrees|
    ensures var q := Entering(degrees, i);
      && (forall j :: 0 <= j < |q| ==> q[j] < i && degrees[q[j]] == 0)
      && (forall j, k :: 0 <= j < k < |q| ==> q[j] != q[k])
      && (forall t: nat :: t < i ==> (t in q <==> degrees[t] == 0))
  {
    if i > 0 { EnteringAre(degrees, i - 1); }
  }

  lemma IdsAtMore(g: Graph, queue: seq<nat>, more: seq<nat>)
    requires forall i :: 0 <= i < |queue| ==> queue[i] < |g.nodes|
    requires forall i :: 0 <= i < |more| ==> more[i] < |g.nodes|
    ensures IdsAt(g, queue + more) == IdsAt(g, queue) + IdsAt(g, more)
  {
    hide IdsAt;
  }

  lemma EnteringBelow(degrees: seq<nat>, i: nat, n: nat)
    requires i <= |degrees| <= n
    ensures forall j :: 0 <= j < |Entering(degrees, i)| ==> Entering(degrees, i)[j] < n
  {
    EnteringAre(degrees, i);
  }

  lemma {:induction false} EnteringIds(g: Graph, degrees: seq<nat>, i: nat)
    requires |degrees| == |g.nodes| && i <= |g.nodes|
    requires forall t :: 0 <= t < |g.nodes| ==> (degrees[t] == 0 <==> IsEntry(g, g.nodes[t].id))
    requires forall j :: 0 <= j < |Entering(degrees, i)| ==> Entering(degrees, i)[j] < |g.nodes|
    ensures IdsAt(g, Entering(degrees, i)) == Entries(g, i)
  {
    hide IsEntry, IdsAt;
    if i > 0 {
      EnteringBelow(degrees, i - 1, |g.nodes|);
      EnteringIds(g, degrees, i - 1);
      var more := if degrees[i - 1] == 0 then [i - 1] else [];
      IdsAtMore(g, Entering(degrees, i - 1), more);
      assert IdsAt(g, more) == if degrees[i - 1] == 0 then [g.nodes[i - 1].id] else [];
    }
  }

  /** The queue starts with the nodes no edge leads to, in document order. */
  lemma EnteringInOrder(g: Graph, degrees: seq<nat>)
    requires |degrees| == |g.nodes|
    requires forall t :: 0 <= t < |g.nodes| ==> degrees[t] == Pending(g.edges, g.nodes[t].id, {})
    ensures var q := Entering(degrees, |g.nodes|);
      && (forall j :: 0 <= j < |q| ==> q[j] < |g.nodes| && IsEntry(g, g.nodes[q[j]].id))
      && (forall j, k :: 0 <= j < k < |q| ==> q[j] != q[k])
      && (forall t: nat :: t < |g.nodes| ==> (t in q <==> degrees[t] == 0))
      && IdsAt(g, q) == Entries(g, |g.nodes|)
  {
    hide Pending, Entering, IsEntry, Entries;
    EnteringAre(degrees, |g.nodes|);
    forall t | 0 <= t < |g.nodes| ensures degrees[t] == 0 <==> IsEntry(g, g.nodes[t].id) {
      PendingIsEntry(g, g.nodes[t].id);
    }
    EnteringIds(g, degrees, |g.nodes|);
  }

  lemma PendingIsEntry(g: Graph, id: string)
    ensures Pending(g.edges, id, {}) == 0 <==> IsEntry(g, id)
  {
    PendingZero(g.edges, id, {});
  }

  lemma StartInOrder(g: Graph)
    requires UniqueIds(g)
    ensures InOrder(g, Start(g), 0)
  {
    hide Pending, LastIndex, Degrees, Entering, Entries;
    var p := Start(g);
    LastIndexed(g);
    forall t | 0 <= t < |g.nodes| ensures p.degrees[t] == Pending(g.edges, g.nodes[t].id, {}) {
      DegreesAre(g, g.edges, t);
    }
    EnteringInOrder(g, p.degrees);
    assert Done(g, p.queue, 0) == {};
    assert FreedBy(g, IdsAt(g, p.queue), 0) == [];
    assert Waiting(p.degrees, p.queue);
  }

  lemma {:induction false} TurnsInOrder(g: Graph, k: nat)
    requires UniqueIds(g) && forall j :: 0 <= j < k ==> j < |Turns(g, j).queue|
    ensures InOrder(g, Turns(g, k), k)
  {
    hide InOrder, Turn;
    if k == 0 {
      StartInOrder(g);
    } else {
      TurnsInOrder(g, k - 1);
      TurnInOrder(g, Turns(g, k - 1), k - 1);
    }
  }

  lemma OrderFits(g: Graph, p: Tally, at: nat)
    requires UniqueIds(g) && InOrder(g, p, at)
    ensures |p.queue| <= |g.nodes|
  {
    if p.queue != [] { Covers(p.queue, |g.nodes|, p.queue[0]); }
  }
}

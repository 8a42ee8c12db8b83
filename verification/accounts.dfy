/**
 * How often Kahn's loop queues each id, on any graph at all.
 *
 * Ids may repeat here. The index table then keeps the last node of an id, so the others are queued at once, and a node
 * whose in-degree already stands at zero is queued again by every edge that is counted off against it. `Due` says how
 * often that makes an id's turn come, given how often its sources' have; the loop keeps to it exactly, edge by edge
 * and turn by turn.
 */
module Accounts {
  import opened Schema
  import opened Topology
  import opened Turning

  // ---- how often each id is taken -------------------------------------------------------------------------

  /** How many nodes have this id. */
  function Copies(nodes: seq<Node>, id: string): nat {
    if nodes == [] then 0
    else Copies(nodes[..|nodes| - 1], id) + if nodes[|nodes| - 1].id == id then 1 else 0
  }

  /** Over the edges into `id`, how often their sources have been taken. */
  function Arrived(edges: seq<Edge>, id: string, done: multiset<string>): nat {
    if edges == [] then 0
    else
      var e := edges[|edges| - 1];
      Arrived(edges[..|edges| - 1], id, done) + if e.target == id then done[e.source] else 0
  }

  function Less(a: nat, b: nat): nat {
    if b < a then a - b else 0
  }

  /**
   * How often an id is queued: once for each further node of the id, and once for every arrival from the one that
   * brings its in-degree to zero on.
   */
  function Share(copies: nat, inDegree: nat, arrived: nat): nat
    requires copies >= 1
  {
    copies - 1 + Less(arrived + 1, inDegree)
  }

  function Due(g: Graph, id: string, done: multiset<string>): nat {
    if Copies(g.nodes, id) == 0 then 0 else Share(Copies(g.nodes, id), InDegree(g, id), Arrived(g.edges, id, done))
  }

  /** A finite account of how often each id is taken: no id is due more often than the account gives it. */
  predicate Balanced(g: Graph, account: multiset<string>) {
    forall id {:trigger Due(g, id, account)} :: id in Ids(g) ==> Due(g, id, account) <= account[id]
  }

  lemma {:induction false} CopiesIff(nodes: seq<Node>, id: string)
    ensures Copies(nodes, id) > 0 <==> id in IdSet(nodes)
  {
    if nodes != [] { CopiesIff(nodes[..|nodes| - 1], id); }
  }

  lemma {:induction false} ArrivedMonotone(edges: seq<Edge>, id: string, a: multiset<string>, b: multiset<string>)
    requires a <= b
    ensures Arrived(edges, id, a) <= Arrived(edges, id, b)
  {
    if edges != [] { ArrivedMonotone(edges[..|edges| - 1], id, a, b); }
  }

  lemma {:induction false} ArrivedMore(edges: seq<Edge>, id: string, done: multiset<string>, u: string)
    ensures Arrived(edges, id, done + multiset{u}) == Arrived(edges, id, done) + Between(edges, u, id)
  {
    if edges != [] { ArrivedMore(edges[..|edges| - 1], id, done, u); }
  }

  lemma {:induction false} NothingArrived(edges: seq<Edge>, id: string)
    ensures Arrived(edges, id, multiset{}) == 0
  {
    if edges != [] { NothingArrived(edges[..|edges| - 1], id); }
  }

  // ---- the account is exact, turn by turn -------------------------------------------------------------------

  ghost predicate Within(g: Graph, queue: seq<nat>) {
    forall i :: 0 <= i < |queue| ==> queue[i] < |g.nodes|
  }

  /** How often each id stands in the queue. */
  ghost function Queued(g: Graph, queue: seq<nat>): multiset<string>
    requires Within(g, queue)
  {
    multiset(IdsAt(g, queue))
  }

  /** Arrivals at `id`: from what is done, and part way through the edges of `u`. */
  ghost function Arrivals(g: Graph, id: string, done: multiset<string>, u: string, k: nat): nat
    requires k <= |g.edges|
  {
    Arrived(g.edges, id, done) + Between(g.edges[..k], u, id)
  }

  ghost predicate DegreeFits(g: Graph, degrees: seq<nat>, done: multiset<string>, u: string, k: nat, t: nat)
    requires k <= |g.edges| && t < |g.nodes| && t < |degrees|
  {
    var id := g.nodes[t].id;
    degrees[t] == if IsLast(g, t) then Less(InDegree(g, id), Arrivals(g, id, done, u, k)) else 0
  }

  ghost predicate QueueFits(g: Graph, queue: seq<nat>, done: multiset<string>, u: string, k: nat, id: string)
    requires k <= |g.edges| && Within(g, queue)
  {
    id in Ids(g) ==>
      && Copies(g.nodes, id) >= 1
      && Queued(g, queue)[id] == Share(Copies(g.nodes, id), InDegree(g, id), Arrivals(g, id, done, u, k))
  }

  /** In-degrees and queue are what the arrivals so far make them. */
  ghost predicate Accounted(g: Graph, p: Tally, done: multiset<string>, u: string, k: nat) {
    && k <= |g.edges| && |p.degrees| == |g.nodes| && Within(g, p.queue)
    && (forall t {:trigger IsLast(g, t)} :: 0 <= t < |g.nodes| ==> DegreeFits(g, p.degrees, done, u, k, t))
    && (forall id {:trigger Copies(g.nodes, id)} :: QueueFits(g, p.queue, done, u, k, id))
  }

  lemma QueuedMore(g: Graph, queue: seq<nat>, t: nat)
    requires Within(g, queue) && t < |g.nodes|
    ensures Within(g, queue + [t]) && Queued(g, queue + [t]) == Queued(g, queue) + multiset{g.nodes[t].id}
  {
    assert IdsAt(g, queue + [t]) == IdsAt(g, queue) + [g.nodes[t].id];
  }

  /** Counting off one edge keeps the account. */
  lemma EdgeAccounted(g: Graph, p: Tally, done: multiset<string>, u: string, k: nat)
    requires k < |g.edges| && Accounted(g, p, done, u, k)
    ensures Accounted(g, CountOne(LastIndex(g.nodes), u, g.edges[k], p), done, u, k + 1)
    ensures p.queue <= CountOne(LastIndex(g.nodes), u, g.edges[k], p).queue
  {
    hide Pending, Copies, Arrived, LastIndex;
    var e, next, upTo := g.edges[k], CountOne(LastIndex(g.nodes), u, g.edges[k], p), k + 1;
    LastIndexIs(g.nodes, e.target);
    forall id ensures Arrivals(g, id, done, u, k + 1)
                   == Arrivals(g, id, done, u, k) + if e.source == u && e.target == id then 1 else 0 {
      BetweenStep(g.edges, k, u, id);
    }
    if e.source == u && e.target in LastIndex(g.nodes) {
      QueuedMore(g, p.queue, LastIndex(g.nodes)[e.target]);
    }
    forall t | 0 <= t < |g.nodes| ensures DegreeFits(g, next.degrees, done, u, upTo, t) {
      assert IsLast(g, t) || !IsLast(g, t);
      assert DegreeFits(g, p.degrees, done, u, k, t);
      IdsHas(g, t);
    }
    forall id ensures QueueFits(g, next.queue, done, u, upTo, id) {
      assert Copies(g.nodes, id) >= 0;
      assert QueueFits(g, p.queue, done, u, k, id);
      if e.source == u && id == e.target && id in Ids(g) {
        assert IsLast(g, LastIndex(g.nodes)[id]);
        assert DegreeFits(g, p.degrees, done, u, k, LastIndex(g.nodes)[id]);
      }
    }
  }

  lemma {:induction false} EdgesAccounted(g: Graph, p: Tally, done: multiset<string>, u: string, k: nat)
    requires k <= |g.edges| && Accounted(g, p, done, u, 0)
    ensures Accounted(g, CountOff(LastIndex(g.nodes), u, g.edges[..k], p), done, u, k)
    ensures p.queue <= CountOff(LastIndex(g.nodes), u, g.edges[..k], p).queue
  {
    hide Accounted, LastIndex, CountOne;
    if k > 0 {
      EdgesAccounted(g, p, done, u, k - 1);
      assert g.edges[..k][..k - 1] == g.edges[..k - 1];
      EdgeAccounted(g, CountOff(LastIndex(g.nodes), u, g.edges[..k - 1], p), done, u, k - 1);
    } else {
      assert g.edges[..0] == [];
    }
  }

  lemma StartWithin(g: Graph, i: nat)
    requires i <= |g.nodes|
    ensures Within(g, Entering(Start(g).degrees, i))
  {
    if i > 0 { StartWithin(g, i - 1); }
  }

  /** Whether the node `id` stands for is among the first `i` and waits for an edge. */
  ghost function Held(g: Graph, id: string, i: nat): nat {
    if InDegree(g, id) > 0 && id in LastIndex(g.nodes) && LastIndex(g.nodes)[id] < i then 1 else 0
  }

  lemma HeldStep(g: Graph, id: string, i: nat)
    requires i < |g.nodes|
    ensures Held(g, id, i + 1)
         == Held(g, id, i) + if g.nodes[i].id == id && IsLast(g, i) && InDegree(g, id) > 0 then 1 else 0
  {
    hide Pending, LastIndex;
    LastIndexIs(g.nodes, id);
  }

  /** Queued at the start: every node of an id but the last, and the last if nothing leads to it. */
  lemma {:induction false} EnteringCounts(g: Graph, i: nat, id: string)
    requires i <= |g.nodes|
    ensures Within(g, Entering(Start(g).degrees, i))
    ensures Queued(g, Entering(Start(g).degrees, i))[id] + Held(g, id, i) == Copies(g.nodes[..i], id)
  {
    hide Pending, LastIndex, Degrees, Held, IsLast, Queued;
    StartWithin(g, i);
    if i > 0 {
      var front := Entering(Start(g).degrees, i - 1);
      EnteringCounts(g, i - 1, id);
      assert g.nodes[..i][..i - 1] == g.nodes[..i - 1];
      DegreesAre(g, g.edges, i - 1);
      HeldStep(g, id, i - 1);
      QueuedMore(g, front, i - 1);
      assert front + [] == front;
    } else {
      NoneQueued(g);
      NoneHeld(g, id);
    }
  }

  lemma NoneQueued(g: Graph)
    ensures Queued(g, []) == multiset{}
  {
  }

  lemma NoneHeld(g: Graph, id: string)
    ensures Held(g, id, 0) == 0
  {
  }

  lemma StartAccounted(g: Graph, u: string)
    ensures Accounted(g, Start(g), multiset{}, u, 0)
  {
    hide Pending, Copies, Arrived, LastIndex, Degrees, Entering;
    var n, p := |g.nodes|, Start(g);
    StartWithin(g, n);
    assert g.nodes[..n] == g.nodes && g.edges[..0] == [];
    forall id { NothingArrived(g.edges, id); }
    forall t | 0 <= t < n ensures DegreeFits(g, p.degrees, multiset{}, u, 0, t) {
      assert IsLast(g, t) || !IsLast(g, t);
      DegreesAre(g, g.edges, t);
    }
    forall id ensures QueueFits(g, p.queue, multiset{}, u, 0, id) {
      CopiesIff(g.nodes, id);
      if id in Ids(g) {
        LastIndexIs(g.nodes, id);
        EnteringCounts(g, n, id);
        assert Held(g, id, n) == if InDegree(g, id) > 0 then 1 else 0;
      }
    }
  }

  /** The next turn starts from the account the last one closed. */
  lemma CloseTurn(g: Graph, p: Tally, done: multiset<string>, u: string, v: string)
    requires Accounted(g, p, done, u, |g.edges|)
    ensures Accounted(g, p, done + multiset{u}, v, 0)
  {
    hide Pending, Copies, LastIndex;
    assert g.edges[..|g.edges|] == g.edges && g.edges[..0] == [];
    forall id ensures Arrivals(g, id, done + multiset{u}, v, 0) == Arrivals(g, id, done, u, |g.edges|) {
      ArrivedMore(g.edges, id, done, u);
    }
    forall t | 0 <= t < |g.nodes| ensures DegreeFits(g, p.degrees, done + multiset{u}, v, 0, t) {
      assert IsLast(g, t) || !IsLast(g, t);
      assert DegreeFits(g, p.degrees, done, u, |g.edges|, t);
    }
    forall id ensures QueueFits(g, p.queue, done + multiset{u}, v, 0, id) {
      assert Copies(g.nodes, id) >= 0;
      assert QueueFits(g, p.queue, done, u, |g.edges|, id);
    }
  }

  /** The ids of the first `k` places. */
  ghost function Taken(g: Graph, queue: seq<nat>, k: nat): multiset<string>
    requires Within(g, queue) && k <= |queue|
  {
    multiset(IdsAt(g, queue)[..k])
  }

  lemma TakenMore(g: Graph, queue: seq<nat>, grown: seq<nat>, k: nat)
    requires Within(g, queue) && Within(g, grown) && queue <= grown && k < |queue|
    ensures Taken(g, grown, k + 1) == Taken(g, queue, k) + multiset{g.nodes[queue[k]].id}
  {
    var a, b := IdsAt(g, queue), IdsAt(g, grown);
    assert b[..k + 1] == a[..k] + [g.nodes[queue[k]].id];
  }

  /** The account after `k` turns, none of them idle. */
  ghost predicate OnAccount(g: Graph, k: nat) {
    var p := Turns(g, k);
    k <= |p.queue| && Within(g, p.queue) && Accounted(g, p, Taken(g, p.queue, k), "", 0)
  }

  lemma {:induction false} Exact(g: Graph, k: nat)
    requires forall j :: 0 <= j < k ==> j < |Turns(g, j).queue|
    ensures OnAccount(g, k)
  {
    hide Accounted, LastIndex, CountOff;
    if k == 0 {
      StartAccounted(g, "");
      StartWithin(g, |g.nodes|);
      assert IdsAt(g, Turns(g, 0).queue)[..0] == [];
    } else {
      Exact(g, k - 1);
      TurnOnAccount(g, k - 1);
    }
  }

  lemma AnyU(g: Graph, p: Tally, done: multiset<string>, u: string, v: string)
    requires Accounted(g, p, done, u, 0)
    ensures Accounted(g, p, done, v, 0)
  {
    hide Pending, Copies, LastIndex;
    assert g.edges[..0] == [];
    forall id ensures Arrivals(g, id, done, v, 0) == Arrivals(g, id, done, u, 0) {}
    forall t | 0 <= t < |g.nodes| ensures DegreeFits(g, p.degrees, done, v, 0, t) {
      assert IsLast(g, t) || !IsLast(g, t);
      assert DegreeFits(g, p.degrees, done, u, 0, t);
    }
    forall id ensures QueueFits(g, p.queue, done, v, 0, id) {
      assert Copies(g.nodes, id) >= 0;
      assert QueueFits(g, p.queue, done, u, 0, id);
    }
  }

  lemma AccountWithin(g: Graph, p: Tally, done: multiset<string>, u: string, k: nat)
    requires Accounted(g, p, done, u, k)
    ensures Within(g, p.queue)
  {
  }

  lemma TurnOnAccount(g: Graph, k: nat)
    requires OnAccount(g, k) && k < |Turns(g, k).queue|
    ensures OnAccount(g, k + 1) && Turns(g, k).queue <= Turns(g, k + 1).queue
  {
    hide Accounted, LastIndex, CountOff;
    var p, next := Turns(g, k), Turns(g, k + 1);
    var u, done := g.nodes[p.queue[k]].id, Taken(g, p.queue, k);
    AnyU(g, p, done, "", u);
    assert g.edges[..|g.edges|] == g.edges;
    EdgesAccounted(g, p, done, u, |g.edges|);
    AccountWithin(g, next, done, u, |g.edges|);
    CloseTurn(g, next, done, u, "");
    TakenMore(g, p.queue, next.queue, k);
  }
}

/**
 * Orders of a graph's nodes, every edge's source before its target, and the graphs that have none: a set of nodes each
 * waiting for another of the set, or for a node that does not exist.
 */
module Topology {
  import opened Wrappers
  import opened Schema

  // ---- orders -------------------------------------------------------------------------------------

  /** `source` stands somewhere in the first `k` places of `order`. */
  ghost predicate Before(g: Graph, order: seq<nat>, k: nat, source: string)
    requires k <= |order| && forall i :: 0 <= i < |order| ==> order[i] < |g.nodes|
  {
    exists j :: 0 <= j < k && g.nodes[order[j]].id == source
  }

  /** Distinct nodes, each after the source of every edge into it. */
  ghost predicate PartialOrder(g: Graph, order: seq<nat>) {
    && (forall i :: 0 <= i < |order| ==> order[i] < |g.nodes|)
    && (forall i, j :: 0 <= i < j < |order| ==> order[i] != order[j])
    && (forall k, e {:trigger Before(g, order, k, e.source)} ::
          0 <= k < |order| && e in g.edges && e.target == g.nodes[order[k]].id ==> Before(g, order, k, e.source))
  }

  ghost predicate TopoOrder(g: Graph, order: seq<nat>) {
    PartialOrder(g, order) && |order| == |g.nodes|
  }

  ghost predicate Sortable(g: Graph) {
    UniqueIds(g) && exists order :: TopoOrder(g, order)
  }

  /** Distinct indices below `n`, as many as there are, leave none out. */
  lemma {:induction false} Covers(order: seq<nat>, n: nat, i: nat)
    requires forall k :: 0 <= k < |order| ==> order[k] < n
    requires forall j, k :: 0 <= j < k < |order| ==> order[j] != order[k]
    requires i < n
    ensures |order| <= n
    ensures |order| == n ==> i in order
  {
    var used := set k | 0 <= k < |order| :: order[k];
    DistinctSize(order);
    SubsetSize(used, Range(n));
    if i !in order {
      SubsetSize(used + {i}, Range(n));
    }
  }

  lemma {:induction false} DistinctSize<T>(items: seq<T>)
    requires forall j, k :: 0 <= j < k < |items| ==> items[j] != items[k]
    ensures |set k | 0 <= k < |items| :: items[k]| == |items|
  {
    if items != [] {
      var front := items[..|items| - 1];
      DistinctSize(front);
      assert (set k | 0 <= k < |items| :: items[k])
          == (set k | 0 <= k < |front| :: front[k]) + {items[|items| - 1]};
    }
  }

  function Range(n: nat): (r: set<nat>)
    ensures forall k: nat :: k in r <==> k < n
    ensures |r| == n
  {
    if n == 0 then {} else Range(n - 1) + {n - 1}
  }

  lemma SubsetSize<T>(a: set<T>, b: set<T>)
    requires a <= b
    ensures |a| <= |b|
  {
    assert b == a + (b - a);
  }

  /** A complete order has a place for every node. */
  lemma Place(g: Graph, order: seq<nat>, i: nat) returns (k: nat)
    requires TopoOrder(g, order) && i < |g.nodes|
    ensures k < |order| && order[k] == i
  {
    Covers(order, |g.nodes|, i);
    k :| 0 <= k < |order| && order[k] == i;
  }

  // ---- graphs without an order --------------------------------------------------------------------

  /** Each node of `stuck` has an edge from another node of `stuck`, or from a node that is not there. */
  ghost predicate Stuck(g: Graph, stuck: set<string>) {
    && stuck != {} && stuck <= Ids(g)
    && forall id :: id in stuck ==> Blocked(g, stuck, id)
  }

  ghost predicate Blocked(g: Graph, stuck: set<string>, id: string) {
    exists e :: e in g.edges && e.target == id && (e.source in stuck || e.source !in Ids(g))
  }

  lemma StuckHasNoOrder(g: Graph, stuck: set<string>)
    requires Stuck(g, stuck)
    ensures !Sortable(g)
  {
    if Sortable(g) {
      var order :| TopoOrder(g, order);
      var id :| id in stuck;
      var i := IndexOf(g, id);
      var k := Place(g, order, i);
      NoStuckPlace(g, order, stuck, k);
    }
  }

  lemma {:induction false} NoStuckPlace(g: Graph, order: seq<nat>, stuck: set<string>, k: nat)
    requires TopoOrder(g, order) && Stuck(g, stuck) && k < |order|
    ensures g.nodes[order[k]].id !in stuck
    decreases k
  {
    var id := g.nodes[order[k]].id;
    if id in stuck {
      var e :| e in g.edges && e.target == id && (e.source in stuck || e.source !in Ids(g));
      assert Before(g, order, k, e.source);
      var j :| 0 <= j < k && g.nodes[order[j]].id == e.source;
      IdsHas(g, order[j]);
      NoStuckPlace(g, order, stuck, j);
    }
  }

  ghost function IdsAt(g: Graph, order: seq<nat>): (ids: seq<string>)
    requires forall i :: 0 <= i < |order| ==> order[i] < |g.nodes|
    ensures |ids| == |order| && forall i :: 0 <= i < |order| ==> ids[i] == g.nodes[order[i]].id
  {
    seq(|order|, i requires 0 <= i < |order| => g.nodes[order[i]].id)
  }

  /** Either the order can be completed, or the nodes left over are stuck. */
  lemma {:induction false} Complete(g: Graph, order: seq<nat>) returns (stuck: set<string>)
    requires UniqueIds(g) && PartialOrder(g, order)
    ensures Sortable(g) || Stuck(g, stuck)
    decreases |g.nodes| - |order|
  {
    var placed := set i | 0 <= i < |order| :: g.nodes[order[i]].id;
    stuck := Ids(g) - placed;
    if order != [] { Covers(order, |g.nodes|, order[0]); }
    if |order| < |g.nodes| {
      Pigeon(g, order);
      var i :| 0 <= i < |g.nodes| && forall j :: 0 <= j < |order| ==> g.nodes[order[j]].id != g.nodes[i].id;
      IdsHas(g, i);
      assert g.nodes[i].id in stuck;
    }
    if stuck == {} {
      assert TopoOrder(g, order);
    } else if next :| next in stuck && !Blocked(g, stuck, next) {
      var i := IndexOf(g, next);
      var longer := order + [i];
      forall k, e | 0 <= k < |longer| && e in g.edges && e.target == g.nodes[longer[k]].id
        ensures Before(g, longer, k, e.source)
      {
        if k < |order| {
          assert Before(g, order, k, e.source);
          var j :| 0 <= j < k && g.nodes[order[j]].id == e.source;
          assert longer[j] == order[j];
        } else {
          assert e.source in placed;
          var j :| 0 <= j < |order| && g.nodes[order[j]].id == e.source;
          assert longer[j] == order[j];
        }
      }
      Covers(longer, |g.nodes|, i);
      stuck := Complete(g, longer);
    }
  }

  /** A short order leaves some id out. */
  lemma Pigeon(g: Graph, order: seq<nat>)
    requires UniqueIds(g) && PartialOrder(g, order) && |order| < |g.nodes|
    ensures exists i :: 0 <= i < |g.nodes| && forall j :: 0 <= j < |order| ==> g.nodes[order[j]].id != g.nodes[i].id
  {
    var used := set k | 0 <= k < |order| :: order[k];
    DistinctSize(order);
    if Range(|g.nodes|) <= used { SubsetSize(Range(|g.nodes|), used); }
    var i: nat :| i in Range(|g.nodes|) && i !in used;
    forall j | 0 <= j < |order| ensures g.nodes[order[j]].id != g.nodes[i].id {
      assert order[j] in used;
      assert !SameId(g, order[j], i);
    }
  }

  lemma UnsortableIsStuck(g: Graph) returns (stuck: set<string>)
    requires UniqueIds(g) && !Sortable(g)
    ensures Stuck(g, stuck)
  {
    stuck := Complete(g, []);
  }

  // ---- cycles -------------------------------------------------------------------------------------

  ghost predicate HasEdge(g: Graph, source: string, target: string) {
    exists e :: e in g.edges && e.source == source && e.target == target
  }

  /** A directed cycle, listed from each node to a source of it. */
  ghost predicate DirectedCycle(g: Graph, c: seq<string>) {
    && c != []
    && (forall i :: 0 <= i < |c| ==> c[i] in Ids(g))
    && (forall i :: 0 <= i < |c| - 1 ==> HasEdge(g, c[i + 1], c[i]))
    && HasEdge(g, c[0], c[|c| - 1])
  }

  ghost predicate NoDanglingSource(g: Graph) {
    forall e :: e in g.edges ==> e.source in Ids(g)
  }

  lemma CycleIsStuck(g: Graph, c: seq<string>)
    requires DirectedCycle(g, c)
    ensures Stuck(g, set i | 0 <= i < |c| :: c[i])
  {
    var members := set i | 0 <= i < |c| :: c[i];
    assert c[0] in members;
    forall id | id in members ensures Blocked(g, members, id) {
      var i :| 0 <= i < |c| && c[i] == id;
      var source := if i + 1 < |c| then c[i + 1] else c[0];
      assert HasEdge(g, source, id) && source in members;
    }
  }

  /** Distinct nodes of `stuck`, each followed by a source of it. */
  ghost predicate BackPath(g: Graph, stuck: set<string>, path: seq<string>) {
    && path != []
    && (forall i :: 0 <= i < |path| ==> path[i] in stuck)
    && (forall i, j :: 0 <= i < j < |path| ==> path[i] != path[j])
    && (forall i :: 0 <= i < |path| - 1 ==> HasEdge(g, path[i + 1], path[i]))
  }

  lemma CloseCycle(g: Graph, stuck: set<string>, path: seq<string>, j: nat)
    requires BackPath(g, stuck, path) && stuck <= Ids(g)
    requires j < |path| && HasEdge(g, path[j], path[|path| - 1])
    ensures DirectedCycle(g, path[j..])
  {
    var c := path[j..];
    forall i | 0 <= i < |c| - 1 ensures HasEdge(g, c[i + 1], c[i]) {
      assert HasEdge(g, path[i + j + 1], path[i + j]);
    }
  }

  lemma ExtendPath(g: Graph, stuck: set<string>, path: seq<string>, source: string)
    requires BackPath(g, stuck, path)
    requires source in stuck && source !in path && HasEdge(g, source, path[|path| - 1])
    ensures BackPath(g, stuck, path + [source]) && |path| < |stuck|
  {
    var longer := path + [source];
    DistinctSize(longer);
    SubsetSize(set k | 0 <= k < |longer| :: longer[k], stuck);
  }

  /** Following sources backwards inside a stuck set comes round to a node already met. */
  lemma {:induction false} FindCycle(g: Graph, stuck: set<string>, path: seq<string>) returns (c: seq<string>)
    requires Stuck(g, stuck) && NoDanglingSource(g) && BackPath(g, stuck, path)
    ensures DirectedCycle(g, c)
    decreases |stuck| - |path|
  {
    var last := path[|path| - 1];
    assert Blocked(g, stuck, last);
    var e :| e in g.edges && e.target == last && (e.source in stuck || e.source !in Ids(g));
    assert HasEdge(g, e.source, last);
    if j :| 0 <= j < |path| && path[j] == e.source {
      CloseCycle(g, stuck, path, j);
      c := path[j..];
    } else {
      ExtendPath(g, stuck, path, e.source);
      c := FindCycle(g, stuck, path + [e.source]);
    }
  }

  /** With unique ids and no dangling source, an order is missing exactly when there is a cycle. */
  lemma SortableIffAcyclic(g: Graph)
    requires UniqueIds(g) && NoDanglingSource(g)
    ensures Sortable(g) <==> !exists c :: DirectedCycle(g, c)
  {
    if c :| DirectedCycle(g, c) {
      CycleIsStuck(g, c);
      StuckHasNoOrder(g, set i | 0 <= i < |c| :: c[i]);
    }
    if !Sortable(g) {
      var stuck := UnsortableIsStuck(g);
      var id :| id in stuck;
      var c := FindCycle(g, stuck, [id]);
    }
  }

  // ---- Kahn's queue -------------------------------------------------------------------------------

  /** Edges into `target` whose source is not yet done: what an in-degree counts. */
  function Pending(edges: seq<Edge>, target: string, done: set<string>): nat {
    if edges == [] then 0
    else
      var e := edges[|edges| - 1];
      Pending(edges[..|edges| - 1], target, done) + if e.target == target && e.source !in done then 1 else 0
  }

  /** Edges from `source` to `target`. */
  ghost function Between(edges: seq<Edge>, source: string, target: string): nat {
    if edges == [] then 0
    else
      var e := edges[|edges| - 1];
      Between(edges[..|edges| - 1], source, target) + if e.source == source && e.target == target then 1 else 0
  }

  lemma {:induction false} PendingAfter(edges: seq<Edge>, target: string, done: set<string>, source: string)
    requires source !in done
    ensures Pending(edges, target, done + {source}) == Pending(edges, target, done) - Between(edges, source, target)
  {
    if edges != [] {
      PendingAfter(edges[..|edges| - 1], target, done, source);
    }
  }

  lemma {:induction false} BetweenPrefix(edges: seq<Edge>, k: nat, source: string, target: string)
    requires k <= |edges|
    ensures Between(edges[..k], source, target) <= Between(edges, source, target)
    ensures Between(edges[..k], source, target) == Between(edges, source, target) <==>
            forall j :: k <= j < |edges| ==> !(edges[j].source == source && edges[j].target == target)
  {
    if k == |edges| {
      assert edges[..k] == edges;
    } else {
      var front := edges[..|edges| - 1];
      BetweenPrefix(front, k, source, target);
      assert front[..k] == edges[..k];
      assert forall j :: k <= j < |front| ==> edges[j] == front[j];
    }
  }

  lemma BetweenStep(edges: seq<Edge>, k: nat, source: string, target: string)
    requires k < |edges|
    ensures Between(edges[..k + 1], source, target)
         == Between(edges[..k], source, target)
            + if edges[k].source == source && edges[k].target == target then 1 else 0
  {
    assert edges[..k + 1][..k] == edges[..k];
  }

  lemma {:induction false} PendingZero(edges: seq<Edge>, target: string, done: set<string>)
    ensures Pending(edges, target, done) == 0 <==> forall e :: e in edges && e.target == target ==> e.source in done
  {
    if edges != [] {
      var front := edges[..|edges| - 1];
      PendingZero(front, target, done);
      assert edges == front + [edges[|edges| - 1]];
    }
  }

  ghost predicate IsEntry(g: Graph, id: string) {
    forall e :: e in g.edges ==> e.target != id
  }

  /** The first `n` nodes' ids, those with an incoming edge left out. */
  ghost function Entries(g: Graph, n: nat): seq<string>
    requires n <= |g.nodes|
  {
    if n == 0 then []
    else Entries(g, n - 1) + (if IsEntry(g, g.nodes[n - 1].id) then [g.nodes[n - 1].id] else [])
  }

  /** Edge `k` is the one that frees its target: the last from `source`, all other sources done. */
  ghost predicate Frees(g: Graph, done: set<string>, source: string, k: nat)
    requires k < |g.edges|
  {
    && g.edges[k].source == source && g.edges[k].target in Ids(g)
    && (forall e :: e in g.edges && e.target == g.edges[k].target ==> e.source in done + {source})
    && (forall j :: k < j < |g.edges| ==> !(g.edges[j].source == source && g.edges[j].target == g.edges[k].target))
  }

  /** The nodes `source` frees through the first `k` edges, in edge order. */
  ghost function Freed(g: Graph, done: set<string>, source: string, k: nat): seq<string>
    requires k <= |g.edges|
  {
    if k == 0 then []
    else Freed(g, done, source, k - 1) + (if Frees(g, done, source, k - 1) then [g.edges[k - 1].target] else [])
  }

  ghost function Members(ids: seq<string>): set<string> {
    set i | 0 <= i < |ids| :: ids[i]
  }

  /** Everything freed by the first `at` nodes of the queue. */
  ghost function FreedBy(g: Graph, ids: seq<string>, at: nat): seq<string>
    requires at <= |ids|
  {
    if at == 0 then []
    else FreedBy(g, ids, at - 1) + Freed(g, Members(ids[..at - 1]), ids[at - 1], |g.edges|)
  }

  /** First in, first out: entries in document order, then whatever each processed node frees. */
  ghost predicate KahnQueue(g: Graph, ids: seq<string>) {
    && ids == Entries(g, |g.nodes|) + FreedBy(g, ids, |ids|)
    && forall at :: 0 <= at < |ids| ==> at < |Entries(g, |g.nodes|) + FreedBy(g, ids, at)|
  }

  lemma {:induction false} FreedByPrefix(g: Graph, a: seq<string>, b: seq<string>, at: nat)
    requires at <= |a| && at <= |b| && a[..at] == b[..at]
    ensures FreedBy(g, a, at) == FreedBy(g, b, at)
  {
    if at > 0 {
      assert a[..at - 1] == a[..at][..at - 1] && b[..at - 1] == b[..at][..at - 1];
      assert a[at - 1] == a[..at][at - 1] && b[at - 1] == b[..at][at - 1];
      FreedByPrefix(g, a, b, at - 1);
    }
  }

  lemma {:induction false} FreedByGrows(g: Graph, ids: seq<string>, at: nat, end: nat)
    requires at <= end <= |ids|
    ensures FreedBy(g, ids, at) <= FreedBy(g, ids, end)
    decreases end
  {
    if at < end {
      FreedByGrows(g, ids, at, end - 1);
    }
  }

  /** Place `k` of the queue is already decided by what the first `k` nodes freed. */
  lemma KnownNext(g: Graph, ids: seq<string>, k: nat)
    requires KahnQueue(g, ids) && k < |ids|
    ensures k < |Entries(g, |g.nodes|) + FreedBy(g, ids, k)|
    ensures ids[k] == (Entries(g, |g.nodes|) + FreedBy(g, ids, k))[k]
  {
    FreedByGrows(g, ids, k, |ids|);
  }

  /** The law leaves no choice: two queues that obey it are equal as far as the shorter one goes. */
  lemma {:induction false} KahnQueueUnique(g: Graph, a: seq<string>, b: seq<string>, k: nat)
    requires KahnQueue(g, a) && KahnQueue(g, b) && k <= |a| && k <= |b|
    ensures a[..k] == b[..k]
  {
    if k > 0 {
      KahnQueueUnique(g, a, b, k - 1);
      FreedByPrefix(g, a, b, k - 1);
      KnownNext(g, a, k - 1);
      KnownNext(g, b, k - 1);
      assert a[..k] == a[..k - 1] + [a[k - 1]] && b[..k] == b[..k - 1] + [b[k - 1]];
    }
  }

  // ---- the order a walk visits nodes in ---------------------------------------------------------------

  /** The node with this id is among the first `k` visited. */
  ghost predicate Placed(order: seq<Node>, k: nat, id: string) {
    exists j :: 0 <= j < k && j < |order| && order[j].id == id
  }

  ghost predicate SameVisit(order: seq<Node>, i: nat, j: nat) {
    i < |order| && j < |order| && order[i].id == order[j].id
  }

  /** No node is visited twice. */
  ghost predicate Distinct(order: seq<Node>) {
    forall i, j {:trigger SameVisit(order, i, j)} :: SameVisit(order, i, j) ==> i == j
  }

  ghost predicate InGraph(g: Graph, node: Node) {
    node in g.nodes
  }

  /** Every node of the graph once, each after the sources of its incoming edges. */
  ghost predicate VisitOrder(g: Graph, order: seq<Node>) {
    && Distinct(order)
    && (forall k {:trigger InGraph(g, order[k])} :: 0 <= k < |order| ==> InGraph(g, order[k]))
    && (forall k, e {:trigger Placed(order, k, e.source)} ::
          0 <= k < |order| && e in g.edges && e.target == order[k].id ==> Placed(order, k, e.source))
    && (forall id {:trigger Placed(order, |order|, id)} :: id in Ids(g) ==> Placed(order, |order|, id))
  }

  ghost function Visits(g: Graph, order: seq<nat>): (r: seq<Node>)
    requires forall i :: 0 <= i < |order| ==> order[i] < |g.nodes|
    ensures |r| == |order|
  {
    if order == [] then [] else Visits(g, order[..|order| - 1]) + [g.nodes[order[|order| - 1]]]
  }

  lemma {:induction false} VisitsAt(g: Graph, order: seq<nat>, k: nat)
    requires (forall i :: 0 <= i < |order| ==> order[i] < |g.nodes|) && k < |order|
    ensures Visits(g, order)[k] == g.nodes[order[k]]
  {
    if k < |order| - 1 { VisitsAt(g, order[..|order| - 1], k); }
  }

  /** A topological order of indices is a visiting order of nodes. */
  lemma TopoVisits(g: Graph, order: seq<nat>)
    requires UniqueIds(g) && TopoOrder(g, order)
    ensures VisitOrder(g, Visits(g, order))
  {
    var visits := Visits(g, order);
    forall k | 0 <= k < |visits| ensures visits[k] == g.nodes[order[k]] { VisitsAt(g, order, k); }
    forall i: nat, j: nat | SameVisit(visits, i, j) ensures i == j { assert SameId(g, order[i], order[j]); }
    forall k, e | 0 <= k < |visits| && e in g.edges && e.target == visits[k].id ensures Placed(visits, k, e.source) {
      assert Before(g, order, k, e.source);
      var j :| 0 <= j < k && g.nodes[order[j]].id == e.source;
      assert visits[j].id == e.source;
    }
    forall id | id in Ids(g) ensures Placed(visits, |visits|, id) {
      var i := IndexOf(g, id);
      var k := Place(g, order, i);
      assert visits[k].id == id;
    }
  }

  lemma PlacedStep(order: seq<Node>, k: nat, id: string)
    requires 0 < k <= |order|
    ensures Placed(order, k, id) <==> Placed(order, k - 1, id) || order[k - 1].id == id
  {
  }

  lemma NotPlacedYet(g: Graph, order: seq<Node>, k: nat)
    requires VisitOrder(g, order) && k < |order|
    ensures !Placed(order, k, order[k].id)
  {
    if j :| 0 <= j < k && order[j].id == order[k].id { assert SameVisit(order, j, k); }
  }

  lemma NodeInGraph(g: Graph, order: seq<Node>, k: nat)
    requires VisitOrder(g, order) && k < |order|
    ensures InGraph(g, order[k])
  {
  }

  /** The node an id names is the one visited under it. */
  lemma FindVisited(g: Graph, order: seq<Node>, k: nat)
    requires UniqueIds(g) && VisitOrder(g, order) && k < |order|
    ensures Find(g.nodes, order[k].id) == Some(order[k])
  {
    assert InGraph(g, order[k]);
    var i :| 0 <= i < |g.nodes| && g.nodes[i] == order[k];
    NamedAt(g, i);
  }

  /** Every node of the graph has its place. */
  lemma VisitedAt(g: Graph, order: seq<Node>, node: Node) returns (k: nat)
    requires UniqueIds(g) && VisitOrder(g, order) && node in g.nodes
    ensures k < |order| && order[k] == node
  {
    var i :| 0 <= i < |g.nodes| && g.nodes[i] == node;
    IdsHas(g, i);
    assert Placed(order, |order|, node.id);
    k :| 0 <= k < |order| && order[k].id == node.id;
    FindVisited(g, order, k);
    NamedAt(g, i);
  }

  lemma PlacedIds(g: Graph, order: seq<Node>, id: string)
    requires VisitOrder(g, order)
    ensures Placed(order, |order|, id) <==> id in Ids(g)
  {
    if j :| 0 <= j < |order| && order[j].id == id {
      assert InGraph(g, order[j]);
      var i :| 0 <= i < |g.nodes| && g.nodes[i] == order[j];
      IdsHas(g, i);
    }
    if id in Ids(g) { assert Placed(order, |order|, id); }
  }

  /** Every incoming edge of the node visited next comes from a node already visited. */
  lemma SourcePlace(g: Graph, order: seq<Node>, k: nat, i: nat) returns (j: nat)
    requires VisitOrder(g, order) && k < |order| && i < |Incoming(g, order[k].id)|
    ensures j < k && order[j].id == Incoming(g, order[k].id)[i].source
  {
    var e := Incoming(g, order[k].id)[i];
    IntoMembers(g.edges, order[k].id);
    assert e in Incoming(g, order[k].id);
    assert Placed(order, k, e.source);
    j :| 0 <= j < k && order[j].id == e.source;
  }

  lemma VisitOrderExists(g: Graph) returns (order: seq<Node>)
    requires Sortable(g)
    ensures VisitOrder(g, order)
  {
    var indices :| TopoOrder(g, indices);
    TopoVisits(g, indices);
    order := Visits(g, indices);
  }

  // ---- the one order a run takes ------------------------------------------------------------------------

  ghost function IdsOf(order: seq<Node>): (ids: seq<string>)
    ensures |ids| == |order| && forall i :: 0 <= i < |ids| ==> ids[i] == order[i].id
  {
    seq(|order|, i requires 0 <= i < |order| => order[i].id)
  }

  /** The nodes are visited first in, first out. */
  ghost predicate InKahnOrder(g: Graph, order: seq<Node>) {
    KahnQueue(g, IdsOf(order))
  }

  lemma VisitsIds(g: Graph, order: seq<nat>)
    requires forall i :: 0 <= i < |order| ==> order[i] < |g.nodes|
    ensures IdsOf(Visits(g, order)) == IdsAt(g, order)
  {
    forall k | 0 <= k < |order| ensures Visits(g, order)[k].id == g.nodes[order[k]].id { VisitsAt(g, order, k); }
  }

  /** An order that repeats nothing is no longer than one that leaves nothing out and agrees with it so far. */
  lemma NotLonger(g: Graph, a: seq<Node>, b: seq<Node>)
    requires VisitOrder(g, a) && VisitOrder(g, b)
    requires forall i :: 0 <= i < |a| && i < |b| ==> a[i].id == b[i].id
    ensures |b| <= |a|
  {
    hide VisitOrder;
    if |a| < |b| {
      PlacedIds(g, b, b[|a|].id);
      assert Placed(b, |b|, b[|a|].id);
      NotPlacedYet(g, b, |a|);
      PlacedIds(g, a, b[|a|].id);
    }
  }

  /** There is one such order, so two runs of a graph are comparable event for event. */
  lemma OneKahnOrder(g: Graph, a: seq<Node>, b: seq<Node>)
    requires UniqueIds(g) && VisitOrder(g, a) && VisitOrder(g, b) && InKahnOrder(g, a) && InKahnOrder(g, b)
    ensures a == b
  {
    hide VisitOrder, KahnQueue;
    var x, y := IdsOf(a), IdsOf(b);
    var k := if |a| <= |b| then |a| else |b|;
    KahnQueueUnique(g, x, y, k);
    forall i | 0 <= i < k ensures a[i].id == b[i].id { assert x[..k][i] == y[..k][i]; }
    NotLonger(g, a, b);
    NotLonger(g, b, a);
    forall i | 0 <= i < |a| ensures a[i] == b[i] {
      FindVisited(g, a, i);
      FindVisited(g, b, i);
    }
  }
}

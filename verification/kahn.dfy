/** Kahn's algorithm: exactly when its loop ends, and its answer. */
module Kahn {
  import opened Wrappers
  import opened Schema
  import opened Topology
  import opened Turning
  import opened Accounts
  import opened Recounts
  import opened Queueing

  // ---- exactly when the loop ends -----------------------------------------------------------------------------

  lemma SizeMonotone(a: multiset<string>, b: multiset<string>)
    requires a <= b
    ensures |a| <= |b|
  {
    assert b == a + (b - a);
  }

  lemma QueuedSize(g: Graph, queue: seq<nat>)
    requires Within(g, queue)
    ensures |Queued(g, queue)| == |queue|
  {
  }

  lemma QueuedIds(g: Graph, queue: seq<nat>, id: string)
    requires Within(g, queue) && id !in Ids(g)
    ensures Queued(g, queue)[id] == 0
  {
    forall i | 0 <= i < |queue| ensures IdsAt(g, queue)[i] != id { IdsHas(g, queue[i]); }
  }

  /** On account, each id is queued exactly as often as what is done makes it due. */
  lemma QueuedIsDue(g: Graph, k: nat, id: string)
    requires OnAccount(g, k) && id in Ids(g)
    ensures var q := Turns(g, k).queue; Queued(g, q)[id] == Due(g, id, Taken(g, q, k))
  {
    hide Pending, Arrived, LastIndex, Turns;
    assert g.edges[..0] == [];
    assert Copies(g.nodes, id) >= 0;
    assert QueueFits(g, Turns(g, k).queue, Taken(g, Turns(g, k).queue, k), "", 0, id);
  }

  lemma TakenWithin(g: Graph, queue: seq<nat>, grown: seq<nat>, k: nat)
    requires Within(g, queue) && Within(g, grown) && queue <= grown && k <= |queue|
    ensures Taken(g, grown, k) <= Queued(g, queue)
  {
    var a := IdsAt(g, queue);
    assert IdsAt(g, grown)[..k] == a[..k];
    assert a == a[..k] + a[k..];
  }

  /** No queue ever outgrows a finite account. */
  lemma {:induction false} QueuedWithin(g: Graph, account: multiset<string>, k: nat)
    requires Balanced(g, account) && forall j :: 0 <= j < k ==> j < |Turns(g, j).queue|
    ensures OnAccount(g, k) && Queued(g, Turns(g, k).queue) <= account
  {
    hide Accounted, Due, Turns, Queued, Taken, Within, Balanced;
    Exact(g, k);
    var q := Turns(g, k).queue;
    assert Within(g, q) by { OnAccountWithin(g, k); }
    var done := Taken(g, q, k);
    assert done <= account by {
      if k > 0 {
        QueuedWithin(g, account, k - 1);
        OnAccountWithin(g, k - 1);
        TurnOnAccount(g, k - 1);
        TakenWithin(g, Turns(g, k - 1).queue, q, k);
      } else {
        NothingTaken(g, q);
      }
    }
    forall id ensures Queued(g, q)[id] <= account[id] {
      if id in Ids(g) {
        QueuedIsDue(g, k, id);
        DueMonotone(g, id, done, account);
        BalancedAt(g, account, id);
      } else {
        QueuedIds(g, q, id);
      }
    }
  }

  lemma OnAccountWithin(g: Graph, k: nat)
    requires OnAccount(g, k)
    ensures Within(g, Turns(g, k).queue) && k <= |Turns(g, k).queue|
  {
  }

  lemma NothingTaken(g: Graph, queue: seq<nat>)
    requires Within(g, queue)
    ensures Taken(g, queue, 0) == multiset{}
  {
  }

  /** The first turn at which the queue has run dry. */
  lemma {:induction false} FirstEnd(g: Graph, k: nat) returns (first: nat)
    requires |Turns(g, k).queue| <= k
    ensures first <= k && |Turns(g, first).queue| <= first
    ensures forall j :: 0 <= j < first ==> j < |Turns(g, j).queue|
    decreases k
  {
    hide Turns;
    if j :| 0 <= j < k && |Turns(g, j).queue| <= j {
      first := FirstEnd(g, j);
    } else {
      first := k;
    }
  }

  lemma BalancedEnds(g: Graph, account: multiset<string>)
    requires Balanced(g, account)
    ensures Ends(g)
  {
    hide Accounted, Turns, Queued, Balanced, Within;
    var k := |account|;
    if forall j :: 0 <= j < k ==> j < |Turns(g, j).queue| {
      QueuedWithin(g, account, k);
      OnAccountWithin(g, k);
      QueuedSize(g, Turns(g, k).queue);
      SizeMonotone(Queued(g, Turns(g, k).queue), account);
    }
  }

  lemma EndsBalanced(g: Graph) returns (account: multiset<string>)
    requires Ends(g)
    ensures Balanced(g, account)
  {
    hide Accounted, Turns, Within, Due;
    var k :| |Turns(g, k).queue| <= k;
    var first := FirstEnd(g, k);
    Exact(g, first);
    OnAccountWithin(g, first);
    var q := Turns(g, first).queue;
    account := Queued(g, q);
    assert IdsAt(g, q)[..first] == IdsAt(g, q);
    forall id | id in Ids(g) ensures Due(g, id, account) <= account[id] {
      QueuedIsDue(g, first, id);
    }
  }

  /**
   * The loop ends exactly when a finite account exists: a number for each id no smaller than the number of further
   * nodes of the id, plus the arrivals the numbers of its sources bring it from the one that frees it on.
   */
  lemma EndsIffBalanced(g: Graph)
    ensures Ends(g) <==> exists account :: Balanced(g, account)
  {
    hide Balanced, Turns;
    if Ends(g) { var account := EndsBalanced(g); }
    if account :| Balanced(g, account) { BalancedEnds(g, account); }
  }

  /**
   * And exactly when counting in rounds has come to rest after one round for each id. Nothing is searched for here: the
   * rounds are computed from the graph before anything runs.
   */
  lemma EndsIffRounds(g: Graph)
    ensures Ends(g) <==> Balanced(g, Rounds(g, |Ids(g)|))
  {
    hide Balanced, Rounds;
    EndsIffBalanced(g);
    if account :| Balanced(g, account) { RoundsSettle(g, account); }
  }

  // ---- repeated ids ---------------------------------------------------------------------------------------------

  /** Without a directed cycle the loop ends, however often ids repeat. */
  lemma AcyclicEnds(g: Graph)
    requires !exists c :: DirectedCycle(g, c)
    ensures Ends(g)
  {
    hide DirectedCycle, Balanced, Rises, BackWalk;
    var n := |Ids(g)|;
    if !Balanced(g, Rounds(g, n)) {
      var id := Unbalanced(g, n);
      var path := StillRising(g, n, id);
      LongWalkCycles(g, path);
    }
    BalancedEnds(g, Rounds(g, n));
  }

  lemma {:induction false} OnlySelf(edges: seq<Edge>, id: string, account: multiset<string>)
    requires forall e :: e in edges && e.target == id ==> e.source == id
    requires account[id] >= 1 && Pending(edges, id, {}) >= 1
    ensures Arrived(edges, id, account) >= Pending(edges, id, {}) - 1 + account[id]
  {
    var front, e := edges[..|edges| - 1], edges[|edges| - 1];
    assert edges == front + [e];
    if Pending(front, id, {}) >= 1 { OnlySelf(front, id, account); }
  }

  /** A repeated id that only its own edges lead to, and at least one: the queue never runs dry. */
  lemma RepeatedSelfNeverEnds(g: Graph, id: string)
    requires Copies(g.nodes, id) > 1 && exists e :: e in g.edges && e.target == id
    requires forall e :: e in g.edges && e.target == id ==> e.source == id
    ensures !Ends(g)
  {
    hide Turns, Ends, Copies, Pending, Arrived, Balanced;
    CopiesIff(g.nodes, id);
    PendingZero(g.edges, id, {});
    if Ends(g) {
      var account := EndsBalanced(g);
      BalancedAt(g, account, id);
      OnlySelf(g.edges, id, account);
    }
  }

  // ---- unique ids ------------------------------------------------------------------------------------------------

  /** With unique ids the loop always ends. */
  lemma UniqueEnds(g: Graph)
    requires UniqueIds(g)
    ensures Ends(g)
  {
    hide InOrder, Turns;
    var n := |g.nodes|;
    if forall j :: 0 <= j < n ==> j < |Turns(g, j).queue| {
      TurnsInOrder(g, n);
      OrderFits(g, Turns(g, n), n);
    }
  }

  /** Ids repeat exactly when there are fewer ids than nodes. */
  lemma {:induction false} FewerIds(nodes: seq<Node>)
    ensures |IdSet(nodes)| <= |nodes|
    ensures |IdSet(nodes)| == |nodes| ==> forall i, j :: 0 <= i < j < |nodes| ==> nodes[i].id != nodes[j].id
  {
    if nodes != [] {
      var front := nodes[..|nodes| - 1];
      FewerIds(front);
      forall i | 0 <= i < |front| ensures nodes[i].id in IdSet(front) { IdSetHas(front, i); }
    }
  }

  lemma {:induction false} AsManyIds(nodes: seq<Node>)
    requires forall i, j :: 0 <= i < j < |nodes| ==> nodes[i].id != nodes[j].id
    ensures |IdSet(nodes)| == |nodes|
  {
    if nodes != [] {
      var front := nodes[..|nodes| - 1];
      AsManyIds(front);
      if nodes[|nodes| - 1].id in IdSet(front) { var i := IndexIn(front, nodes[|nodes| - 1].id); }
    }
  }

  lemma UniqueIffAsMany(g: Graph)
    ensures UniqueIds(g) <==> |Ids(g)| == |g.nodes|
  {
    FewerIds(g.nodes);
    if UniqueIds(g) {
      forall i, j | 0 <= i < j < |g.nodes| ensures g.nodes[i].id != g.nodes[j].id { assert !SameId(g, i, j); }
      AsManyIds(g.nodes);
    }
  }

  /** A queue that has run dry short of the graph, or ids that repeat: there is no order. */
  lemma NoAnswer(g: Graph, at: nat)
    requires (forall j :: 0 <= j < at ==> j < |Turns(g, j).queue|) && |Turns(g, at).queue| == at
    requires at != |g.nodes| || |Ids(g)| != |g.nodes|
    ensures !Sortable(g)
  {
    hide Turns, Counts, Lawful, TopoOrder;
    UniqueIffAsMany(g);
    if UniqueIds(g) {
      var p := Turns(g, at);
      TurnsInOrder(g, at);
      OrderFits(g, p, at);
      var stuck := LeftOverIsStuck(g, p.degrees, p.queue);
      StuckHasNoOrder(g, stuck);
    }
  }

  lemma Answer(g: Graph, at: nat)
    requires (forall j :: 0 <= j < at ==> j < |Turns(g, j).queue|) && |Turns(g, at).queue| == at
    requires at == |g.nodes| && UniqueIds(g)
    ensures TopoOrder(g, Turns(g, at).queue) && KahnQueue(g, IdsAt(g, Turns(g, at).queue)) && Sortable(g)
  {
    hide Turns, Counts;
    TurnsInOrder(g, at);
    assert TopoOrder(g, Turns(g, at).queue);
  }

  // ---- the algorithm ----------------------------------------------------------------------------------------------

  method IndexNodes(g: Graph) returns (indexOf: map<string, nat>)
    ensures indexOf == LastIndex(g.nodes)
  {
    indexOf := map[];
    for i := 0 to |g.nodes|
      invariant indexOf == LastIndex(g.nodes[..i])
    {
      assert g.nodes[..i + 1][..i] == g.nodes[..i];
      indexOf := indexOf[g.nodes[i].id := i];
    }
    assert g.nodes[..|g.nodes|] == g.nodes;
  }

  method CountDegrees(g: Graph, indexOf: map<string, nat>) returns (inDegree: array<nat>)
    requires indexOf == LastIndex(g.nodes)
    ensures fresh(inDegree) && inDegree[..] == Degrees(g.edges, indexOf, |g.nodes|)
  {
    var n := |g.nodes|;
    inDegree := new nat[n](_ => 0);
    assert inDegree[..] == seq(n, _ => 0);
    for k := 0 to |g.edges|
      invariant inDegree[..] == Degrees(g.edges[..k], indexOf, n)
    {
      assert g.edges[..k + 1][..k] == g.edges[..k];
      LastIndexIs(g.nodes, g.edges[k].target);
      if g.edges[k].target in indexOf {
        var target := indexOf[g.edges[k].target];
        inDegree[target] := inDegree[target] + 1;
      }
    }
    assert g.edges[..|g.edges|] == g.edges;
  }

  /** Seeded in document order with the nodes whose in-degree is zero. */
  method SeedQueue(inDegree: array<nat>) returns (queue: seq<nat>)
    ensures queue == Entering(inDegree[..], inDegree.Length)
  {
    queue := [];
    for i := 0 to inDegree.Length
      invariant queue == Entering(inDegree[..], i)
    {
      if inDegree[i] == 0 {
        queue := queue + [i];
      }
    }
  }

  /** The edges that leave `u`, counted off in document order. */
  method Process(g: Graph, indexOf: map<string, nat>, inDegree: array<nat>, queue: seq<nat>, u: string)
    returns (grown: seq<nat>)
    requires indexOf == LastIndex(g.nodes) && inDegree.Length == |g.nodes|
    modifies inDegree
    ensures Tally(inDegree[..], grown) == CountOff(indexOf, u, g.edges, Tally(old(inDegree[..]), queue))
  {
    grown := queue;
    for k := 0 to |g.edges|
      invariant Tally(inDegree[..], grown) == CountOff(indexOf, u, g.edges[..k], Tally(old(inDegree[..]), queue))
    {
      assert g.edges[..k + 1][..k] == g.edges[..k];
      var e := g.edges[k];
      LastIndexIs(g.nodes, e.target);
      if e.source != u {
        continue;
      }
      if e.target in indexOf {
        var target := indexOf[e.target];
        inDegree[target] := if inDegree[target] == 0 then 0 else inDegree[target] - 1;
        if inDegree[target] == 0 {
          grown := grown + [target];
        }
      }
    }
    assert g.edges[..|g.edges|] == g.edges;
  }

  /**
   * Kahn's algorithm over document-ordered edges, for every graph its loop ends on: an order exactly when ids are
   * unique and there is one, and then the first-in-first-out one.
   */
  method TopoSort(g: Graph) returns (r: Option<seq<nat>>)
    requires Ends(g)
    ensures r.Some? <==> Sortable(g)
    ensures r.Some? ==> TopoOrder(g, r.value) && KahnQueue(g, IdsAt(g, r.value))
  {
    hide Sortable, TopoOrder, KahnQueue, LastIndex, Degrees, Entering, CountOff;
    var n := |g.nodes|;
    var indexOf := IndexNodes(g);
    var inDegree := CountDegrees(g, indexOf);
    var queue := SeedQueue(inDegree);

    ghost var last: nat :| |Turns(g, last).queue| <= last;
    Exact(g, 0);
    var ordered: seq<nat> := [];
    var at := 0;
    while at < |queue|
      invariant at <= last && inDegree.Length == n
      invariant Tally(inDegree[..], queue) == Turns(g, at)
      invariant forall j :: 0 <= j < at ==> j < |Turns(g, j).queue|
      invariant OnAccount(g, at) && ordered == queue[..at]
      decreases last - at
    {
      var index := queue[at];
      TurnOnAccount(g, at);
      var grown := Process(g, indexOf, inDegree, queue, g.nodes[index].id);
      PrefixSnoc(queue, grown, at);
      queue := grown;
      at := at + 1;
      ordered := ordered + [index];
    }

    assert ordered == queue;
    UniqueIffAsMany(g);
    var unique := Ids(g);
    if |ordered| != n || |unique| != n {
      NoAnswer(g, at);
      return None;
    }
    Answer(g, at);
    return Some(ordered);
  }
}

/** Which nodes can run now, and which never will, given what has settled. */
module Frontier {
  import opened Wrappers
  import opened Schema
  import opened Activation
  import opened Topology
  import opened Store

  /** The ports each settled node lit: none, unless it completed. */
  type Ports = map<string, seq<string>>

  function SettledPorts(rows: Rows): Ports {
    map id | id in rows && rows[id].status.IsSettled() ::
      if rows[id].status.Completed? then rows[id].ports else []
  }

  function HeldIds(rows: Rows): set<string> {
    set id | id in rows && rows[id].status.IsHeld()
  }

  // ---- the rule, for one node -----------------------------------------------------------------------

  predicate EdgeActive(settled: Ports, e: Edge) {
    e.source in settled && e.SourcePort() in settled[e.source]
  }

  ghost predicate Unblocked(settled: Ports, edges: seq<Edge>) {
    forall e :: e in edges ==> e.source in settled
  }

  ghost predicate SomeActive(settled: Ports, edges: seq<Edge>) {
    exists e :: e in edges && EdgeActive(settled, e)
  }

  /** Every source is settled and either no edge in is active or the node is an annotation. */
  ghost predicate Skippable(g: Graph, settled: Ports, node: Node) {
    var edges := Incoming(g, node.id);
    Unblocked(settled, edges) && ((edges != [] && !SomeActive(settled, edges)) || IsNote(node))
  }

  /** Every source is settled, the node is live, and it is not an annotation. */
  ghost predicate Runnable(g: Graph, settled: Ports, node: Node) {
    var edges := Incoming(g, node.id);
    Unblocked(settled, edges) && (edges == [] || SomeActive(settled, edges)) && !IsNote(node)
  }

  /** What is settled once `skipped` are, with no ports. */
  function With(base: Ports, skipped: seq<string>): Ports {
    if skipped == [] then base else With(base, skipped[..|skipped| - 1])[skipped[|skipped| - 1] := []]
  }

  lemma {:induction false} WithKeys(base: Ports, skipped: seq<string>, id: string)
    requires forall i :: 0 <= i < |skipped| ==> skipped[i] !in base
    ensures id in With(base, skipped) <==> id in base || id in skipped
    ensures id in base ==> With(base, skipped)[id] == base[id]
    ensures id in skipped ==> With(base, skipped)[id] == []
  {
    if skipped != [] {
      var front := skipped[..|skipped| - 1];
      WithKeys(base, front, id);
      assert skipped == front + [skipped[|skipped| - 1]];
    }
  }

  // ---- the skip cascade -------------------------------------------------------------------------------

  /** `id` names an undecided node that `settled` leaves no way to run. */
  ghost predicate Dies(g: Graph, settled: Ports, held: set<string>, id: string) {
    id !in settled && id !in held && exists node :: node in g.nodes && node.id == id && Skippable(g, settled, node)
  }

  /** Each node is skipped only once all its sources are settled, the earlier skips counted. */
  ghost predicate Cascade(g: Graph, base: Ports, held: set<string>, skipped: seq<string>) {
    forall k {:trigger skipped[k]} :: 0 <= k < |skipped| ==> Dies(g, With(base, skipped[..k]), held, skipped[k])
  }

  /** Nothing more can be skipped. */
  ghost predicate Exhausted(g: Graph, settled: Ports, held: set<string>) {
    forall id :: !Dies(g, settled, held, id)
  }

  /** The undecided nodes that may run. */
  ghost predicate Ready(g: Graph, settled: Ports, held: set<string>, id: string) {
    id !in settled && id !in held && exists node :: node in g.nodes && node.id == id && Runnable(g, settled, node)
  }

  /** More settled, and nothing already settled changed. */
  ghost predicate Grows(a: Ports, b: Ports) {
    forall id :: id in a ==> id in b && b[id] == a[id]
  }

  lemma RunnableGrows(g: Graph, a: Ports, b: Ports, node: Node)
    requires Grows(a, b) && Runnable(g, a, node)
    ensures Runnable(g, b, node)
  {
    var edges := Incoming(g, node.id);
    if edges != [] {
      var e :| e in edges && EdgeActive(a, e);
      assert EdgeActive(b, e);
    }
  }

  lemma SkippableGrows(g: Graph, a: Ports, b: Ports, node: Node)
    requires Grows(a, b) && Skippable(g, a, node)
    ensures Skippable(g, b, node)
  {
    var edges := Incoming(g, node.id);
    if e :| e in edges && EdgeActive(b, e) {
      assert EdgeActive(a, e);
    }
  }

  lemma CascadeFresh(g: Graph, base: Ports, held: set<string>, skipped: seq<string>)
    requires Cascade(g, base, held, skipped)
    ensures forall k :: 0 <= k < |skipped| ==> skipped[k] !in base
    ensures forall j, k :: 0 <= j < k < |skipped| ==> skipped[j] != skipped[k]
  {
    forall k | 0 <= k < |skipped|
      ensures skipped[k] !in base && forall j :: 0 <= j < k ==> skipped[j] != skipped[k]
    {
      CascadeFreshAt(g, base, held, skipped, k);
    }
  }

  lemma {:induction false} CascadeFreshAt(g: Graph, base: Ports, held: set<string>, skipped: seq<string>, k: nat)
    requires Cascade(g, base, held, skipped) && k < |skipped|
    ensures skipped[k] !in base
    ensures forall j :: 0 <= j < k ==> skipped[j] != skipped[k]
    decreases k
  {
    forall j | 0 <= j < k ensures skipped[j] !in base { CascadeFreshAt(g, base, held, skipped, j); }
    assert Dies(g, With(base, skipped[..k]), held, skipped[k]);
    WithKeys(base, skipped[..k], skipped[k]);
    forall j | 0 <= j < k ensures skipped[j] != skipped[k] { assert skipped[..k][j] == skipped[j]; }
  }

  /** A cascade stays inside any exhausted set of settled nodes that holds the same rows. */
  lemma {:induction false} CascadeInside(
      g: Graph, h: Graph, base: Ports, held: set<string>, skipped: seq<string>, closed: seq<string>, k: nat)
    requires SameGraph(g, h) && k <= |skipped|
    requires Cascade(g, base, held, skipped) && Cascade(h, base, held, closed)
    requires Exhausted(h, With(base, closed), held)
    ensures Grows(With(base, skipped[..k]), With(base, closed))
    ensures forall j :: 0 <= j < k ==> skipped[j] in closed
  {
    hide Runnable, Skippable, Unblocked, SomeActive;
    CascadeFresh(g, base, held, skipped);
    CascadeFresh(h, base, held, closed);
    if k > 0 {
      CascadeInside(g, h, base, held, skipped, closed, k - 1);
      var id, now, all := skipped[k - 1], With(base, skipped[..k - 1]), With(base, closed);
      assert Dies(g, now, held, id);
      var node :| node in g.nodes && node.id == id && Skippable(g, now, node);
      SkippableGrows(g, now, all, node);
      SameRule(g, h, all, node);
      assert !Dies(h, all, held, id);
      WithKeys(base, closed, id);
      assert skipped[..k][..k - 1] == skipped[..k - 1];
    }
    forall x | x in With(base, skipped[..k])
      ensures x in With(base, closed) && With(base, closed)[x] == With(base, skipped[..k])[x]
    {
      WithKeys(base, skipped[..k], x);
      WithKeys(base, closed, x);
    }
  }

  /** The same nodes and the same edges, whatever the order they are declared in. */
  ghost predicate SameGraph(g: Graph, h: Graph) {
    && (forall node :: node in g.nodes <==> node in h.nodes)
    && (forall e :: e in g.edges <==> e in h.edges)
  }

  lemma SameRule(g: Graph, h: Graph, settled: Ports, node: Node)
    requires SameGraph(g, h)
    ensures Skippable(g, settled, node) <==> Skippable(h, settled, node)
    ensures Runnable(g, settled, node) <==> Runnable(h, settled, node)
  {
    IntoMembers(g.edges, node.id);
    IntoMembers(h.edges, node.id);
    var a, b := Incoming(g, node.id), Incoming(h, node.id);
    assert forall e :: e in a <==> e in b;
    assert a == [] <==> b == [] by {
      if a != [] { assert a[0] in b; }
      if b != [] { assert b[0] in a; }
    }
  }

  /** The answer is a least fixpoint, so it does not depend on the order nodes or edges are declared in. */
  lemma OrderIndependent(
      g: Graph, h: Graph, base: Ports, held: set<string>, a: seq<string>, b: seq<string>, id: string)
    requires SameGraph(g, h)
    requires Cascade(g, base, held, a) && Exhausted(g, With(base, a), held)
    requires Cascade(h, base, held, b) && Exhausted(h, With(base, b), held)
    ensures id in a <==> id in b
    ensures Ready(g, With(base, a), held, id) <==> Ready(h, With(base, b), held, id)
  {
    hide Runnable, Skippable, Dies;
    CascadeInside(g, h, base, held, a, b, |a|);
    CascadeInside(h, g, base, held, b, a, |b|);
    assert a[..|a|] == a && b[..|b|] == b;
    assert With(base, a) == With(base, b);
    forall node | node in g.nodes { SameRule(g, h, With(base, a), node); }
  }

  // ---- when each decision falls -------------------------------------------------------------------------

  /** A visit: which pass over the nodes, and which place in it. */
  datatype Turn = Turn(pass: nat, place: nat)
  {
    predicate Sooner(t: Turn) {
      pass < t.pass || (pass == t.pass && place < t.place)
    }
  }

  type Turns = map<string, Turn>

  ghost predicate SettledBy(base: Ports, skips: Turns, id: string, t: Turn) {
    id in base || (id in skips && skips[id].Sooner(t))
  }

  ghost predicate BlockedAt(g: Graph, base: Ports, skips: Turns, id: string, t: Turn) {
    exists e :: e in Incoming(g, id) && !SettledBy(base, skips, e.source, t)
  }

  /** Turn `t` is the first visit to `id` that finds all its sources settled. */
  ghost predicate FirstChance(g: Graph, base: Ports, skips: Turns, id: string, t: Turn) {
    && t.place < |g.nodes| && g.nodes[t.place].id == id
    && !BlockedAt(g, base, skips, id, t)
    && (t.pass > 0 ==> BlockedAt(g, base, skips, id, Turn(t.pass - 1, t.place)))
  }

  /** `ids` are decided in this order, each at its first chance. */
  ghost predicate InTurn(g: Graph, base: Ports, skips: Turns, ids: seq<string>, turns: Turns) {
    && (forall i {:trigger ids[i]} :: 0 <= i < |ids| ==>
          ids[i] in turns && FirstChance(g, base, skips, ids[i], turns[ids[i]]))
    && (forall i, j :: 0 <= i < j < |ids| ==>
          ids[i] in turns && ids[j] in turns && turns[ids[i]].Sooner(turns[ids[j]]))
    && (forall id :: id in turns ==> id in ids)
  }

  /** Every turn taken so far is before `now`. */
  ghost predicate Past(turns: Turns, now: Turn) {
    forall id :: id in turns ==> turns[id].Sooner(now)
  }

  /** A node nobody decided was blocked when last visited. */
  ghost predicate Passed(g: Graph, base: Ports, held: set<string>, settled: Ports, ready: seq<string>, skips: Turns, now: Turn) {
    forall i {:trigger g.nodes[i]} :: 0 <= i < |g.nodes| ==> PassedAt(g, base, held, settled, ready, skips, now, i)
  }

  ghost predicate PassedAt(
      g: Graph, base: Ports, held: set<string>, settled: Ports, ready: seq<string>, skips: Turns, now: Turn, i: nat)
    requires i < |g.nodes|
  {
    var id := g.nodes[i].id;
    && (i < now.place ==> id in settled || id in held || id in ready || BlockedAt(g, base, skips, id, Turn(now.pass, i)))
    && (now.place <= i && now.pass > 0 ==>
          id in settled || id in held || id in ready || BlockedAt(g, base, skips, id, Turn(now.pass - 1, i)))
  }

  // ---- the algorithm ----------------------------------------------------------------------------------

  /** Is some source unsettled, and if not, is some edge active? */
  method Inspect(settled: Ports, edges: seq<Edge>) returns (blocked: bool, active: bool)
    ensures blocked <==> !Unblocked(settled, edges)
    ensures !blocked ==> (active <==> SomeActive(settled, edges))
  {
    blocked, active := false, false;
    for i := 0 to |edges|
      invariant forall j :: 0 <= j < i ==> edges[j].source in settled
      invariant active <==> exists j :: 0 <= j < i && EdgeActive(settled, edges[j])
      invariant !blocked
    {
      if edges[i].source !in settled {
        blocked := true;
        return;
      }
      if edges[i].SourcePort() in settled[edges[i].source] {
        active := true;
      }
    }
  }

  /** What the passes have decided so far. */
  ghost predicate Decided(
      g: Graph, base: Ports, held: set<string>, settled: Ports, ready: seq<string>, skipped: seq<string>)
  {
    && settled == With(base, skipped) && Cascade(g, base, held, skipped)
    && (forall i {:trigger Ready(g, settled, held, ready[i])} :: 0 <= i < |ready| ==> Ready(g, settled, held, ready[i]))
    && Once(ready)
  }

  ghost predicate Once(ids: seq<string>) {
    forall i, j :: 0 <= i < j < |ids| ==> ids[i] != ids[j]
  }

  /** The first `k` nodes hold no surprise: each is settled, held, ready or blocked. */
  ghost predicate Seen(g: Graph, held: set<string>, settled: Ports, ready: seq<string>, k: nat) {
    forall i {:trigger g.nodes[i]} :: 0 <= i < k && i < |g.nodes| ==> NodeSeen(g, held, settled, ready, i)
  }

  ghost predicate NodeSeen(g: Graph, held: set<string>, settled: Ports, ready: seq<string>, i: nat)
    requires i < |g.nodes|
  {
    var id := g.nodes[i].id;
    id in settled || id in held || id in ready || !Unblocked(settled, Incoming(g, id))
  }

  lemma SkipOne(g: Graph, base: Ports, held: set<string>, settled: Ports, ready: seq<string>, skipped: seq<string>, i: nat)
    requires Decided(g, base, held, settled, ready, skipped) && i < |g.nodes|
    requires g.nodes[i].id !in settled && g.nodes[i].id !in held && g.nodes[i].id !in ready
    requires Skippable(g, settled, g.nodes[i])
    ensures Decided(g, base, held, settled[g.nodes[i].id := []], ready, skipped + [g.nodes[i].id])
  {
    hide Skippable, Runnable;
    var id := g.nodes[i].id;
    var longer, more := skipped + [id], settled[id := []];
    assert longer[..|skipped|] == skipped;
    forall k | 0 <= k < |longer| ensures Dies(g, With(base, longer[..k]), held, longer[k]) {
      assert longer[..k] == skipped[..k];
      if k < |skipped| { assert Dies(g, With(base, skipped[..k]), held, skipped[k]); } else { assert skipped[..k] == skipped; }
    }
    forall j | 0 <= j < |ready| ensures Ready(g, more, held, ready[j]) {
      assert Ready(g, settled, held, ready[j]);
      var node :| node in g.nodes && node.id == ready[j] && Runnable(g, settled, node);
      RunnableGrows(g, settled, more, node);
    }
  }

  /** The turns account for every decision so far, up to visit `now`. */
  ghost predicate Clock(
      g: Graph, base: Ports, held: set<string>, settled: Ports, ready: seq<string>, skipped: seq<string>,
      readies: Turns, skips: Turns, now: Turn)
  {
    && InTurn(g, base, skips, skipped, skips) && Past(skips, now)
    && InTurn(g, base, skips, ready, readies) && Past(readies, now)
    && Passed(g, base, held, settled, ready, skips, now)
  }

  lemma SettledNow(
      g: Graph, base: Ports, held: set<string>, settled: Ports, skipped: seq<string>, skips: Turns, now: Turn, id: string)
    requires settled == With(base, skipped) && Cascade(g, base, held, skipped)
    requires InTurn(g, base, skips, skipped, skips) && Past(skips, now)
    ensures SettledBy(base, skips, id, now) <==> id in settled
  {
    hide FirstChance;
    CascadeFresh(g, base, held, skipped);
    WithKeys(base, skipped, id);
    if id in skipped {
      var i :| 0 <= i < |skipped| && skipped[i] == id;
    }
  }

  lemma BlockedNow(
      g: Graph, base: Ports, held: set<string>, settled: Ports, skipped: seq<string>, skips: Turns, now: Turn, id: string)
    requires settled == With(base, skipped) && Cascade(g, base, held, skipped)
    requires InTurn(g, base, skips, skipped, skips) && Past(skips, now)
    ensures BlockedAt(g, base, skips, id, now) <==> !Unblocked(settled, Incoming(g, id))
  {
    hide FirstChance, InTurn, Cascade;
    forall e | e in Incoming(g, id) ensures SettledBy(base, skips, e.source, now) <==> e.source in settled {
      SettledNow(g, base, held, settled, skipped, skips, now, e.source);
    }
  }

  /** The clock strikes for a node that is decided already or still blocked. */
  lemma TickPast(
      g: Graph, base: Ports, held: set<string>, settled: Ports, ready: seq<string>, skipped: seq<string>,
      readies: Turns, skips: Turns, now: Turn)
    requires Decided(g, base, held, settled, ready, skipped) && now.place < |g.nodes|
    requires Clock(g, base, held, settled, ready, skipped, readies, skips, now)
    requires NodeSeen(g, held, settled, ready, now.place)
    ensures Clock(g, base, held, settled, ready, skipped, readies, skips, Turn(now.pass, now.place + 1))
  {
    hide FirstChance, InTurn, Cascade, BlockedAt, Unblocked;
    var next := Turn(now.pass, now.place + 1);
    BlockedNow(g, base, held, settled, skipped, skips, now, g.nodes[now.place].id);
    forall i | 0 <= i < |g.nodes| ensures PassedAt(g, base, held, settled, ready, skips, next, i) {
      assert PassedAt(g, base, held, settled, ready, skips, now, i) by { assert g.nodes[i] == g.nodes[i]; }
    }
  }

  /** A decision now comes at the node's first chance. */
  lemma ChanceNow(
      g: Graph, base: Ports, held: set<string>, settled: Ports, ready: seq<string>, skipped: seq<string>,
      readies: Turns, skips: Turns, now: Turn)
    requires Decided(g, base, held, settled, ready, skipped) && now.place < |g.nodes|
    requires Clock(g, base, held, settled, ready, skipped, readies, skips, now)
    requires !NodeSeen(g, held, settled, ready, now.place)
    ensures FirstChance(g, base, skips, g.nodes[now.place].id, now)
  {
    hide InTurn, Cascade, BlockedAt, Unblocked;
    BlockedNow(g, base, held, settled, skipped, skips, now, g.nodes[now.place].id);
    assert PassedAt(g, base, held, settled, ready, skips, now, now.place) by {
      assert g.nodes[now.place] == g.nodes[now.place];
    }
  }

  lemma AppendTurn(g: Graph, base: Ports, skips: Turns, ids: seq<string>, turns: Turns, id: string, now: Turn)
    requires InTurn(g, base, skips, ids, turns) && Past(turns, now) && id !in turns
    requires FirstChance(g, base, skips, id, now)
    ensures InTurn(g, base, skips, ids + [id], turns[id := now])
    ensures Past(turns[id := now], Turn(now.pass, now.place + 1))
  {
    hide FirstChance;
    var longer, more := ids + [id], turns[id := now];
    forall i | 0 <= i < |longer| ensures longer[i] in more && FirstChance(g, base, skips, longer[i], more[longer[i]]) {
      assert i < |ids| ==> longer[i] == ids[i];
    }
    forall i, j | 0 <= i < j < |longer| ensures more[longer[i]].Sooner(more[longer[j]]) {
      assert longer[i] == ids[i];
      assert j < |ids| ==> longer[j] == ids[j];
    }
  }

  lemma PassedOn(
      g: Graph, base: Ports, held: set<string>, settled: Ports, ready: seq<string>, skips: Turns, now: Turn,
      settled': Ports, ready': seq<string>, skips': Turns)
    requires now.place < |g.nodes| && Passed(g, base, held, settled, ready, skips, now)
    requires g.nodes[now.place].id in settled' || g.nodes[now.place].id in ready'
    requires settled.Keys <= settled'.Keys && ready <= ready'
    requires forall id, t: Turn {:trigger BlockedAt(g, base, skips', id, t)} ::
      t.Sooner(now) && BlockedAt(g, base, skips, id, t) ==> BlockedAt(g, base, skips', id, t)
    ensures Passed(g, base, held, settled', ready', skips', Turn(now.pass, now.place + 1))
  {
    hide BlockedAt;
    var next := Turn(now.pass, now.place + 1);
    forall i | 0 <= i < |g.nodes| ensures PassedAt(g, base, held, settled', ready', skips', next, i) {
      var id := g.nodes[i].id;
      assert PassedAt(g, base, held, settled, ready, skips, now, i) by { assert g.nodes[i] == g.nodes[i]; }
      assert id in ready ==> id in ready';
      assert Turn(now.pass, i).Sooner(now) <==> i < now.place;
      assert now.pass > 0 ==> Turn(now.pass - 1, i).Sooner(now);
    }
  }

  lemma TickReady(
      g: Graph, base: Ports, held: set<string>, settled: Ports, ready: seq<string>, skipped: seq<string>,
      readies: Turns, skips: Turns, now: Turn)
    requires Decided(g, base, held, settled, ready, skipped) && now.place < |g.nodes|
    requires Clock(g, base, held, settled, ready, skipped, readies, skips, now)
    requires !NodeSeen(g, held, settled, ready, now.place)
    ensures var id := g.nodes[now.place].id;
      Clock(g, base, held, settled, ready + [id], skipped, readies[id := now], skips, Turn(now.pass, now.place + 1))
  {
    var id := g.nodes[now.place].id;
    ChanceNow(g, base, held, settled, ready, skipped, readies, skips, now);
    hide FirstChance, Cascade, BlockedAt, Unblocked, Passed, With, Ready;
    assert id !in readies;
    AppendTurn(g, base, skips, ready, readies, id, now);
    PassedOn(g, base, held, settled, ready, skips, now, settled, ready + [id], skips);
    hide InTurn;
  }

  /** A skip at `now` settles nothing for any visit up to `now`. */
  lemma BlockedStill(g: Graph, base: Ports, skips: Turns, now: Turn, skipped: string, id: string, t: Turn)
    requires skipped !in base && skipped !in skips && !now.Sooner(t)
    ensures BlockedAt(g, base, skips[skipped := now], id, t) <==> BlockedAt(g, base, skips, id, t)
  {
    forall x ensures SettledBy(base, skips[skipped := now], x, t) <==> SettledBy(base, skips, x, t) {
    }
  }

  lemma ChanceKept(g: Graph, base: Ports, skips: Turns, now: Turn, skipped: string, id: string, t: Turn)
    requires skipped !in base && skipped !in skips && !now.Sooner(t) && FirstChance(g, base, skips, id, t)
    ensures FirstChance(g, base, skips[skipped := now], id, t)
  {
    hide BlockedAt;
    BlockedStill(g, base, skips, now, skipped, id, t);
    if t.pass > 0 { BlockedStill(g, base, skips, now, skipped, id, Turn(t.pass - 1, t.place)); }
  }

  lemma TurnsKept(g: Graph, base: Ports, skips: Turns, now: Turn, skipped: string, ids: seq<string>, turns: Turns)
    requires skipped !in base && skipped !in skips && InTurn(g, base, skips, ids, turns) && Past(turns, now)
    ensures InTurn(g, base, skips[skipped := now], ids, turns)
  {
    hide FirstChance;
    forall i | 0 <= i < |ids| ensures FirstChance(g, base, skips[skipped := now], ids[i], turns[ids[i]]) {
      ChanceKept(g, base, skips, now, skipped, ids[i], turns[ids[i]]);
    }
  }

  lemma TickSkip(
      g: Graph, base: Ports, held: set<string>, settled: Ports, ready: seq<string>, skipped: seq<string>,
      readies: Turns, skips: Turns, now: Turn)
    requires Decided(g, base, held, settled, ready, skipped) && now.place < |g.nodes|
    requires Clock(g, base, held, settled, ready, skipped, readies, skips, now)
    requires !NodeSeen(g, held, settled, ready, now.place)
    ensures var id := g.nodes[now.place].id;
      Clock(g, base, held, settled[id := []], ready, skipped + [id], readies, skips[id := now],
        Turn(now.pass, now.place + 1))
  {
    var id := g.nodes[now.place].id;
    var later := skips[id := now];
    CascadeFresh(g, base, held, skipped);
    WithKeys(base, skipped, id);
    assert id !in base && id !in skipped && id !in skips;
    ChanceNow(g, base, held, settled, ready, skipped, readies, skips, now);
    ChanceKept(g, base, skips, now, id, id, now);
    TurnsKept(g, base, skips, now, id, skipped, skips);
    TurnsKept(g, base, skips, now, id, ready, readies);
    AppendTurn(g, base, later, skipped, skips, id, now);
    hide FirstChance, Cascade, BlockedAt, Unblocked, Passed, With, Ready, InTurn;
    forall x, t: Turn | t.Sooner(now) && BlockedAt(g, base, skips, x, t) ensures BlockedAt(g, base, later, x, t) {
      BlockedStill(g, base, skips, now, id, x, t);
    }
    PassedOn(g, base, held, settled, ready, skips, now, settled[id := []], ready, later);
  }

  lemma SeenNext(g: Graph, held: set<string>, settled: Ports, ready: seq<string>, k: nat)
    requires k < |g.nodes| && NodeSeen(g, held, settled, ready, k)
    ensures Seen(g, held, settled, ready, k) ==> Seen(g, held, settled, ready, k + 1)
  {
    if Seen(g, held, settled, ready, k) {
      forall i | 0 <= i <= k ensures NodeSeen(g, held, settled, ready, i) {
        assert g.nodes[i] == g.nodes[i];
      }
    }
  }

  lemma SeenMore(g: Graph, held: set<string>, settled: Ports, ready: seq<string>, id: string, k: nat)
    requires k < |g.nodes| && g.nodes[k].id == id
    ensures Seen(g, held, settled, ready, k) ==> Seen(g, held, settled, ready + [id], k + 1)
  {
    if Seen(g, held, settled, ready, k) {
      forall i | 0 <= i <= k ensures NodeSeen(g, held, settled, ready + [id], i) {
        assert i < k ==> NodeSeen(g, held, settled, ready, i) by { assert g.nodes[i] == g.nodes[i]; }
      }
    }
  }

  lemma ReadyOne(g: Graph, base: Ports, held: set<string>, settled: Ports, ready: seq<string>, skipped: seq<string>, i: nat)
    requires Decided(g, base, held, settled, ready, skipped) && i < |g.nodes|
    requires g.nodes[i].id !in settled && g.nodes[i].id !in held && g.nodes[i].id !in ready
    requires Runnable(g, settled, g.nodes[i])
    ensures Decided(g, base, held, settled, ready + [g.nodes[i].id], skipped)
  {
    hide Skippable, Runnable, Cascade, With;
    var longer := ready + [g.nodes[i].id];
    forall j | 0 <= j < |longer| ensures Ready(g, settled, held, longer[j]) {
      if j < |ready| { assert Ready(g, settled, held, ready[j]); }
    }
  }

  /** One pass over the nodes, in declaration order. */
  method Pass(
      g: Graph, ghost base: Ports, held: set<string>, settled0: Ports, ready0: seq<string>, skipped0: seq<string>,
      ghost readies0: Turns, ghost skips0: Turns, ghost round: nat)
    returns (settled: Ports, ready: seq<string>, skipped: seq<string>, changed: bool, ghost readies: Turns, ghost skips: Turns)
    requires Decided(g, base, held, settled0, ready0, skipped0)
    requires Clock(g, base, held, settled0, ready0, skipped0, readies0, skips0, Turn(round, 0))
    ensures Decided(g, base, held, settled, ready, skipped)
    ensures Clock(g, base, held, settled, ready, skipped, readies, skips, Turn(round, |g.nodes|))
    ensures skipped0 <= skipped && (changed <==> skipped != skipped0)
    ensures !changed ==> Seen(g, held, settled, ready, |g.nodes|)
  {
    hide Cascade, Incoming, Unblocked, SomeActive, With, Ready, Clock;
    settled, ready, skipped, changed, readies, skips := settled0, ready0, skipped0, false, readies0, skips0;
    for i := 0 to |g.nodes|
      invariant Decided(g, base, held, settled, ready, skipped)
      invariant Clock(g, base, held, settled, ready, skipped, readies, skips, Turn(round, i))
      invariant skipped0 <= skipped && (changed <==> skipped != skipped0)
      invariant !changed ==> Seen(g, held, settled, ready, i)
    {
      var node := g.nodes[i];
      if node.id in settled || node.id in held || node.id in ready {
        SeenNext(g, held, settled, ready, i);
        TickPast(g, base, held, settled, ready, skipped, readies, skips, Turn(round, i));
        continue;
      }
      var edges := Incoming(g, node.id);
      var blocked, active := Inspect(settled, edges);
      if blocked {
        SeenNext(g, held, settled, ready, i);
        TickPast(g, base, held, settled, ready, skipped, readies, skips, Turn(round, i));
        continue;
      }
      // Reached, but down a branch that never lit; or an annotation, which is never executed.
      if (edges != [] && !active) || IsNote(node) {
        SkipOne(g, base, held, settled, ready, skipped, i);
        TickSkip(g, base, held, settled, ready, skipped, readies, skips, Turn(round, i));
        settled, skipped, changed := settled[node.id := []], skipped + [node.id], true;
        skips := skips[node.id := Turn(round, i)];
        continue;
      }
      ReadyOne(g, base, held, settled, ready, skipped, i);
      TickReady(g, base, held, settled, ready, skipped, readies, skips, Turn(round, i));
      SeenMore(g, held, settled, ready, node.id, i);
      ready := ready + [node.id];
      readies := readies[node.id := Turn(round, i)];
    }
  }

  /** The undecided ids a cascade could still settle. */
  ghost function Left(g: Graph, settled: Ports): set<string> {
    Ids(g) - settled.Keys
  }

  lemma CascadeShrinks(g: Graph, base: Ports, held: set<string>, a: seq<string>, b: seq<string>)
    requires Cascade(g, base, held, b) && a <= b && a != b
    ensures |Left(g, With(base, b))| < |Left(g, With(base, a))|
  {
    hide Skippable;
    CascadeFresh(g, base, held, b);
    var k := |a|;
    assert b[..k] == a;
    assert Dies(g, With(base, b[..k]), held, b[k]);
    var node :| node in g.nodes && node.id == b[k] && Skippable(g, With(base, a), node);
    var i :| 0 <= i < |g.nodes| && g.nodes[i] == node;
    IdsHas(g, i);
    var more, less := Left(g, With(base, a)), Left(g, With(base, b));
    forall id | id in less ensures id in more && id != b[k] {
      WithKeys(base, a, id);
      WithKeys(base, b, id);
    }
    assert less <= more - {b[k]};
    SubsetSize(less, more - {b[k]});
  }

  /**
   * The ready nodes and the skip cascade for these rows. `skipped` is the least set closed under the rule, each
   * node after all its sources; `ready` is exactly what may run once they are settled; and both lists are in the
   * order of the visits, pass by pass, that first found each node unblocked.
   */
  method Compute(g: Graph, rows: Rows)
    returns (ready: seq<string>, skipped: seq<string>, ghost readies: Turns, ghost skips: Turns)
    requires UniqueIds(g)
    ensures Answers(g, rows, ready, skipped)
    ensures InTurn(g, SettledPorts(rows), skips, skipped, skips) && InTurn(g, SettledPorts(rows), skips, ready, readies)
  {
    var base, held := SettledPorts(rows), HeldIds(rows);
    var settled := base;
    ready, skipped, readies, skips := [], [], map[], map[];
    ghost var round := 0;
    forall i | 0 <= i < |g.nodes| ensures PassedAt(g, base, held, settled, ready, skips, Turn(0, 0), i) {}
    var changed := true;
    while changed
      invariant Decided(g, base, held, settled, ready, skipped)
      invariant Clock(g, base, held, settled, ready, skipped, readies, skips, Turn(round, 0))
      invariant !changed ==> Seen(g, held, settled, ready, |g.nodes|)
      decreases |Left(g, settled)|, changed
    {
      ghost var before := skipped;
      settled, ready, skipped, changed, readies, skips :=
        Pass(g, base, held, settled, ready, skipped, readies, skips, round);
      if changed { CascadeShrinks(g, base, held, before, skipped); }
      NextPass(g, base, held, settled, ready, skipped, readies, skips, round);
      round := round + 1;
    }
    AllSeen(g, base, held, settled, ready, skipped);
  }

  lemma NextPass(
      g: Graph, base: Ports, held: set<string>, settled: Ports, ready: seq<string>, skipped: seq<string>,
      readies: Turns, skips: Turns, round: nat)
    requires Clock(g, base, held, settled, ready, skipped, readies, skips, Turn(round, |g.nodes|))
    ensures Clock(g, base, held, settled, ready, skipped, readies, skips, Turn(round + 1, 0))
  {
    hide InTurn, BlockedAt;
    var now, next := Turn(round, |g.nodes|), Turn(round + 1, 0);
    forall i | 0 <= i < |g.nodes| ensures PassedAt(g, base, held, settled, ready, skips, next, i) {
      assert PassedAt(g, base, held, settled, ready, skips, now, i) by { assert g.nodes[i] == g.nodes[i]; }
    }
  }

  ghost predicate Answers(g: Graph, rows: Rows, ready: seq<string>, skipped: seq<string>) {
    var base, held := SettledPorts(rows), HeldIds(rows);
    && Cascade(g, base, held, skipped)
    && Exhausted(g, With(base, skipped), held)
    && Once(ready) && (forall id {:trigger id in ready} :: id in ready <==> Ready(g, With(base, skipped), held, id))
  }

  lemma OneNode(g: Graph, a: Node, b: Node)
    requires UniqueIds(g) && a in g.nodes && b in g.nodes && a.id == b.id
    ensures a == b
  {
    var i :| 0 <= i < |g.nodes| && g.nodes[i] == a;
    var j :| 0 <= j < |g.nodes| && g.nodes[j] == b;
    assert SameId(g, i, j);
  }

  lemma AllSeen(g: Graph, base: Ports, held: set<string>, settled: Ports, ready: seq<string>, skipped: seq<string>)
    requires UniqueIds(g) && Decided(g, base, held, settled, ready, skipped)
    requires Seen(g, held, settled, ready, |g.nodes|)
    ensures Exhausted(g, settled, held)
    ensures forall id {:trigger id in ready} :: id in ready <==> Ready(g, settled, held, id)
  {
    hide Cascade, With;
    forall id ensures !Dies(g, settled, held, id) && (Ready(g, settled, held, id) ==> id in ready) {
      if node :| node in g.nodes && node.id == id {
        var i :| 0 <= i < |g.nodes| && g.nodes[i] == node;
        assert NodeSeen(g, held, settled, ready, i);
        if id in ready {
          assert Ready(g, settled, held, id);
          forall other | other in g.nodes && other.id == id ensures other == node { OneNode(g, node, other); }
        }
      }
    }
  }

  // ---- the order is no accident -------------------------------------------------------------------------

  /** Two accounts of the same cascade agree on when each node was skipped. */
  lemma {:induction false} SkipTurnUnique(
      g: Graph, base: Ports, a: seq<string>, b: seq<string>, s: Turns, t: Turns, id: string)
    requires UniqueIds(g) && InTurn(g, base, s, a, s) && InTurn(g, base, t, b, t)
    requires forall x :: x in s <==> x in t
    requires id in s
    ensures s[id] == t[id]
    decreases s[id].pass, s[id].place
  {
    assert FirstChance(g, base, s, id, s[id]) && FirstChance(g, base, t, id, t[id]) by {
      var i :| 0 <= i < |a| && a[i] == id;
      var j :| 0 <= j < |b| && b[j] == id;
    }
    forall e | e in Incoming(g, id) && e.source in s && s[e.source].Sooner(s[id]) ensures s[e.source] == t[e.source] {
      SkipTurnUnique(g, base, a, b, s, t, e.source);
    }
    ChanceUnique(g, base, s, t, id, s[id], t[id]);
  }

  /** With the same earlier skips there is one first chance. */
  lemma ChanceUnique(g: Graph, base: Ports, s: Turns, t: Turns, id: string, a: Turn, b: Turn)
    requires UniqueIds(g) && FirstChance(g, base, s, id, a) && FirstChance(g, base, t, id, b)
    requires forall e :: e in Incoming(g, id) && e.source in s && s[e.source].Sooner(a) ==>
      e.source in t && s[e.source] == t[e.source]
    ensures a == b
  {
    assert SameId(g, a.place, b.place);
  }

  /** Lists of the same ids in the same order of turns are the same list. */
  lemma {:induction false} SameList(a: seq<string>, b: seq<string>, turns: Turns)
    requires forall id :: id in a <==> id in b
    requires forall id :: id in a ==> id in turns
    requires forall i, j :: 0 <= i < j < |a| ==> turns[a[i]].Sooner(turns[a[j]])
    requires forall i, j :: 0 <= i < j < |b| ==> turns[b[i]].Sooner(turns[b[j]])
    ensures a == b
  {
    assert a != [] ==> a[0] in a;
    assert b != [] ==> b[0] in b;
    if a != [] {
      var i :| 0 <= i < |b| && b[i] == a[0];
      var j :| 0 <= j < |a| && a[j] == b[0];
      assert i == 0 && j == 0;
      var x, y := a[1..], b[1..];
      forall id ensures id in x <==> id in y {
        if id in x { var k :| 0 <= k < |x| && x[k] == id; assert id == a[k + 1] && id in b && id != b[0]; }
        if id in y { var k :| 0 <= k < |y| && y[k] == id; assert id == b[k + 1] && id in a && id != a[0]; }
      }
      SameList(x, y, turns);
    }
  }

  /** The same skips give every ready node the same turn. */
  lemma ReadyTurnUnique(g: Graph, base: Ports, skips: Turns, a: seq<string>, b: seq<string>, s: Turns, t: Turns, id: string)
    requires UniqueIds(g) && InTurn(g, base, skips, a, s) && InTurn(g, base, skips, b, t)
    requires id in s && id in t
    ensures s[id] == t[id]
  {
    var i :| 0 <= i < |a| && a[i] == id;
    var j :| 0 <= j < |b| && b[j] == id;
    assert FirstChance(g, base, skips, a[i], s[a[i]]) && FirstChance(g, base, skips, b[j], t[b[j]]);
    ChanceUnique(g, base, skips, skips, id, s[id], t[id]);
  }

  /** Two accounts of one cascade: the same list, at the same turns. */
  lemma SkipsDetermined(g: Graph, base: Ports, a: seq<string>, b: seq<string>, s: Turns, t: Turns)
    requires UniqueIds(g) && InTurn(g, base, s, a, s) && InTurn(g, base, t, b, t)
    requires forall id :: id in a <==> id in b
    ensures a == b && s == t
  {
    hide FirstChance;
    assert forall id :: id in s <==> id in a;
    assert forall id :: id in t <==> id in b;
    forall id | id in s ensures s[id] == t[id] { SkipTurnUnique(g, base, a, b, s, t, id); }
    SameList(a, b, s);
  }

  lemma ReadyDetermined(g: Graph, base: Ports, skips: Turns, a: seq<string>, b: seq<string>, s: Turns, t: Turns)
    requires UniqueIds(g) && InTurn(g, base, skips, a, s) && InTurn(g, base, skips, b, t)
    requires forall id :: id in a <==> id in b
    ensures a == b
  {
    hide FirstChance;
    assert forall id :: id in s <==> id in a;
    assert forall id :: id in t <==> id in b;
    forall id | id in s ensures s[id] == t[id] { ReadyTurnUnique(g, base, skips, a, b, s, t, id); }
    SameList(a, b, s);
  }

  /** The rows determine both lists, order and all. */
  lemma OrderDetermined(
      g: Graph, rows: Rows, a: seq<string>, b: seq<string>, ra: seq<string>, rb: seq<string>,
      sa: Turns, sb: Turns, ta: Turns, tb: Turns)
    requires UniqueIds(g) && Answers(g, rows, ra, a) && Answers(g, rows, rb, b)
    requires InTurn(g, SettledPorts(rows), sa, a, sa) && InTurn(g, SettledPorts(rows), sa, ra, ta)
    requires InTurn(g, SettledPorts(rows), sb, b, sb) && InTurn(g, SettledPorts(rows), sb, rb, tb)
    ensures a == b && ra == rb
  {
    hide InTurn, Cascade, With, SettledPorts, HeldIds, Exhausted, Ready;
    forall id ensures (id in a <==> id in b) && (id in ra <==> id in rb) {
      OrderIndependent(g, g, SettledPorts(rows), HeldIds(rows), a, b, id);
    }
    SkipsDetermined(g, SettledPorts(rows), a, b, sa, sb);
    ReadyDetermined(g, SettledPorts(rows), sa, ra, rb, ta, tb);
  }

  // ---- what the answers mean for a run ------------------------------------------------------------------

  /** A node is left out of every list exactly when a source of it is unsettled. */
  lemma LeftOutIff(g: Graph, rows: Rows, ready: seq<string>, skipped: seq<string>, node: Node)
    requires UniqueIds(g) && Answers(g, rows, ready, skipped) && node in g.nodes
    ensures var settled := With(SettledPorts(rows), skipped);
      (node.id !in settled && !Held(rows, node.id) && node.id !in ready) <==>
      (node.id !in settled && !Held(rows, node.id) && exists e :: e in Incoming(g, node.id) && e.source !in settled)
  {
    var settled := With(SettledPorts(rows), skipped);
    assert !Dies(g, settled, HeldIds(rows), node.id);
    if node.id in ready {
      var other :| other in g.nodes && other.id == node.id && Runnable(g, settled, other);
      OneNode(g, node, other);
    }
  }

  /** An undecided node whose sources are all settled is skipped or ready. */
  lemma OneOrTheOther(g: Graph, settled: Ports, held: set<string>, node: Node)
    requires node in g.nodes && Unblocked(settled, Incoming(g, node.id))
    ensures node.id in settled || node.id in held || Dies(g, settled, held, node.id) || Ready(g, settled, held, node.id)
  {
  }

  /** Nothing held and nothing ready: on a graph that can be sorted, everything is settled. */
  lemma NothingLeft(g: Graph, rows: Rows, ready: seq<string>, skipped: seq<string>, id: string)
    requires Sortable(g) && Answers(g, rows, ready, skipped) && ready == [] && HeldIds(rows) == {}
    requires id in Ids(g)
    ensures id in With(SettledPorts(rows), skipped)
  {
    var order := VisitOrderExists(g);
    PlacedIds(g, order, id);
    var k :| 0 <= k < |order| && order[k].id == id;
    NothingLeftAt(g, rows, ready, skipped, order, k);
  }

  lemma {:induction false} NothingLeftAt(
      g: Graph, rows: Rows, ready: seq<string>, skipped: seq<string>, order: seq<Node>, k: nat)
    requires UniqueIds(g) && VisitOrder(g, order) && k < |order|
    requires Answers(g, rows, ready, skipped) && ready == [] && HeldIds(rows) == {}
    ensures order[k].id in With(SettledPorts(rows), skipped)
    decreases k
  {
    var settled, edges := With(SettledPorts(rows), skipped), Incoming(g, order[k].id);
    NodeInGraph(g, order, k);
    hide VisitOrder, With, SettledPorts, Cascade;
    forall e | e in edges ensures e.source in settled {
      var i :| 0 <= i < |edges| && edges[i] == e;
      var j := SourcePlace(g, order, k, i);
      NothingLeftAt(g, rows, ready, skipped, order, j);
    }
    OneOrTheOther(g, settled, HeldIds(rows), order[k]);
    assert !Dies(g, settled, HeldIds(rows), order[k].id);
    assert order[k].id !in ready;
  }

  function AfterSkips(rows: Rows, ids: seq<string>): Rows {
    if ids == [] then rows else AfterSkip(AfterSkips(rows, ids[..|ids| - 1]), ids[|ids| - 1])
  }

  /** The ids this caller settles: those nobody had settled before. */
  function FirstSettled(rows: Rows, ids: seq<string>): seq<string> {
    if ids == [] then []
    else
      var n := |ids| - 1;
      FirstSettled(rows, ids[..n]) + if Settled(AfterSkips(rows, ids[..n]), ids[n]) then [] else [ids[n]]
  }

  /** Persist the skips, reporting the nodes this call settled. */
  method SettleSkips(store: InMemoryClaimStore, run: string, skipped: seq<string>) returns (settled: seq<string>)
    modifies store
    ensures store.State(run) == AfterSkips(old(store.State(run)), skipped)
    ensures settled == FirstSettled(old(store.State(run)), skipped)
    ensures forall other :: other != run ==> store.State(other) == old(store.State(other))
  {
    settled := [];
    for i := 0 to |skipped|
      invariant store.State(run) == AfterSkips(old(store.State(run)), skipped[..i])
      invariant settled == FirstSettled(old(store.State(run)), skipped[..i])
      invariant forall other :: other != run ==> store.State(other) == old(store.State(other))
    {
      assert skipped[..i + 1][..i] == skipped[..i];
      var mine := store.Skip(run, skipped[i]);
      if mine {
        settled := settled + [skipped[i]];
      }
    }
    assert skipped[..|skipped|] == skipped;
  }

  /** From the rows a cascade was computed from, every skip is new. */
  lemma {:induction false} SkipsAreNew(rows: Rows, ids: seq<string>, id: string)
    requires Once(ids) && forall i :: 0 <= i < |ids| ==> ids[i] !in rows
    ensures id in AfterSkips(rows, ids) <==> id in rows || id in ids
    ensures id in rows ==> AfterSkips(rows, ids)[id] == rows[id]
    ensures id in ids ==> AfterSkips(rows, ids)[id] == NewRow(Skipped)
  {
    if ids != [] {
      var n := |ids| - 1;
      SkipsAreNew(rows, ids[..n], id);
      SkipsAreNew(rows, ids[..n], ids[n]);
      assert ids == ids[..n] + [ids[n]];
    }
  }

  lemma {:induction false} AllMine(rows: Rows, ids: seq<string>)
    requires Once(ids) && forall i :: 0 <= i < |ids| ==> ids[i] !in rows
    ensures FirstSettled(rows, ids) == ids
  {
    hide AfterSkips, AfterSkip;
    if ids != [] {
      var n := |ids| - 1;
      AllMine(rows, ids[..n]);
      SkipsAreNew(rows, ids[..n], ids[n]);
      assert ids == ids[..n] + [ids[n]];
    }
  }

  /** Skipped nodes have no row: they are neither settled nor held. */
  lemma SkippedHaveNoRow(g: Graph, rows: Rows, ready: seq<string>, skipped: seq<string>)
    requires Answers(g, rows, ready, skipped)
    ensures Once(skipped) && forall i :: 0 <= i < |skipped| ==> skipped[i] !in rows
  {
    var base, held := SettledPorts(rows), HeldIds(rows);
    CascadeFresh(g, base, held, skipped);
    forall i | 0 <= i < |skipped| ensures skipped[i] !in rows {
      assert Dies(g, With(base, skipped[..i]), held, skipped[i]);
    }
  }

  lemma SettledAfterSkips(rows: Rows, ids: seq<string>)
    requires Once(ids) && forall i :: 0 <= i < |ids| ==> ids[i] !in rows
    ensures SettledPorts(AfterSkips(rows, ids)) == With(SettledPorts(rows), ids)
    ensures HeldIds(AfterSkips(rows, ids)) == HeldIds(rows)
  {
    var after := AfterSkips(rows, ids);
    forall id
      ensures id in SettledPorts(after) <==> id in With(SettledPorts(rows), ids)
      ensures id in SettledPorts(after) ==> SettledPorts(after)[id] == With(SettledPorts(rows), ids)[id]
      ensures id in HeldIds(after) <==> id in HeldIds(rows)
    {
      SkipsAreNew(rows, ids, id);
      WithKeys(SettledPorts(rows), ids, id);
    }
  }

  lemma FirstDies(g: Graph, base: Ports, held: set<string>, skipped: seq<string>)
    requires Cascade(g, base, held, skipped)
    ensures skipped == [] || Dies(g, base, held, skipped[0])
  {
    if skipped != [] {
      assert Dies(g, With(base, skipped[..0]), held, skipped[0]);
    }
  }

  /** Once the skips are written, asking again finds the same nodes ready and nothing more to skip. */
  lemma Recompute(g: Graph, rows: Rows, ready: seq<string>, skipped: seq<string>, ready2: seq<string>, skipped2: seq<string>)
    requires UniqueIds(g) && Answers(g, rows, ready, skipped)
    requires Answers(g, AfterSkips(rows, skipped), ready2, skipped2)
    ensures skipped2 == []
    ensures forall id :: id in ready2 <==> id in ready
  {
    SkippedHaveNoRow(g, rows, ready, skipped);
    SettledAfterSkips(rows, skipped);
    hide SettledPorts, HeldIds, AfterSkips, Ready;
    var base, held := With(SettledPorts(rows), skipped), HeldIds(rows);
    FirstDies(g, base, held, skipped2);
  }

  // ---- the end of a run -----------------------------------------------------------------------------------

  predicate AllSettled(nodes: seq<Node>, rows: Rows) {
    forall i {:trigger nodes[i]} :: 0 <= i < |nodes| ==> Settled(rows, nodes[i].id)
  }

  /** Has every node settled? */
  predicate IsComplete(g: Graph, rows: Rows) {
    AllSettled(g.nodes, rows)
  }

  /** Some row is claimed or parked. */
  predicate HasWorkInFlight(rows: Rows) {
    exists id :: id in rows && rows[id].status.IsHeld()
  }

  lemma InFlightIff(rows: Rows)
    ensures HasWorkInFlight(rows) <==> HeldIds(rows) != {}
  {
    if id :| id in rows && rows[id].status.IsHeld() { assert id in HeldIds(rows); }
    if id :| id in HeldIds(rows) { assert rows[id].status.IsHeld(); }
  }
}

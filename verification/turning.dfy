/** Kahn's loop as a machine of values: its tables, one edge, one turn. */
module Turning {
  import opened Schema
  import opened Topology

  /** The in-degrees and the queue. */
  datatype Tally = Tally(degrees: seq<nat>, queue: seq<nat>)

  /** Each id's index; among nodes of one id the last counts. */
  function LastIndex(nodes: seq<Node>): map<string, nat> {
    if nodes == [] then map[]
    else
      var n := |nodes| - 1;
      LastIndex(nodes[..n])[nodes[n].id := n]
  }

  function Bump(degrees: seq<nat>, indexOf: map<string, nat>, e: Edge): seq<nat> {
    if e.target in indexOf && indexOf[e.target] < |degrees| then
      degrees[indexOf[e.target] := degrees[indexOf[e.target]] + 1]
    else degrees
  }

  function Degrees(edges: seq<Edge>, indexOf: map<string, nat>, n: nat): (r: seq<nat>)
    ensures |r| == n
  {
    if edges == [] then seq(n, _ => 0) else Bump(Degrees(edges[..|edges| - 1], indexOf, n), indexOf, edges[|edges| - 1])
  }

  /** The first `i` indices, those with an in-degree left out. */
  function Entering(degrees: seq<nat>, i: nat): seq<nat>
    requires i <= |degrees|
  {
    if i == 0 then [] else Entering(degrees, i - 1) + if degrees[i - 1] == 0 then [i - 1] else []
  }

  /** One edge: if it leaves `u`, its target is counted down, saturating, and queued whenever it stands at zero. */
  function CountOne(indexOf: map<string, nat>, u: string, e: Edge, p: Tally): Tally {
    if e.source == u && e.target in indexOf && indexOf[e.target] < |p.degrees| then
      var t := indexOf[e.target];
      var left := if p.degrees[t] == 0 then 0 else p.degrees[t] - 1;
      Tally(p.degrees[t := left], if left == 0 then p.queue + [t] else p.queue)
    else p
  }

  function CountOff(indexOf: map<string, nat>, u: string, edges: seq<Edge>, p: Tally): Tally {
    if edges == [] then p
    else CountOne(indexOf, u, edges[|edges| - 1], CountOff(indexOf, u, edges[..|edges| - 1], p))
  }

  function Start(g: Graph): Tally {
    var degrees := Degrees(g.edges, LastIndex(g.nodes), |g.nodes|);
    Tally(degrees, Entering(degrees, |g.nodes|))
  }

  /** The turn that takes place `at` of the queue; none once the queue has run dry. */
  function Turn(g: Graph, p: Tally, at: nat): Tally {
    if at < |p.queue| && p.queue[at] < |g.nodes| then
      CountOff(LastIndex(g.nodes), g.nodes[p.queue[at]].id, g.edges, p)
    else p
  }

  function Turns(g: Graph, k: nat): Tally {
    if k == 0 then Start(g) else Turn(g, Turns(g, k - 1), k - 1)
  }

  /** After some number of turns there is nothing left in the queue. */
  ghost predicate Ends(g: Graph) {
    exists k :: |Turns(g, k).queue| <= k
  }

  lemma {:induction false} LastIndexIs(nodes: seq<Node>, id: string)
    ensures id in LastIndex(nodes) <==> id in IdSet(nodes)
    ensures id in LastIndex(nodes) ==>
      var i := LastIndex(nodes)[id];
      i < |nodes| && nodes[i].id == id && forall j :: i < j < |nodes| ==> nodes[j].id != id
  {
    if nodes != [] {
      LastIndexIs(nodes[..|nodes| - 1], id);
    }
  }

  /** `t` is the index its id stands for. */
  ghost predicate IsLast(g: Graph, t: nat) {
    t < |g.nodes| && g.nodes[t].id in LastIndex(g.nodes) && LastIndex(g.nodes)[g.nodes[t].id] == t
  }

  function InDegree(g: Graph, id: string): nat {
    Pending(g.edges, id, {})
  }

  lemma {:induction false} DegreesAre(g: Graph, edges: seq<Edge>, t: nat)
    requires t < |g.nodes|
    ensures Degrees(edges, LastIndex(g.nodes), |g.nodes|)[t]
         == if IsLast(g, t) then Pending(edges, g.nodes[t].id, {}) else 0
  {
    LastIndexIs(g.nodes, g.nodes[t].id);
    IdsHas(g, t);
    if edges != [] {
      DegreesAre(g, edges[..|edges| - 1], t);
      LastIndexIs(g.nodes, edges[|edges| - 1].target);
    }
  }
}

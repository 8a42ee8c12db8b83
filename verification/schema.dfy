/**
 * The graph a run executes: nodes and edges in document order.
 *
 * A node has an id, a kind and a configuration; an edge leaves one node's port for another's handle, each of which has
 * a default when it is left out. Nothing here asks ids to be unique or edges to lead somewhere: a graph is what the
 * document says, and `UniqueIds` is stated where it is needed.
 */
module Schema {
  import opened Wrappers
  import opened Values

  datatype Node = Node(id: string, kind: Option<string>, config: Fields, outputs: Option<seq<string>>)

  datatype Edge = Edge(
    id: string, source: string, target: string,
    sourceHandle: Option<string>, targetHandle: Option<string>)
  {
    /** An edge with no source handle reads `out`. */
    function SourcePort(): string {
      if sourceHandle.Some? then sourceHandle.value else "out"
    }

    /** An edge with no target handle writes `in`. */
    function TargetPort(): string {
      if targetHandle.Some? then targetHandle.value else "in"
    }
  }

  datatype Graph = Graph(nodes: seq<Node>, edges: seq<Edge>)

  ghost predicate SameId(g: Graph, i: nat, j: nat) {
    i < |g.nodes| && j < |g.nodes| && g.nodes[i].id == g.nodes[j].id
  }

  ghost predicate UniqueIds(g: Graph) {
    forall i, j {:trigger SameId(g, i, j)} :: SameId(g, i, j) ==> i == j
  }

  function IdSet(nodes: seq<Node>): set<string> {
    if nodes == [] then {} else IdSet(nodes[..|nodes| - 1]) + {nodes[|nodes| - 1].id}
  }

  function Ids(g: Graph): set<string> {
    IdSet(g.nodes)
  }

  lemma {:induction false} IdSetHas(nodes: seq<Node>, i: nat)
    requires i < |nodes|
    ensures nodes[i].id in IdSet(nodes)
  {
    if i < |nodes| - 1 { IdSetHas(nodes[..|nodes| - 1], i); }
  }

  lemma {:induction false} IndexIn(nodes: seq<Node>, id: string) returns (i: nat)
    requires id in IdSet(nodes)
    ensures i < |nodes| && nodes[i].id == id
  {
    if nodes[|nodes| - 1].id == id {
      i := |nodes| - 1;
    } else {
      i := IndexIn(nodes[..|nodes| - 1], id);
    }
  }

  lemma IdsHas(g: Graph, i: nat)
    requires i < |g.nodes|
    ensures g.nodes[i].id in Ids(g)
  {
    IdSetHas(g.nodes, i);
  }

  lemma IndexOf(g: Graph, id: string) returns (i: nat)
    requires id in Ids(g)
    ensures i < |g.nodes| && g.nodes[i].id == id
  {
    i := IndexIn(g.nodes, id);
  }

  /** The edges of `edges` that end at `id`, in document order. */
  function Into(edges: seq<Edge>, id: string): seq<Edge> {
    if edges == [] then []
    else
      var last := edges[|edges| - 1];
      Into(edges[..|edges| - 1], id) + (if last.target == id then [last] else [])
  }

  lemma {:induction false} IntoMembers(edges: seq<Edge>, id: string)
    ensures forall e :: e in Into(edges, id) <==> e in edges && e.target == id
  {
    if edges != [] {
      var front := edges[..|edges| - 1];
      IntoMembers(front, id);
      assert edges == front + [edges[|edges| - 1]];
    }
  }

  function Incoming(g: Graph, id: string): seq<Edge> {
    Into(g.edges, id)
  }

  /** The node an id names. */
  function Find(nodes: seq<Node>, id: string): (r: Option<Node>)
    ensures r.Some? ==> r.value in nodes && r.value.id == id
  {
    if nodes == [] then None
    else if nodes[0].id == id then Some(nodes[0])
    else Find(nodes[1..], id)
  }

  lemma {:induction false} FindAt(nodes: seq<Node>, i: nat)
    requires i < |nodes| && forall j :: 0 <= j < i ==> nodes[j].id != nodes[i].id
    ensures Find(nodes, nodes[i].id) == Some(nodes[i])
  {
    if i > 0 { FindAt(nodes[1..], i - 1); }
  }

  lemma {:induction false} FindIff(nodes: seq<Node>, id: string)
    ensures Find(nodes, id).Some? <==> id in IdSet(nodes)
  {
    if Find(nodes, id).Some? {
      var i :| 0 <= i < |nodes| && nodes[i] == Find(nodes, id).value;
      IdSetHas(nodes, i);
    }
    if id in IdSet(nodes) {
      var i := IndexIn(nodes, id);
      FindFirst(nodes, i);
    }
  }

  lemma {:induction false} FindFirst(nodes: seq<Node>, i: nat)
    requires i < |nodes|
    ensures Find(nodes, nodes[i].id).Some?
  {
    if i > 0 { FindFirst(nodes[1..], i - 1); }
  }

  lemma NamedAt(g: Graph, i: nat)
    requires UniqueIds(g) && i < |g.nodes|
    ensures Find(g.nodes, g.nodes[i].id) == Some(g.nodes[i])
  {
    forall j | 0 <= j < i ensures g.nodes[j].id != g.nodes[i].id { assert !SameId(g, j, i); }
    FindAt(g.nodes, i);
  }
}

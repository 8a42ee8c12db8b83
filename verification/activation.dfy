/** Which output ports a node's result lights, and what each one carries. */
module Activation {
  import opened Wrappers
  import opened Values
  import opened Schema

  /** A registered node kind, as far as routing, retries and diagnostics read it. */
  datatype Kind = Kind(
    name: string, aliases: seq<string>, outputs: Option<seq<string>>, category: string,
    sideEffects: Option<string>)

  /** A catalogue of kinds, by every id a kind answers to. */
  type Catalogue = map<string, Kind>

  /** The ports a result lights, the value they share, and each port's own payload if it has one. */
  datatype Activated = Activated(ports: seq<string>, shared: Json, perPort: Option<Fields>)

  function TextOf(value: Option<Json>): Option<string> {
    if value.Some? && value.value.Text? then Some(value.value.text) else None
  }

  function Texts(items: seq<Json>): (r: seq<string>)
    ensures forall t :: t in r <==> Text(t) in items
  {
    if items == [] then []
    else (if items[0].Text? then [items[0].text] else []) + Texts(items[1..])
  }

  function Keys(fields: Fields): seq<string> {
    if fields == [] then [] else Keys(fields[..|fields| - 1]) + [fields[|fields| - 1].0]
  }

  lemma {:induction false} KeysAt(fields: Fields, i: nat)
    requires i < |fields|
    ensures |Keys(fields)| == |fields| && Keys(fields)[i] == fields[i].0
  {
    var n := |fields| - 1;
    if i < n {
      KeysAt(fields[..n], i);
    } else if n > 0 {
      KeysAt(fields[..n], 0);
    }
  }

  lemma {:induction false} KeysAre(fields: Fields, names: seq<string>)
    requires |names| == |fields| && forall i :: 0 <= i < |fields| ==> names[i] == fields[i].0
    ensures Keys(fields) == names
  {
    if fields != [] {
      var n := |fields| - 1;
      KeysAre(fields[..n], names[..n]);
    }
  }

  lemma {:induction false} KeysGet(fields: Fields, key: string)
    ensures key in Keys(fields) <==> Get(fields, key).Some?
  {
    if key in Keys(fields) {
      if fields != [] { KeysAt(fields, 0); }
      var i :| 0 <= i < |Keys(fields)| && Keys(fields)[i] == key;
      KeysAt(fields, i);
    }
    if Get(fields, key).Some? {
      var i :| 0 <= i < |fields| && fields[i].0 == key;
      KeysAt(fields, i);
    }
  }

  function OrNull(value: Option<Json>): Json {
    if value.Some? then value.value else Null
  }

  /** The ports to publish on when the result itself chose none. */
  function DeclaredPorts(kinds: Catalogue, node: Node): seq<string> {
    if node.outputs.Some? then node.outputs.value
    else if node.kind.Some? && node.kind.value in kinds && kinds[node.kind.value].outputs.Some? then
      kinds[node.kind.value].outputs.value
    else ["out"]
  }

  function ActivatedPorts(kinds: Catalogue, node: Node, result: Json): Activated {
    if result.Object? && TextOf(Get(result.fields, "__port")).Some? then
      Activated([TextOf(Get(result.fields, "__port")).value], OrNull(Get(result.fields, "value")), None)
    else if result.Object? && Get(result.fields, "__ports").Some? && Get(result.fields, "__ports").value.Array? then
      Activated(Texts(Get(result.fields, "__ports").value.items), OrNull(Get(result.fields, "value")), None)
    else if result.Object? && Get(result.fields, "__ports").Some? && Get(result.fields, "__ports").value.Object? then
      var perPort := Get(result.fields, "__ports").value.fields;
      Activated(Keys(perPort), OrNull(Get(result.fields, "value")), Some(perPort))
    else if result.Object? && TextOf(Get(result.fields, "branch")).Some? then
      // Presence of `value`, not null-ness, decides whether the whole result is the payload.
      var carried := if Get(result.fields, "value").None? then result else Get(result.fields, "value").value;
      Activated([TextOf(Get(result.fields, "branch")).value], carried, None)
    else
      Activated(DeclaredPorts(kinds, node), result, None)
  }

  function Carried(a: Activated, port: string): Json {
    if a.perPort.Some? && Get(a.perPort.value, port).Some? then Get(a.perPort.value, port).value else a.shared
  }

  /** What a finished node publishes, in publication order. */
  function Publications(kinds: Catalogue, node: Node, result: Json): Fields {
    var a := ActivatedPorts(kinds, node, result);
    seq(|a.ports|, i requires 0 <= i < |a.ports| => (a.ports[i], Carried(a, a.ports[i])))
  }

  /** One publication for each activated port, in order. */
  lemma PublishedPorts(kinds: Catalogue, node: Node, result: Json)
    ensures Keys(Publications(kinds, node, result)) == ActivatedPorts(kinds, node, result).ports
  {
    KeysAre(Publications(kinds, node, result), ActivatedPorts(kinds, node, result).ports);
  }

  /** Every publication on one port carries the same value, so the first one speaks for all. */
  lemma PublicationsConsistent(kinds: Catalogue, node: Node, result: Json, i: nat)
    requires i < |Publications(kinds, node, result)|
    ensures Get(Publications(kinds, node, result), Publications(kinds, node, result)[i].0)
         == Some(Publications(kinds, node, result)[i].1)
  {
    var a := ActivatedPorts(kinds, node, result);
    GetUniform(Publications(kinds, node, result), i, p => Carried(a, p));
  }

  lemma {:induction false} GetUniform(fields: Fields, i: nat, value: string -> Json)
    requires i < |fields|
    requires forall j :: 0 <= j < |fields| ==> fields[j].1 == value(fields[j].0)
    ensures Get(fields, fields[i].0) == Some(fields[i].1)
  {
    if fields[0].0 != fields[i].0 {
      GetUniform(fields[1..], i - 1, value);
    }
  }

  // ---- the constructors executors build results with --------------------------------------------

  function Only(port: string, value: Json): Json {
    Object([("__port", Text(port)), ("value", value)])
  }

  function Branch(port: string, value: Json): Json {
    Object([("branch", Text(port)), ("value", value)])
  }

  function Many(ports: seq<string>, value: Json): Json {
    Object([("__ports", Array(seq(|ports|, i requires 0 <= i < |ports| => Text(ports[i])))), ("value", value)])
  }

  function ManyWith(perPort: Fields): Json {
    Object([("__ports", Object(perPort))])
  }

  lemma {:induction false} TextsOfTexts(ports: seq<string>)
    ensures Texts(seq(|ports|, i requires 0 <= i < |ports| => Text(ports[i]))) == ports
  {
    var items := seq(|ports|, i requires 0 <= i < |ports| => Text(ports[i]));
    if ports != [] {
      TextsOfTexts(ports[1..]);
      assert items[1..] == seq(|ports[1..]|, i requires 0 <= i < |ports[1..]| => Text(ports[1..][i]));
      assert items == [Text(ports[0])] + items[1..];
    }
  }

  /** A two-member object answers for each of its keys and for nothing else. */
  lemma TwoMembers(k0: string, v0: Json, k1: string, v1: Json)
    requires k0 != k1
    ensures Get([(k0, v0), (k1, v1)], k0) == Some(v0)
    ensures Get([(k0, v0), (k1, v1)], k1) == Some(v1)
  {
    assert [(k0, v0), (k1, v1)][1..] == [(k1, v1)];
  }

  /** `{"__port"}` and `{"branch"}` light exactly one port, whatever the node or its kind declares. */
  lemma OnePortResults(kinds: Catalogue, node: Node, port: string, value: Json)
    ensures Publications(kinds, node, Only(port, value)) == [(port, value)]
    ensures Publications(kinds, node, Branch(port, value)) == [(port, value)]
  {
    TwoMembers("__port", Text(port), "value", value);
    assert ActivatedPorts(kinds, node, Only(port, value)) == Activated([port], value, None);
    TwoMembers("branch", Text(port), "value", value);
    assert ActivatedPorts(kinds, node, Branch(port, value)) == Activated([port], value, None);
  }

  /** A chosen subset lights those ports and no other, each with the shared payload. */
  lemma ChosenPorts(kinds: Catalogue, node: Node, ports: seq<string>, value: Json)
    ensures Publications(kinds, node, Many(ports, value))
         == seq(|ports|, i requires 0 <= i < |ports| => (ports[i], value))
  {
    TextsOfTexts(ports);
    TwoMembers("__ports", Many(ports, value).fields[0].1, "value", value);
    assert ActivatedPorts(kinds, node, Many(ports, value)) == Activated(ports, value, None);
  }

  /** An object of payloads gives every port it names its own. */
  lemma ChosenPayloads(kinds: Catalogue, node: Node, perPort: Fields, i: nat)
    requires i < |perPort| && forall j :: 0 <= j < i ==> perPort[j].0 != perPort[i].0
    ensures Keys(Publications(kinds, node, ManyWith(perPort))) == Keys(perPort)
    ensures |Publications(kinds, node, ManyWith(perPort))| == |perPort|
    ensures Publications(kinds, node, ManyWith(perPort))[i] == perPort[i]
  {
    var fields := [("__ports", Object(perPort))];
    assert Get(fields, "__ports") == Some(Object(perPort));
    assert Get(fields, "__port").None?;
    assert ActivatedPorts(kinds, node, ManyWith(perPort)).perPort == Some(perPort);
    PublishedPorts(kinds, node, ManyWith(perPort));
    KeysAt(perPort, i);
    GetFirst(perPort, i);
  }

  lemma {:induction false} GetFirst(fields: Fields, i: nat)
    requires i < |fields| && forall j :: 0 <= j < i ==> fields[j].0 != fields[i].0
    ensures Get(fields, fields[i].0) == Some(fields[i].1)
  {
    if i > 0 {
      GetFirst(fields[1..], i - 1);
    }
  }

  /** Nothing under `__port` or `__ports` speaks before the result's `branch`. */
  predicate BranchSpeaks(fields: Fields, port: string) {
    && TextOf(Get(fields, "__port")).None? && Get(fields, "branch") == Some(Text(port))
    && (Get(fields, "__ports").Some? ==> !Get(fields, "__ports").value.Array? && !Get(fields, "__ports").value.Object?)
  }

  /**
   * A `branch` result lights that port alone. Any without a `value` key carries itself whole, whatever else it holds;
   * any with one carries the value, null included.
   */
  lemma BranchPayload(kinds: Catalogue, node: Node, fields: Fields, port: string)
    requires BranchSpeaks(fields, port)
    ensures "value" !in Keys(fields) ==> Publications(kinds, node, Object(fields)) == [(port, Object(fields))]
    ensures "value" in Keys(fields) ==>
      Get(fields, "value").Some? && Publications(kinds, node, Object(fields)) == [(port, Get(fields, "value").value)]
  {
    hide DeclaredPorts, Texts, Keys;
    KeysGet(fields, "value");
    var carried := if "value" in Keys(fields) then Get(fields, "value").value else Object(fields);
    assert ActivatedPorts(kinds, node, Object(fields)) == Activated([port], carried, None);
  }

  // ---- visual-only nodes ------------------------------------------------------------------------

  const NAMESPACE := "@particle-academy/"
  const LEGACY_NAMESPACE := "@fancy/"

  /** Does `kind` name the built-in `name` under one of its own spellings? */
  predicate KindMatches(kind: string, name: string) {
    kind == name || kind == NAMESPACE + name || kind == LEGACY_NAMESPACE + name
  }

  predicate IsNote(node: Node) {
    node.kind.Some? && KindMatches(node.kind.value, "note")
  }

  /** The label of a node the engine walks straight past. */
  function VisualOnly(kinds: Catalogue, node: Node): (r: Option<string>)
    ensures IsNote(node) ==> r.Some?
  {
    if node.kind.None? then None
    else if KindMatches(node.kind.value, "note") then Some("annotation")
    else if node.kind.value !in kinds then None
    else if kinds[node.kind.value].category == "layout" then Some("lane")
    else if kinds[node.kind.value].category == "annotation" then Some("annotation")
    else None
  }

  // ---- the key a published value is stored under --------------------------------------------------

  function PortKey(node: string, port: string): string {
    node + ":" + port
  }

  /** `n` is `m` followed by a colon and anything else. */
  predicate Extends(m: string, n: string) {
    (m + ":") <= n
  }

  /** No id is another id followed by a colon: exactly when port keys tell nodes apart. */
  ghost predicate KeySafe(g: Graph) {
    forall i, j {:trigger Extends(g.nodes[i].id, g.nodes[j].id)} ::
      0 <= i < |g.nodes| && 0 <= j < |g.nodes| ==> !Extends(g.nodes[i].id, g.nodes[j].id)
  }

  /** Two (node, port) pairs of a graph may share a key exactly when one id extends the other past a colon. */
  lemma KeysCollideIff(m: string, n: string)
    requires m != n
    ensures (exists p, q :: PortKey(m, p) == PortKey(n, q)) <==> Extends(m, n) || Extends(n, m)
  {
    if Extends(m, n) {
      var rest := n[|m| + 1..];
      assert n == m + ":" + rest;
      assert PortKey(m, rest + ":") == PortKey(n, "") by { assert m + ":" + (rest + ":") == n + ":" + ""; }
    }
    if Extends(n, m) {
      var rest := m[|n| + 1..];
      assert m == n + ":" + rest;
      assert PortKey(m, "") == PortKey(n, rest + ":") by { assert n + ":" + (rest + ":") == m + ":" + ""; }
    }
    forall p, q | PortKey(m, p) == PortKey(n, q) ensures Extends(m, n) || Extends(n, m) {
      if |m| <= |n| { KeySplit(m, p, n, q); } else { KeySplit(n, q, m, p); }
    }
  }

  lemma KeySplit(m: string, p: string, n: string, q: string)
    requires PortKey(m, p) == PortKey(n, q) && |m| <= |n|
    ensures (m == n && p == q) || Extends(m, n)
  {
    var k := PortKey(m, p);
    assert k[..|m|] == m && k[|m|] == ':' && k[|m| + 1..] == p;
    assert k[..|n|] == n && k[|n|] == ':' && k[|n| + 1..] == q;
    if |m| < |n| {
      assert n[..|m|] == k[..|m|];
      assert n[|m|] == k[|m|];
      assert n[..|m| + 1] == m + ":";
    }
  }

  /** In a key-safe graph the key determines both the node and the port. */
  lemma KeysInjective(g: Graph, i: nat, p: string, j: nat, q: string)
    requires KeySafe(g) && i < |g.nodes| && j < |g.nodes|
    requires PortKey(g.nodes[i].id, p) == PortKey(g.nodes[j].id, q)
    ensures g.nodes[i].id == g.nodes[j].id && p == q
  {
    if |g.nodes[i].id| <= |g.nodes[j].id| {
      KeySplit(g.nodes[i].id, p, g.nodes[j].id, q);
    } else {
      KeySplit(g.nodes[j].id, q, g.nodes[i].id, p);
    }
  }

  /** Colon-free ids are enough. */
  lemma ColonFreeIsKeySafe(g: Graph)
    requires forall i :: 0 <= i < |g.nodes| ==> ':' !in g.nodes[i].id
    ensures KeySafe(g)
  {
    forall i, j | 0 <= i < |g.nodes| && 0 <= j < |g.nodes|
      ensures !Extends(g.nodes[i].id, g.nodes[j].id)
    {
      var prefix := g.nodes[i].id + ":";
      assert prefix[|g.nodes[i].id|] == ':';
    }
  }
}

/** How many attempts a node gets. */
module Retry {
  import opened Wrappers
  import opened Values
  import opened Schema
  import opened Activation

  const UNSAFE_TO_REPLAY := "unsafe-to-replay"

  /** The run-wide tries, and overrides keyed by any spelling of a kind. */
  datatype RetryPolicy = RetryPolicy(tries: U32, perKind: map<string, U32>)

  predicate UnsafeToReplay(kind: Option<Kind>) {
    kind.Some? && kind.value.sideEffects == Some(UNSAFE_TO_REPLAY)
  }

  function AtLeastOne(tries: U32): U32 {
    if tries < 1 then 1 else tries
  }

  // ---- the ids an override may be keyed under ---------------------------------------------------------

  /** What follows the last slash of a namespaced id. */
  function Bare(id: string): string {
    if id != [] && id[0] == '@' && '/' in id then AfterSlash(id) else id
  }

  function AfterSlash(id: string): string {
    if id == [] then []
    else
      var n := |id| - 1;
      if id[n] == '/' then [] else AfterSlash(id[..n]) + [id[n]]
  }

  function Spellings(id: string): seq<string> {
    [id, NAMESPACE + Bare(id), LEGACY_NAMESPACE + Bare(id), Bare(id)]
  }

  function KindIds(kind: Option<Kind>): seq<string> {
    if kind.Some? then Dedup([kind.value.name] + kind.value.aliases) else []
  }

  /** In order of preference: as written, as registered, as the convention would spell it. */
  function Candidates(node: Node, kind: Option<Kind>): seq<string> {
    if node.kind.None? then []
    else [node.kind.value] + KindIds(kind) + Dedup(Spellings(node.kind.value))
  }

  lemma DedupSnoc(items: seq<string>, x: string)
    ensures Dedup(items + [x]) == if x in Dedup(items) then Dedup(items) else Dedup(items) + [x]
  {
    assert (items + [x])[..|items|] == items;
  }

  /** Push each id that is not there yet. */
  method PushAll(into: seq<string>, ghost raw: seq<string>, more: seq<string>) returns (ordered: seq<string>)
    requires into == Dedup(raw)
    ensures ordered == Dedup(raw + more)
  {
    ordered := into;
    assert raw + more[..0] == raw;
    for i := 0 to |more|
      invariant ordered == Dedup(raw + more[..i])
    {
      assert raw + more[..i + 1] == (raw + more[..i]) + [more[i]];
      DedupSnoc(raw + more[..i], more[i]);
      if more[i] !in ordered {
        ordered := ordered + [more[i]];
      }
    }
    assert more[..|more|] == more;
  }

  method OverrideIds(node: Node, kind: Option<Kind>) returns (ordered: seq<string>)
    ensures ordered == Dedup(Candidates(node, kind))
  {
    if node.kind.None? {
      return [];
    }
    var name := node.kind.value;
    assert Dedup([name]) == [name];
    ordered := PushAll([name], [name], KindIds(kind));
    ordered := PushAll(ordered, [name] + KindIds(kind), Dedup(Spellings(name)));
  }

  // ---- tries ------------------------------------------------------------------------------------------

  /** The override of the first id that has one. */
  function FirstOverride(perKind: map<string, U32>, ids: seq<string>): Option<U32> {
    if ids == [] then None
    else if ids[0] in perKind then Some(perKind[ids[0]])
    else FirstOverride(perKind, ids[1..])
  }

  function TriesFor(policy: RetryPolicy, node: Node, kind: Option<Kind>): U32 {
    if UnsafeToReplay(kind) then 1
    else
      var found := FirstOverride(policy.perKind, Dedup(Candidates(node, kind)));
      AtLeastOne(if found.Some? then found.value else policy.tries)
  }

  method TriesForKind(policy: RetryPolicy, node: Node, kind: Option<Kind>) returns (tries: U32)
    ensures tries == TriesFor(policy, node, kind)
  {
    if UnsafeToReplay(kind) {
      return 1;
    }
    var ids := OverrideIds(node, kind);
    for i := 0 to |ids|
      invariant FirstOverride(policy.perKind, ids) == FirstOverride(policy.perKind, ids[i..])
    {
      if ids[i] in policy.perKind {
        return AtLeastOne(policy.perKind[ids[i]]);
      }
    }
    return AtLeastOne(policy.tries);
  }

  lemma {:induction false} FirstOverrideAt(perKind: map<string, U32>, ids: seq<string>, i: nat)
    requires i < |ids| && ids[i] in perKind && forall j :: 0 <= j < i ==> ids[j] !in perKind
    ensures FirstOverride(perKind, ids) == Some(perKind[ids[i]])
  {
    if i > 0 { FirstOverrideAt(perKind, ids[1..], i - 1); }
  }

  lemma {:induction false} NoOverride(perKind: map<string, U32>, ids: seq<string>)
    requires forall j :: 0 <= j < |ids| ==> ids[j] !in perKind
    ensures FirstOverride(perKind, ids) == None
  {
    if ids != [] { NoOverride(perKind, ids[1..]); }
  }

  /** Dropping repeats does not change which override is found first. */
  lemma {:induction false} DedupKeepsFirst(perKind: map<string, U32>, ids: seq<string>)
    ensures FirstOverride(perKind, Dedup(ids)) == FirstOverride(perKind, ids)
  {
    if ids != [] {
      var front, last := ids[..|ids| - 1], ids[|ids| - 1];
      DedupKeepsFirst(perKind, front);
      assert ids == front + [last];
      OverrideSnoc(perKind, front, last);
      OverrideSnoc(perKind, Dedup(front), last);
      if last in Dedup(front) {
        var i :| 0 <= i < |Dedup(front)| && Dedup(front)[i] == last;
        OverrideIff(perKind, Dedup(front));
      }
    }
  }

  lemma {:induction false} OverrideSnoc(perKind: map<string, U32>, ids: seq<string>, x: string)
    ensures FirstOverride(perKind, ids + [x])
         == if FirstOverride(perKind, ids).Some? then FirstOverride(perKind, ids)
            else if x in perKind then Some(perKind[x]) else None
  {
    if ids != [] {
      OverrideSnoc(perKind, ids[1..], x);
      assert (ids + [x])[1..] == ids[1..] + [x];
    }
  }

  lemma {:induction false} OverrideIff(perKind: map<string, U32>, ids: seq<string>)
    ensures FirstOverride(perKind, ids).Some? <==> exists i :: 0 <= i < |ids| && ids[i] in perKind
  {
    if i :| 0 <= i < |ids| && ids[i] in perKind {
      if i > 0 {
        OverrideIff(perKind, ids[1..]);
        assert ids[1..][i - 1] in perKind;
      }
    } else {
      NoOverride(perKind, ids);
    }
  }

  /**
   * The whole law: at least one attempt; exactly one for a kind that is not safe to run twice, whatever the policy
   * says; otherwise the override of the preferred spelling that has one, and the run-wide tries if none has.
   */
  lemma TriesLaw(policy: RetryPolicy, node: Node, kind: Option<Kind>, i: nat)
    requires var ids := Candidates(node, kind);
      i <= |ids| && (i < |ids| ==> ids[i] in policy.perKind) && forall j :: 0 <= j < i ==> ids[j] !in policy.perKind
    ensures TriesFor(policy, node, kind) >= 1
    ensures TriesFor(policy, node, kind)
         == if UnsafeToReplay(kind) then 1
            else if i < |Candidates(node, kind)| then AtLeastOne(policy.perKind[Candidates(node, kind)[i]])
            else AtLeastOne(policy.tries)
  {
    var ids := Candidates(node, kind);
    DedupKeepsFirst(policy.perKind, ids);
    if i < |ids| { FirstOverrideAt(policy.perKind, ids, i); } else { NoOverride(policy.perKind, ids); }
  }

  /** An override written under the bare name reaches a node written under the canonical or the legacy one. */
  lemma BareOverrideApplies(policy: RetryPolicy, node: Node, kind: Option<Kind>, name: string, tries: U32)
    requires '/' !in name && (name == [] || name[0] != '@')
    requires node.kind == Some(NAMESPACE + name) || node.kind == Some(LEGACY_NAMESPACE + name) || node.kind == Some(name)
    requires policy.perKind == map[name := tries] && !UnsafeToReplay(kind)
    ensures TriesFor(policy, node, kind) == AtLeastOne(tries)
  {
    var ids := Candidates(node, kind);
    BareOf(NAMESPACE, name);
    BareOf(LEGACY_NAMESPACE, name);
    DedupKeeps(Spellings(node.kind.value));
    hide Bare, KindIds, Dedup;
    assert Spellings(node.kind.value)[3] == name;
    assert name in Dedup(Spellings(node.kind.value));
    var k :| 0 <= k < |Dedup(Spellings(node.kind.value))| && Dedup(Spellings(node.kind.value))[k] == name;
    assert ids[1 + |KindIds(kind)| + k] == name;
    DedupKeepsFirst(policy.perKind, ids);
    OverrideIff(policy.perKind, ids);
    OnlyOverride(policy.perKind, ids, name, tries);
  }

  lemma {:induction false} OnlyOverride(perKind: map<string, U32>, ids: seq<string>, name: string, tries: U32)
    requires perKind == map[name := tries] && FirstOverride(perKind, ids).Some?
    ensures FirstOverride(perKind, ids) == Some(tries)
  {
    if ids[0] !in perKind { OnlyOverride(perKind, ids[1..], name, tries); }
  }

  lemma BareOf(namespace: string, name: string)
    requires namespace != [] && namespace[0] == '@' && namespace[|namespace| - 1] == '/' && '/' !in name
    ensures Bare(namespace + name) == name
  {
    assert (namespace + name)[|namespace| - 1] == '/';
    AfterLastSlash(namespace, name);
  }

  lemma {:induction false} AfterLastSlash(namespace: string, name: string)
    requires namespace != [] && namespace[|namespace| - 1] == '/' && '/' !in name
    ensures AfterSlash(namespace + name) == name
  {
    var n := |name| - 1;
    if name == [] {
      assert namespace + name == namespace;
    } else {
      assert (namespace + name)[..|namespace + name| - 1] == namespace + name[..n];
      AfterLastSlash(namespace, name[..n]);
    }
  }
}

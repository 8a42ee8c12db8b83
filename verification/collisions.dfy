/** When steps of two different runs have one key. */
module Collisions {
  import opened Wrappers
  import opened Activation
  import opened Numerals
  import opened Identity
  import opened Prefixes

  /** Some step of the one run, at some depth, has the key of some step of the other. */
  ghost predicate Collide(a: string, b: string) {
    exists path: seq<Step>, x, other: seq<Step>, y ::
      KeyText(DescendAll(a, 0, path), x) == KeyText(DescendAll(b, 0, other), y)
  }

  /** `b` goes on after `a` and a colon, and what it goes on with begins a path. */
  predicate Leads(a: string, b: string) {
    Extends(a, b) && BeginsPath(b[|a| + 1..])
  }

  /**
   * Between two runs the colon is not escaped. Steps of the two share a key exactly when one run key is the other
   * followed by a colon and the beginning of a path.
   */
  lemma RunKeysCollideIff(a: string, b: string)
    requires a != b
    ensures Collide(a, b) <==> Leads(a, b) || Leads(b, a)
  {
    if Leads(a, b) { CollidingSteps(a, b); }
    if Leads(b, a) { CollidingSteps(b, a); }
    forall path: seq<Step>, x, other: seq<Step>, y
      | KeyText(DescendAll(a, 0, path), x) == KeyText(DescendAll(b, 0, other), y)
      ensures Leads(a, b) || Leads(b, a)
    {
      CollisionLeads(a, path, x, b, other, y);
    }
  }

  lemma CollisionLeads(a: string, path: seq<Step>, x: Step, b: string, other: seq<Step>, y: Step)
    requires a != b && KeyText(DescendAll(a, 0, path), x) == KeyText(DescendAll(b, 0, other), y)
    ensures Leads(a, b) || Leads(b, a)
  {
    ForeignKeysApart(a, 0, path, x, b, 0, other, y);
    PathOf(a, 0, path);
    PathOf(b, 0, other);
    assert RenderAll(path) + [Render(x)] == RenderAll(path + [x]);
    assert RenderAll(other) + [Render(y)] == RenderAll(other + [y]);
    var p, q := Join(RenderAll(path + [x])), Join(RenderAll(other + [y]));
    if Extends(a, b) {
      RestOf(a, p, b, q);
      PathUpToColon(path + [x], b[|a| + 1..], q);
    } else {
      RestOf(b, q, a, p);
      PathUpToColon(other + [y], a[|b| + 1..], p);
    }
  }

  lemma RestOf(a: string, p: string, b: string, q: string)
    requires Extends(a, b) && a + ":" + p == b + ":" + q
    ensures p == b[|a| + 1..] + ":" + q
  {
    var rest := b[|a| + 1..];
    assert b == a + ":" + rest;
    assert a + ":" + p == a + ":" + (rest + ":" + q);
    assert (a + ":" + p)[|a| + 1..] == p;
    assert (a + ":" + (rest + ":" + q))[|a| + 1..] == rest + ":" + q;
  }

  /** Runs whose keys do not extend one another never share a step key. */
  lemma ForeignKeysApart(a: string, at: int, from: seq<Step>, x: Step, b: string, bt: int, to: seq<Step>, y: Step)
    requires a != b && KeyText(DescendAll(a, at, from), x) == KeyText(DescendAll(b, bt, to), y)
    ensures Extends(a, b) || Extends(b, a)
  {
    PathOf(a, at, from);
    PathOf(b, bt, to);
    var p, q := Join(RenderAll(from) + [Render(x)]), Join(RenderAll(to) + [Render(y)]);
    if |a| <= |b| { KeySplit(a, p, b, q); } else { KeySplit(b, q, a, p); }
  }

  /** The nameless step at the top of a run has the run key and a colon for its key. */
  lemma NamelessKey(b: string)
    ensures KeyText(DescendAll(b, 0, []), Step("", None)) == b + ":"
  {
    EscapeIsEncode("");
    assert b + ":" + "" == b + ":";
  }

  lemma CollidingSteps(a: string, b: string)
    requires Leads(a, b)
    ensures Collide(a, b) && Collide(b, a)
  {
    hide Render, Join, BeginsPath, EscapeSegment;
    var rest := b[|a| + 1..];
    assert b == a + ":" + rest;
    var steps := ContinuePath(rest);
    var path, x, y := steps[..|steps| - 1], steps[|steps| - 1], Step("", None);
    assert path + [x] == steps;
    PathOf(a, 0, path);
    assert RenderAll(path) + [Render(x)] == RenderAll(steps);
    NamelessKey(b);
    assert a + ":" + (rest + ":") == b + ":";
    assert KeyText(DescendAll(a, 0, path), x) == KeyText(DescendAll(b, 0, []), y);
  }
}

/** Step keys: the idempotency key of one execution of one node. */
module Identity {
  import opened Wrappers
  import opened Activation
  import opened Numerals

  // ---- escaping -------------------------------------------------------------------------------------------

  function Replace(text: string, from: char, to: string): string {
    if text == [] then [] else (if text[0] == from then to else [text[0]]) + Replace(text[1..], from, to)
  }

  /** Three replacements in turn, the percent sign first. */
  function EscapeSegment(value: string): string {
    Replace(Replace(Replace(value, '%', "%25"), '/', "%2F"), '#', "%23")
  }

  function EncodeChar(c: char): string {
    if c == '%' then "%25" else if c == '/' then "%2F" else if c == '#' then "%23" else [c]
  }

  function Encode(value: string): string {
    if value == [] then [] else EncodeChar(value[0]) + Encode(value[1..])
  }

  /** Reads an encoded text back. */
  function Decode(text: string): string {
    if text == [] then []
    else if text[0] != '%' then [text[0]] + Decode(text[1..])
    else if |text| < 3 then []
    else
      [if text[1..3] == "25" then '%' else if text[1..3] == "2F" then '/' else '#'] + Decode(text[3..])
  }

  lemma {:induction false} ReplaceConcat(a: string, b: string, from: char, to: string)
    ensures Replace(a + b, from, to) == Replace(a, from, to) + Replace(b, from, to)
  {
    if a == [] {
      assert a + b == b;
    } else {
      ReplaceConcat(a[1..], b, from, to);
      assert (a + b)[1..] == a[1..] + b;
      Regroup(if a[0] == from then to else [a[0]], Replace(a[1..], from, to), Replace(b, from, to));
    }
  }

  lemma ReplaceNone(from: char, to: string)
    requires from == '/' || from == '#'
    ensures Replace("%25", from, to) == "%25"
    ensures from == '#' ==> Replace("%2F", from, to) == "%2F"
  {
    assert "%25" == ['%'] + (['2'] + ['5']) && "%2F" == ['%'] + (['2'] + ['F']);
    One('%', from, to);
    One('2', from, to);
    One('5', from, to);
    One('F', from, to);
    ReplaceConcat(['2'], ['5'], from, to);
    ReplaceConcat(['%'], ['2'] + ['5'], from, to);
    ReplaceConcat(['2'], ['F'], from, to);
    ReplaceConcat(['%'], ['2'] + ['F'], from, to);
  }

  lemma One(c: char, from: char, to: string)
    ensures Replace([c], from, to) == if c == from then to else [c]
  {
    assert [c][1..] == [];
    assert Replace([], from, to) == [];
  }

  lemma EscapeOne(c: char)
    ensures EscapeSegment([c]) == EncodeChar(c)
  {
    One(c, '%', "%25");
    ReplaceNone('/', "%2F");
    ReplaceNone('#', "%23");
    One(c, '/', "%2F");
    One(c, '#', "%23");
  }

  /** The three replacements are one encoding of each character by itself. */
  lemma {:induction false} EscapeIsEncode(value: string)
    ensures EscapeSegment(value) == Encode(value)
  {
    if value != [] {
      EscapeIsEncode(value[1..]);
      EscapeOne(value[0]);
      var a, b := [value[0]], value[1..];
      assert value == a + b;
      ReplaceConcat(a, b, '%', "%25");
      ReplaceConcat(Replace(a, '%', "%25"), Replace(b, '%', "%25"), '/', "%2F");
      ReplaceConcat(Replace(Replace(a, '%', "%25"), '/', "%2F"), Replace(Replace(b, '%', "%25"), '/', "%2F"), '#', "%23");
    }
  }

  lemma {:induction false} DecodeEncode(value: string)
    ensures Decode(Encode(value)) == value
  {
    if value != [] {
      var head, rest := EncodeChar(value[0]), Encode(value[1..]);
      DecodeEncode(value[1..]);
      assert (head + rest)[|head|..] == rest;
      assert head == "%25" || head == "%2F" || head == "%23" ==> (head + rest)[1..3] == head[1..3];
    }
  }

  /** An encoded text holds no separator of its own. */
  lemma {:induction false} EncodedClean(value: string)
    ensures '/' !in Encode(value) && '#' !in Encode(value)
  {
    if value != [] { EncodedClean(value[1..]); }
  }

  // ---- segments -------------------------------------------------------------------------------------------

  /** One invocation on the way to a step: a node, and which occurrence of it. */
  datatype Step = Step(node: string, occurrence: Option<nat>)

  /** `Some(0)` is a real occurrence. */
  function Render(step: Step): string {
    match step.occurrence
    case Some(n) => EscapeSegment(step.node) + "#" + Decimal(n)
    case None => EscapeSegment(step.node)
  }

  lemma RenderClean(step: Step)
    ensures '/' !in Render(step)
  {
    EscapeIsEncode(step.node);
    EncodedClean(step.node);
    if step.occurrence.Some? {
      var digits := Decimal(step.occurrence.value);
      forall i | 0 <= i < |digits| ensures digits[i] != '/' { assert IsDigit(digits[i]); }
    }
  }

  /** The node's text is what stands before the first hash. */
  lemma HashPlace(step: Step)
    ensures var text := Render(step); var n := |Encode(step.node)|;
      && n <= |text| && text[..n] == Encode(step.node) && '#' !in Encode(step.node)
      && (step.occurrence.None? ==> n == |text|)
      && (step.occurrence.Some? ==> n < |text| && text[n] == '#' && text[n + 1..] == Decimal(step.occurrence.value))
  {
    EscapeIsEncode(step.node);
    EncodedClean(step.node);
  }

  lemma RenderInjective(a: Step, b: Step)
    requires Render(a) == Render(b)
    ensures a == b
  {
    HashPlace(a);
    HashPlace(b);
    var x, y := Encode(a.node), Encode(b.node);
    SamePlace(Render(a), x, a.occurrence.Some?, y, b.occurrence.Some?);
    DecodeEncode(a.node);
    DecodeEncode(b.node);
    if a.occurrence.Some? { DecimalInjective(a.occurrence.value, b.occurrence.value); }
  }

  /** A text has one first hash, or none. */
  lemma SamePlace(text: string, x: string, hashX: bool, y: string, hashY: bool)
    requires |x| <= |text| && text[..|x|] == x && '#' !in x && (hashX <==> |x| < |text|) && (hashX ==> text[|x|] == '#')
    requires |y| <= |text| && text[..|y|] == y && '#' !in y && (hashY <==> |y| < |text|) && (hashY ==> text[|y|] == '#')
    ensures x == y && hashX == hashY
  {
    assert forall i :: 0 <= i < |x| ==> text[i] == x[i] && text[i] != '#';
    assert forall i :: 0 <= i < |y| ==> text[i] == y[i] && text[i] != '#';
  }

  // ---- paths ----------------------------------------------------------------------------------------------

  /** The rendered steps, joined by slashes. */
  function Join(segments: seq<string>): string {
    if segments == [] then []
    else if |segments| == 1 then segments[0]
    else segments[0] + "/" + Join(segments[1..])
  }

  function RenderAll(steps: seq<Step>): (r: seq<string>)
    ensures |r| == |steps| && forall i :: 0 <= i < |r| ==> r[i] == Render(steps[i])
  {
    seq(|steps|, i requires 0 <= i < |steps| => Render(steps[i]))
  }

  /** Clean segments can be told apart again. */
  lemma {:induction false} JoinInjective(a: seq<string>, b: seq<string>)
    requires a != [] && b != [] && Join(a) == Join(b)
    requires (forall i :: 0 <= i < |a| ==> '/' !in a[i]) && (forall i :: 0 <= i < |b| ==> '/' !in b[i])
    ensures a == b
  {
    var text := Join(a);
    SplitFirst(a);
    SplitFirst(b);
    FirstSlash(text, a[0], |a| > 1, b[0], |b| > 1);
    if |a| > 1 {
      assert text[|a[0]| + 1..] == Join(a[1..]) && text[|b[0]| + 1..] == Join(b[1..]);
      JoinInjective(a[1..], b[1..]);
      assert a == [a[0]] + a[1..] && b == [b[0]] + b[1..];
    }
  }

  lemma SplitFirst(a: seq<string>)
    requires a != []
    ensures var text := Join(a);
      && |a[0]| <= |text| && text[..|a[0]|] == a[0] && (|a| > 1 <==> |a[0]| < |text|)
      && (|a| > 1 ==> text[|a[0]|] == '/' && text[|a[0]| + 1..] == Join(a[1..]))
  {
  }

  lemma FirstSlash(text: string, x: string, moreX: bool, y: string, moreY: bool)
    requires |x| <= |text| && text[..|x|] == x && '/' !in x && (moreX <==> |x| < |text|) && (moreX ==> text[|x|] == '/')
    requires |y| <= |text| && text[..|y|] == y && '/' !in y && (moreY <==> |y| < |text|) && (moreY ==> text[|y|] == '/')
    ensures x == y && moreX == moreY
  {
    assert forall i :: 0 <= i < |x| ==> text[i] == x[i] && text[i] != '/';
    assert forall i :: 0 <= i < |y| ==> text[i] == y[i] && text[i] != '/';
  }

  // ---- identities -------------------------------------------------------------------------------------------

  /** A run, a position inside it as rendered segments, and how often this step was tried. */
  datatype RunIdentity = RunIdentity(runKey: string, path: seq<string>, attempt: U32, firstAttemptAt: int)

  function WithAttempt(id: RunIdentity, attempt: U32): RunIdentity {
    id.(attempt := if attempt < 1 then 1 else attempt)
  }

  /** The identity a child graph runs under: one segment deeper, its attempts counted afresh. */
  function Descend(id: RunIdentity, step: Step): RunIdentity {
    RunIdentity(id.runKey, id.path + [Render(step)], 1, id.firstAttemptAt)
  }

  /** The identity reached from the top of a run by a list of invocations. */
  function DescendAll(runKey: string, firstAttemptAt: int, steps: seq<Step>): RunIdentity {
    if steps == [] then RunIdentity(runKey, [], 1, firstAttemptAt)
    else Descend(DescendAll(runKey, firstAttemptAt, steps[..|steps| - 1]), steps[|steps| - 1])
  }

  function KeyText(id: RunIdentity, step: Step): string {
    id.runKey + ":" + Join(id.path + [Render(step)])
  }

  lemma {:induction false} JoinSnoc(segments: seq<string>, last: string)
    ensures Join(segments + [last]) == if segments == [] then last else Join(segments) + "/" + last
  {
    if |segments| >= 1 {
      var rest := segments[1..];
      assert (segments + [last])[1..] == rest + [last];
      JoinSnoc(rest, last);
      if rest != [] {
        Regroup(segments[0] + "/", Join(rest), "/" + last);
        Regroup(Join(rest), "/", last);
        Regroup(segments[0] + "/" + Join(rest), "/", last);
      } else {
        assert segments == [segments[0]];
      }
    }
  }

  /** The key, pushed together piece by piece. */
  method StepKey(id: RunIdentity, step: Step) returns (key: string)
    ensures key == KeyText(id, step)
  {
    key := id.runKey + ":";
    for index := 0 to |id.path|
      invariant key == id.runKey + ":" + Join(id.path[..index])
    {
      assert id.path[..index + 1] == id.path[..index] + [id.path[index]];
      JoinSnoc(id.path[..index], id.path[index]);
      ghost var before := Join(id.path[..index]);
      if index > 0 {
        Regroup(id.runKey + ":", before, "/");
        key := key + "/";
        Regroup(id.runKey + ":", before + "/", id.path[index]);
      } else {
        assert id.path[..0] == [] && before == [];
      }
      key := key + id.path[index];
    }
    assert id.path[..|id.path|] == id.path;
    JoinSnoc(id.path, Render(step));
    if id.path != [] {
      Regroup(id.runKey + ":", Join(id.path), "/");
      key := key + "/";
      Regroup(id.runKey + ":", Join(id.path) + "/", Render(step));
    }
    key := key + Render(step);
  }

  lemma {:induction false} PathOf(runKey: string, at: int, steps: seq<Step>)
    ensures DescendAll(runKey, at, steps).path == RenderAll(steps)
    ensures DescendAll(runKey, at, steps).runKey == runKey
  {
    if steps != [] {
      var front := steps[..|steps| - 1];
      PathOf(runKey, at, front);
      assert RenderAll(steps) == RenderAll(front) + [Render(steps[|steps| - 1])];
    }
  }

  /** Within one run, different steps have different keys, whatever their ids hold. */
  lemma KeysInjective(runKey: string, at: int, a: seq<Step>, x: Step, bt: int, b: seq<Step>, y: Step)
    requires KeyText(DescendAll(runKey, at, a), x) == KeyText(DescendAll(runKey, bt, b), y)
    ensures a == b && x == y
  {
    hide Render, Join, EscapeSegment, DescendAll;
    PathOf(runKey, at, a);
    PathOf(runKey, bt, b);
    var p, q := RenderAll(a + [x]), RenderAll(b + [y]);
    assert p == RenderAll(a) + [Render(x)] && q == RenderAll(b) + [Render(y)];
    assert Join(p) == (runKey + ":" + Join(p))[|runKey| + 1..];
    assert Join(q) == (runKey + ":" + Join(q))[|runKey| + 1..];
    forall i | 0 <= i < |p| ensures '/' !in p[i] { RenderClean((a + [x])[i]); }
    forall i | 0 <= i < |q| ensures '/' !in q[i] { RenderClean((b + [y])[i]); }
    JoinInjective(p, q);
    assert |a| == |b|;
    forall i | 0 <= i < |a| + 1 ensures (a + [x])[i] == (b + [y])[i] {
      assert p[i] == q[i];
      RenderInjective((a + [x])[i], (b + [y])[i]);
    }
    assert a == (a + [x])[..|a|] && b == (b + [y])[..|b|];
    assert (a + [x])[|a|] == x && (b + [y])[|b|] == y;
  }

  /** A retry keeps its key: neither the attempt nor the clock is part of it. */
  lemma KeyIgnoresAttempt(runKey: string, at: int, steps: seq<Step>, x: Step, attempt: U32, later: int)
    ensures KeyText(WithAttempt(DescendAll(runKey, at, steps), attempt), x)
         == KeyText(DescendAll(runKey, later, steps), x)
  {
    PathOf(runKey, at, steps);
    PathOf(runKey, later, steps);
  }
}

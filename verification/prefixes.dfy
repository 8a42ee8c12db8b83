/**
 * What a step key begins with, read back off its text.
 *
 * The text before a slash is a rendered step exactly when it is an escaped id and perhaps a hash and a number written
 * without leading zeros; the text after the last slash is an escaped id, cut at a colon. A colon is plain, so that what
 * stands before one in an escaped id is an escaped id itself, and one cannot stand after a hash. Texts are cut there and
 * put together again.
 */
module Prefixes {
  import opened Wrappers
  import opened Activation
  import opened Numerals
  import opened Identity

  /** The first place `c` stands at. */
  function FirstOf(text: string, c: char): (r: nat)
    ensures r <= |text| && c !in text[..r] && (r < |text| ==> text[r] == c)
  {
    if text == [] || text[0] == c then 0 else 1 + FirstOf(text[1..], c)
  }

  function Undigit(c: char): nat {
    if '0' <= c <= '9' then (c - '0') as nat else 0
  }

  function ParseDecimal(text: string): nat {
    if text == [] then 0 else 10 * ParseDecimal(text[..|text| - 1]) + Undigit(text[|text| - 1])
  }

  lemma {:induction false} ParseRendered(n: nat)
    ensures ParseDecimal(Decimal(n)) == n
  {
    var text := Decimal(n);
    assert Undigit(Digit(n % 10)) == n % 10;
    if n >= 10 {
      ParseRendered(n / 10);
      assert text[..|text| - 1] == Decimal(n / 10);
    } else {
      assert text[..0] == [];
      assert ParseDecimal([]) == 0;
    }
  }

  /** The text is some id, escaped. */
  predicate IsEncoded(text: string) {
    Encode(Decode(text)) == text
  }

  /** The text is some step, rendered: an escaped id, and perhaps a hash and a number without leading zeros. */
  predicate IsRendered(text: string) {
    var n := FirstOf(text, '#');
    IsEncoded(text[..n]) && (n == |text| || Decimal(ParseDecimal(text[n + 1..])) == text[n + 1..])
  }

  /** The text begins a path of steps: rendered up to each slash, and escaped after the last. */
  predicate BeginsPath(text: string)
    decreases |text|
  {
    var n := FirstOf(text, '/');
    if n == |text| then IsEncoded(text) else IsRendered(text[..n]) && BeginsPath(text[n + 1..])
  }

  lemma {:induction false} FirstIs(text: string, c: char, n: nat)
    requires n <= |text| && c !in text[..n] && (n < |text| ==> text[n] == c)
    ensures FirstOf(text, c) == n
  {
    assert n > 0 ==> text[..n][0] == text[0];
    if text != [] && text[0] != c {
      var front := text[1..][..n - 1];
      forall i | 0 <= i < |front| ensures front[i] != c { assert front[i] == text[..n][i + 1]; }
      FirstIs(text[1..], c, n - 1);
    }
  }

  /** A rendered text is some step's. */
  lemma StepOf(text: string) returns (step: Step)
    requires IsRendered(text)
    ensures Render(step) == text
  {
    hide Decode, Encode, ParseDecimal, EscapeSegment;
    var n := FirstOf(text, '#');
    var node := Decode(text[..n]);
    EscapeIsEncode(node);
    if n == |text| {
      step := Step(node, None);
      assert text[..n] == text;
    } else {
      step := Step(node, Some(ParseDecimal(text[n + 1..])));
      assert text == text[..n] + "#" + text[n + 1..];
    }
  }

  lemma RenderedIs(step: Step)
    ensures IsRendered(Render(step))
  {
    hide Decode, Encode, ParseDecimal, EscapeSegment, FirstOf, Render;
    var text := Render(step);
    HashPlace(step);
    FirstIs(text, '#', |Encode(step.node)|);
    DecodeEncode(step.node);
    if step.occurrence.Some? { ParseRendered(step.occurrence.value); }
  }

  /** Cut at a colon, an escaped text is still an escaped one. */
  lemma {:induction false} EncodedUpToColon(value: string, i: nat)
    requires i < |Encode(value)| && Encode(value)[i] == ':'
    ensures IsEncoded(Encode(value)[..i])
  {
    var head, rest := EncodeChar(value[0]), Encode(value[1..]);
    if i < |head| {
      assert i == 0;
      assert Encode(value)[..0] == "";
      assert Decode("") == "";
    } else {
      assert Encode(value)[i] == rest[i - |head|];
      EncodedUpToColon(value[1..], i - |head|);
      var v := Decode(rest[..i - |head|]);
      assert Encode([value[0]] + v) == head + Encode(v) by { assert ([value[0]] + v)[1..] == v; }
      assert Encode(value)[..i] == head + rest[..i - |head|];
      DecodeEncode([value[0]] + v);
    }
  }

  /** What stands before a colon in a rendered step is escaped. */
  lemma RenderedUpToColon(step: Step, i: nat)
    requires i < |Render(step)| && Render(step)[i] == ':'
    ensures IsEncoded(Render(step)[..i])
  {
    var text, n := Render(step), |Encode(step.node)|;
    HashPlace(step);
    if step.occurrence.Some? {
      var digits := Decimal(step.occurrence.value);
      forall j | n < j < |text| ensures text[j] != ':' { assert text[j] == digits[j - n - 1] && IsDigit(text[j]); }
    }
    assert i < n;
    assert Encode(step.node)[i] == ':' && Encode(step.node)[..i] == text[..i];
    EncodedUpToColon(step.node, i);
  }

  /** The first segment of a path that goes on past a colon, if no slash comes before the colon. */
  lemma LastPiece(steps: seq<Step>, rest: string, more: string)
    requires steps != [] && Join(RenderAll(steps)) == rest + ":" + more && '/' !in rest
    ensures IsEncoded(rest)
  {
    hide IsEncoded, Render, Join;
    var all, text := RenderAll(steps), rest + ":" + more;
    SplitFirst(all);
    RenderClean(steps[0]);
    assert text[..|rest|] == rest && text[|rest|] == ':';
    var m := |all[0]|;
    forall i | 0 <= i <= |rest| ensures text[i] != '/' { assert i < |rest| ==> text[i] == rest[i] && rest[i] in rest; }
    FirstIs(text, '/', m);
    assert m > |rest|;
    assert all[0][|rest|] == text[|rest|] && all[0][..|rest|] == rest;
    RenderedUpToColon(steps[0], |rest|);
  }

  /** And if one does, the segment up to it is a step's, and the rest goes on past the colon. */
  lemma FirstPiece(steps: seq<Step>, rest: string, more: string, n: nat)
    requires steps != [] && Join(RenderAll(steps)) == rest + ":" + more
    requires n < |rest| && rest[n] == '/' && '/' !in rest[..n]
    ensures Render(steps[0]) == rest[..n] && |steps| > 1
    ensures Join(RenderAll(steps[1..])) == rest[n + 1..] + ":" + more
  {
    hide Render, Join;
    var all, text := RenderAll(steps), rest + ":" + more;
    SplitFirst(all);
    RenderClean(steps[0]);
    assert text[..|rest|] == rest && text[n] == '/';
    SlashPlace(text, all[0], n, |all| > 1);
    assert text[..n] == rest[..n];
    assert text[n + 1..] == rest[n + 1..] + ":" + more;
    assert all[1..] == RenderAll(steps[1..]);
  }

  lemma SlashPlace(text: string, x: string, n: nat, more: bool)
    requires |x| <= |text| && text[..|x|] == x && '/' !in x && (more <==> |x| < |text|) && (more ==> text[|x|] == '/')
    requires n < |text| && text[n] == '/' && '/' !in text[..n]
    ensures |x| == n && more
  {
    FirstIs(text, '/', |x|);
    FirstIs(text, '/', n);
  }

  /** A path that goes on past a colon begins as a path. */
  lemma {:induction false} PathUpToColon(steps: seq<Step>, rest: string, more: string)
    requires steps != [] && Join(RenderAll(steps)) == rest + ":" + more
    ensures BeginsPath(rest)
    decreases |rest|
  {
    hide IsEncoded, IsRendered, Render, Join, RenderAll;
    var n := FirstOf(rest, '/');
    if n == |rest| {
      assert rest[..n] == rest;
      LastPiece(steps, rest, more);
    } else {
      FirstPiece(steps, rest, more, n);
      RenderedIs(steps[0]);
      PathUpToColon(steps[1..], rest[n + 1..], more);
    }
  }

  lemma EndPath(rest: string) returns (step: Step)
    requires IsEncoded(rest)
    ensures Render(step) == rest + ":"
  {
    var id := Decode(rest);
    step := Step(id + ":", None);
    EscapeIsEncode(id + ":");
    EncodeConcat(id, ":");
    assert ":"[1..] == "" && Encode("") == "";
    assert Encode(":") == ":";
  }

  lemma JoinOnto(step: Step, steps: seq<Step>)
    requires steps != []
    ensures Join(RenderAll([step] + steps)) == Render(step) + "/" + Join(RenderAll(steps))
  {
    assert RenderAll([step] + steps)[1..] == RenderAll(steps);
  }

  /** And a text that begins a path is continued by a colon into one. */
  lemma {:induction false} ContinuePath(rest: string) returns (steps: seq<Step>)
    requires BeginsPath(rest)
    ensures steps != [] && Join(RenderAll(steps)) == rest + ":"
    decreases |rest|
  {
    hide IsEncoded, IsRendered, Render;
    var n := FirstOf(rest, '/');
    if n == |rest| {
      var step := EndPath(rest);
      steps := [step];
    } else {
      var step := StepOf(rest[..n]);
      var tail := ContinuePath(rest[n + 1..]);
      steps := [step] + tail;
      JoinOnto(step, tail);
      assert rest[..n] + "/" + (rest[n + 1..] + ":") == rest + ":";
    }
  }

  lemma {:induction false} EncodeConcat(a: string, b: string)
    ensures Encode(a + b) == Encode(a) + Encode(b)
  {
    if a == [] {
      assert a + b == b;
    } else {
      EncodeConcat(a[1..], b);
      assert (a + b)[1..] == a[1..] + b;
      Regroup(EncodeChar(a[0]), Encode(a[1..]), Encode(b));
    }
  }
}

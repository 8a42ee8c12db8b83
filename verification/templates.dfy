/** Routing templates: the admission scan, and the interpolation it stands guard over. */
module Templates {
  import opened Wrappers

  // ---- finding a doubled brace ----------------------------------------------------------------------------

  predicate PairAt(text: string, c: char, i: nat) {
    i + 1 < |text| && text[i] == c && text[i + 1] == c
  }

  /** The first place at or after `start` where `c` stands twice. */
  function FindPair(text: string, c: char, start: nat): (r: Option<nat>)
    ensures r.Some? ==> start <= r.value && PairAt(text, c, r.value)
    ensures r.Some? ==> forall i {:trigger PairAt(text, c, i)} :: start <= i < r.value ==> !PairAt(text, c, i)
    ensures r.None? ==> forall i {:trigger PairAt(text, c, i)} :: start <= i ==> !PairAt(text, c, i)
    decreases |text| - start
  {
    if start >= |text| then None
    else if PairAt(text, c, start) then Some(start)
    else FindPair(text, c, start + 1)
  }

  lemma FindIs(text: string, c: char, start: nat, at: nat)
    requires start <= at && PairAt(text, c, at) && forall i {:trigger PairAt(text, c, i)} :: start <= i < at ==> !PairAt(text, c, i)
    ensures FindPair(text, c, start) == Some(at)
  {
    var r := FindPair(text, c, start);
    assert r.Some?;
    assert !(r.value < at) && !(at < r.value);
  }

  // ---- the admission scan ---------------------------------------------------------------------------------

  datatype Admission = Accepted | NotAnExpression | Unclosed

  /** Unicode white space, which trimming removes. */
  predicate IsSpace(c: char) {
    || '\t' <= c <= '\r' || c == ' ' || c == '\U{85}' || c == '\U{a0}' || c == '\U{1680}'
    || '\U{2000}' <= c <= '\U{200a}' || c == '\U{2028}' || c == '\U{2029}' || c == '\U{202f}'
    || c == '\U{205f}' || c == '\U{3000}'
  }

  predicate Blank(text: string) {
    forall i :: 0 <= i < |text| ==> IsSpace(text[i])
  }

  /** The openings still open at the end of a scan from `index`. A closing with nothing open is ignored. */
  function Scan(text: string, index: nat, open: nat): nat
    decreases |text| - index
  {
    if index + 1 >= |text| then open
    else if PairAt(text, '{', index) then Scan(text, index + 2, open + 1)
    else if PairAt(text, '}', index) then Scan(text, index + 2, if open == 0 then 0 else open - 1)
    else Scan(text, index + 1, open)
  }

  function Admit(value: string): Admission {
    if Blank(value) then Accepted
    else if FindPair(value, '{', 0).None? then NotAnExpression
    else if Scan(value, 0, 0) > 0 then Unclosed
    else Accepted
  }

  method ValidateRoutingExpression(value: string) returns (r: Admission)
    ensures r == Admit(value)
    ensures r == Accepted ==> !MeetsUnterminated(value, 0)
  {
    if Admit(value) == Accepted { AcceptedIsClosed(value); }
    if Blank(value) {
      return Accepted;
    }
    if FindPair(value, '{', 0).None? {
      return NotAnExpression;
    }
    var open: nat, index: nat := 0, 0;
    while index + 1 < |value|
      invariant Scan(value, index, open) == Scan(value, 0, 0)
      decreases |value| - index
    {
      if PairAt(value, '{', index) {
        open, index := open + 1, index + 2;
      } else if PairAt(value, '}', index) {
        open, index := if open == 0 then 0 else open - 1, index + 2;
      } else {
        index := index + 1;
      }
    }
    return if open > 0 then Unclosed else Accepted;
  }

  // ---- interpolation ----------------------------------------------------------------------------------------

  datatype Piece = Literal(text: string) | Reference(path: string)

  /** How interpolation reads a template from `start`: literal text, references, and a last literal. */
  function Pieces(template: string, start: nat): seq<Piece>
    requires start <= |template|
    decreases |template| - start
  {
    var open := FindPair(template, '{', start);
    if open.None? then [Literal(template[start..])]
    else
      var close := FindPair(template, '}', open.value + 2);
      if close.None? then [Literal(template[start..])]
      else
        [Literal(template[start..open.value]), Reference(template[open.value + 2..close.value])]
        + Pieces(template, close.value + 2)
  }

  /** Interpolation from `start` comes to an opening with no closing after it. */
  predicate MeetsUnterminated(template: string, start: nat)
    decreases |template| - start
  {
    var open := FindPair(template, '{', start);
    if open.None? then false
    else
      var close := FindPair(template, '}', open.value + 2);
      if close.None? then true else MeetsUnterminated(template, close.value + 2)
  }

  function Fill(pieces: seq<Piece>, resolve: string -> string): string {
    if pieces == [] then []
    else
      (match pieces[0] case Literal(text) => text case Reference(path) => resolve(path)) + Fill(pieces[1..], resolve)
  }

  lemma FillPair(text: string, path: string, rest: seq<Piece>, resolve: string -> string)
    ensures Fill([Literal(text), Reference(path)] + rest, resolve) == text + resolve(path) + Fill(rest, resolve)
  {
    var all := [Literal(text), Reference(path)] + rest;
    assert all[1..] == [Reference(path)] + rest && all[1..][1..] == rest;
    Regroup(text, resolve(path), Fill(rest, resolve));
  }

  lemma FillOne(text: string, resolve: string -> string)
    ensures Fill([Literal(text)], resolve) == text
  {
    assert [Literal(text)][1..] == [];
    assert text + [] == text;
  }

  /** Interpolation one reference further on. */
  lemma FillStep(template: string, start: nat, resolve: string -> string, open: nat, close: nat)
    requires start <= |template| && FindPair(template, '{', start) == Some(open)
    requires FindPair(template, '}', open + 2) == Some(close)
    ensures Fill(Pieces(template, start), resolve)
         == template[start..open] + resolve(template[open + 2..close]) + Fill(Pieces(template, close + 2), resolve)
  {
    FillPair(template[start..open], template[open + 2..close], Pieces(template, close + 2), resolve);
  }

  lemma FillLast(template: string, start: nat, resolve: string -> string)
    requires start <= |template|
    requires FindPair(template, '{', start).None? ||
      FindPair(template, '}', FindPair(template, '{', start).value + 2).None?
    ensures Fill(Pieces(template, start), resolve) == template[start..]
  {
    FillOne(template[start..], resolve);
  }

  /** Replace every reference, left to right, in a single pass. */
  method Interpolate(template: string, resolve: string -> string) returns (out: string)
    ensures out == Fill(Pieces(template, 0), resolve)
  {
    hide Fill, FindPair, Pieces;
    out := "";
    var start := 0;
    while true
      invariant start <= |template|
      invariant out + Fill(Pieces(template, start), resolve) == Fill(Pieces(template, 0), resolve)
      decreases |template| - start
    {
      var open := FindPair(template, '{', start);
      if open.None? {
        FillLast(template, start, resolve);
        return out + template[start..];
      }
      var close := FindPair(template, '}', open.value + 2);
      if close.None? {
        FillLast(template, start, resolve);
        return out + template[start..];
      }
      FillStep(template, start, resolve, open.value, close.value);
      var text, path := template[start..open.value], template[open.value + 2..close.value];
      Regroup(out, text + resolve(path), Fill(Pieces(template, close.value + 2), resolve));
      Regroup(out, text, resolve(path));
      out := out + text + resolve(path);
      start := close.value + 2;
    }
  }

  // ---- what admission promises ------------------------------------------------------------------------------

  /** With no closing ahead, what is open stays open. */
  lemma {:induction false} StaysOpen(text: string, index: nat, open: nat)
    requires forall i {:trigger PairAt(text, '}', i)} :: index <= i ==> !PairAt(text, '}', i)
    ensures Scan(text, index, open) >= open
    decreases |text| - index
  {
    if index + 1 < |text| {
      StaysOpen(text, if PairAt(text, '{', index) then index + 2 else index + 1,
        if PairAt(text, '{', index) then open + 1 else open);
    }
  }

  /** The scan comes to the next opening exactly where interpolation finds it. */
  lemma {:induction false} ReachesOpen(text: string, index: nat, open: nat, at: nat) returns (left: nat)
    requires index <= at && PairAt(text, '{', at)
    requires forall i {:trigger PairAt(text, '{', i)} :: index <= i < at ==> !PairAt(text, '{', i)
    ensures Scan(text, index, open) == Scan(text, at, left)
    decreases at - index
  {
    left := open;
    if index < at {
      if PairAt(text, '}', index) {
        left := ReachesOpen(text, index + 2, if open == 0 then 0 else open - 1, at);
      } else {
        left := ReachesOpen(text, index + 1, open, at);
      }
    }
  }

  /** And to the closing after it, with at least as much open as before. */
  lemma {:induction false} ReachesClose(text: string, index: nat, open: nat, at: nat) returns (left: nat)
    requires index <= at && PairAt(text, '}', at)
    requires forall i {:trigger PairAt(text, '}', i)} :: index <= i < at ==> !PairAt(text, '}', i)
    ensures Scan(text, index, open) == Scan(text, at, left) && left >= open
    decreases at - index
  {
    left := open;
    if index < at {
      if PairAt(text, '{', index) {
        left := ReachesClose(text, index + 2, open + 1, at);
      } else {
        left := ReachesClose(text, index + 1, open, at);
      }
    }
  }

  lemma {:induction false} ClosedFrom(text: string, start: nat, open: nat)
    requires Scan(text, start, open) == 0
    ensures !MeetsUnterminated(text, start)
    decreases |text| - start
  {
    var o := FindPair(text, '{', start);
    if o.Some? {
      var left := ReachesOpen(text, start, open, o.value);
      assert Scan(text, o.value, left) == Scan(text, o.value + 2, left + 1);
      var c := FindPair(text, '}', o.value + 2);
      if c.None? {
        StaysOpen(text, o.value + 2, left + 1);
      } else {
        var now := ReachesClose(text, o.value + 2, left + 1, c.value);
        assert Scan(text, c.value, now) == Scan(text, c.value + 2, now - 1);
        ClosedFrom(text, c.value + 2, now - 1);
      }
    }
  }

  /** A template admission accepts never makes interpolation meet an unterminated opening. */
  lemma AcceptedIsClosed(value: string)
    requires Admit(value) == Accepted
    ensures !MeetsUnterminated(value, 0)
  {
    if Blank(value) {
      forall i: nat ensures !PairAt(value, '{', i) { assert i < |value| ==> IsSpace(value[i]); }
    } else {
      ClosedFrom(value, 0, 0);
    }
  }

  /** Two of `c` together, counted from the left without overlap. */
  function Pairs(text: string, c: char): nat {
    if |text| < 2 then 0 else if PairAt(text, c, 0) then 1 + Pairs(text[2..], c) else Pairs(text[1..], c)
  }

  function Drop(open: nat, closings: nat): nat {
    if closings < open then open - closings else 0
  }

  /** What the pieces leave open: a reference adds the openings inside it, literal text takes its closings off. */
  function StillOpen(pieces: seq<Piece>, open: nat): nat {
    if pieces == [] then open
    else
      match pieces[0]
      case Literal(text) => StillOpen(pieces[1..], Drop(open, Pairs(text, '}')))
      case Reference(path) => StillOpen(pieces[1..], open + Pairs(path, '{'))
  }

  lemma {:induction false} ScanLiteral(text: string, from: nat, to: nat, open: nat)
    requires from <= to <= |text| && (to < |text| ==> PairAt(text, '{', to))
    requires forall i {:trigger PairAt(text, '{', i)} :: from <= i < to ==> !PairAt(text, '{', i)
    ensures Scan(text, from, open) == Scan(text, to, Drop(open, Pairs(text[from..to], '}')))
    decreases |text| - from
  {
    var part := text[from..to];
    if from < to {
      if PairAt(text, '}', from) {
        assert from + 1 < to;
        assert part[2..] == text[from + 2..to] && PairAt(part, '}', 0);
        ScanLiteral(text, from + 2, to, Drop(open, 1));
      } else {
        assert part[1..] == text[from + 1..to] && !PairAt(part, '}', 0);
        ScanLiteral(text, from + 1, to, open);
      }
    }
  }

  lemma {:induction false} ScanReference(text: string, from: nat, to: nat, open: nat)
    requires from <= to < |text| && PairAt(text, '}', to)
    requires forall i {:trigger PairAt(text, '}', i)} :: from <= i < to ==> !PairAt(text, '}', i)
    ensures Scan(text, from, open) == Scan(text, to, open + Pairs(text[from..to], '{'))
    decreases |text| - from
  {
    var part := text[from..to];
    if from < to {
      if PairAt(text, '{', from) {
        assert from + 1 < to;
        assert part[2..] == text[from + 2..to] && PairAt(part, '{', 0);
        ScanReference(text, from + 2, to, open + 1);
      } else {
        assert part[1..] == text[from + 1..to] && !PairAt(part, '{', 0);
        ScanReference(text, from + 1, to, open);
      }
    }
  }

  /** One literal and the reference after it. */
  lemma ScanOne(text: string, start: nat, o: nat, c: nat, open: nat)
    requires start <= o && o + 2 <= c && PairAt(text, '{', o) && PairAt(text, '}', c)
    requires forall i {:trigger PairAt(text, '{', i)} :: start <= i < o ==> !PairAt(text, '{', i)
    requires forall i {:trigger PairAt(text, '}', i)} :: o + 2 <= i < c ==> !PairAt(text, '}', i)
    ensures Scan(text, start, open)
         == Scan(text, c + 2, Drop(open, Pairs(text[start..o], '}')) + Pairs(text[o + 2..c], '{'))
  {
    hide Pairs, Drop;
    var left := Drop(open, Pairs(text[start..o], '}'));
    ScanLiteral(text, start, o, open);
    ScanReference(text, o + 2, c, left + 1);
  }

  lemma ScanEnd(text: string, open: nat)
    ensures Scan(text, |text|, open) == open
  {
  }

  /** Where every reference is closed, the scan leaves open what the pieces leave open. */
  lemma {:induction false} ScanIsPieces(text: string, start: nat, open: nat)
    requires start <= |text| && !MeetsUnterminated(text, start)
    ensures Scan(text, start, open) == StillOpen(Pieces(text, start), open)
    decreases |text| - start
  {
    hide Pairs, Drop, FindPair, Scan, StillOpen;
    var o := FindPair(text, '{', start);
    if o.None? {
      ScanLiteral(text, start, |text|, open);
      assert text[start..|text|] == text[start..];
      ScanEnd(text, Drop(open, Pairs(text[start..], '}')));
      OpenLast(text[start..], open);
    } else {
      var c := FindPair(text, '}', o.value + 2);
      var before, path := text[start..o.value], text[o.value + 2..c.value];
      ScanOne(text, start, o.value, c.value, open);
      ScanIsPieces(text, c.value + 2, Drop(open, Pairs(before, '}')) + Pairs(path, '{'));
      OpenAfter(before, path, Pieces(text, c.value + 2), open);
    }
  }

  lemma OpenLast(text: string, open: nat)
    ensures StillOpen([Literal(text)], open) == Drop(open, Pairs(text, '}'))
  {
    hide Pairs, Drop;
    assert [Literal(text)][1..] == [];
  }

  lemma OpenAfter(before: string, path: string, rest: seq<Piece>, open: nat)
    ensures StillOpen([Literal(before), Reference(path)] + rest, open)
         == StillOpen(rest, Drop(open, Pairs(before, '}')) + Pairs(path, '{'))
  {
    hide Pairs, Drop;
    assert ([Literal(before), Reference(path)] + rest)[1..] == [Reference(path)] + rest;
    assert ([Reference(path)] + rest)[1..] == rest;
  }

  /**
   * Admission is the stricter of the two. A template whose references are all closed is refused as unclosed exactly
   * when openings inside its references outnumber the closings left over in the text after them.
   */
  lemma AdmissionIsStricter(value: string)
    requires !MeetsUnterminated(value, 0)
    ensures Admit(value) == Unclosed <==> StillOpen(Pieces(value, 0), 0) > 0
  {
    ScanIsPieces(value, 0, 0);
    if Blank(value) || FindPair(value, '{', 0).None? {
      forall i: nat ensures !PairAt(value, '{', i) { assert i < |value| && Blank(value) ==> IsSpace(value[i]); }
      ScanLiteral(value, 0, |value|, 0);
    }
  }

  /** Such a template: an opening inside a reference, which interpolation reads as part of the path. */
  lemma NestedIsRefused()
    ensures Admit("{{a{{b}}") == Unclosed && !MeetsUnterminated("{{a{{b}}", 0)
  {
    var t := "{{a{{b}}";
    assert PairAt(t, '{', 0) && PairAt(t, '}', 6);
    FindIs(t, '{', 0, 0);
    FindIs(t, '}', 2, 6);
    assert FindPair(t, '{', 8) == None;
    assert !IsSpace(t[0]);
    assert Scan(t, 0, 0) == Scan(t, 2, 1) == Scan(t, 3, 1) == Scan(t, 5, 2) == Scan(t, 6, 2) == Scan(t, 8, 1);
  }

  // ---- a template that is exactly one expression --------------------------------------------------------------

  /** The inner text of a trimmed template that is one expression and nothing else. */
  function WholeExpression(trimmed: string): Option<string> {
    if |trimmed| < 4 || !PairAt(trimmed, '{', 0) || !PairAt(trimmed, '}', |trimmed| - 2) then None
    else
      var inner := trimmed[2..|trimmed| - 2];
      if FindPair(inner, '}', 0).Some? || FindPair(inner, '{', 0).Some? then None else Some(inner)
  }

  /**
   * A whole expression is read as that one reference by interpolation too, exactly when its inner text does not end
   * in a closing brace: `{{a}}}` is one expression `a}` here, and a reference `a` with a brace after it there.
   */
  lemma WholeIsOneReference(trimmed: string)
    requires WholeExpression(trimmed).Some?
    ensures var inner := WholeExpression(trimmed).value;
      Pieces(trimmed, 0) == [Literal(""), Reference(inner), Literal("")]
      <==> inner == "" || inner[|inner| - 1] != '}'
  {
    var inner, n := WholeExpression(trimmed).value, |trimmed|;
    FindIs(trimmed, '{', 0, 0);
    assert forall i :: 0 <= i < |inner| ==> inner[i] == trimmed[i + 2];
    forall i: nat | 2 <= i < n - 3 ensures !PairAt(trimmed, '}', i) { assert !PairAt(inner, '}', i - 2); }
    if inner == "" || inner[|inner| - 1] != '}' {
      assert n >= 5 ==> !PairAt(trimmed, '}', n - 3);
      FindIs(trimmed, '}', 2, n - 2);
      assert FindPair(trimmed, '{', n) == None;
      assert trimmed[0..0] == "" && trimmed[2..n - 2] == inner && trimmed[n..] == "";
    } else {
      assert PairAt(trimmed, '}', n - 3);
      FindIs(trimmed, '}', 2, n - 3);
      assert Pieces(trimmed, 0)[1] == Reference(trimmed[2..n - 3]);
    }
  }

  /** The two readings of `{{a}}}`. */
  lemma BraceMisread()
    ensures WholeExpression("{{a}}}") == Some("a}")
    ensures Pieces("{{a}}}", 0) == [Literal(""), Reference("a"), Literal("}")]
  {
    var t := "{{a}}}";
    assert PairAt(t, '{', 0) && PairAt(t, '}', 3) && PairAt(t, '}', 4);
    assert t[2..4] == "a}";
    FindIs(t, '{', 0, 0);
    FindIs(t, '}', 2, 3);
    assert FindPair(t, '{', 5) == None;
    assert t[0..0] == "" && t[2..3] == "a" && t[5..] == "}";
  }
}

/**
 * Decimal text for counters and indices.
 *
 * Owner tokens and step keys write numbers into text: different numbers are written differently, and a number after
 * the last colon can be read back off the text, whatever stands before it. A counter that wraps does so before it is
 * written.
 */
module Numerals {
  function Digit(n: nat): char
    requires n < 10
  {
    ['0', '1', '2', '3', '4', '5', '6', '7', '8', '9'][n]
  }

  predicate IsDigit(c: char) {
    c in ['0', '1', '2', '3', '4', '5', '6', '7', '8', '9']
  }

  function Decimal(n: nat): (text: string)
    ensures text != [] && forall i :: 0 <= i < |text| ==> IsDigit(text[i])
  {
    if n < 10 then [Digit(n)] else Decimal(n / 10) + [Digit(n % 10)]
  }

  lemma OneDigit(n: nat)
    ensures |Decimal(n)| == 1 <==> n < 10
  {
    if n >= 10 { assert Decimal(n) == Decimal(n / 10) + [Digit(n % 10)]; }
  }

  /** Different numbers, different texts. */
  lemma {:induction false} DecimalInjective(a: nat, b: nat)
    requires Decimal(a) == Decimal(b)
    ensures a == b
  {
    var text := Decimal(a);
    var n := |text| - 1;
    assert text[n] == Digit(a % 10) && text[n] == Digit(b % 10);
    OneDigit(a);
    OneDigit(b);
    if a >= 10 {
      assert text[..n] == Decimal(a / 10) && text[..n] == Decimal(b / 10);
      DecimalInjective(a / 10, b / 10);
    }
  }

  /** The last colon is the one before the number. */
  lemma LastColon(x: string, a: nat, k: nat)
    requires var text := x + ":" + Decimal(a); k < |text| && text[k] == ':'
    ensures k <= |x|
  {
    var text := x + ":" + Decimal(a);
    forall i | |x| < i < |text| ensures text[i] != ':' {
      assert IsDigit(text[i]) by { assert text[i] == Decimal(a)[i - |x| - 1]; }
    }
  }

  /** A colon and a number at the end of a text can be read back, whatever stands before them. */
  lemma SuffixInjective(x: string, a: nat, y: string, b: nat)
    requires x + ":" + Decimal(a) == y + ":" + Decimal(b)
    ensures x == y && a == b
  {
    var text := x + ":" + Decimal(a);
    assert text[|x|] == ':' && text[|y|] == ':';
    LastColon(x, a, |y|);
    LastColon(y, b, |x|);
    assert text[..|x|] == x && text[..|y|] == y;
    assert text[|x| + 1..] == Decimal(a) && text[|y| + 1..] == Decimal(b);
    DecimalInjective(a, b);
  }
}

/**
 * Decimal rendering of integers as JavaScript's `String(n)` / `n.toString()`
 * prints them (no leading zeros, a leading '-' for negatives), with a parser
 * that inverts it.
 */
module Numerals {

  predicate IsDigit(c: char) {
    '0' <= c <= '9'
  }

  predicate AllDigits(s: string) {
    forall i :: 0 <= i < |s| ==> IsDigit(s[i])
  }

  function DigitChar(d: nat): (c: char)
    requires d < 10
    ensures IsDigit(c)
  {
    (48 + d) as char
  }

  function DigitValue(c: char): (d: nat)
    requires IsDigit(c)
    ensures d < 10 && DigitChar(d) == c
  {
    (c as int) - 48
  }

  /** The decimal digits of `n`, most significant first, without leading zeros. */
  function NatToDecimal(n: nat): (s: string)
    ensures 1 <= |s| && AllDigits(s)
    ensures |s| > 1 ==> s[0] != '0'
    decreases n
  {
    if n < 10 then [DigitChar(n)] else NatToDecimal(n / 10) + [DigitChar(n % 10)]
  }

  /** `String(i)` for an integer `i`. */
  function IntToDecimal(i: int): (s: string)
    ensures 1 <= |s|
    ensures i >= 0 <==> AllDigits(s)
  {
    if i < 0 then
      var s := "-" + NatToDecimal(-i);
      assert !IsDigit(s[0]);
      s
    else NatToDecimal(i)
  }

  /** Reads a string of decimal digits back as a number. */
  function ParseDecimal(s: string): nat
    requires AllDigits(s)
    decreases |s|
  {
    if s == [] then 0 else ParseDecimal(s[..|s| - 1]) * 10 + DigitValue(s[|s| - 1])
  }

  /** Parsing undoes rendering. */
  lemma {:induction false} ParseRendered(n: nat)
    ensures ParseDecimal(NatToDecimal(n)) == n
    decreases n
  {
    if n >= 10 {
      var s := NatToDecimal(n);
      assert s[..|s| - 1] == NatToDecimal(n / 10);
      ParseRendered(n / 10);
    }
  }

  /** Two different numbers never print the same. */
  lemma RenderingInjective(a: nat, b: nat)
    ensures NatToDecimal(a) == NatToDecimal(b) ==> a == b
  {
    ParseRendered(a);
    ParseRendered(b);
  }

  /** Two different integers never print the same. */
  lemma IntRenderingInjective(a: int, b: int)
    ensures IntToDecimal(a) == IntToDecimal(b) ==> a == b
  {
    if IntToDecimal(a) == IntToDecimal(b) {
      if a < 0 && b < 0 {
        assert NatToDecimal(-a) == IntToDecimal(a)[1..];
        RenderingInjective(-a, -b);
      } else if a >= 0 && b >= 0 {
        RenderingInjective(a, b);
      }
    }
  }

  /**
   * Text of the form `head + "-" + digits` splits back at its last '-':
   * neither part can absorb the separator.
   */
  lemma SplitAtLastDash(a: string, b: string, c: string, d: string)
    requires AllDigits(b) && AllDigits(d)
    requires a + "-" + b == c + "-" + d
    ensures a == c && b == d
  {
    var s := a + "-" + b;
    assert s[|a|] == '-';
    assert s[|c|] == '-' by { assert s == c + "-" + d; }
    assert |a| == |c|;
    assert a == s[..|a|];
    assert c == (c + "-" + d)[..|c|];
    assert b == s[|a| + 1..];
    assert d == (c + "-" + d)[|c| + 1..];
  }
}

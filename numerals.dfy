/** The two numeric helpers the stopwatch borrows from its host language:
    the decimal rendering of an integer (used to build lap names such as
    "lap_3") and rounding to a number of decimal places. Durations are
    modelled as exact reals, so rounding is defined on reals. */
module Numerals {

  /** The decimal digit character of d. */
  function Digit(d: nat): (c: char)
    requires d < 10
    ensures '0' <= c <= '9'
  {
    (48 + d) as char
  }

  lemma DigitInjective(x: nat, y: nat)
    requires x < 10 && y < 10
    requires Digit(x) == Digit(y)
    ensures x == y
  {
  }

  /** The decimal representation of n, without leading zeros. */
  function NatToString(n: nat): (s: string)
    ensures |s| >= 1
    ensures forall i :: 0 <= i < |s| ==> '0' <= s[i] <= '9'
    ensures n >= 10 ==> |s| >= 2
    decreases n
  {
    if n < 10 then [Digit(n)] else NatToString(n / 10) + [Digit(n % 10)]
  }

  /** The decimal representation of an integer, with a leading '-' when negative. */
  function IntToString(n: int): (s: string)
    ensures |s| >= 1
    ensures n >= 0 ==> s == NatToString(n)
    ensures n < 0 ==> s[0] == '-' && s[1..] == NatToString(-n)
  {
    if n < 0 then "-" + NatToString(-n) else NatToString(n)
  }

  /** Different numbers have different decimal representations. */
  lemma {:induction false} NatToStringInjective(a: nat, b: nat)
    requires NatToString(a) == NatToString(b)
    ensures a == b
    decreases a
  {
    var s := NatToString(a);
    if a < 10 && b < 10 {
      DigitInjective(a, b);
    } else if a >= 10 && b >= 10 {
      assert s == NatToString(a / 10) + [Digit(a % 10)];
      assert s == NatToString(b / 10) + [Digit(b % 10)];
      assert s[|s| - 1] == Digit(a % 10) == Digit(b % 10);
      DigitInjective(a % 10, b % 10);
      assert NatToString(a / 10) == s[..|s| - 1] == NatToString(b / 10);
      NatToStringInjective(a / 10, b / 10);
    }
    // one below ten and the other not: the lengths differ (1 and at least 2)
  }

  /** Different integers have different decimal representations: the sign
      character tells the negatives apart, and the digits do the rest. */
  lemma {:induction false} IntToStringInjective(a: int, b: int)
    requires IntToString(a) == IntToString(b)
    ensures a == b
  {
    NatToStringDigits(if a < 0 then -a else a);
    NatToStringDigits(if b < 0 then -b else b);
    if a < 0 && b < 0 {
      NatToStringInjective(-a, -b);
    } else if a >= 0 && b >= 0 {
      NatToStringInjective(a, b);
    }
    // otherwise one starts with '-', which is not a digit
  }

  lemma NatToStringDigits(n: nat)
    ensures '0' <= NatToString(n)[0] <= '9'
  {
  }

  /** Ten to the power p, for any integer p. */
  function Pow10(p: int): (r: real)
    ensures r > 0.0
    decreases if p < 0 then -p else p
  {
    if p == 0 then 1.0
    else if p > 0 then 10.0 * Pow10(p - 1)
    else Pow10(p + 1) / 10.0
  }

  /** The number of units of 10^-p nearest to x, ties to the even number
      (the rule of the host language's round on an exact value). */
  function RoundedUnits(x: real, p: int): (k: int)
    ensures (k as real) - 0.5 <= x * Pow10(p) <= (k as real) + 0.5
    ensures x * Pow10(p) == (k as real) - 0.5 ==> k % 2 == 0
    ensures x * Pow10(p) == (k as real) + 0.5 ==> k % 2 == 0
  {
    var scaled := x * Pow10(p);
    var f := scaled.Floor;
    var frac := scaled - f as real;
    if frac < 0.5 then f
    else if frac > 0.5 then f + 1
    else if f % 2 == 0 then f
    else f + 1
  }

  /** x rounded to p decimal places (p may be zero or negative). */
  function Round(x: real, p: int): (r: real)
    // r is a whole number of units of 10^-p ...
    ensures (r * Pow10(p)).Floor == RoundedUnits(x, p)
    ensures r * Pow10(p) == (r * Pow10(p)).Floor as real
    // ... at most half a unit away from x ...
    ensures -0.5 <= (r - x) * Pow10(p) <= 0.5
    // ... and, on a tie, the even one
    ensures (r - x) * Pow10(p) == 0.5 || (r - x) * Pow10(p) == -0.5 ==> (r * Pow10(p)).Floor % 2 == 0
  {
    UnitsScaleBack(RoundedUnits(x, p), Pow10(p), x);
    RoundedUnits(x, p) as real / Pow10(p)
  }

  /** Dividing a whole number of units by the scale and multiplying back
      gives the units again, and the distance to x scales alike. */
  lemma UnitsScaleBack(k: int, scale: real, x: real)
    requires scale > 0.0
    ensures var r := k as real / scale;
            && r * scale == k as real
            && (r * scale).Floor == k
            && (r - x) * scale == k as real - x * scale
  {
    assert (k as real).Floor == k;
  }

  /** Rounding never turns a non-negative duration negative. */
  lemma RoundNonNegative(x: real, p: int)
    requires x >= 0.0
    ensures Round(x, p) >= 0.0
  {
    var k := RoundedUnits(x, p);
    assert x * Pow10(p) >= 0.0;
    assert k >= 0;
  }
}

/**
 * Decimal rendering of integers, as Swift's `String(_: Int)` produces it:
 * an optional leading '-', then the digits of the magnitude with no
 * leading zero (zero itself is "0").  `ParseInt` is the reading partner
 * used to show that the rendering loses nothing.
 */
module Decimal {
  import opened Wrappers

  predicate IsDigit(c: char) { '0' <= c <= '9' }

  /** A non-empty run of digits without a superfluous leading zero. */
  predicate CanonicalDigits(s: string)
  {
    |s| >= 1 && (forall i :: 0 <= i < |s| ==> IsDigit(s[i])) && (|s| > 1 ==> s[0] != '0')
  }

  function DigitChar(d: nat): (c: char)
    requires d < 10
    ensures IsDigit(c) && c as int - '0' as int == d
  {
    ('0' as int + d) as char
  }

  /** The digits of `n`, most significant first. */
  function NatDigits(n: nat): (s: string)
    ensures CanonicalDigits(s)
    ensures (n == 0) == (s == "0")
    decreases n
  {
    if n < 10 then [DigitChar(n)] else NatDigits(n / 10) + [DigitChar(n % 10)]
  }

  /** `String(n)` for a Swift `Int`. */
  function IntString(n: int): (s: string)
    ensures |s| >= 1
    ensures n < 0 <==> s[0] == '-'
    ensures n >= 0 ==> CanonicalDigits(s)
    ensures n < 0 ==> CanonicalDigits(s[1..]) && s[1..] != "0"
  {
    if n < 0 then "-" + NatDigits(-n) else NatDigits(n)
  }

  /** The value of a run of digits, read from the right. */
  function DigitsValue(s: string): (v: nat)
    requires |s| >= 1 && forall i :: 0 <= i < |s| ==> IsDigit(s[i])
    decreases |s|
  {
    assert IsDigit(s[|s| - 1]);
    var last := s[|s| - 1] as int - '0' as int;
    if |s| == 1 then last else 10 * DigitsValue(s[..|s| - 1]) + last
  }

  /** Reads back what `IntString` writes; None for any other text. */
  function ParseInt(s: string): (r: Option<int>)
    ensures r.Some? ==> |s| >= 1
  {
    if |s| >= 1 && s[0] == '-' && CanonicalDigits(s[1..]) && s[1..] != "0" then
      Some(0 - DigitsValue(s[1..]) as int)
    else if CanonicalDigits(s) then
      Some(DigitsValue(s))
    else
      None
  }

  lemma {:induction false} NatDigitsValue(n: nat)
    ensures DigitsValue(NatDigits(n)) == n
    decreases n
  {
    if n >= 10 {
      var s := NatDigits(n);
      assert s[..|s| - 1] == NatDigits(n / 10);
      NatDigitsValue(n / 10);
    }
  }

  /** Every integer's rendering reads back as that integer. */
  lemma IntStringRoundTrip(n: int)
    ensures ParseInt(IntString(n)) == Some(n)
  {
    if n < 0 {
      assert IntString(n)[1..] == NatDigits(-n);
      NatDigitsValue(-n);
    } else {
      NatDigitsValue(n);
    }
  }

  /** Distinct integers are rendered as distinct strings. */
  lemma IntStringInjective(m: int, n: int)
    ensures IntString(m) == IntString(n) ==> m == n
  {
    IntStringRoundTrip(m);
    IntStringRoundTrip(n);
  }
}

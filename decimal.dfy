/** Decimal rendering of an `Int`, as Swift's string interpolation `"\(n)"` prints it: an optional
    minus sign followed by the digits of the magnitude, most significant first, no leading zeros.
    `ParseInt` is its inverse and gives injectivity. */
module Decimal {
  import opened Wrappers

  predicate IsDigit(c: char) { '0' <= c <= '9' }

  predicate AllDigits(s: string) { forall i | 0 <= i < |s| :: IsDigit(s[i]) }

  function DigitChar(d: nat): (c: char)
    requires d < 10
    ensures IsDigit(c) && DigitValue(c) == d
  {
    ('0' as int + d) as char
  }

  function DigitValue(c: char): (d: nat)
    requires IsDigit(c)
    ensures d < 10
  {
    c as int - '0' as int
  }

  /** The digits of `n`. */
  function NatToString(n: nat): (s: string)
    ensures |s| > 0 && AllDigits(s)
    ensures s[0] == '0' <==> n == 0
    ensures s[0] == '0' ==> |s| == 1
    decreases n
  {
    if n < 10 then [DigitChar(n)] else NatToString(n / 10) + [DigitChar(n % 10)]
  }

  /** `"\(i)"` for an `Int` `i`: a minus sign exactly for a negative `i`, then the digits, whose
      first one is '0' only when `i` is zero and the digits are just "0". */
  function IntToString(i: int): (s: string)
    ensures |s| > 0
    ensures s[0] == '-' <==> i < 0
    ensures forall k | 0 <= k < |s| :: s[k] == '-' || IsDigit(s[k])
    ensures forall k | 1 <= k < |s| :: IsDigit(s[k])
    ensures IsIntString(s)
    ensures var digits := if i < 0 then s[1..] else s;
      |digits| > 0 && (digits[0] == '0' <==> i == 0) && (digits[0] == '0' ==> digits == "0")
  {
    if i < 0 then "-" + NatToString(-i) else NatToString(i)
  }

  function DigitsToNat(s: string): nat
    requires AllDigits(s)
    decreases |s|
  {
    if s == [] then 0 else DigitsToNat(s[..|s| - 1]) * 10 + DigitValue(s[|s| - 1])
  }

  /** A minus sign followed by digits, or digits alone. */
  predicate IsIntString(s: string) {
    if |s| > 0 && s[0] == '-' then |s| > 1 && AllDigits(s[1..]) else |s| > 0 && AllDigits(s)
  }

  /** Reads back an integer written by `IntToString`. */
  function ParseInt(s: string): (r: Option<int>)
    ensures r.Some? <==> IsIntString(s)
  {
    if !IsIntString(s) then None
    else if s[0] == '-' then Some(-(DigitsToNat(s[1..]) as int))
    else Some(DigitsToNat(s))
  }

  lemma {:induction false} NatRoundTrip(n: nat)
    ensures DigitsToNat(NatToString(n)) == n
  {
    if n >= 10 {
      var s := NatToString(n);
      assert s[..|s| - 1] == NatToString(n / 10);
      NatRoundTrip(n / 10);
    }
  }

  /** Printing then reading back gives the integer printed. */
  lemma IntRoundTrip(i: int)
    ensures ParseInt(IntToString(i)) == Some(i)
  {
    var s := IntToString(i);
    if i < 0 {
      assert s[1..] == NatToString(-i);
      NatRoundTrip(-i);
    } else {
      NatRoundTrip(i);
    }
  }

  /** Different integers print differently. */
  lemma IntToStringInjective(a: int, b: int)
    ensures IntToString(a) == IntToString(b) ==> a == b
  {
    IntRoundTrip(a);
    IntRoundTrip(b);
  }
}

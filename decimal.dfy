/**
 * Decimal text of integers as `std::to_string(int)` renders it: an optional
 * minus sign and the digits, without padding or leading zeros; and the
 * reading of such digit strings back into numbers.
 */
module Decimal {
  import opened Schema

  predicate IsDigit(c: char) {
    '0' <= c <= '9'
  }

  predicate AllDigits(s: string) {
    forall i :: 0 <= i < |s| ==> IsDigit(s[i])
  }

  function DigitChar(d: nat): (c: char)
    requires d < 10
    ensures IsDigit(c) && c as int - '0' as int == d
  {
    ('0' as int + d) as char
  }

  function DigitValue(c: char): nat
    requires IsDigit(c)
  {
    c as int - '0' as int
  }

  /** The digits of `n`, most significant first. */
  function NatText(n: nat): (s: string)
    ensures |s| >= 1 && AllDigits(s)
    ensures n < 10 <==> |s| == 1
    ensures s[0] == '0' ==> n == 0
  {
    if n < 10 then [DigitChar(n)] else NatText(n / 10) + [DigitChar(n % 10)]
  }

  /** `std::to_string(int)`. */
  function IntText(n: int): (s: string)
    ensures n >= 0 ==> s == NatText(n)
    ensures |s| >= 1 && (s[0] == '-' <==> n < 0)
  {
    if n < 0 then "-" + NatText(-n) else NatText(n)
  }

  /** The number a string of digits denotes. */
  function Value(s: string): nat
    requires AllDigits(s)
  {
    if |s| == 0 then 0 else Value(s[..|s| - 1]) * 10 + DigitValue(s[|s| - 1])
  }

  /** Reads a non-empty string of decimal digits; anything else is rejected. */
  function ParseNat(s: string): (r: Option<nat>)
    ensures r.Some? <==> |s| > 0 && AllDigits(s)
  {
    if |s| > 0 && AllDigits(s) then Some(Value(s)) else None
  }

  lemma {:induction false} ValueOfNatText(n: nat)
    ensures Value(NatText(n)) == n
  {
    var s := NatText(n);
    if n >= 10 {
      ValueOfNatText(n / 10);
      assert s[..|s| - 1] == NatText(n / 10);
    }
  }

  /** Reading the text of a non-negative number gives the number back. */
  lemma NatTextRoundTrip(n: nat)
    ensures ParseNat(NatText(n)) == Some(n)
  {
    ValueOfNatText(n);
  }

  /** The text of a number in [10^(k-1), 10^k) has exactly k digits, for k <= 4. */
  lemma NatTextLength(n: nat)
    ensures 10 <= n < 100 ==> |NatText(n)| == 2
    ensures 100 <= n < 1000 ==> |NatText(n)| == 3
    ensures 1000 <= n < 10000 ==> |NatText(n)| == 4
  {
    if n >= 10 {
      NatTextLength(n / 10);
    }
  }
}

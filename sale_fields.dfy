/**
 * The two text columns of a sale: the price `"<amount> $"` and the date
 * `"<year>-<month>-<day>"`, both built from `std::to_string` without
 * zero-padding; and their reading back.
 */
module SaleFields {
  import opened Schema
  import opened Decimal

  /** `std::to_string(amount) + " $"`. */
  function PriceText(amount: int): (s: string)
    ensures |s| >= 3 && s[|s| - 2..] == " $"
    ensures amount >= 0 ==> AllDigits(s[..|s| - 2])
  {
    IntText(amount) + " $"
  }

  /** `std::to_string(year) + "-" + std::to_string(month) + "-" + std::to_string(day)`. */
  function DateText(year: int, month: int, day: int): (s: string)
    ensures |s| >= 5
  {
    IntText(year) + "-" + IntText(month) + "-" + IntText(day)
  }

  /** Cuts `s` at every occurrence of `sep`; there is always one more part than separators. */
  function Split(s: string, sep: char): (parts: seq<string>)
    ensures |parts| >= 1
  {
    if |s| == 0 then [""]
    else
      var rest := Split(s[1..], sep);
      if s[0] == sep then [""] + rest else [[s[0]] + rest[0]] + rest[1..]
  }

  /** Reads a price column: digits followed by `" $"`. */
  function ParsePrice(s: string): Option<nat> {
    if |s| >= 2 && s[|s| - 2..] == " $" then ParseNat(s[..|s| - 2]) else None
  }

  /** Reads a date column: exactly three digit strings separated by `-`. */
  function ParseDate(s: string): Option<(nat, nat, nat)> {
    var parts := Split(s, '-');
    if |parts| != 3 then None
    else
      match (ParseNat(parts[0]), ParseNat(parts[1]), ParseNat(parts[2]))
      case (Some(y), Some(m), Some(d)) => Some((y, m, d))
      case _ => None
  }

  /** A part without the separator stays whole. */
  lemma {:induction false} SplitNoSep(a: string, sep: char)
    requires sep !in a
    ensures Split(a, sep) == [a]
  {
    if |a| > 0 {
      assert sep !in a[1..];
      SplitNoSep(a[1..], sep);
      assert [a[0]] + a[1..] == a;
    }
  }

  /** Splitting at the first separator peels off the text before it. */
  lemma {:induction false} SplitFirst(a: string, sep: char, b: string)
    requires sep !in a
    ensures Split(a + [sep] + b, sep) == [a] + Split(b, sep)
  {
    if |a| == 0 {
      assert a + [sep] + b == [sep] + b;
    } else {
      assert (a + [sep] + b)[1..] == a[1..] + [sep] + b;
      assert sep !in a[1..];
      SplitFirst(a[1..], sep, b);
      assert (a + [sep] + b)[0] == a[0] != sep;
      assert [a[0]] + a[1..] == a;
    }
  }

  lemma DigitsHaveNoDash(s: string)
    requires AllDigits(s)
    ensures '-' !in s
  {
  }

  /** The date splits into the texts of its year, month and day. */
  lemma DateParts(year: nat, month: nat, day: nat)
    ensures Split(DateText(year, month, day), '-') == [NatText(year), NatText(month), NatText(day)]
  {
    var y, m, d := NatText(year), NatText(month), NatText(day);
    DigitsHaveNoDash(y);
    DigitsHaveNoDash(m);
    DigitsHaveNoDash(d);
    assert DateText(year, month, day) == y + ['-'] + (m + ['-'] + d);
    SplitFirst(y, '-', m + ['-'] + d);
    SplitFirst(m, '-', d);
    SplitNoSep(d, '-');
  }

  /** Splitting a date at `-` recovers its year, month and day. */
  lemma DateRoundTrip(year: nat, month: nat, day: nat)
    ensures ParseDate(DateText(year, month, day)) == Some((year, month, day))
  {
    DateParts(year, month, day);
    NatTextRoundTrip(year);
    NatTextRoundTrip(month);
    NatTextRoundTrip(day);
  }

  /** Reading a price back recovers its amount. */
  lemma PriceRoundTrip(amount: nat)
    ensures ParsePrice(PriceText(amount)) == Some(amount)
  {
    var s := PriceText(amount);
    assert s[..|s| - 2] == NatText(amount);
    assert s[|s| - 2..] == " $";
    NatTextRoundTrip(amount);
  }

  /**
   * A sale price with amount in [1, 5] is one digit, not '0', then `" $"`.
   */
  lemma PriceShape(amount: int)
    requires 1 <= amount <= 5
    ensures |PriceText(amount)| == 3 && PriceText(amount)[1..] == " $"
    ensures '1' <= PriceText(amount)[0] <= '5'
  {
  }

  /**
   * A sale date with year in [2020, 2023], month in [1, 12] and day in
   * [1, 20] has a four-digit year and one- or two-digit month and day, none
   * of them starting with '0'.
   */
  lemma DateShape(year: int, month: int, day: int)
    requires 2020 <= year <= 2023 && 1 <= month <= 12 && 1 <= day <= 20
    ensures |IntText(year)| == 4
    ensures 1 <= |IntText(month)| <= 2 && IntText(month)[0] != '0'
    ensures 1 <= |IntText(day)| <= 2 && IntText(day)[0] != '0'
    ensures |DateText(year, month, day)| == 6 + |IntText(month)| + |IntText(day)|
  {
    NatTextLength(year);
    NatTextLength(month);
    NatTextLength(day);
  }
}

/**
 * Monetary amounts. A sale's `value` is held as a whole number of cents, so
 * `value.toFixed(2)` becomes the exact decimal spelling of the cents with two
 * fraction digits and a leading `-` for a negative amount.
 */
module Money {
  import opened Wrappers
  import opened Strings

  /** A non-negative amount of cents with two fraction digits. */
  function UnsignedText(m: nat): (s: string)
    ensures |s| >= 4 && s[0] != ' ' && s[0] != '-' && NoNewline(s)
  {
    NatToDecimal(m / 100) + "." + [DigitChar(m % 100 / 10), DigitChar(m % 10)]
  }

  /** `value.toFixed(2)` for an amount of `cents`. */
  function FormatCents(cents: int): (s: string)
    ensures |s| >= 4 && s[0] != ' ' && NoNewline(s)
  {
    if cents < 0 then "-" + UnsignedText(-cents) else UnsignedText(cents)
  }

  /** Reads a non-negative `digits.dd` amount back into cents. */
  function ParseUnsignedCents(s: string): Option<nat>
  {
    if |s| >= 4 && s[|s| - 3] == '.' && Canonical(s[..|s| - 3]) && IsDigit(s[|s| - 2]) && IsDigit(s[|s| - 1])
    then Some(100 * DecimalValue(s[..|s| - 3]) + 10 * DigitValue(s[|s| - 2]) + DigitValue(s[|s| - 1]))
    else None
  }

  /** Reads an amount written with two fraction digits, possibly negative, back into cents. */
  function ParseCents(s: string): Option<int>
  {
    if |s| >= 1 && s[0] == '-' then
      match ParseUnsignedCents(s[1..])
      case Some(m) => if m == 0 then None else Some(0 - m)
      case None => None
    else
      match ParseUnsignedCents(s)
      case Some(m) => Some(m)
      case None => None
  }

  /** A whole part, a point and two digits read back as their value in cents. */
  lemma ParseUnsignedParts(w: string, hi: char, lo: char)
    requires Canonical(w) && IsDigit(hi) && IsDigit(lo)
    ensures ParseUnsignedCents(w + "." + [hi, lo]) == Some(100 * DecimalValue(w) + 10 * DigitValue(hi) + DigitValue(lo))
  {
    var s := w + "." + [hi, lo];
    assert s[..|s| - 3] == w;
    assert s[|s| - 3] == '.' && s[|s| - 2] == hi && s[|s| - 1] == lo;
  }

  lemma UnsignedRoundTrip(m: nat)
    ensures ParseUnsignedCents(UnsignedText(m)) == Some(m)
  {
    var q, t, u := m / 100, m % 100 / 10, m % 10;
    DecimalRoundTrip(q);
    ParseUnsignedParts(NatToDecimal(q), DigitChar(t), DigitChar(u));
    DigitRoundTrip(t);
    DigitRoundTrip(u);
    CentsDigits(m);
  }

  /** An amount is its whole part, its tenths and its hundredths. */
  lemma CentsDigits(m: nat)
    ensures 100 * (m / 100) + 10 * (m % 100 / 10) + m % 10 == m
  {
    var q, r := m / 100, m % 100;
    assert m == 100 * q + r;
    assert r == 10 * (r / 10) + r % 10;
    assert m % 10 == r % 10;
  }

  /** Every formatted amount reads back as the amount it was formatted from. */
  lemma CentsRoundTrip(cents: int)
    ensures ParseCents(FormatCents(cents)) == Some(cents)
  {
    if cents < 0 {
      var u := UnsignedText(-cents);
      UnsignedRoundTrip(-cents);
      assert ("-" + u)[1..] == u;
    } else {
      UnsignedRoundTrip(cents);
    }
  }

  /** Amounts from -9999.99 to 99999.99 fit the eight-character value column. */
  lemma FormatCentsFitsColumn(cents: int)
    requires -1_000_000 < cents < 10_000_000
    ensures |FormatCents(cents)| <= 8
  {
    if cents < 0 {
      assert Pow10(4) == 10000;
      DecimalLength(-cents / 100, 4);
    } else {
      assert Pow10(5) == 100000;
      DecimalLength(cents / 100, 5);
    }
  }
}

/**
 * `strftime("%Y-%m-%d")`: the ISO 8601 calendar date in extended format
 * (ISO 8601:2004, section 4.1.2.2), and a parser for the same shape that
 * serves as its inverse.
 */
module IsoFormat {
  import opened Options
  import opened Calendar

  predicate IsDigit(c: char) {
    '0' <= c <= '9'
  }

  function DigitChar(n: int): (c: char)
    requires 0 <= n <= 9
    ensures IsDigit(c)
  {
    ('0' as int + n) as char
  }

  function DigitValue(c: char): (n: int)
    requires IsDigit(c)
    ensures 0 <= n <= 9 && DigitChar(n) == c
  {
    c as int - '0' as int
  }

  predicate AllDigits(s: string) {
    forall i :: 0 <= i < |s| ==> IsDigit(s[i])
  }

  /** The number a string of decimal digits spells, most significant first. */
  function DecimalValue(s: string): (n: nat)
    requires AllDigits(s)
  {
    if s == [] then 0 else DecimalValue(s[..|s| - 1]) * 10 + DigitValue(s[|s| - 1])
  }

  /** The value of a two-digit string, digit by digit. */
  lemma DecimalValue2(s: string)
    requires |s| == 2 && AllDigits(s)
    ensures DecimalValue(s) == DigitValue(s[0]) * 10 + DigitValue(s[1])
  {
    var p := s[..1];
    assert p[..0] == [];
    assert DecimalValue(p) == DigitValue(s[0]);
  }

  /** The value of a four-digit string: its first two digits count in hundreds. */
  lemma DecimalValue4(s: string)
    requires |s| == 4 && AllDigits(s)
    ensures DecimalValue(s) == DecimalValue(s[..2]) * 100 + DecimalValue(s[2..])
  {
    var p := s[..3];
    DecimalValue2(p[..2]);
    DecimalValue2(s[..2]);
    DecimalValue2(s[2..]);
    assert p[..2] == s[..2];
    assert DecimalValue(p) == DecimalValue(p[..2]) * 10 + DigitValue(s[2]);
  }

  /** `%d` and `%m`: two digits, zero-padded. */
  function Pad2(n: int): (s: string)
    requires 0 <= n <= 99
    ensures |s| == 2 && AllDigits(s) && DecimalValue(s) == n
  {
    var s := [DigitChar(n / 10), DigitChar(n % 10)];
    DecimalValue2(s);
    s
  }

  /** `%Y`: four digits, zero-padded. */
  function Pad4(n: int): (s: string)
    requires 0 <= n <= 9999
    ensures |s| == 4 && AllDigits(s) && DecimalValue(s) == n
  {
    var s := Pad2(n / 100) + Pad2(n % 100);
    assert s[..2] == Pad2(n / 100) && s[2..] == Pad2(n % 100);
    DecimalValue4(s);
    s
  }

  /** Every string of two digits is the padding of its own value. */
  lemma Pad2Canonical(s: string)
    requires |s| == 2 && AllDigits(s)
    ensures DecimalValue(s) <= 99
    ensures Pad2(DecimalValue(s)) == s
  {
    DecimalValue2(s);
  }

  /** Every string of four digits is the padding of its own value. */
  lemma Pad4Canonical(s: string)
    requires |s| == 4 && AllDigits(s)
    ensures DecimalValue(s) <= 9999
    ensures Pad4(DecimalValue(s)) == s
  {
    DecimalValue4(s);
    Pad2Canonical(s[..2]);
    Pad2Canonical(s[2..]);
    var v := DecimalValue(s);
    assert v / 100 == DecimalValue(s[..2]) && v % 100 == DecimalValue(s[2..]);
    assert s == s[..2] + s[2..];
  }

  /** `d.strftime("%Y-%m-%d")`. */
  function FormatIso(d: Date): (s: string)
    requires Valid(d)
    ensures |s| == 10 && s[4] == '-' && s[7] == '-'
  {
    Pad4(d.year) + "-" + Pad2(d.month) + "-" + Pad2(d.day)
  }

  /** Reads a `YYYY-MM-DD` string back into a date; anything else, or an impossible date, is rejected. */
  function ParseIso(s: string): (r: Option<Date>)
    ensures r.Some? ==> Valid(r.value)
  {
    if |s| == 10 && s[4] == '-' && s[7] == '-'
       && AllDigits(s[0..4]) && AllDigits(s[5..7]) && AllDigits(s[8..10])
    then
      var d := Date(DecimalValue(s[0..4]), DecimalValue(s[5..7]), DecimalValue(s[8..10]));
      if Valid(d) then Some(d) else None
    else
      None
  }

  /** Formatting loses nothing: the string reads back as the same date. */
  lemma ParseFormatted(d: Date)
    requires Valid(d)
    ensures ParseIso(FormatIso(d)) == Some(d)
  {
    var s := FormatIso(d);
    assert s[0..4] == Pad4(d.year);
    assert s[5..7] == Pad2(d.month);
    assert s[8..10] == Pad2(d.day);
  }

  /** Every string the parser accepts is the formatting of the date it reads. */
  lemma FormatParsed(s: string)
    requires ParseIso(s).Some?
    ensures FormatIso(ParseIso(s).value) == s
  {
    Pad4Canonical(s[0..4]);
    Pad2Canonical(s[5..7]);
    Pad2Canonical(s[8..10]);
    assert s == s[0..4] + "-" + s[5..7] + "-" + s[8..10];
  }

  /** Distinct dates give distinct strings. */
  lemma FormatInjective(a: Date, b: Date)
    requires Valid(a) && Valid(b) && FormatIso(a) == FormatIso(b)
    ensures a == b
  {
    ParseFormatted(a);
    ParseFormatted(b);
  }

}

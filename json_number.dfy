/**
 * Integer rendering used by te_json_add_integer (`%jd` of an intmax_t): the
 * minimal signed decimal form of section 6 of RFC 8259, with `ParseInt` as the
 * reading side that the rendering is proved against.
 */
module JsonNumber {
  import opened Wrappers

  const IntMaxMin: int := -0x8000_0000_0000_0000
  const IntMaxMax: int := 0x7FFF_FFFF_FFFF_FFFF

  /** The values of C's intmax_t (64 bits on every platform the library targets). */
  type IntMax = x: int | IntMaxMin <= x <= IntMaxMax

  predicate IsDigit(ch: char) {
    '0' <= ch <= '9'
  }

  predicate AllDigits(s: string) {
    forall i :: 0 <= i < |s| ==> IsDigit(s[i])
  }

  /** A digit string without redundant leading zeros: `0`, or a string starting with 1-9. */
  predicate IsMinimalDigits(s: string) {
    |s| >= 1 && AllDigits(s) && (s[0] == '0' ==> |s| == 1)
  }

  /** The textual form of an integer allowed by the grammar of section 6 of RFC 8259. */
  predicate IsJsonInteger(s: string) {
    IsMinimalDigits(s) || (|s| >= 2 && s[0] == '-' && IsMinimalDigits(s[1..]) && s[1..] != "0")
  }

  function DigitChar(d: nat): (ch: char)
    requires d < 10
    ensures IsDigit(ch) && ch as int - '0' as int == d
  {
    ('0' as int + d) as char
  }

  /** The number a digit string denotes, read most significant digit first. */
  function DigitsValue(s: string): nat
    requires AllDigits(s)
  {
    if s == [] then 0 else DigitsValue(s[..|s| - 1]) * 10 + (s[|s| - 1] as int - '0' as int)
  }

  /** The decimal digits of `n`, most significant first. */
  function NatToDecimal(n: nat): (r: string)
    ensures IsMinimalDigits(r)
    ensures DigitsValue(r) == n
    decreases n
  {
    if n < 10 then [DigitChar(n)]
    else
      var r := NatToDecimal(n / 10) + [DigitChar(n % 10)];
      assert r[..|r| - 1] == NatToDecimal(n / 10);
      r
  }

  /** The text of `%jd`: a leading minus for negative values, never a plus, no leading zeros. */
  function IntToDecimal(v: int): (r: string)
    ensures IsJsonInteger(r)
    ensures r[0] == '-' <==> v < 0
  {
    if v < 0 then
      var digits := NatToDecimal(-v);
      var r := "-" + digits;
      assert r[1..] == digits;
      r
    else NatToDecimal(v)
  }

  /** Reads an optionally negated digit string back into an integer. */
  function ParseInt(s: string): Option<int> {
    if |s| >= 2 && s[0] == '-' && AllDigits(s[1..]) then Some(0 - DigitsValue(s[1..]) as int)
    else if |s| >= 1 && AllDigits(s) then Some(DigitsValue(s))
    else None
  }

  /** Rendering an integer and reading it back gives the same integer. */
  lemma IntToDecimalRoundTrip(v: int)
    ensures ParseInt(IntToDecimal(v)) == Some(v)
  {
    var r := IntToDecimal(v);
    if v < 0 {
      assert r[1..] == NatToDecimal(-v);
    }
  }

  /** Two integers render the same only if they are equal. */
  lemma IntToDecimalInjective(v: int, w: int)
    requires IntToDecimal(v) == IntToDecimal(w)
    ensures v == w
  {
    IntToDecimalRoundTrip(v);
    IntToDecimalRoundTrip(w);
  }
}

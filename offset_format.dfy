/**
 * The position string the Kafka extractor writes into an event: `"offset:"`
 * followed by the message offset in Rust's `Display` form for `i64` (decimal,
 * a leading `-` for negative values, no leading zeros). A parser is given as
 * the inverse, so that the position provably identifies the offset it came from.
 */
module OffsetFormat {
  import opened Common

  const Prefix: string := "offset:"

  function DigitChar(d: nat): (c: char)
    requires d < 10
    ensures '0' <= c <= '9'
  {
    ('0' as int + d) as char
  }

  function CharDigit(c: char): (r: Option<nat>)
    ensures r.Some? <==> '0' <= c <= '9'
    ensures r.Some? ==> r.value < 10
  {
    if '0' <= c <= '9' then Some(c as int - '0' as int) else None
  }

  /** Decimal digits of `n`, most significant first. */
  function Digits(n: nat): (s: string)
    ensures |s| >= 1
    ensures forall i :: 0 <= i < |s| ==> '0' <= s[i] <= '9'
    ensures |s| > 1 ==> s[0] != '0'
  {
    if n < 10 then [DigitChar(n)] else Digits(n / 10) + [DigitChar(n % 10)]
  }

  /** `format!("{}", n)` for a signed integer. */
  function FormatInt(n: int): (s: string)
    ensures |s| >= 1
    ensures s[0] == '-' <==> n < 0
  {
    if n < 0 then "-" + Digits(-n) else Digits(n)
  }

  /** `format!("offset:{}", offset)`: the position stamped on an event. */
  function OffsetPosition(offset: i64): (s: string)
    ensures |s| > |Prefix| && s[..|Prefix|] == Prefix
  {
    Prefix + FormatInt(offset)
  }

  /** Reads a non-empty run of decimal digits. */
  function ParseDigits(s: string): (r: Option<nat>)
    decreases |s|
  {
    if |s| == 0 then None
    else
      match CharDigit(s[|s| - 1])
      case None => None
      case Some(d) =>
        if |s| == 1 then Some(d)
        else
          match ParseDigits(s[..|s| - 1])
          case None => None
          case Some(high) => Some(high * 10 + d)
  }

  /** Reads an optionally negative decimal integer. */
  function ParseInt(s: string): (r: Option<int>)
  {
    if |s| > 0 && s[0] == '-' then
      match ParseDigits(s[1..])
      case None => None
      case Some(n) => Some(0 - n as int)
    else ParseDigits(s)
  }

  /** Recovers the offset from a position string, if it has the `"offset:"` form. */
  function ParseOffsetPosition(s: string): (r: Option<int>)
  {
    if |s| >= |Prefix| && s[..|Prefix|] == Prefix then ParseInt(s[|Prefix|..]) else None
  }

  lemma {:induction false} DigitsRoundTrip(n: nat)
    ensures ParseDigits(Digits(n)) == Some(n)
  {
    if n >= 10 {
      var s := Digits(n);
      assert s == Digits(n / 10) + [DigitChar(n % 10)];
      assert s[..|s| - 1] == Digits(n / 10);
      DigitsRoundTrip(n / 10);
    }
  }

  lemma {:induction false} FormatIntRoundTrip(n: int)
    ensures ParseInt(FormatInt(n)) == Some(n)
  {
    if n < 0 {
      var digits := Digits(-n);
      DigitsRoundTrip(-n);
      assert ("-" + digits)[1..] == digits;
      assert ParseInt("-" + digits) == Some(n);
    } else {
      var digits := Digits(n);
      DigitsRoundTrip(n);
      assert '0' <= digits[0] <= '9';
      assert ParseInt(digits) == Some(n);
    }
  }

  /** Parsing a stamped position gives back the offset it was made from. */
  lemma {:induction false} OffsetPositionRoundTrip(offset: i64)
    ensures ParseOffsetPosition(OffsetPosition(offset)) == Some(offset)
  {
    var s := OffsetPosition(offset);
    assert s[|Prefix|..] == FormatInt(offset);
    FormatIntRoundTrip(offset);
  }

  /** Distinct offsets give distinct positions. */
  lemma OffsetPositionInjective(a: i64, b: i64)
    ensures OffsetPosition(a) == OffsetPosition(b) <==> a == b
  {
    OffsetPositionRoundTrip(a);
    OffsetPositionRoundTrip(b);
  }
}

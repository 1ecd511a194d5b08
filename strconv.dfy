/**
 * Integer <-> text conversions the plugin relies on: the decimal rendering of
 * fmt.Sprint for integers, strconv.ParseInt(s, 10, bitSize) for option values,
 * and Go's int32(...) conversion, which wraps around.
 */
module Strconv {
  import opened Wrappers

  /** The bitSize argument of strconv.ParseInt. */
  datatype BitSize = Bits32 | Bits64

  /** 2^(bitSize-1): the magnitude of the most negative value of that width. */
  function Cutoff(b: BitSize): int {
    match b
    case Bits32 => 0x8000_0000
    case Bits64 => 0x8000_0000_0000_0000
  }

  /** n is a value of a signed integer of that width. */
  predicate InRange(n: int, b: BitSize) {
    -Cutoff(b) <= n < Cutoff(b)
  }

  predicate IsDigit(c: char) {
    '0' <= c <= '9'
  }

  predicate AllDigits(s: string) {
    forall i :: 0 <= i < |s| ==> IsDigit(s[i])
  }

  function DigitValue(c: char): nat
    requires IsDigit(c)
  {
    c as int - '0' as int
  }

  function DigitChar(d: nat): (c: char)
    requires d < 10
    ensures IsDigit(c) && DigitValue(c) == d
  {
    ('0' as int + d) as char
  }

  /** The number a string of decimal digits denotes (most significant first). */
  function DigitsValue(s: string): nat
    requires AllDigits(s)
    decreases |s|
  {
    if s == [] then 0 else DigitsValue(s[..|s| - 1]) * 10 + DigitValue(s[|s| - 1])
  }

  /** Decimal digits of a natural number, without leading zeros. */
  function NatDecimal(n: nat): (s: string)
    ensures |s| > 0 && AllDigits(s)
    ensures s[0] == '0' ==> n == 0
    decreases n
  {
    if n < 10 then [DigitChar(n)] else NatDecimal(n / 10) + [DigitChar(n % 10)]
  }

  /** fmt.Sprint of an integer: its decimal digits, after a '-' when negative. */
  function Decimal(n: int): (s: string)
    ensures |s| > 0
    ensures AllDigits(s) <==> n >= 0
    ensures n < 0 ==> s[0] == '-' && AllDigits(s[1..])
  {
    if n < 0 then
      var s := "-" + NatDecimal(-n);
      assert !IsDigit(s[0]);
      s
    else NatDecimal(n)
  }

  /** The part of s after an optional leading sign. */
  function Unsigned(s: string): string {
    if s != [] && (s[0] == '+' || s[0] == '-') then s[1..] else s
  }

  /** The syntax strconv.ParseInt accepts in base 10: an optional sign, then at least one digit. */
  predicate IsNumeral(s: string) {
    s != [] && Unsigned(s) != [] && AllDigits(Unsigned(s))
  }

  /** The value a numeral denotes: its digits, negated after a '-'. */
  function NumeralValue(s: string): int
    requires IsNumeral(s)
  {
    if s[0] == '-' then -(DigitsValue(Unsigned(s)) as int) else DigitsValue(Unsigned(s))
  }

  /**
   * strconv.ParseInt(s, 10, bitSize): None is a non-nil error, either a
   * syntax error or a value outside the signed range of bitSize bits.
   */
  function ParseInt(s: string, b: BitSize): (r: Option<int>)
    ensures r.Some? ==> IsNumeral(s)
    ensures r.Some? ==> -Cutoff(b) <= r.value < Cutoff(b)
    ensures IsNumeral(s) ==> r == if InRange(NumeralValue(s), b) then Some(NumeralValue(s)) else None
  {
    if s == [] then None
    else
      var neg := s[0] == '-';
      var digits := Unsigned(s);
      if digits == [] || !AllDigits(digits) then None
      else
        var un := DigitsValue(digits);
        if !neg && un >= Cutoff(b) then None
        else if neg && un > Cutoff(b) then None
        else Some(if neg then -(un as int) else un)
  }

  /** Go's int32(v) for an int64 v: keep the low 32 bits, read as two's complement. */
  function Wrap32(v: int): (r: int)
    ensures -0x8000_0000 <= r < 0x8000_0000
    ensures (v - r) % 0x1_0000_0000 == 0
    ensures -0x8000_0000 <= v < 0x8000_0000 ==> r == v
  {
    (v + 0x8000_0000) % 0x1_0000_0000 - 0x8000_0000
  }

  lemma {:induction false} NatDecimalValue(n: nat)
    ensures DigitsValue(NatDecimal(n)) == n
    decreases n
  {
    if n >= 10 {
      NatDecimalValue(n / 10);
      var s := NatDecimal(n);
      assert s[..|s| - 1] == NatDecimal(n / 10);
    }
  }

  /** What fmt.Sprint prints for a value of the given width reads back with strconv.ParseInt. */
  lemma {:induction false} DecimalRoundTrip(n: int, b: BitSize)
    requires -Cutoff(b) <= n < Cutoff(b)
    ensures ParseInt(Decimal(n), b) == Some(n)
  {
    var s := Decimal(n);
    if n < 0 {
      NatDecimalValue(-n);
      assert Unsigned(s) == NatDecimal(-n);
    } else {
      NatDecimalValue(n);
      assert Unsigned(s) == s;
    }
  }

  /** One more digit at the end multiplies the value by ten and adds the digit. */
  lemma DigitsValueSnoc(s: string, c: char)
    requires AllDigits(s) && IsDigit(c)
    ensures AllDigits(s + [c]) && DigitsValue(s + [c]) == DigitsValue(s) * 10 + DigitValue(c)
  {
    assert (s + [c])[..|s|] == s;
  }

  /**
   * A '+' sign and leading zeros are accepted, "-0" is zero, and an empty
   * string, a lone sign or a stray character are errors.
   */
  lemma ParseIntExamples()
    ensures ParseInt("+5", Bits32) == Some(5)
    ensures ParseInt("007", Bits32) == Some(7)
    ensures ParseInt("-0", Bits64) == Some(0)
    ensures ParseInt("", Bits64) == None && ParseInt("-", Bits64) == None && ParseInt("1x", Bits64) == None
  {
    assert Unsigned("+5") == "5";
    assert Unsigned("007") == "007" && "007"[..2] == "00" && "00"[..1] == "0";
    assert Unsigned("-0") == "0";
    assert !IsDigit("1x"[1]);
  }

  /** At 32 bits strconv.ParseInt accepts what it accepts at 64 bits, when the value fits in 32 bits. */
  lemma ParseIntNarrow(s: string)
    ensures ParseInt(s, Bits32) ==
      if ParseInt(s, Bits64).Some? && InRange(ParseInt(s, Bits64).value, Bits32) then ParseInt(s, Bits64) else None
  {
  }
}

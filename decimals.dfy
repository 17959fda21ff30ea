/** `java.math.BigDecimal` as an unscaled integer and a scale. */
module Decimals {
  import opened Wrappers
  import opened Numbers

  /** The number `unscaled / 10^scale`, keeping the scale as BigDecimal does ("1.50" is not "1.5"). */
  datatype Decimal = Decimal(unscaled: int, scale: nat)

  /** `BigDecimal.ZERO`. */
  const ZERO := Decimal(0, 0)

  /** The exact value a Decimal denotes. */
  function ValueOf(d: Decimal): real {
    d.unscaled as real / Pow10(d.scale) as real
  }

  /** `BigDecimal.valueOf(n)`. */
  function FromLong(n: int): (d: Decimal)
    ensures ValueOf(d) == n as real
  {
    Decimal(n, 0)
  }

  /** `d.movePointLeft(n)` for a non-negative scale: same digits, scale raised by n. */
  function MovePointLeft(d: Decimal, n: nat): (r: Decimal)
    ensures r.unscaled == d.unscaled && r.scale == d.scale + n
  {
    Decimal(d.unscaled, d.scale + n)
  }

  /** The index of the first '.' in s, or |s| when there is none. */
  function DotIndex(s: string): (k: nat)
    ensures k <= |s|
    ensures forall i :: 0 <= i < k ==> s[i] != '.'
    ensures k < |s| ==> s[k] == '.'
  {
    if s == [] then 0 else if s[0] == '.' then 0 else 1 + DotIndex(s[1..])
  }

  /** Unsigned plain notation: digits, optionally one '.', more digits, at least one digit in all. */
  function ParseUnsigned(s: string): Option<Decimal> {
    var k := DotIndex(s);
    var whole := s[..k];
    var fraction := if k < |s| then s[k + 1..] else "";
    if AllDigits(whole) && AllDigits(fraction) && |whole| + |fraction| > 0 then
      Some(Decimal(DigitsValue(whole + fraction), |fraction|))
    else
      None
  }

  /**
   * `new BigDecimal(s)`, with `None` where the constructor throws
   * NumberFormatException. An optional sign, then plain notation; the
   * exponent form ("1E+3") is not part of this model and reads as unparseable.
   */
  function Parse(s: string): Option<Decimal> {
    if |s| > 0 && (s[0] == '-' || s[0] == '+') then
      match ParseUnsigned(s[1..])
      case Some(d) => Some(if s[0] == '-' then Decimal(-d.unscaled, d.scale) else d)
      case None => None
    else
      ParseUnsigned(s)
  }

  lemma {:induction false} DotIndexOfDigits(s: string)
    requires AllDigits(s)
    ensures DotIndex(s) == |s|
  {
    if s != [] {
      DotIndexOfDigits(s[1..]);
    }
  }

  /** What `String.valueOf(long)` writes, `new BigDecimal(String)` reads back with scale 0. */
  lemma ParseIntToString(n: int)
    ensures Parse(IntToString(n)) == Some(Decimal(n, 0))
  {
    var m: nat := if n < 0 then -n else n;
    var digits := NatToString(m);
    NatToStringRoundTrip(m);
    ParseUnsignedDigits(digits);
    if n < 0 {
      assert IntToString(n) == "-" + digits;
      assert ("-" + digits)[1..] == digits;
    } else {
      assert IntToString(n) == digits;
      assert IsDigit(digits[0]);
    }
  }

  /** A run of digits is a whole number with scale 0. */
  lemma ParseUnsignedDigits(digits: string)
    requires |digits| >= 1 && AllDigits(digits)
    ensures ParseUnsigned(digits) == Some(Decimal(DigitsValue(digits), 0))
  {
    DotIndexOfDigits(digits);
    assert digits[..|digits|] == digits;
    assert digits + "" == digits;
  }
}

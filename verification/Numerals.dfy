/** Decimal and hexadecimal text of machine integers, with their inverses. */
module Numerals {
  import opened Common

  /** One more than the largest 64-bit unsigned value. */
  const U64_LIMIT: nat := 0x1_0000_0000_0000_0000

  const DIGITS: string := "0123456789abcdef"

  /** Decimal text without padding. */
  function Decimal(n: nat): (s: string) {
    if n < 10 then [DIGITS[n]] else Decimal(n / 10) + [DIGITS[n % 10]]
  }

  predicate IsDigit(c: char) {
    '0' <= c <= '9'
  }

  function DigitsValue(s: string): Option<nat> {
    if s == [] then Some(0)
    else
      match DigitsValue(s[..|s| - 1])
      case None => None
      case Some(high) =>
        var c := s[|s| - 1];
        if IsDigit(c) then Some(10 * high + (c as int - '0' as int)) else None
  }

  /** Unsigned 64-bit parse: an optional plus sign, at least one digit, no overflow. */
  function ParseU64(s: string): Option<nat> {
    var digits := if s != [] && s[0] == '+' then s[1..] else s;
    if digits == [] then None
    else
      match DigitsValue(digits)
      case None => None
      case Some(value) => if value < U64_LIMIT then Some(value) else None
  }

  lemma {:induction false} DecimalValue(n: nat)
    ensures Decimal(n) != [] && IsDigit(Decimal(n)[0])
    ensures DigitsValue(Decimal(n)) == Some(n)
  {
    var s := Decimal(n);
    if n < 10 {
      assert s[..|s| - 1] == [];
    } else {
      DecimalValue(n / 10);
      assert s[..|s| - 1] == Decimal(n / 10);
    }
  }

  /** Parsing undoes printing for every 64-bit value, and printing is injective. */
  lemma ParseDecimal(n: nat)
    requires n < U64_LIMIT
    ensures ParseU64(Decimal(n)) == Some(n)
  {
    DecimalValue(n);
  }

  lemma DecimalInjective(a: nat, b: nat)
    requires Decimal(a) == Decimal(b)
    ensures a == b
  {
    DecimalValue(a);
    DecimalValue(b);
  }

  /** Lower-case hexadecimal text with exactly `width` digits. */
  function Hex(n: nat, width: nat): (s: string)
    ensures |s| == width
  {
    if width == 0 then [] else Hex(n / 16, width - 1) + [DIGITS[n % 16]]
  }

  function Pow16(width: nat): nat {
    if width == 0 then 1 else 16 * Pow16(width - 1)
  }

  lemma {:induction false} HexInjective(a: nat, b: nat, width: nat)
    requires a < Pow16(width) && b < Pow16(width)
    requires Hex(a, width) == Hex(b, width)
    ensures a == b
  {
    if width > 0 {
      var s, t := Hex(a, width), Hex(b, width);
      assert s[..width - 1] == Hex(a / 16, width - 1) && t[..width - 1] == Hex(b / 16, width - 1);
      assert s[width - 1] == DIGITS[a % 16] && t[width - 1] == DIGITS[b % 16];
      HexInjective(a / 16, b / 16, width - 1);
    }
  }
}

/**
 * Fixed-width integers and decimal text: C# `int` (32-bit), Swift `Int` (64-bit),
 * decimal rendering of Swift string interpolation and .NET `int.TryParse`.
 */
module Numbers {
  import opened Wrappers

  const INT32_MIN: int := -0x8000_0000
  const INT32_MAX: int := 0x7FFF_FFFF
  const INT64_MIN: int := -0x8000_0000_0000_0000
  const INT64_MAX: int := 0x7FFF_FFFF_FFFF_FFFF

  predicate IsInt32(x: int) { INT32_MIN <= x <= INT32_MAX }
  predicate IsInt64(x: int) { INT64_MIN <= x <= INT64_MAX }

  /** The values of a C# `int`. */
  type Int32 = x: int | IsInt32(x)

  /**
   * Two's-complement truncation to 32 bits: a C# `(int)` cast of a wider value,
   * and `x + 1` / `x - 1` on an `int` in the default unchecked context.
   */
  function Wrap32(x: int): (r: Int32)
    ensures (r - x) % 0x1_0000_0000 == 0
    ensures IsInt32(x) ==> r == x
  {
    var m := x % 0x1_0000_0000;
    if m <= INT32_MAX then m else m - 0x1_0000_0000
  }

  /** Wrapping depends only on the value modulo 2^32: congruent values wrap to the same `int`. */
  lemma Wrap32Congruent(x: int, y: Int32)
    requires (x - y) % 0x1_0000_0000 == 0
    ensures Wrap32(x) == y
  {
    var d := Wrap32(x) - y;
    assert d % 0x1_0000_0000 == 0 by {
      assert d == (Wrap32(x) - x) + (x - y);
    }
    assert IsInt32(Wrap32(x)) && IsInt32(y);
    SmallMultipleIsZero(d);
  }

  lemma SmallMultipleIsZero(d: int)
    requires -0x1_0000_0000 < d < 0x1_0000_0000 && d % 0x1_0000_0000 == 0
    ensures d == 0
  {
  }

  /** Adding or subtracting one always changes an `int`, even when it wraps. */
  lemma Wrap32Moves(x: Int32, d: int)
    requires d == 1 || d == -1
    ensures Wrap32(x + d) != x
  {
  }

  // ---------------------------------------------------------------- rendering

  predicate IsDigit(c: char) { '0' <= c <= '9' }

  predicate AllDigits(s: string) { forall i :: 0 <= i < |s| ==> IsDigit(s[i]) }

  function DigitChar(d: nat): (c: char)
    requires d < 10
    ensures IsDigit(c)
  {
    (('0' as int) + d) as char
  }

  /** Decimal digits of a natural number, most significant first, no leading zeros. */
  function NatToString(n: nat): (s: string)
    ensures |s| >= 1 && AllDigits(s)
  {
    if n < 10 then [DigitChar(n)] else NatToString(n / 10) + [DigitChar(n % 10)]
  }

  /** Decimal rendering of an integer, with a leading '-' for negatives (Swift `"\(n)"`). */
  function IntToString(n: int): (s: string)
    ensures |s| >= 1
    ensures forall i :: 0 <= i < |s| ==> IsDigit(s[i]) || s[i] == '-'
    ensures IsDigit(s[|s| - 1])
  {
    if n < 0 then "-" + NatToString(-n) else NatToString(n)
  }

  // ------------------------------------------------------------------ parsing

  /** The characters .NET number parsing skips as leading and trailing white space. */
  predicate IsWhite(c: char) {
    c == ' ' || c == '\t' || c == '\n' || c == '\U{B}' || c == '\U{C}' || c == '\r'
  }

  function TrimStart(s: string): (r: string)
    ensures |r| <= |s|
    ensures |r| > 0 ==> !IsWhite(r[0])
  {
    if |s| > 0 && IsWhite(s[0]) then TrimStart(s[1..]) else s
  }

  function TrimEnd(s: string): (r: string)
    ensures |r| <= |s|
    ensures |r| > 0 ==> !IsWhite(r[|r| - 1])
  {
    if |s| > 0 && IsWhite(s[|s| - 1]) then TrimEnd(s[..|s| - 1]) else s
  }

  /** Value of a string of decimal digits (leading zeros allowed). */
  function DigitsValue(s: string): nat
    requires AllDigits(s)
  {
    if s == [] then 0
    else DigitsValue(s[..|s| - 1]) * 10 + ((s[|s| - 1] as int) - ('0' as int))
  }

  /**
   * .NET `int.TryParse(s, out v)` with the default NumberStyles.Integer:
   * optional leading and trailing white space, an optional '+' or '-' sign,
   * one or more decimal digits, and a value inside the Int32 range.
   */
  function TryParseInt32(s: string): (r: Option<int>)
    ensures r.Some? ==> IsInt32(r.value)
  {
    var t := TrimEnd(TrimStart(s));
    var negative := |t| > 0 && t[0] == '-';
    var digits := if |t| > 0 && (t[0] == '-' || t[0] == '+') then t[1..] else t;
    if |digits| == 0 || !AllDigits(digits) then None
    else
      var magnitude: int := DigitsValue(digits);
      var v := if negative then 0 - magnitude else magnitude;
      if IsInt32(v) then Some(v) else None
  }

  // ------------------------------------------------------------------- lemmas

  lemma {:induction false} DigitsValueOfNatToString(n: nat)
    ensures DigitsValue(NatToString(n)) == n
  {
    if n >= 10 {
      var s := NatToString(n / 10) + [DigitChar(n % 10)];
      assert s[..|s| - 1] == NatToString(n / 10);
      DigitsValueOfNatToString(n / 10);
    }
  }

  /**
   * Parsing a rendered integer gives it back exactly when it fits a C# `int`,
   * and fails otherwise.
   */
  lemma ParseRenderedInt(n: int)
    ensures TryParseInt32(IntToString(n)) == if IsInt32(n) then Some(n) else None
  {
    var s := IntToString(n);
    TrimRendered(s);
    if n < 0 {
      ParseNegative(n);
    } else {
      ParseNonNegative(n);
    }
  }

  /** A rendering starts with '-' or a digit and ends with a digit, so trimming keeps it whole. */
  lemma TrimRendered(s: string)
    requires |s| >= 1 && !IsWhite(s[0]) && IsDigit(s[|s| - 1])
    ensures TrimEnd(TrimStart(s)) == s
  {
    assert TrimStart(s) == s;
  }

  lemma ParseNegative(n: int)
    requires n < 0
    ensures TryParseInt32("-" + NatToString(-n)) == if IsInt32(n) then Some(n) else None
  {
    var digits := NatToString(-n);
    var s := "-" + digits;
    assert s[0] == '-' && s[1..] == digits;
    TrimRendered(s);
    DigitsValueOfNatToString(-n);
    assert DigitsValue(digits) == -n;
  }

  lemma ParseNonNegative(n: int)
    requires n >= 0
    ensures TryParseInt32(NatToString(n)) == if IsInt32(n) then Some(n) else None
  {
    var s := NatToString(n);
    TrimRendered(s);
    assert s[0] != '-' && s[0] != '+';
    DigitsValueOfNatToString(n);
  }

  /** A counter that is not a number is refused. */
  lemma NonNumericRefused()
    ensures TryParseInt32("abc") == None
    ensures TryParseInt32("") == None
    ensures TryParseInt32("-") == None
  {
    assert !IsDigit('a');
  }

  /** Two values joined with ',' are not an integer. */
  lemma CommaRefused()
    ensures TryParseInt32("1,2") == None
  {
    assert !IsDigit(',');
    assert TrimEnd(TrimStart("1,2")) == "1,2";
  }
}

/**
 * Decimal text of 64-bit integers as Swift's standard library handles it:
 * `Int64(_ text: String)` (an optional `+` or `-`, then one or more ASCII
 * digits, and the value must fit in 64 bits) and string interpolation
 * `"\(n)"` (an optional `-`, then the digits without leading zeros).
 */
module Decimal {
  import opened Wrappers

  const INT64_MIN: int := -0x8000_0000_0000_0000
  const INT64_MAX: int := 0x7FFF_FFFF_FFFF_FFFF

  predicate InInt64(n: int) {
    INT64_MIN <= n <= INT64_MAX
  }

  /** Swift's `Int64`, which is also `Int` on the 64-bit platforms the app runs on. */
  type Int64 = n: int | InInt64(n)

  predicate IsDigit(c: char) {
    '0' <= c <= '9'
  }

  predicate AllDigits(s: string) {
    forall i :: 0 <= i < |s| ==> IsDigit(s[i])
  }

  function DigitValue(c: char): (d: nat)
    requires IsDigit(c)
    ensures d < 10
  {
    c as int - '0' as int
  }

  function DigitChar(d: nat): (c: char)
    requires d < 10
    ensures IsDigit(c) && DigitValue(c) == d
  {
    ('0' as int + d) as char
  }

  /** The value of a non-empty run of ASCII digits, most significant first. */
  function ParseDigits(s: string): (r: Option<nat>)
    ensures r.Some? <==> |s| > 0 && AllDigits(s)
    decreases |s|
  {
    if |s| == 0 || !IsDigit(s[|s| - 1]) then None
    else if |s| == 1 then Some(DigitValue(s[0]))
    else
      match ParseDigits(s[..|s| - 1])
      case None => None
      case Some(v) => Some(10 * v + DigitValue(s[|s| - 1]))
  }

  /** `Int64(text)`: None for anything but a sign and digits, or for a value outside 64 bits. */
  function ParseInt64(s: string): (r: Option<Int64>)
    ensures r.Some? ==> |s| > 0
    ensures r.Some? && r.value < 0 ==> s[0] == '-'
    ensures r.Some? && s[0] == '-' ==> r.value <= 0
  {
    var signed := |s| > 0 && (s[0] == '+' || s[0] == '-');
    var digits := if signed then s[1..] else s;
    match ParseDigits(digits)
    case None => None
    case Some(v) =>
      var n: int := if signed && s[0] == '-' then 0 - v as int else v;
      if InInt64(n) then Some(n) else None
  }

  /** The digits `"\(n)"` prints for a non-negative n. */
  function DecimalDigits(n: nat): (s: string)
    ensures |s| > 0 && AllDigits(s)
    decreases n
  {
    if n < 10 then [DigitChar(n)] else DecimalDigits(n / 10) + [DigitChar(n % 10)]
  }

  /** `"\(n)"` for an integer n. */
  function Show(n: int): (s: string)
    ensures |s| > 0
    ensures s[0] == '-' <==> n < 0
    ensures forall i :: 0 < i < |s| ==> IsDigit(s[i])
  {
    if n < 0 then "-" + DecimalDigits(-n) else DecimalDigits(n)
  }

  lemma {:induction false} ParseDecimalDigits(n: nat)
    ensures ParseDigits(DecimalDigits(n)) == Some(n)
    decreases n
  {
    if n >= 10 {
      var s := DecimalDigits(n);
      assert s[..|s| - 1] == DecimalDigits(n / 10);
      ParseDecimalDigits(n / 10);
    }
  }

  /** What `"\(n)"` prints, `Int64(_:)` reads back. */
  lemma ParseShow(n: Int64)
    ensures ParseInt64(Show(n)) == Some(n)
  {
    var m: int := n;
    if m < 0 {
      assert Show(m)[1..] == DecimalDigits(-m);
      ParseDecimalDigits(-m);
    } else {
      assert IsDigit(Show(n)[0]);
      ParseDecimalDigits(n);
    }
  }

  /**
   * `Int64(_:)` accepts no more than an optional sign followed by at least
   * one digit: no blanks, no empty digit run, no other characters.
   */
  lemma ParseInt64Shape(s: string)
    requires ParseInt64(s).Some?
    ensures |s| > 0
    ensures s[0] == '+' || s[0] == '-' || IsDigit(s[0])
    ensures (s[0] == '+' || s[0] == '-') ==> |s| > 1
    ensures forall i :: 0 < i < |s| ==> IsDigit(s[i])
  {
  }

  /** A value that does not fit in 64 bits is refused rather than wrapped or clamped. */
  lemma ParseInt64RefusesOverflow(n: int)
    requires !InInt64(n)
    ensures ParseInt64(Show(n)) == None
  {
    if n < 0 {
      assert Show(n)[1..] == DecimalDigits(-n);
      ParseDecimalDigits(-n);
    } else {
      assert IsDigit(Show(n)[0]);
      ParseDecimalDigits(n);
    }
  }

  /** Unsigned digits are read as their value whenever it fits in 64 bits, leading zeros and all. */
  lemma ParseUnsignedDigits(digits: string)
    requires |digits| > 0 && AllDigits(digits)
    requires ParseDigits(digits).value <= INT64_MAX
    ensures ParseInt64(digits) == Some(ParseDigits(digits).value)
  {
    assert IsDigit(digits[0]);
  }

  /** A signed digit run is read as its value with that sign, leading zeros and all, when it fits in 64 bits. */
  lemma SignedDigits(sign: char, digits: string, v: nat)
    requires sign == '+' || sign == '-'
    requires ParseDigits(digits) == Some(v)
    ensures ParseInt64([sign] + digits) ==
            var n: int := if sign == '-' then 0 - v else v;
            if InInt64(n) then Some(n) else None
  {
    assert ([sign] + digits)[1..] == digits;
  }

  /** An unsigned digit run whose value exceeds `Int64.max` is refused, whatever its leading zeros. */
  lemma UnsignedOverflow(digits: string)
    requires |digits| > 0 && AllDigits(digits)
    requires ParseDigits(digits).value > INT64_MAX
    ensures ParseInt64(digits) == None
  {
    assert IsDigit(digits[0]);
  }

  lemma ParseInt64Examples()
    ensures ParseInt64("") == None
    ensures ParseInt64("+") == None
    ensures ParseInt64("-") == None
    ensures ParseInt64(" 1") == None
    ensures ParseInt64("1 ") == None
    ensures ParseInt64("*") == None
    ensures ParseInt64("+7") == Some(7)
    ensures ParseInt64("-12") == Some(-12)
    ensures ParseInt64("007") == Some(7)
  {
    assert ParseDigits("1") == Some(1);
    assert ParseDigits("12") == Some(12);
    assert ParseDigits("0") == Some(0);
    assert ParseDigits("00") == Some(0);
    assert "007"[..2] == "00";
    assert ParseDigits("007") == Some(7);
  }
}

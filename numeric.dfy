/**
  Fixed-width integers of the host language, the casts between them, its
  truncating division, and the decimal rendering of `std::to_string`.
 */
module Numeric {
  import opened Wrappers

  const TWO_31: int := 0x8000_0000
  const TWO_32: int := 0x1_0000_0000
  const TWO_63: int := 0x8000_0000_0000_0000
  const TWO_64: int := 0x1_0000_0000_0000_0000

  type int32 = x: int | -0x8000_0000 <= x < 0x8000_0000
  type uint32 = x: int | 0 <= x < 0x1_0000_0000
  type int64 = x: int | -0x8000_0000_0000_0000 <= x < 0x8000_0000_0000_0000
  type uint64 = x: int | 0 <= x < 0x1_0000_0000_0000_0000

  /** `static_cast<uint32_t>` of a count: reduction modulo 2^32. */
  function ToUInt32(n: nat): (r: uint32)
    ensures n < TWO_32 ==> r == n
  {
    n % TWO_32
  }

  /** `static_cast<int32_t>` of a count (two's complement wrap-around). */
  function ToInt32(n: nat): (r: int32)
    ensures n < TWO_31 ==> r == n
    ensures r < 0 ==> n >= TWO_31
  {
    var m := n % TWO_32;
    if m < TWO_31 then m else m - TWO_32
  }

  /** `static_cast<uint64_t>` of a signed value: reduction modulo 2^64. */
  function ToUInt64(i: int): (r: uint64)
  {
    i % TWO_64
  }

  /** Implicit conversion of a `uint64_t` to `int64_t` (two's complement). */
  function ToInt64(u: uint64): (r: int64)
  {
    if u < TWO_63 then u else u - TWO_64
  }

  lemma UInt64RoundTrip(u: uint64)
    ensures ToUInt64(ToInt64(u)) == u
  {
    if u >= TWO_63 {
      assert ToInt64(u) + TWO_64 == u;
    }
  }

  lemma Int64RoundTrip(i: int64)
    ensures ToInt64(ToUInt64(i)) == i
  {
    if i < 0 {
      assert ToUInt64(i) == i + TWO_64;
    }
  }

  /** `a / 1000` as the host language divides: the quotient is truncated toward zero. */
  function Quot1000(a: int): (q: int)
    ensures a >= 0 ==> 0 <= q * 1000 <= a < q * 1000 + 1000
    ensures a < 0 ==> q * 1000 - 1000 < a <= q * 1000 <= 0
  {
    if a >= 0 then a / 1000 else -((-a) / 1000)
  }

  predicate IsDigit(c: char) {
    '0' <= c <= '9'
  }

  function Digit(d: nat): (c: char)
    requires d < 10
    ensures IsDigit(c) && c as int - '0' as int == d
  {
    ('0' as int + d) as char
  }

  /** The decimal digits of a natural number, without leading zeros. */
  function NatDigits(n: nat): (s: string)
    decreases n
  {
    if n < 10 then [Digit(n)] else NatDigits(n / 10) + [Digit(n % 10)]
  }

  /**
    `std::to_string` of an integer: a non-negative one is a canonical decimal
    that parses back to it; a negative one is a minus sign followed by the
    canonical decimal of its magnitude.
   */
  function ToDecimal(i: int): (s: string)
    ensures i >= 0 ==> ParseIndex(s) == Some(i)
    ensures i < 0 ==> |s| >= 2 && s[0] == '-' && ParseIndex(s[1..]) == Some(-i)
  {
    var n: nat := if i < 0 then -i else i;
    NatDigitsShape(n);
    if i < 0 then
      assert ("-" + NatDigits(n))[1..] == NatDigits(n);
      "-" + NatDigits(n)
    else NatDigits(n)
  }

  /** The value of a string of decimal digits (most significant first). */
  function DigitsValue(s: string): nat
    requires forall k :: 0 <= k < |s| ==> IsDigit(s[k])
  {
    if |s| == 0 then 0
    else
      assert IsDigit(s[|s| - 1]);
      DigitsValue(s[..|s| - 1]) * 10 + (s[|s| - 1] as int - '0' as int)
  }

  /** A canonical decimal: digits only, non-empty, and no leading zero except "0" itself. */
  predicate IsCanonicalDecimal(s: string) {
    && |s| > 0
    && (forall k :: 0 <= k < |s| ==> IsDigit(s[k]))
    && (s[0] == '0' ==> |s| == 1)
  }

  /** The index a property name denotes, if it is the decimal rendering of a natural number. */
  function ParseIndex(s: string): (r: Option<nat>)
  {
    if IsCanonicalDecimal(s) then Some(DigitsValue(s)) else None
  }

  lemma {:induction false} NatDigitsShape(n: nat)
    ensures |NatDigits(n)| > 0
    ensures forall k :: 0 <= k < |NatDigits(n)| ==> IsDigit(NatDigits(n)[k])
    ensures n > 0 ==> NatDigits(n)[0] != '0'
    ensures DigitsValue(NatDigits(n)) == n
    decreases n
  {
    if n >= 10 {
      NatDigitsShape(n / 10);
      var p := NatDigits(n / 10);
      var s := NatDigits(n);
      assert s == p + [Digit(n % 10)];
      assert s[..|s| - 1] == p;
      assert s[0] == p[0];
    }
  }

  lemma {:induction false} LeadingDigitPositive(s: string)
    requires |s| > 0 && forall k :: 0 <= k < |s| ==> IsDigit(s[k])
    requires s[0] != '0'
    ensures DigitsValue(s) >= 1
  {
    if |s| > 1 {
      LeadingDigitPositive(s[..|s| - 1]);
    }
  }

  /** Every canonical decimal is the rendering of the index it denotes. */
  lemma {:induction false} ToDecimalOfParse(s: string)
    requires ParseIndex(s).Some?
    ensures ToDecimal(ParseIndex(s).value) == s
    decreases |s|
  {
    var n := DigitsValue(s);
    if |s| == 1 {
      assert s[..0] == [] && s[|s| - 1] == s[0];
      assert DigitsValue(s) == DigitsValue(s[..0]) * 10 + (s[0] as int - '0' as int);
      assert n == s[0] as int - '0' as int;
    } else {
      var p := s[..|s| - 1];
      assert p[0] == s[0];
      assert ParseIndex(p).Some?;
      ToDecimalOfParse(p);
      LeadingDigitPositive(p);
      var d := s[|s| - 1] as int - '0' as int;
      assert n == DigitsValue(p) * 10 + d;
      assert n / 10 == DigitsValue(p) && n % 10 == d;
      assert Digit(d) == s[|s| - 1];
      assert s == p + [s[|s| - 1]];
    }
  }

  /** Only zero renders as "0". */
  lemma DecimalZero(i: int)
    ensures ToDecimal(i) == "0" <==> i == 0
  {
    if i < 0 {
      NatDigitsShape(-i);
      assert |ToDecimal(i)| >= 2;
    } else if i > 0 {
      NatDigitsShape(i);
      assert ToDecimal(i)[0] != '0';
    }
  }
}

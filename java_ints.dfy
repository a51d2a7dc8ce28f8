/** Java's fixed-width integers and their decimal text form:
    Integer.parseInt, Long.toString and Number.intValue. */
module JavaInts {
  import opened Results

  const INT_MIN: int := -0x8000_0000
  const INT_MAX: int := 0x7FFF_FFFF
  const LONG_MIN: int := -0x8000_0000_0000_0000
  const LONG_MAX: int := 0x7FFF_FFFF_FFFF_FFFF

  predicate IsInt(n: int) { INT_MIN <= n <= INT_MAX }
  predicate IsLong(n: int) { LONG_MIN <= n <= LONG_MAX }

  /** Narrowing to 32 bits (two's complement), as Long.intValue does. */
  function ToInt(n: int): (r: int)
    ensures IsInt(r)
    ensures (r - n) % 0x1_0000_0000 == 0
    ensures IsInt(n) ==> r == n
  {
    var low := n % 0x1_0000_0000;
    if low <= INT_MAX then low else low - 0x1_0000_0000
  }

  /** Double.intValue and Float.intValue of a finite value, the narrowing (int) cast: the
      fraction is dropped toward zero, and a value beyond the int range gives the nearer
      bound. */
  function DoubleToInt(x: real): (r: int)
    ensures IsInt(r)
    ensures x >= INT_MAX as real ==> r == INT_MAX
    ensures x <= INT_MIN as real ==> r == INT_MIN
    ensures INT_MIN as real < x < INT_MAX as real && x >= 0.0 ==> r as real <= x < r as real + 1.0
    ensures INT_MIN as real < x < INT_MAX as real && x < 0.0 ==> r as real - 1.0 < x <= r as real
  {
    var t := if x >= 0.0 then x.Floor else 0 - (0.0 - x).Floor;
    if t < INT_MIN then INT_MIN else if t > INT_MAX then INT_MAX else t
  }

  /** AtomicLong.incrementAndGet: adds one, wrapping from LONG_MAX to LONG_MIN. */
  function IncLong(n: int): (r: int)
    requires IsLong(n)
    ensures IsLong(r)
    ensures n < LONG_MAX ==> r == n + 1
    ensures n == LONG_MAX ==> r == LONG_MIN
  {
    if n == LONG_MAX then LONG_MIN else n + 1
  }

  predicate IsDigit(c: char) { '0' <= c <= '9' }

  predicate AllDigits(s: string) { forall i :: 0 <= i < |s| ==> IsDigit(s[i]) }

  function DigitChar(d: nat): (c: char)
    requires d < 10
    ensures IsDigit(c)
  {
    ['0', '1', '2', '3', '4', '5', '6', '7', '8', '9'][d]
  }

  function DigitValue(c: char): nat
    requires IsDigit(c)
  {
    c as int - '0' as int
  }

  lemma DigitRoundTrip(d: nat)
    requires d < 10
    ensures DigitValue(DigitChar(d)) == d
  {
    var ds := ['0', '1', '2', '3', '4', '5', '6', '7', '8', '9'];
    assert DigitChar(d) == ds[d];
  }

  /** The value of a string of decimal digits, read left to right. */
  function DigitsValue(s: string): nat
    requires AllDigits(s)
  {
    if s == [] then 0
    else DigitsValue(s[..|s| - 1]) * 10 + DigitValue(s[|s| - 1])
  }

  /** The shortest decimal digits of n. */
  function Digits(n: nat): (s: string)
    ensures |s| > 0 && AllDigits(s)
    decreases n
  {
    if n < 10 then [DigitChar(n)] else Digits(n / 10) + [DigitChar(n % 10)]
  }

  /** Long.toString / Integer.toString: an optional minus sign, then the digits. */
  function Show(n: int): string
  {
    if n < 0 then "-" + Digits(-n) else Digits(n)
  }

  /** Integer.parseInt (and, with Long bounds, Long.parseLong) restricted to ASCII digits:
      an optional sign, at least one digit, and a value within [lo, hi];
      anything else is a NumberFormatException, here None. */
  function ParseDecimal(s: string, lo: int, hi: int): (r: Option<int>)
    ensures r.Some? ==> lo <= r.value <= hi
  {
    if |s| == 0 then None
    else
      var negative := s[0] == '-';
      var start := if s[0] == '-' || s[0] == '+' then 1 else 0;
      var digits := s[start..];
      if digits == [] || !AllDigits(digits) then None
      else
        var v: int := if negative then 0 - DigitsValue(digits) else DigitsValue(digits);
        if lo <= v <= hi then Some(v) else None
  }

  function ParseInt(s: string): (r: Option<int>)
    ensures r.Some? ==> IsInt(r.value)
  {
    ParseDecimal(s, INT_MIN, INT_MAX)
  }

  function ParseLong(s: string): (r: Option<int>)
    ensures r.Some? ==> IsLong(r.value)
  {
    ParseDecimal(s, LONG_MIN, LONG_MAX)
  }

  lemma {:induction false} DigitsRoundTrip(n: nat)
    ensures DigitsValue(Digits(n)) == n
    decreases n
  {
    if n < 10 {
      DigitRoundTrip(n);
    } else {
      var s := Digits(n);
      DigitsRoundTrip(n / 10);
      DigitRoundTrip(n % 10);
      assert s[..|s| - 1] == Digits(n / 10);
      assert s[|s| - 1] == DigitChar(n % 10);
    }
  }

  lemma ParseNegative(d: string, lo: int, hi: int)
    requires |d| > 0 && AllDigits(d) && lo <= 0 - DigitsValue(d) <= hi
    ensures ParseDecimal("-" + d, lo, hi) == Some(0 - DigitsValue(d))
  {
    var s := "-" + d;
    assert s[0] == '-';
    assert s[1..] == d;
  }

  lemma ParseUnsigned(d: string, lo: int, hi: int)
    requires |d| > 0 && AllDigits(d) && lo <= DigitsValue(d) <= hi
    ensures ParseDecimal(d, lo, hi) == Some(DigitsValue(d))
  {
    assert IsDigit(d[0]);
    assert d[0..] == d;
  }

  /** Parsing what Show prints gives the number back, for every number in range. */
  lemma ParseShowRoundTrip(n: int, lo: int, hi: int)
    requires lo <= n <= hi
    ensures ParseDecimal(Show(n), lo, hi) == Some(n)
  {
    if n < 0 {
      DigitsRoundTrip(-n);
      ParseNegative(Digits(-n), lo, hi);
    } else {
      DigitsRoundTrip(n);
      ParseUnsigned(Digits(n), lo, hi);
    }
  }

  lemma ParseIntShow(n: int)
    requires IsInt(n)
    ensures ParseInt(Show(n)) == Some(n)
  {
    ParseShowRoundTrip(n, INT_MIN, INT_MAX);
  }

  lemma ParseLongShow(n: int)
    requires IsLong(n)
    ensures ParseLong(Show(n)) == Some(n)
  {
    ParseShowRoundTrip(n, LONG_MIN, LONG_MAX);
  }
}

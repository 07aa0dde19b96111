/** Go's `strconv.Itoa` and `strconv.Atoi` for the 64-bit `int` of the service. */
module Strconv {
  import opened Outcomes

  const MinInt64: int := -0x8000_0000_0000_0000
  const MaxInt64: int := 0x7FFF_FFFF_FFFF_FFFF
  const MaxUint64: int := 0xFFFF_FFFF_FFFF_FFFF

  /** Go's `int` on a 64-bit platform. */
  type Int64 = x: int | MinInt64 <= x <= MaxInt64

  predicate IsDigit(c: char) {
    '0' <= c <= '9'
  }

  predicate AllDigits(s: string) {
    forall i | 0 <= i < |s| :: IsDigit(s[i])
  }

  function DigitValue(c: char): nat
    requires IsDigit(c)
  {
    c as int - '0' as int
  }

  function DigitChar(d: nat): (c: char)
    requires d < 10
    ensures IsDigit(c) && DigitValue(c) == d
  {
    ('0' as int + d) as char
  }

  /** The decimal digits of `n`, most significant first, without leading zeros. */
  function DecimalDigits(n: nat): (s: string)
    ensures |s| > 0 && AllDigits(s)
    decreases n
  {
    if n < 10 then [DigitChar(n)] else DecimalDigits(n / 10) + [DigitChar(n % 10)]
  }

  /** The number a string of decimal digits denotes. */
  function DecimalValue(s: string): nat
    requires AllDigits(s)
  {
    if s == [] then 0 else DecimalValue(s[..|s| - 1]) * 10 + DigitValue(s[|s| - 1])
  }

  /** `strconv.Itoa`: a minus sign for negative numbers, then the decimal digits. */
  function Itoa(n: int): (r: string)
    ensures |r| > 0 && (r[0] == '-' <==> n < 0)
    ensures AllDigits(if n < 0 then r[1..] else r)
  {
    if n < 0 then "-" + DecimalDigits(-n) else DecimalDigits(n)
  }

  /**
   * The syntax `strconv.Atoi` accepts: an optional `+` or `-`, then one or more ASCII
   * digits and nothing else. The value is not yet range-checked.
   */
  function ParseDecimal(s: string): (r: Option<int>)
    ensures r.Some? <==> |Unsigned(s)| > 0 && AllDigits(Unsigned(s))
    ensures r.Some? && r.value < 0 ==> s[0] == '-'
    ensures r.Some? ==> r.value == if s[0] == '-' then -(DecimalValue(Unsigned(s)) as int) else DecimalValue(Unsigned(s))
    ensures |s| > 0 && AllDigits(s) ==> r == Some(DecimalValue(s))
  {
    if |s| == 0 then None
    else
      var body := if s[0] == '+' || s[0] == '-' then s[1..] else s;
      if |body| == 0 || !AllDigits(body) then None
      else
        var magnitude: int := DecimalValue(body);
        Some(if s[0] == '-' then -magnitude else magnitude)
  }

  /** `strconv.Atoi`: fails on a syntax error and on a value outside the 64-bit range. */
  function Atoi(s: string): (r: Option<Int64>)
    ensures r.Some? ==> ParseDecimal(s) == Some(r.value as int)
    ensures ParseDecimal(s).None? ==> r.None?
    ensures ParseDecimal(s).Some? && MinInt64 <= ParseDecimal(s).value <= MaxInt64 ==> r == Some(ParseDecimal(s).value)
  {
    match ParseDecimal(s)
    case None => None
    case Some(v) => if MinInt64 <= v <= MaxInt64 then Some(v) else None
  }

  /** The nearest 64-bit integer to `v`. */
  function Clamp64(v: int): (x: Int64)
    ensures MinInt64 <= v <= MaxInt64 ==> x == v
    ensures v < MinInt64 ==> x == MinInt64
    ensures v > MaxInt64 ==> x == MaxInt64
  {
    if v < MinInt64 then MinInt64 else if v > MaxInt64 then MaxInt64 else v
  }

  /** The text after an optional leading `+` or `-`. */
  function Unsigned(s: string): (u: string)
    ensures |u| <= |s|
  {
    if |s| > 0 && (s[0] == '+' || s[0] == '-') then s[1..] else s
  }

  /** The longest prefix of `s` made of decimal digits. */
  function DigitPrefix(s: string): (p: string)
    ensures p <= s && AllDigits(p)
    ensures AllDigits(s) ==> p == s
    ensures |p| < |s| ==> !IsDigit(s[|p|])
  {
    if s == [] || !IsDigit(s[0]) then []
    else
      var rest := DigitPrefix(s[1..]);
      assert forall i | 1 <= i < |s| :: s[1..][i - 1] == s[i];
      [s[0]] + rest
  }

  /**
   * Go's digit scan stops with a range error as soon as the digits read so far exceed the
   * unsigned 64-bit range, before it reaches a later character that is not a digit.
   */
  predicate ScanOverflows(s: string) {
    DecimalValue(DigitPrefix(Unsigned(s))) > MaxUint64
  }

  /**
   * The value of `x, _ := strconv.Atoi(s)`: Go returns 0 with a syntax error and the
   * nearest 64-bit bound, by sign, with a range error.
   */
  function AtoiValue(s: string): (x: Int64)
    ensures Atoi(s).Some? ==> x == Atoi(s).value
    ensures ParseDecimal(s).Some? ==> x == Clamp64(ParseDecimal(s).value)
    ensures ScanOverflows(s) ==> x == if |s| > 0 && s[0] == '-' then MinInt64 else MaxInt64
    ensures ParseDecimal(s).None? && !ScanOverflows(s) ==> x == 0
  {
    match ParseDecimal(s)
    case Some(v) =>
      assert |s| > 0 && DigitPrefix(Unsigned(s)) == Unsigned(s);
      Clamp64(v)
    case None => if ScanOverflows(s) then (if |s| > 0 && s[0] == '-' then MinInt64 else MaxInt64) else 0
  }

  /** The digit prefix of digits followed by more text starts with all those digits. */
  lemma {:induction false} DigitPrefixAppend(d: string, t: string)
    requires AllDigits(d)
    ensures DigitPrefix(d + t) == d + DigitPrefix(t)
    decreases |d|
  {
    if d != [] {
      assert (d + t)[0] == d[0] && IsDigit(d[0]);
      assert (d + t)[1..] == d[1..] + t;
      DigitPrefixAppend(d[1..], t);
      assert DigitPrefix(d + t) == [d[0]] + DigitPrefix(d[1..] + t);
      assert [d[0]] + (d[1..] + DigitPrefix(t)) == d + DigitPrefix(t);
    } else {
      assert d + t == t && d + DigitPrefix(t) == DigitPrefix(t);
    }
  }

  /** Reading more digits never lowers the value read so far. */
  lemma {:induction false} DecimalValueGrows(d: string, q: string)
    requires AllDigits(d) && AllDigits(q)
    ensures AllDigits(d + q) && DecimalValue(d + q) >= DecimalValue(d)
    decreases |q|
  {
    if q == [] {
      assert d + q == d;
    } else {
      var init := q[..|q| - 1];
      DecimalValueGrows(d, init);
      assert (d + q)[..|d + q| - 1] == d + init;
    }
  }

  /** Once the digits read exceed the unsigned 64-bit range, the scan overflows whatever follows. */
  lemma DigitsOverflow(d: string, t: string)
    requires AllDigits(d) && DecimalValue(d) > MaxUint64
    ensures ScanOverflows(d + t) && ScanOverflows("-" + d + t)
  {
    assert d != [] && IsDigit(d[0]);
    assert (d + t)[0] == d[0];
    assert Unsigned(d + t) == d + t;
    assert ("-" + d + t)[1..] == d + t;
    assert Unsigned("-" + d + t) == d + t;
    DigitPrefixAppend(d, t);
    DecimalValueGrows(d, DigitPrefix(t));
  }

  /**
   * Digits whose value is beyond the unsigned 64-bit range read as the 64-bit bound of
   * their sign, whatever text follows them.
   */
  lemma OverflowIgnoresTail(d: string, t: string)
    requires AllDigits(d) && DecimalValue(d) > MaxUint64
    ensures AtoiValue(d + t) == MaxInt64
    ensures AtoiValue("-" + d + t) == MinInt64
  {
    DigitsOverflow(d, t);
    assert d != [] && IsDigit(d[0]) && (d + t)[0] == d[0];
  }

  /** The digits of 2^64 followed by a letter read as the largest 64-bit integer, not as 0. */
  lemma OverflowExample()
    ensures AtoiValue(DecimalDigits(MaxUint64 + 1) + "x") == MaxInt64
  {
    DecimalRoundTrip(MaxUint64 + 1);
    OverflowIgnoresTail(DecimalDigits(MaxUint64 + 1), "x");
  }

  lemma {:induction false} DecimalRoundTrip(n: nat)
    ensures DecimalValue(DecimalDigits(n)) == n
    decreases n
  {
    if n >= 10 {
      DecimalRoundTrip(n / 10);
      var s := DecimalDigits(n);
      assert s[..|s| - 1] == DecimalDigits(n / 10);
    }
  }

  /** Every 64-bit integer rendered by Itoa is read back unchanged by Atoi. */
  lemma AtoiItoa(n: Int64)
    ensures Atoi(Itoa(n)) == Some(n)
  {
    var k: nat := if n < 0 then -(n as int) else n as int;
    DecimalRoundTrip(k);
    var d := DecimalDigits(k);
    assert IsDigit(d[0]);
    if n < 0 {
      assert Itoa(n)[1..] == d;
    }
  }
}

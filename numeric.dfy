/**
 * The integer conversions the server relies on, as Go defines them on a
 * 64-bit platform: strconv.Atoi, strconv.ParseUint(s, 10, 64), fmt.Sprint of
 * an unsigned integer, and the silent wrap-around of int64 arithmetic.
 */
module Numeric {
  import opened Wrappers

  const MaxUint64: nat := 0xFFFF_FFFF_FFFF_FFFF
  const MaxInt64: int := 0x7FFF_FFFF_FFFF_FFFF
  const MinInt64: int := -0x8000_0000_0000_0000
  const TwoTo64: nat := 0x1_0000_0000_0000_0000

  predicate IsDigit(c: char) {
    '0' <= c <= '9'
  }

  predicate AllDigits(s: string) {
    forall i :: 0 <= i < |s| ==> IsDigit(s[i])
  }

  /** A digit string as fmt prints one: non-empty, and no leading zero unless it is "0". */
  predicate Canonical(s: string) {
    s != [] && AllDigits(s) && (s[0] == '0' ==> |s| == 1)
  }

  function DigitValue(c: char): (d: nat)
    requires IsDigit(c)
    ensures d < 10
  {
    c as int - '0' as int
  }

  function DigitChar(d: nat): (c: char)
    requires d < 10
    ensures IsDigit(c) && DigitValue(c) == d
  {
    (d + '0' as int) as char
  }

  /** The number a string of decimal digits denotes, most significant digit first. */
  function ValueOf(s: string): nat
    requires AllDigits(s)
  {
    if s == [] then 0 else ValueOf(s[..|s| - 1]) * 10 + DigitValue(s[|s| - 1])
  }

  /** fmt.Sprint of an unsigned integer: its shortest decimal form. */
  function FormatUint(n: nat): (s: string)
    ensures Canonical(s)
    ensures n < 10 <==> |s| == 1
  {
    if n < 10 then [DigitChar(n)] else FormatUint(n / 10) + [DigitChar(n % 10)]
  }

  /** The decimal form of an int: a minus sign for negative numbers, then the magnitude. */
  function FormatInt(n: int): (s: string)
    ensures s != []
    ensures n < 0 <==> s[0] == '-'
  {
    if n < 0 then "-" + FormatUint(-n) else FormatUint(n)
  }

  /**
   * strconv.ParseUint(s, 10, 64): one or more decimal digits and nothing else
   * (no sign, no prefix, no underscore), denoting at most 2^64 - 1.
   */
  function ParseUint(s: string): (r: Option<nat>)
    ensures r.Some? ==> s != [] && AllDigits(s) && r.value <= MaxUint64
    ensures s != [] && (s[0] == '+' || s[0] == '-') ==> r.None?
  {
    if s != [] && AllDigits(s) && ValueOf(s) <= MaxUint64 then Some(ValueOf(s)) else None
  }

  /**
   * strconv.Atoi with a 64-bit int: an optional '+' or '-', then one or more
   * decimal digits, denoting a value in the int64 range.
   */
  function Atoi(s: string): (r: Option<int>)
    ensures r.Some? ==> MinInt64 <= r.value <= MaxInt64
    ensures r.Some? ==> s != [] && AllDigits(s[1..]) && (IsDigit(s[0]) || ((s[0] == '+' || s[0] == '-') && |s| > 1))
  {
    if s == [] then None
    else
      var digits := if s[0] == '+' || s[0] == '-' then s[1..] else s;
      if digits == [] || !AllDigits(digits) then None
      else
        var v: int := if s[0] == '-' then -(ValueOf(digits) as int) else ValueOf(digits);
        if MinInt64 <= v <= MaxInt64 then Some(v) else None
  }

  /** Two's-complement int64 wrap-around of an exact integer result. */
  function Wrap64(x: int): (r: int)
    ensures MinInt64 <= r <= MaxInt64
    ensures (r - x) % TwoTo64 == 0
    ensures MinInt64 <= x <= MaxInt64 ==> r == x
  {
    (x - MinInt64) % TwoTo64 + MinInt64
  }

  lemma ValueOfSnoc(s: string, c: char)
    requires AllDigits(s) && IsDigit(c)
    ensures AllDigits(s + [c]) && ValueOf(s + [c]) == ValueOf(s) * 10 + DigitValue(c)
  {
  }

  /** Reading back what fmt.Sprint wrote gives the number again. */
  lemma {:induction false} ValueOfFormatUint(n: nat)
    ensures ValueOf(FormatUint(n)) == n
  {
    if n >= 10 {
      ValueOfFormatUint(n / 10);
      ValueOfSnoc(FormatUint(n / 10), DigitChar(n % 10));
    }
  }

  lemma {:induction false} ValueOfZero(s: string)
    requires AllDigits(s) && ValueOf(s) == 0
    ensures forall i :: 0 <= i < |s| ==> s[i] == '0'
  {
    if s != [] {
      var p := s[..|s| - 1];
      ValueOfZero(p);
      assert forall i :: 0 <= i < |p| ==> s[i] == p[i];
    }
  }

  /** Leading zeros add nothing to the value of a digit string. */
  lemma {:induction false} LeadingZerosValue(z: string, s: string)
    requires forall i :: 0 <= i < |z| ==> z[i] == '0'
    requires AllDigits(s)
    ensures AllDigits(z + s) && ValueOf(z + s) == ValueOf(s)
    decreases |s|
  {
    if s == [] {
      assert z + s == z;
      assert ValueOf(z) == 0 by { AllZerosValue(z); }
    } else {
      var p := s[..|s| - 1];
      LeadingZerosValue(z, p);
      assert (z + s)[..|z + s| - 1] == z + p;
    }
  }

  lemma {:induction false} AllZerosValue(z: string)
    requires forall i :: 0 <= i < |z| ==> z[i] == '0'
    ensures AllDigits(z) && ValueOf(z) == 0
  {
    if z != [] {
      AllZerosValue(z[..|z| - 1]);
    }
  }

  /** Writing out the value of a canonical digit string gives that string back. */
  lemma {:induction false} FormatUintValueOf(s: string)
    requires Canonical(s)
    ensures FormatUint(ValueOf(s)) == s
  {
    if |s| > 1 {
      var p, c := s[..|s| - 1], s[|s| - 1];
      assert p[0] == s[0] != '0';
      if ValueOf(p) == 0 {
        ValueOfZero(p);
        assert false;
      }
      assert Canonical(p);
      FormatUintValueOf(p);
      var n := ValueOf(s);
      assert n == ValueOf(p) * 10 + DigitValue(c);
      assert n / 10 == ValueOf(p) && n % 10 == DigitValue(c);
      assert s == p + [c];
    }
  }

  /** ParseUint accepts what fmt.Sprint writes exactly when it fits in 64 bits. */
  lemma ParseUintFormatUint(n: nat)
    ensures ParseUint(FormatUint(n)) == if n <= MaxUint64 then Some(n) else None
  {
    ValueOfFormatUint(n);
  }

  /** A canonical string that ParseUint accepts is what fmt.Sprint writes for its value. */
  lemma ParseUintCanonical(s: string, n: nat)
    requires ParseUint(s) == Some(n) && (s[0] == '0' ==> |s| == 1)
    ensures FormatUint(n) == s
  {
    FormatUintValueOf(s);
  }

  /** Atoi reads back every int64 from its decimal form. */
  lemma AtoiFormatInt(n: int)
    requires MinInt64 <= n <= MaxInt64
    ensures Atoi(FormatInt(n)) == Some(n)
  {
    var s := FormatInt(n);
    if n < 0 {
      ValueOfFormatUint(-n);
      assert s[1..] == FormatUint(-n);
      assert s[0] == '-';
    } else {
      ValueOfFormatUint(n);
      assert s == FormatUint(n) && IsDigit(s[0]);
    }
  }

  /** Atoi also accepts a leading '+'. */
  lemma AtoiPlusSign(n: nat)
    requires n <= MaxInt64
    ensures Atoi("+" + FormatUint(n)) == Some(n)
  {
    var s := "+" + FormatUint(n);
    ValueOfFormatUint(n);
    assert s[1..] == FormatUint(n);
  }

  /** Atoi of a sign ("", "+" or "-") followed by a run of digits: the signed value, if it fits. */
  lemma AtoiSignedDigits(sign: string, digits: string)
    requires sign == "" || sign == "+" || sign == "-"
    requires digits != [] && AllDigits(digits)
    ensures var v: int := if sign == "-" then -(ValueOf(digits) as int) else ValueOf(digits);
      Atoi(sign + digits) == if MinInt64 <= v <= MaxInt64 then Some(v) else None
  {
    var s := sign + digits;
    if sign == "" {
      assert s == digits && IsDigit(s[0]);
    } else {
      assert s[0] == sign[0] && s[1..] == digits;
    }
  }

  /**
   * Atoi reads a sign ("", "+" or "-"), any number of leading zeros and then
   * the decimal form of n as the signed n, when that fits in an int64:
   * "007" is 7, "-007" is -7, "+024" is 24.
   */
  lemma AtoiLeadingZeros(sign: string, zeros: nat, n: nat)
    requires sign == "" || sign == "+" || sign == "-"
    requires if sign == "-" then n <= -MinInt64 else n <= MaxInt64
    ensures Atoi(sign + (seq(zeros, _ => '0') + FormatUint(n))) == Some(if sign == "-" then -(n as int) else n)
  {
    var digits := seq(zeros, _ => '0') + FormatUint(n);
    LeadingZerosValue(seq(zeros, _ => '0'), FormatUint(n));
    ValueOfFormatUint(n);
    AtoiSignedDigits(sign, digits);
  }

  /** Atoi rejects a value outside the int64 range even when it is well formed. */
  lemma AtoiRejectsOverflow(n: int)
    requires n < MinInt64 || MaxInt64 < n
    ensures Atoi(FormatInt(n)) == None
  {
    if n < 0 {
      ValueOfFormatUint(-n);
      assert FormatInt(n)[1..] == FormatUint(-n);
    } else {
      ValueOfFormatUint(n);
    }
  }
}

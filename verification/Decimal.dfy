/** Decimal integers as Go's strconv prints and parses them. */
module Decimal {
  import opened Basics

  const MIN_INT64: int := -0x8000_0000_0000_0000
  const MAX_INT64: int := 0x7FFF_FFFF_FFFF_FFFF

  predicate IsDigit(c: char) {
    '0' <= c <= '9'
  }

  predicate AllDigits(s: string) {
    forall i :: 0 <= i < |s| ==> IsDigit(s[i])
  }

  function DigitChar(d: nat): (c: char)
    requires d < 10
    ensures IsDigit(c) && c as int - '0' as int == d
  {
    ('0' as int + d) as char
  }

  /** The number a string of digits denotes. */
  function Value(s: string): nat
    requires AllDigits(s)
  {
    if s == [] then 0
    else 10 * Value(s[..|s| - 1]) + (s[|s| - 1] as int - '0' as int)
  }

  /** The shortest string of digits for `n`. */
  function Digits(n: nat): (s: string)
    ensures s != [] && AllDigits(s) && Value(s) == n
  {
    if n < 10 then [DigitChar(n)]
    else
      var high := Digits(n / 10);
      var s := high + [DigitChar(n % 10)];
      assert s[..|s| - 1] == high;
      s
  }

  /** `n` with zeros in front up to `width` digits; longer numbers keep all their digits. */
  function Padded(n: nat, width: nat): (s: string)
    ensures s != [] && AllDigits(s) && Value(s) == n
  {
    LeftZeros(Digits(n), width)
  }

  function LeftZeros(s: string, width: nat): (r: string)
    requires AllDigits(s)
    ensures AllDigits(r) && Value(r) == Value(s)
    ensures |r| == if |s| < width then width else |s|
    decreases width - |s|
  {
    if |s| >= width then s
    else
      ValueOfLeadingZero(s);
      LeftZeros(['0'] + s, width)
  }

  lemma {:induction false} ValueOfLeadingZero(s: string)
    requires AllDigits(s)
    ensures Value(['0'] + s) == Value(s)
  {
    var z := ['0'] + s;
    assert z[..|z| - 1] == if s == [] then [] else ['0'] + s[..|s| - 1];
    if s != [] {
      ValueOfLeadingZero(s[..|s| - 1]);
    }
  }

  /** strconv.FormatInt with base 10. */
  function FormatInt(n: int): (s: string)
    ensures s != []
  {
    if n < 0 then ['-'] + Digits(-n) else Digits(n)
  }

  /** strconv.ParseInt with base 10 and 64 bits: an optional sign, then digits, within range. */
  function ParseInt64(s: string): Option<int> {
    var negative := s != [] && s[0] == '-';
    var digits := if s != [] && (s[0] == '-' || s[0] == '+') then s[1..] else s;
    if digits == [] || !AllDigits(digits) then None
    else
      var magnitude: int := Value(digits);
      var n := if negative then -magnitude else magnitude;
      if MIN_INT64 <= n <= MAX_INT64 then Some(n) else None
  }

  lemma ParseFormatted(n: int)
    ensures ParseInt64(FormatInt(n)) == if MIN_INT64 <= n <= MAX_INT64 then Some(n) else None
  {
    var s := FormatInt(n);
    if n < 0 {
      assert s[1..] == Digits(-n);
    } else {
      assert IsDigit(s[0]);
    }
  }

  /** What parses has at least one digit, and nothing else behind its sign. */
  lemma ParsedIsNumber(s: string)
    requires ParseInt64(s).Some?
    ensures s != [] && IsDigit(s[|s| - 1]) && AllDigits(s[1..]) && (IsDigit(s[0]) || s[0] == '-' || s[0] == '+')
  {
    assert s[0] != '-' && s[0] != '+' ==> IsDigit(s[0]);
    assert |s| > 1 ==> s[1..][|s| - 2] == s[|s| - 1];
  }

  /** Printed integers contain digits and, in front only, a minus sign. */
  lemma FormatAlphabet(n: int)
    ensures forall i :: 0 <= i < |FormatInt(n)| ==> IsDigit(FormatInt(n)[i]) || FormatInt(n)[i] == '-'
  {
  }

  lemma FormatSign(n: int)
    ensures FormatInt(n)[0] == '-' <==> n < 0
    ensures n < 0 ==> FormatInt(n)[1..] == Digits(-n)
  {
    if n >= 0 {
      assert IsDigit(Digits(n)[0]);
    }
  }

  lemma FormatInjective(m: int, n: int)
    requires FormatInt(m) == FormatInt(n)
    ensures m == n
  {
    FormatSign(m);
    FormatSign(n);
  }
}

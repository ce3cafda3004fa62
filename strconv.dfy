/**
 * Decimal conversions from Go's `strconv` package: `Atoi`, which parses the CSV fields, and
 * `FormatInt(n, 10)`, which renders Unix timestamps. Integers are unbounded here; the
 * clamping of out-of-range values to the 64-bit limits is not modelled.
 */
module Strconv {
  import opened Wrappers

  predicate IsDigit(c: char) { '0' <= c <= '9' }

  predicate AllDigits(s: string) { forall i :: 0 <= i < |s| ==> IsDigit(s[i]) }

  function DigitValue(c: char): (d: nat)
    requires IsDigit(c)
    ensures d < 10
  {
    c as int - '0' as int
  }

  function DigitChar(d: nat): (c: char)
    requires d < 10
    ensures IsDigit(c) && DigitValue(c) == d
  {
    ('0' as int + d) as char
  }

  /** The number denoted by a run of decimal digits, most significant first (0 for none). */
  function DigitsValue(s: string): nat
    requires AllDigits(s)
  {
    if s == [] then 0 else DigitsValue(s[..|s| - 1]) * 10 + DigitValue(s[|s| - 1])
  }

  /** A decimal literal as Atoi accepts it: an optional sign, then one or more digits. */
  predicate DecimalLiteral(s: string)
  {
    var digits := if |s| > 0 && (s[0] == '-' || s[0] == '+') then s[1..] else s;
    |digits| > 0 && AllDigits(digits)
  }

  /**
   * `strconv.Atoi(s)`: an optional `+` or `-` followed by at least one decimal digit, and
   * nothing else; any other string is a syntax error (`None`).
   */
  function Atoi(s: string): (r: Option<int>)
    ensures r.Some? <==> DecimalLiteral(s)
    ensures r.Some? && s[0] == '-' ==> r.value <= 0
    ensures r.Some? && s[0] != '-' ==> r.value >= 0
  {
    if |s| > 0 && (s[0] == '-' || s[0] == '+') then
      var digits := s[1..];
      if |digits| > 0 && AllDigits(digits) then
        Some(if s[0] == '-' then 0 - DigitsValue(digits) as int else DigitsValue(digits))
      else None
    else if |s| > 0 && AllDigits(s) then Some(DigitsValue(s))
    else None
  }

  /** `n, _ := strconv.Atoi(s)`: Atoi returns 0 together with its syntax error. */
  function AtoiOrZero(s: string): (n: int)
    ensures DecimalLiteral(s) ==> Atoi(s) == Some(n)
    ensures !DecimalLiteral(s) ==> n == 0
  {
    match Atoi(s)
    case Some(n) => n
    case None => 0
  }

  /** The decimal digits of a natural number, without leading zeros. */
  function Digits(n: nat): (s: string)
    ensures |s| >= 1 && AllDigits(s)
  {
    if n < 10 then [DigitChar(n)] else Digits(n / 10) + [DigitChar(n % 10)]
  }

  /** `strconv.FormatInt(n, 10)`: a `-` for a negative number, then its digits. */
  function FormatInt(n: int): (s: string)
    ensures DecimalLiteral(s)
    ensures s[0] == '-' <==> n < 0
    ensures forall i :: (if n < 0 then 1 else 0) <= i < |s| ==> IsDigit(s[i])
  {
    if n < 0 then "-" + Digits(-n) else Digits(n)
  }

  lemma {:induction false} DigitsValueOfDigits(n: nat)
    ensures DigitsValue(Digits(n)) == n
  {
    if n >= 10 {
      var s := Digits(n);
      assert s[..|s| - 1] == Digits(n / 10);
      DigitsValueOfDigits(n / 10);
    }
  }

  /** Parsing a formatted integer gives the integer back. */
  lemma AtoiFormatInt(n: int)
    ensures Atoi(FormatInt(n)) == Some(n)
  {
    var s := FormatInt(n);
    if n < 0 {
      var d := Digits(-n);
      assert s == ['-'] + d;
      assert s[1..] == d;
      DigitsValueOfDigits(-n);
    } else {
      assert s == Digits(n);
      assert IsDigit(s[0]);
      DigitsValueOfDigits(n);
    }
  }

  /** A field with no decimal digit in it reads as 0. */
  lemma AtoiWithoutDigits(s: string)
    requires forall i :: 0 <= i < |s| ==> !IsDigit(s[i])
    ensures Atoi(s) == None && AtoiOrZero(s) == 0
  {
    if |s| > 1 {
      assert s[1..][0] == s[1];
    }
  }

  /** A formatted integer holds only digits and a leading minus sign. */
  lemma FormatIntChars(n: int, c: char)
    requires !IsDigit(c) && c != '-'
    ensures c !in FormatInt(n)
  {
    var d := Digits(if n < 0 then -n else n);
    assert forall i :: 0 <= i < |d| ==> d[i] != c;
    assert c !in d;
    if n < 0 {
      assert FormatInt(n) == ['-'] + d;
    } else {
      assert FormatInt(n) == d;
    }
  }
}

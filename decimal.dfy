/**
 * Java's decimal rendering of integers (`String.valueOf(int)`, `Long.toString`, and the
 * string concatenation of a `Long`), with the parser that inverts it.
 */
module Decimal {
  import opened Common

  predicate IsDigit(c: char) {
    '0' <= c <= '9'
  }

  predicate AllDigits(s: string) {
    forall i :: 0 <= i < |s| ==> IsDigit(s[i])
  }

  function DigitChar(d: int): (c: char)
    requires 0 <= d < 10
    ensures IsDigit(c)
  {
    ('0' as int + d) as char
  }

  function DigitValue(c: char): (d: int)
    requires IsDigit(c)
    ensures 0 <= d < 10
  {
    c as int - '0' as int
  }

  function Pow10(k: nat): (p: nat)
    ensures p >= 1
  {
    if k == 0 then 1 else 10 * Pow10(k - 1)
  }

  /** The shortest decimal form of `n`, as `String.valueOf` prints a non-negative number. */
  function NatToString(n: nat): (s: string)
    ensures |s| >= 1
    ensures AllDigits(s)
    ensures n > 0 ==> s[0] != '0'
    decreases n
  {
    if n < 10 then [DigitChar(n)] else NatToString(n / 10) + [DigitChar(n % 10)]
  }

  /** `Long.toString(n)`: a minus sign before the digits of a negative number. */
  function LongToString(n: int): (s: string)
    ensures |s| >= 1
    ensures n >= 0 ==> AllDigits(s)
    ensures n < 0 ==> s[0] == '-' && AllDigits(s[1..])
  {
    if n < 0 then "-" + NatToString(-n) else NatToString(n)
  }

  /** What Java's string concatenation appends for a `Long` reference. */
  function NullableLongToString(n: Option<int>): string {
    match n
    case None => "null"
    case Some(v) => LongToString(v)
  }

  /** The value of a string of decimal digits (what `Integer.parseInt` returns for it). */
  function ParseDecimal(s: string): nat
    requires AllDigits(s)
  {
    if s == [] then 0 else 10 * ParseDecimal(s[..|s| - 1]) + DigitValue(s[|s| - 1])
  }

  /** Parsing the rendering gives the number back. */
  lemma {:induction false} ParseNatToString(n: nat)
    ensures ParseDecimal(NatToString(n)) == n
    decreases n
  {
    var s := NatToString(n);
    if n >= 10 {
      assert s[..|s| - 1] == NatToString(n / 10);
      ParseNatToString(n / 10);
    }
  }

  /** Distinct numbers have distinct renderings. */
  lemma NatToStringInjective(m: nat, n: nat)
    requires NatToString(m) == NatToString(n)
    ensures m == n
  {
    ParseNatToString(m);
    ParseNatToString(n);
  }

  /** A number with exactly `k` digits renders to exactly `k` characters. */
  lemma {:induction false} NatToStringLength(n: nat, k: nat)
    requires k >= 1 && Pow10(k - 1) <= n < Pow10(k)
    ensures |NatToString(n)| == k
    decreases k
  {
    if k > 1 {
      assert n >= 10;
      NatToStringLength(n / 10, k - 1);
    }
  }

  /** Reads back what `NullableLongToString` appends: `None` for "null" and for any other text that is not a number. */
  function ParseNullableLong(s: string): Option<int>
  {
    if |s| >= 1 && s[0] == '-' && AllDigits(s[1..]) then var v: int := ParseDecimal(s[1..]); Some(-v)
    else if |s| >= 1 && AllDigits(s) then Some(ParseDecimal(s))
    else None
  }

  /** The appended form of a `Long` reference determines the reference. */
  lemma ParseNullableLongToString(n: Option<int>)
    ensures ParseNullableLong(NullableLongToString(n)) == n
  {
    match n
    case None =>
    case Some(x) =>
      if x < 0 {
        ParseNegative(x);
      } else {
        ParseNonNegative(x);
      }
  }

  lemma ParseNegative(x: int)
    requires x < 0
    ensures ParseNullableLong(LongToString(x)) == Some(x)
  {
    var n: nat := -x;
    var t := NatToString(n);
    ParseNatToString(n);
    ParseMinusDigits(t, n);
    assert LongToString(x) == "-" + t;
  }

  lemma ParseMinusDigits(t: string, n: nat)
    requires |t| >= 1 && AllDigits(t) && ParseDecimal(t) == n
    ensures ParseNullableLong("-" + t) == Some(0 - n)
  {
  }

  lemma ParseNonNegative(x: int)
    requires x >= 0
    ensures ParseNullableLong(LongToString(x)) == Some(x)
  {
    var s := LongToString(x);
    assert IsDigit(s[0]);
    ParseNatToString(x);
  }

  /** Distinct `Long` references (null included) are appended as distinct strings. */
  lemma NullableLongToStringInjective(a: Option<int>, b: Option<int>)
    requires NullableLongToString(a) == NullableLongToString(b)
    ensures a == b
  {
    ParseNullableLongToString(a);
    ParseNullableLongToString(b);
  }
}

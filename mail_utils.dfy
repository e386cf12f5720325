/**
 * The six-digit verification code of `MailUtils.generateRandomCode`. The random draw
 * `random.nextInt(900_000)` is a parameter, so the generator is a pure function of it.
 */
module MailUtils {
  import opened Decimal

  /** The bound passed to `nextInt`: draws lie in `[0, DrawBound)`. */
  const DrawBound: int := 900_000
  /** The offset added to the draw so that the code never has a leading zero. */
  const CodeBase: int := 100_000

  /** The numeric code for a draw. */
  function CodeValue(draw: int): (code: int)
    requires 0 <= draw < DrawBound
    ensures 100_000 <= code <= 999_999
  {
    CodeBase + draw
  }

  /** `String.valueOf(100_000 + draw)`: six decimal digits, no leading zero, reading back as the code. */
  function GenerateRandomCode(draw: int): (code: string)
    requires 0 <= draw < DrawBound
    ensures |code| == 6
    ensures AllDigits(code) && code[0] != '0'
    ensures ParseDecimal(code) == CodeValue(draw)
  {
    assert Pow10(5) == 100_000 && Pow10(6) == 1_000_000;
    NatToStringLength(CodeValue(draw), 6);
    ParseNatToString(CodeValue(draw));
    NatToString(CodeValue(draw))
  }

  /** Distinct draws give distinct codes, so the generator loses none of the draw's randomness. */
  lemma GenerateRandomCodeInjective(d1: int, d2: int)
    requires 0 <= d1 < DrawBound && 0 <= d2 < DrawBound
    requires GenerateRandomCode(d1) == GenerateRandomCode(d2)
    ensures d1 == d2
  {
  }

  /** Every six-digit code without a leading zero is produced by exactly one draw. */
  lemma GenerateRandomCodeOnto(code: string)
    requires |code| == 6 && AllDigits(code) && code[0] != '0'
    ensures 0 <= ParseDecimal(code) - CodeBase < DrawBound
    ensures GenerateRandomCode(ParseDecimal(code) - CodeBase) == code
  {
    SixDigitRange(code);
    RenderParsed(code);
  }

  /** A six-digit string without a leading zero denotes a number in `[100000, 999999]`. */
  lemma SixDigitRange(code: string)
    requires |code| == 6 && AllDigits(code) && code[0] != '0'
    ensures CodeBase <= ParseDecimal(code) < CodeBase + DrawBound
  {
    assert Pow10(5) == 100_000 && Pow10(6) == 1_000_000;
    LeadingDigitBound(code);
  }

  /** A digit string of length `k >= 1` whose first digit is not zero lies in `[10^(k-1), 10^k)`. */
  lemma {:induction false} LeadingDigitBound(s: string)
    requires |s| >= 1 && AllDigits(s)
    ensures ParseDecimal(s) < Pow10(|s|)
    ensures s[0] != '0' ==> Pow10(|s| - 1) <= ParseDecimal(s)
  {
    if |s| > 1 {
      var p := s[..|s| - 1];
      assert p[0] == s[0];
      LeadingDigitBound(p);
    }
  }

  /** Rendering a digit string without a leading zero gives the string back. */
  lemma {:induction false} RenderParsed(s: string)
    requires |s| >= 1 && AllDigits(s) && (|s| > 1 ==> s[0] != '0')
    ensures NatToString(ParseDecimal(s)) == s
  {
    if |s| > 1 {
      var p := s[..|s| - 1];
      assert p[0] == s[0];
      LeadingDigitBound(p);
      RenderParsed(p);
      var n := ParseDecimal(s);
      assert n >= 10;
      assert n / 10 == ParseDecimal(p);
      assert n % 10 == DigitValue(s[|s| - 1]);
      assert s == p + [s[|s| - 1]];
    }
  }
}

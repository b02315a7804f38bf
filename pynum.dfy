/**
 * The Python 2 number conversions the tokenizer and the classifier apply to
 * whitespace-free tokens: `int(tok)`, `str(n)` and the acceptance test of
 * `float(tok)` (the float value itself is not modelled; see README).
 */
module PyNum {
  import opened Wrappers

  /** `abs(x)` */
  function Abs(x: int): nat {
    if x < 0 then -x else x
  }

  predicate IsDigit(c: char) {
    '0' <= c <= '9'
  }

  predicate AllDigits(s: string) {
    forall i | 0 <= i < |s| :: IsDigit(s[i])
  }

  function DigitValue(c: char): (d: nat)
    requires IsDigit(c)
    ensures d < 10
  {
    c as int - '0' as int
  }

  function DigitChar(d: nat): (c: char)
    requires d < 10
    ensures IsDigit(c) && DigitValue(c) == d
  {
    ('0' as int + d) as char
  }

  /** Value of a run of decimal digits, most significant digit first. */
  function DigitsValue(s: string): nat
    requires AllDigits(s)
    decreases |s|
  {
    if s == [] then 0 else DigitsValue(s[..|s| - 1]) * 10 + DigitValue(s[|s| - 1])
  }

  /** `int(tok)` for a whitespace-free token: an optional sign, then one or more digits. */
  function ParseInt(tok: string): Option<int> {
    if |tok| > 0 && (tok[0] == '+' || tok[0] == '-') then
      var ds := tok[1..];
      if ds != [] && AllDigits(ds) then
        Some(if tok[0] == '-' then 0 - DigitsValue(ds) as int else DigitsValue(ds) as int)
      else None
    else if tok != [] && AllDigits(tok) then Some(DigitsValue(tok))
    else None
  }

  /** `str(n)` for a non-negative `n`: its decimal digits without leading zeros. */
  function NatToString(n: nat): (s: string)
    ensures s != [] && AllDigits(s)
    decreases n
  {
    if n < 10 then [DigitChar(n)] else NatToString(n / 10) + [DigitChar(n % 10)]
  }

  /** `str(n)` */
  function IntToString(n: int): string {
    if n < 0 then "-" + NatToString(-n) else NatToString(n)
  }

  lemma {:induction false} NatToStringValue(n: nat)
    ensures DigitsValue(NatToString(n)) == n
    decreases n
  {
    if n >= 10 {
      var s := NatToString(n);
      NatToStringValue(n / 10);
      assert s[..|s| - 1] == NatToString(n / 10);
    }
  }

  /** `int(str(n)) == n`: printing an integer and reading it back is the identity. */
  lemma IntRoundTrip(n: int)
    ensures ParseInt(IntToString(n)) == Some(n)
  {
    if n < 0 {
      NatToStringValue(-n);
      assert ("-" + NatToString(-n))[1..] == NatToString(-n);
    } else {
      NatToStringValue(n);
    }
  }

  /** `str(n)` never starts with a sign for a non-negative `n`, and always with `-` otherwise. */
  lemma IntToStringSign(n: int)
    ensures IntToString(n) != []
    ensures (IntToString(n)[0] == '-') <==> n < 0
  {
  }

  // ---------------------------------------------------------------------------
  // float(tok)
  // ---------------------------------------------------------------------------

  /** End of the run of digits that starts at `i`. */
  function DigitRun(s: string, i: nat): (j: nat)
    requires i <= |s|
    ensures i <= j <= |s|
    ensures forall k | i <= k < j :: IsDigit(s[k])
    ensures j < |s| ==> !IsDigit(s[j])
    decreases |s| - i
  {
    if i < |s| && IsDigit(s[i]) then DigitRun(s, i + 1) else i
  }

  /** An exponent part, `e` or `E` followed by a signed integer, or nothing. */
  predicate IsExponentOrEmpty(e: string) {
    e == [] || (|e| >= 2 && (e[0] == 'e' || e[0] == 'E') && ParseInt(e[1..]).Some?)
  }

  /**
   * An unsigned decimal float literal: `digits`, `digits.`, `digits.digits` or
   * `.digits`, with an optional exponent.
   */
  predicate IsUnsignedDecimal(s: string) {
    var i1 := DigitRun(s, 0);
    var hasDot := i1 < |s| && s[i1] == '.';
    var i2 := if hasDot then DigitRun(s, i1 + 1) else i1;
    (i1 > 0 || (hasDot && i2 > i1 + 1)) && IsExponentOrEmpty(s[i2..])
  }

  function Lower(s: string): (r: string)
    ensures |r| == |s|
  {
    seq(|s|, i requires 0 <= i < |s| => if 'A' <= s[i] <= 'Z' then (s[i] as int + 32) as char else s[i])
  }

  /** Whether `float(tok)` accepts a whitespace-free token (else it raises ValueError). */
  predicate IsFloatLiteral(tok: string) {
    var body := if |tok| > 0 && (tok[0] == '+' || tok[0] == '-') then tok[1..] else tok;
    IsUnsignedDecimal(body) || Lower(body) in {"inf", "infinity", "nan"}
  }

  lemma DigitRunAll(s: string, i: nat)
    requires i <= |s|
    requires forall k | i <= k < |s| :: IsDigit(s[k])
    ensures DigitRun(s, i) == |s|
  {
  }

  /** Every token `int()` accepts, `float()` accepts too. */
  lemma IntLiteralIsFloatLiteral(tok: string)
    requires ParseInt(tok).Some?
    ensures IsFloatLiteral(tok)
  {
    var body := if |tok| > 0 && (tok[0] == '+' || tok[0] == '-') then tok[1..] else tok;
    DigitRunAll(body, 0);
    assert body[|body|..] == [];
  }

  /** `float("")` raises: an empty weight value is not accepted. */
  lemma EmptyIsNotAFloat()
    ensures !IsFloatLiteral("")
  {
    assert Lower("") == "";
  }
}

/**
 * Decimal text of integers: Python's `str(n)` for the nonce a miner sends and
 * `int(s)` for the difficulty field a pool sends.
 */
module Decimal {
  import opened Wrappers

  predicate IsDigit(c: char) {
    '0' <= c <= '9'
  }

  predicate AllDigits(s: string) {
    forall i :: 0 <= i < |s| ==> IsDigit(s[i])
  }

  function DigitValue(c: char): (d: nat)
    requires IsDigit(c)
    ensures d < 10
  {
    c as int - '0' as int
  }

  function DigitChar(d: nat): (c: char)
    requires d < 10
    ensures IsDigit(c) && DigitValue(c) == d
  {
    ('0' as int + d) as char
  }

  /** `str(n)` for a non-negative int: digits only, and a leading zero only for zero itself. */
  function NatToDecimal(n: nat): (s: string)
    ensures |s| >= 1 && AllDigits(s)
    ensures s[0] == '0' <==> n == 0
    ensures |s| > 1 ==> s[0] != '0'
  {
    if n < 10 then [DigitChar(n)] else NatToDecimal(n / 10) + [DigitChar(n % 10)]
  }

  /** The value of a string of decimal digits, most significant first (leading zeros allowed). */
  function DigitsValue(s: string): nat
    requires AllDigits(s)
  {
    if |s| == 0 then 0 else 10 * DigitsValue(s[..|s| - 1]) + DigitValue(s[|s| - 1])
  }

  /**
   * `int(s)` for a string of ASCII digits with an optional leading sign;
   * `None` is the `ValueError` Python raises for anything else.
   */
  function ParseInt(s: string): Option<int> {
    if |s| > 0 && (s[0] == '+' || s[0] == '-') then
      var digits := s[1..];
      if |digits| > 0 && AllDigits(digits) then
        Some(if s[0] == '-' then 0 - DigitsValue(digits) else DigitsValue(digits) as int)
      else None
    else if |s| > 0 && AllDigits(s) then Some(DigitsValue(s) as int)
    else None
  }

  /** Reading back the decimal text of n gives n. */
  lemma {:induction false} DigitsValueOfDecimal(n: nat)
    ensures DigitsValue(NatToDecimal(n)) == n
  {
    if n >= 10 {
      var s := NatToDecimal(n);
      var prefix := NatToDecimal(n / 10);
      assert s[..|s| - 1] == prefix;
      DigitsValueOfDecimal(n / 10);
    }
  }

  /** `int(str(n)) == n` and `int("-" + str(n)) == -n`. */
  lemma ParseIntOfDecimal(n: nat)
    ensures ParseInt(NatToDecimal(n)) == Some(n as int)
    ensures ParseInt("-" + NatToDecimal(n)) == Some(0 - n)
  {
    DigitsValueOfDecimal(n);
    assert ("-" + NatToDecimal(n))[1..] == NatToDecimal(n);
  }

  /** Distinct nonces have distinct decimal texts. */
  lemma DecimalInjective(m: nat, n: nat)
    requires NatToDecimal(m) == NatToDecimal(n)
    ensures m == n
  {
    DigitsValueOfDecimal(m);
    DigitsValueOfDecimal(n);
  }

  /**
   * `int` reads any non-empty run of ASCII digits, leading zeros included,
   * with or without a leading sign.
   */
  lemma ParseIntOfDigits(digits: string)
    requires |digits| > 0 && AllDigits(digits)
    ensures ParseInt(digits) == Some(DigitsValue(digits) as int)
    ensures ParseInt("+" + digits) == Some(DigitsValue(digits) as int)
    ensures ParseInt("-" + digits) == Some(0 - DigitsValue(digits))
  {
    assert ("+" + digits)[1..] == digits;
    assert ("-" + digits)[1..] == digits;
  }

  /** `int` raises ValueError for the empty string and for a sign with no digits. */
  lemma ParseIntRejectsEmpty()
    ensures ParseInt("") == None
    ensures ParseInt("+") == None
    ensures ParseInt("-") == None
  {
  }

  /** `int` rejects any non-digit after the optional sign. */
  lemma ParseIntRejects(s: string, k: nat)
    requires k < |s| && !IsDigit(s[k])
    requires k > 0 || (s[0] != '+' && s[0] != '-')
    ensures ParseInt(s) == None
  {
    if s[0] == '+' || s[0] == '-' {
      assert s[1..][k - 1] == s[k];
    }
  }
}

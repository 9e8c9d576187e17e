/**
 * Python's `str()` of an integer: the decimal text Python prints for an `int`,
 * with a leading '-' for negative numbers and no leading zeros.
 */
module PyText {

  predicate IsDigit(c: char) {
    '0' <= c <= '9'
  }

  function DigitChar(d: int): (c: char)
    requires 0 <= d < 10
    ensures IsDigit(c) && c as int - '0' as int == d
  {
    (('0' as int) + d) as char
  }

  /** Decimal digits of a natural number, most significant first. */
  function NatDigits(n: nat): (r: string)
    ensures |r| > 0
    ensures IsDigit(r[0]) && (n > 0 ==> r[0] != '0')
    decreases n
  {
    if n < 10 then [DigitChar(n)] else NatDigits(n / 10) + [DigitChar(n % 10)]
  }

  ghost predicate AllDigits(s: string) {
    forall k :: 0 <= k < |s| ==> IsDigit(s[k])
  }

  lemma {:induction false} NatDigitsAreDigits(n: nat)
    ensures AllDigits(NatDigits(n))
    decreases n
  {
    if n >= 10 {
      NatDigitsAreDigits(n / 10);
    }
  }

  /** `str(n)` for a Python `int`. */
  function IntText(n: int): (r: string)
    ensures |r| > 0
    ensures (r[0] == '-') <==> n < 0
    ensures n >= 0 ==> IsDigit(r[0])
  {
    if n < 0 then "-" + NatDigits(-n) else NatDigits(n)
  }

  /** Past an optional leading '-', `str(n)` is all decimal digits. */
  lemma IntTextDigits(n: int)
    ensures AllDigits(IntText(n)[1..])
  {
    if n < 0 {
      NatDigitsAreDigits(-n);
      assert IntText(n)[1..] == NatDigits(-n);
    } else {
      NatDigitsAreDigits(n);
    }
  }

  /** Reads a string of decimal digits back as a number (Python's `int()`). */
  function ParseNat(s: string): nat
    requires AllDigits(s)
  {
    if s == [] then 0
    else
      assert IsDigit(s[|s| - 1]);
      ParseNat(s[..|s| - 1]) * 10 + (s[|s| - 1] as int - '0' as int)
  }

  function ParseInt(s: string): int
    requires |s| > 0
    requires AllDigits(s[1..])
    requires s[0] != '-' ==> IsDigit(s[0])
  {
    if s[0] == '-' then 0 - ParseNat(s[1..]) else ParseNat(s)
  }

  lemma {:induction false} ParseNatDigits(n: nat)
    ensures AllDigits(NatDigits(n)) && ParseNat(NatDigits(n)) == n
    decreases n
  {
    NatDigitsAreDigits(n);
    if n >= 10 {
      var s := NatDigits(n / 10);
      ParseNatDigits(n / 10);
      assert (s + [DigitChar(n % 10)])[..|s|] == s;
    }
  }

  /** `int(str(n)) == n`: the text of an integer determines it. */
  lemma IntTextRoundTrip(n: int)
    ensures AllDigits(IntText(n)[1..])
    ensures ParseInt(IntText(n)) == n
  {
    IntTextDigits(n);
    if n < 0 {
      ParseNatDigits(-n);
      assert IntText(n)[1..] == NatDigits(-n);
    } else {
      ParseNatDigits(n);
    }
  }

  /** Distinct integers have distinct texts, so group ids survive `str()`. */
  lemma IntTextInjective(a: int, b: int)
    ensures IntText(a) == IntText(b) ==> a == b
  {
    IntTextRoundTrip(a);
    IntTextRoundTrip(b);
  }
}

/** Decimal text of non-negative integers: Python's `str(n)` and `"%02d" % n`, and the
    digit-string value that reads them back. */
module Decimal {

  predicate IsDigit(c: char) {
    '0' <= c <= '9'
  }

  predicate AllDigits(s: string) {
    forall i :: 0 <= i < |s| ==> IsDigit(s[i])
  }

  function DigitChar(d: nat): (c: char)
    requires d < 10
    ensures IsDigit(c)
  {
    ('0' as int + d) as char
  }

  /** `str(n)` for n >= 0: the shortest decimal numeral, most significant digit first. */
  function NatToString(n: nat): (s: string)
    ensures |s| >= 1 && AllDigits(s)
    ensures |s| == NumDigits(n)
    ensures s[0] == '0' ==> n == 0
  {
    if n < 10 then [DigitChar(n)] else NatToString(n / 10) + [DigitChar(n % 10)]
  }

  /** How many decimal digits n has (zero has one). */
  function NumDigits(n: nat): (k: nat)
    ensures k >= 1
  {
    if n < 10 then 1 else 1 + NumDigits(n / 10)
  }

  /** The number a string of decimal digits denotes. */
  function DigitsValue(s: string): nat
    requires AllDigits(s)
  {
    if s == [] then 0 else DigitsValue(s[..|s| - 1]) * 10 + (s[|s| - 1] as int - '0' as int)
  }

  /** Reading `str(n)` back gives n. */
  lemma {:induction false} NatToStringValue(n: nat)
    ensures DigitsValue(NatToString(n)) == n
  {
    if n >= 10 {
      NatToStringValue(n / 10);
      var s := NatToString(n);
      assert s[..|s| - 1] == NatToString(n / 10);
    }
  }

  /** Dropping the last digit of `str(n)` gives `str(n // 10)`. */
  lemma NatToStringDropLast(n: nat)
    requires n >= 10
    ensures NatToString(n)[..NumDigits(n) - 1] == NatToString(n / 10)
  {
  }

  /** A four-digit year has four digits. */
  lemma NumDigitsFour(n: nat)
    requires 1000 <= n <= 9999
    ensures NumDigits(n) == 4
  {
    assert 100 <= n / 10 <= 999;
    assert 10 <= n / 100 <= 99 by { assert n / 100 == n / 10 / 10; }
    assert 1 <= n / 1000 <= 9 by { assert n / 1000 == n / 100 / 10; }
    assert NumDigits(n / 1000) == 1;
    assert NumDigits(n / 100) == 2;
    assert NumDigits(n / 10) == 3;
  }

  /** `"%02d" % n` for n >= 0: str(n), left-padded with zeros to width 2. */
  function Pad2(n: nat): (s: string)
    ensures AllDigits(s) && DigitsValue(s) == n
    ensures |s| == if n < 10 then 2 else NumDigits(n)
    ensures n >= 10 ==> s == NatToString(n)
  {
    NatToStringValue(n);
    var d := NatToString(n);
    if |d| < 2 then
      var s := "0" + d;
      assert s[..1] == "0";
      s
    else d
  }

  /** Below 100, `"%02d"` gives exactly two digits. */
  lemma Pad2TwoDigits(n: nat)
    requires n < 100
    ensures |Pad2(n)| == 2
  {
    if n >= 10 {
      assert NumDigits(n / 10) == 1;
    }
  }
}

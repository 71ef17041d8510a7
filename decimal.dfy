/**
 * Decimal text of integers, as JavaScript's template literals print an
 * integral number (`${n}`), and its inverse.
 */
module Decimal {
  import opened JsValues

  predicate IsDigit(c: char) {
    '0' <= c <= '9'
  }

  function DigitChar(d: nat): (c: char)
    requires d < 10
    ensures IsDigit(c)
  {
    (('0' as int) + d) as char
  }

  function DigitValue(c: char): (d: nat)
    requires IsDigit(c)
    ensures d < 10 && DigitChar(d) == c
  {
    (c as int) - ('0' as int)
  }

  /** Decimal text of a natural number, most significant digit first, no leading zeros. */
  function NatText(n: nat): (s: string)
    ensures |s| >= 1
    ensures forall i :: 0 <= i < |s| ==> IsDigit(s[i])
  {
    if n < 10 then [DigitChar(n)] else NatText(n / 10) + [DigitChar(n % 10)]
  }

  /** `${n}` for an integral JavaScript number. */
  function IntText(n: int): (s: string)
    ensures |s| >= 1
  {
    if n < 0 then "-" + NatText(-n) else NatText(n)
  }

  /** Reads back a non-empty string of digits. */
  function ParseNat(s: string): nat
    requires |s| >= 1
    requires forall i :: 0 <= i < |s| ==> IsDigit(s[i])
  {
    if |s| == 1 then DigitValue(s[0])
    else ParseNat(s[..|s| - 1]) * 10 + DigitValue(s[|s| - 1])
  }

  /** Printing then reading a natural number gives it back. */
  lemma {:induction false} ParseNatText(n: nat)
    ensures ParseNat(NatText(n)) == n
  {
    if n >= 10 {
      var s := NatText(n);
      assert s[..|s| - 1] == NatText(n / 10);
      ParseNatText(n / 10);
    }
  }

  /** Decimal text is injective: distinct numbers print differently. */
  lemma IntTextInjective(a: int, b: int)
    requires IntText(a) == IntText(b)
    ensures a == b
  {
    assert (a < 0) == (IntText(a)[0] == '-');
    assert (b < 0) == (IntText(b)[0] == '-');
    if a < 0 {
      assert NatText(-a) == IntText(a)[1..];
      ParseNatText(-a);
      ParseNatText(-b);
    } else {
      ParseNatText(a);
      ParseNatText(b);
    }
  }

  /** The first character of a three-digit number's text is its hundreds digit. */
  lemma LeadingDigitOfThreeDigits(n: nat)
    requires 100 <= n <= 999
    ensures NatText(n)[0] == DigitChar(n / 100)
  {
    assert NatText(n) == NatText(n / 10) + [DigitChar(n % 10)];
    assert NatText(n / 10) == NatText(n / 100) + [DigitChar((n / 10) % 10)];
    assert n / 10 / 10 == n / 100;
  }

  /** For HTTP status codes: the text starts with '4' exactly for 400 to 499. */
  lemma StartsWithFourIffClientCode(n: int)
    requires 100 <= n <= 999
    ensures StartsWith(IntText(n), "4") <==> 400 <= n <= 499
  {
    LeadingDigitOfThreeDigits(n);
    var d := n / 100;
    assert IntText(n)[0] == DigitChar(d);
    if StartsWith(IntText(n), "4") {
      assert IntText(n)[0] == '4';
      assert DigitValue(DigitChar(d)) == d;
    }
  }
}

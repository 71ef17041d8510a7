/**
 * `Number(s)` for a string: the StringToNumber operation of ECMA-262
 * (section 7.1.4.1.1). It accepts a StringNumericLiteral between optional
 * whitespace: an empty text, a signed decimal literal with optional point
 * and exponent, `Infinity`, or a `0x`, `0o` or `0b` integer; every other
 * text gives NaN.
 */
module JsNumbers {
  import opened Wrappers
  import opened JsValues
  import opened Decimal

  /**
   * A number value other than NaN: a finite value, kept exact (the rounding
   * to a double is not modelled), or one of the two infinities.
   */
  datatype Number = Finite(value: real) | Infinite(negative: bool)

  // ---- digits ----

  /** A digit of radix 2, 8, 10 or 16; hexadecimal letters in either case. */
  predicate IsRadixDigit(c: char, radix: nat) {
    if radix == 16 then IsDigit(c) || 'a' <= c <= 'f' || 'A' <= c <= 'F'
    else '0' <= c && (c as int) < ('0' as int) + radix && radix <= 10
  }

  function RadixDigitValue(c: char, radix: nat): (d: nat)
    requires IsRadixDigit(c, radix)
    ensures d < radix
  {
    if 'a' <= c <= 'f' then (c as int) - ('a' as int) + 10
    else if 'A' <= c <= 'F' then (c as int) - ('A' as int) + 10
    else (c as int) - ('0' as int)
  }

  predicate AllRadixDigits(s: string, radix: nat) {
    forall i :: 0 <= i < |s| ==> IsRadixDigit(s[i], radix)
  }

  /** The value of a digit string, most significant digit first; the empty string is 0. */
  function DigitsValue(s: string, radix: nat): nat
    requires AllRadixDigits(s, radix)
  {
    if s == [] then 0
    else DigitsValue(s[..|s| - 1], radix) * radix + RadixDigitValue(s[|s| - 1], radix)
  }

  /** In radix 10 the digit value is the one decimal text is read with. */
  lemma {:induction false} DecimalDigitsValue(s: string)
    requires |s| >= 1 && forall i :: 0 <= i < |s| ==> IsDigit(s[i])
    ensures AllRadixDigits(s, 10) && DigitsValue(s, 10) == ParseNat(s)
  {
    assert AllRadixDigits(s, 10);
    if |s| > 1 {
      DecimalDigitsValue(s[..|s| - 1]);
    }
  }

  function Pow10(n: nat): (p: nat)
    ensures p >= 1
  {
    if n == 0 then 1 else 10 * Pow10(n - 1)
  }

  /** `m × 10^e`, exactly. */
  function Scale(m: nat, e: int): real {
    if e >= 0 then (m * Pow10(e)) as real else m as real / Pow10(-e) as real
  }

  /** The index of the first occurrence of `a` or `b` in `s`, or `|s|`. */
  function IndexOf(s: string, a: char, b: char): (k: nat)
    ensures k <= |s|
    ensures forall j :: 0 <= j < k ==> s[j] != a && s[j] != b
    ensures k < |s| ==> s[k] == a || s[k] == b
  {
    if s == [] || s[0] == a || s[0] == b then 0 else 1 + IndexOf(s[1..], a, b)
  }

  // ---- the grammar ----

  /** ExponentPart after its `e`: an optional sign and at least one digit. */
  function ParseExponent(s: string): Option<int> {
    var signed := |s| >= 1 && (s[0] == '+' || s[0] == '-');
    var ds := if signed then s[1..] else s;
    if ds != [] && AllRadixDigits(ds, 10) then
      var v: int := DigitsValue(ds, 10);
      Some(if signed && s[0] == '-' then -v else v)
    else None
  }

  /**
   * The part before the exponent: digits with an optional point, digits on
   * at least one side; its digits read as one integer, and the number of
   * digits after the point.
   */
  function ParseMantissa(m: string): Option<(nat, nat)> {
    var p := IndexOf(m, '.', '.');
    var whole := m[..p];
    var fraction := if p < |m| then m[p + 1..] else [];
    if !AllRadixDigits(whole, 10) || !AllRadixDigits(fraction, 10) || (whole == [] && fraction == []) then None
    else
      assert AllRadixDigits(whole + fraction, 10);
      Some((DigitsValue(whole + fraction, 10), |fraction|))
  }

  /** StrUnsignedDecimalLiteral other than `Infinity`: a mantissa, then an optional exponent. */
  function ParseUnsignedDecimal(s: string): Option<real> {
    var k := IndexOf(s, 'e', 'E');
    match ParseMantissa(s[..k])
    case None => None
    case Some(mf) =>
      if k == |s| then Some(Scale(mf.0, -(mf.1 as int)))
      else
        match ParseExponent(s[k + 1..])
        case None => None
        case Some(e) => Some(Scale(mf.0, e - mf.1))
  }

  /** StrDecimalLiteral: an optional sign, then `Infinity` or an unsigned decimal. */
  function ParseDecimalLiteral(s: string): Option<Number> {
    var negative := |s| >= 1 && s[0] == '-';
    var body := if |s| >= 1 && (s[0] == '+' || s[0] == '-') then s[1..] else s;
    if body == "Infinity" then Some(Infinite(negative))
    else
      match ParseUnsignedDecimal(body)
      case None => None
      case Some(r) => Some(Finite(if negative then -r else r))
  }

  /** The radix a `0x`, `0o` or `0b` prefix announces, or 0 for no such prefix. */
  function PrefixRadix(s: string): nat {
    if |s| < 2 || s[0] != '0' then 0
    else if s[1] == 'x' || s[1] == 'X' then 16
    else if s[1] == 'o' || s[1] == 'O' then 8
    else if s[1] == 'b' || s[1] == 'B' then 2
    else 0
  }

  /** `Number(s)`: surrounding whitespace skipped, then the literal read; `None` stands for NaN. */
  function StringToNumber(s: string): Option<Number> {
    ReadNumber(s, true)
  }

  /** While `trimming`, whitespace at either end is dropped; then the rest is read as a literal. */
  function ReadNumber(s: string, trimming: bool): Option<Number>
    decreases |s|, trimming
  {
    if !trimming then NumericLiteral(s)
    else if s != [] && IsWhitespace(s[0]) then ReadNumber(s[1..], true)
    else if s != [] && IsWhitespace(s[|s| - 1]) then ReadNumber(s[..|s| - 1], true)
    else ReadNumber(s, false)
  }

  /** StringNumericLiteral without its surrounding whitespace. */
  function NumericLiteral(t: string): Option<Number> {
    if t == [] then Some(Finite(0.0))
    else if PrefixRadix(t) != 0 then
      var ds := t[2..];
      if ds != [] && AllRadixDigits(ds, PrefixRadix(t)) then Some(Finite(DigitsValue(ds, PrefixRadix(t)) as real))
      else None
    else ParseDecimalLiteral(t)
  }

  // ---- properties ----

  /** The characters a numeric literal can hold. */
  predicate NumericChar(c: char) {
    || IsRadixDigit(c, 16) || c == '+' || c == '-' || c == '.' || c == 'x' || c == 'X' || c == 'o' || c == 'O'
    || c == 'I' || c == 'n' || c == 'i' || c == 't' || c == 'y'
  }

  predicate AllNumeric(s: string) {
    forall i :: 0 <= i < |s| ==> NumericChar(s[i])
  }

  lemma NumericConcat(a: string, b: string)
    requires AllNumeric(a) && AllNumeric(b)
    ensures AllNumeric(a + b)
  {
    forall i | 0 <= i < |a + b| ensures NumericChar((a + b)[i]) {
      if i < |a| { assert (a + b)[i] == a[i]; } else { assert (a + b)[i] == b[i - |a|]; }
    }
  }

  /** A text of one character around which two numeric texts stand. */
  lemma NumericAround(s: string, k: nat)
    requires k < |s| && AllNumeric(s[..k]) && NumericChar(s[k]) && AllNumeric(s[k + 1..])
    ensures AllNumeric(s)
  {
    assert s == s[..k] + [s[k]] + s[k + 1..];
    NumericConcat(s[..k], [s[k]]);
    NumericConcat(s[..k] + [s[k]], s[k + 1..]);
  }

  lemma DigitsAreNumeric(s: string)
    requires AllRadixDigits(s, 10)
    ensures AllNumeric(s)
  {
  }

  lemma MantissaIsNumeric(m: string)
    requires ParseMantissa(m).Some?
    ensures AllNumeric(m)
  {
    var p := IndexOf(m, '.', '.');
    DigitsAreNumeric(m[..p]);
    if p < |m| {
      DigitsAreNumeric(m[p + 1..]);
      NumericAround(m, p);
    } else {
      assert m == m[..p];
    }
  }

  lemma ExponentIsNumeric(x: string)
    requires ParseExponent(x).Some?
    ensures AllNumeric(x)
  {
    if |x| >= 1 && (x[0] == '+' || x[0] == '-') {
      DigitsAreNumeric(x[1..]);
      NumericAround(x, 0);
    } else {
      DigitsAreNumeric(x);
    }
  }

  /** An accepted unsigned decimal is made of digits, a point, an exponent mark and an exponent sign. */
  lemma UnsignedDecimalIsNumeric(s: string)
    requires ParseUnsignedDecimal(s).Some?
    ensures AllNumeric(s)
  {
    var k := IndexOf(s, 'e', 'E');
    MantissaIsNumeric(s[..k]);
    if k < |s| {
      ExponentIsNumeric(s[k + 1..]);
      NumericAround(s, k);
    } else {
      assert s == s[..k];
    }
  }

  lemma DecimalLiteralIsNumeric(t: string)
    requires ParseDecimalLiteral(t).Some?
    ensures AllNumeric(t)
  {
    if |t| >= 1 && (t[0] == '+' || t[0] == '-') {
      var body := t[1..];
      if body == "Infinity" {
        assert AllNumeric(body);
      } else {
        UnsignedDecimalIsNumeric(body);
      }
      NumericAround(t, 0);
    } else if t == "Infinity" {
      assert AllNumeric(t);
    } else {
      UnsignedDecimalIsNumeric(t);
    }
  }

  /**
   * Whatever `Number` accepts is, once trimmed, made only of digits, signs,
   * a point, exponent and radix marks and the letters of `Infinity`; a text
   * holding any other character, such as a unit, is NaN.
   */
  lemma AcceptedTextIsNumeric(s: string)
    ensures StringToNumber(s).Some? ==> AllNumeric(Trim(s))
  {
    ReadsTrimmedLiteral(s);
    LiteralIsNumeric(Trim(s));
  }

  /** `Number(s)` reads the literal `s.trim()` leaves. */
  lemma {:induction false} ReadsTrimmedLiteral(s: string)
    ensures StringToNumber(s) == NumericLiteral(Trim(s))
    decreases |s|
  {
    assert ReadNumber(s, false) == NumericLiteral(s);
    if s != [] && IsWhitespace(s[0]) {
      ReadsTrimmedLiteral(s[1..]);
      assert TrimStart(s) == TrimStart(s[1..]);
    } else if s != [] && IsWhitespace(s[|s| - 1]) {
      var u := s[..|s| - 1];
      ReadsTrimmedLiteral(u);
      assert |s| >= 2;
      assert TrimStart(s) == s && TrimStart(u) == u;
      assert TrimEnd(s) == TrimEnd(u);
    } else {
      TrimOfTrimmed(s);
    }
  }

  lemma LiteralIsNumeric(t: string)
    ensures NumericLiteral(t).Some? ==> AllNumeric(t)
  {
    if NumericLiteral(t).Some? && t != [] {
      if PrefixRadix(t) != 0 {
        assert NumericChar(t[1]) && AllNumeric(t[..1]);
        assert AllRadixDigits(t[2..], PrefixRadix(t));
        NumericAround(t, 1);
      } else {
        DecimalLiteralIsNumeric(t);
      }
    }
  }

  /** A trimmed text is its own trim. */
  lemma TrimOfTrimmed(s: string)
    requires s == [] || (!IsWhitespace(s[0]) && !IsWhitespace(s[|s| - 1]))
    ensures Trim(s) == s
  {
    TrimShape(s);
  }

  /** The decimal text of a natural number reads as an unsigned decimal without point or exponent. */
  lemma NatTextIsUnsignedDecimal(m: nat)
    ensures ParseUnsignedDecimal(NatText(m)) == Some(m as real)
  {
    var digits := NatText(m);
    assert IndexOf(digits, 'e', 'E') == |digits|;
    assert digits[..|digits|] == digits;
    assert IndexOf(digits, '.', '.') == |digits|;
    DecimalDigitsValue(digits);
    ParseNatText(m);
    assert digits + [] == digits;
    assert ParseMantissa(digits) == Some((m, 0));
  }

  /** An integer's decimal text is a decimal literal of that integer. */
  lemma IntTextIsDecimalLiteral(n: int)
    ensures ParseDecimalLiteral(IntText(n)) == Some(Finite(n as real))
  {
    var t := IntText(n);
    var m: nat := if n < 0 then -n else n;
    NatTextIsUnsignedDecimal(m);
    if n < 0 {
      assert t[0] == '-' && t[1..] == NatText(m);
    } else {
      assert t == NatText(m) && IsDigit(t[0]);
    }
  }

  /** An integer's decimal text reads back as that integer. */
  lemma IntTextRoundTrip(n: int)
    ensures StringToNumber(IntText(n)) == Some(Finite(n as real))
  {
    var t := IntText(n);
    var m: nat := if n < 0 then -n else n;
    var digits := NatText(m);
    assert t == (if n < 0 then "-" + digits else digits);
    assert |t| >= 2 ==> IsDigit(t[1]);
    assert PrefixRadix(t) == 0;
    IntTextIsDecimalLiteral(n);
    assert NumericLiteral(t) == Some(Finite(n as real));
    assert IsDigit(t[|t| - 1]) && (IsDigit(t[0]) || t[0] == '-');
    UnpaddedReadsLiteral(t);
  }

  /** A text without whitespace at either end is read as a literal as it stands. */
  lemma UnpaddedReadsLiteral(s: string)
    requires s == [] || (!IsWhitespace(s[0]) && !IsWhitespace(s[|s| - 1]))
    ensures StringToNumber(s) == NumericLiteral(s)
  {
    assert ReadNumber(s, false) == NumericLiteral(s);
  }

  /** A fraction is read exactly. */
  lemma FractionExample()
    ensures NumericLiteral("2.5") == Some(Finite(2.5))
  {
    var t := "2.5";
    assert IndexOf(t, 'e', 'E') == 3;
    assert t[..3] == t;
    assert IndexOf(t, '.', '.') == 1;
    assert t[..1] == "2" && t[2..] == "5";
    assert AllRadixDigits("2", 10) && AllRadixDigits("5", 10);
    assert "2" + "5" == "25";
    assert DigitsValue("2", 10) == 2;
    assert DigitsValue("25", 10) == 25;
    assert ParseMantissa(t) == Some((25, 1));
    assert ParseUnsignedDecimal(t) == Some(Scale(25, -1));
  }

  /** An exponent scales the mantissa. */
  lemma ExponentExample()
    ensures NumericLiteral("1e3") == Some(Finite(1000.0))
  {
    var t := "1e3";
    assert IndexOf(t, 'e', 'E') == 1;
    assert t[..1] == "1" && t[2..] == "3";
    assert IndexOf("1", '.', '.') == 1;
    assert "1"[..1] == "1" && "1" + [] == "1";
    assert DigitsValue("1", 10) == 1;
    assert ParseMantissa("1") == Some((1, 0));
    assert DigitsValue("3", 10) == 3;
    assert ParseExponent("3") == Some(3);
    assert ParseUnsignedDecimal(t) == Some(Scale(1, 3));
  }

  /** A hexadecimal integer is read in radix 16. */
  lemma HexExample()
    ensures NumericLiteral("0x1F") == Some(Finite(31.0))
  {
    var t := "0x1F";
    assert PrefixRadix(t) == 16;
    assert t[2..] == "1F";
    assert "1F"[..1] == "1";
    assert DigitsValue("1", 16) == 1;
    assert DigitsValue("1F", 16) == 31;
  }

  /** A bare point or sign is NaN, and `-Infinity` is the negative infinity. */
  lemma DegenerateExamples()
    ensures NumericLiteral(".").None? && NumericLiteral("-").None?
    ensures NumericLiteral("-Infinity") == Some(Infinite(true))
  {
    assert "-"[1..] == [];
    assert "-Infinity"[1..] == "Infinity";
    assert IndexOf(".", 'e', 'E') == 1;
    assert "."[..1] == ".";
    assert IndexOf(".", '.', '.') == 0;
    assert "."[1..] == [];
    assert IndexOf([], 'e', 'E') == 0;
  }

  /** A text holding, once trimmed, a character no numeric literal has is NaN. */
  lemma NonNumericIsNaN(s: string, i: nat)
    requires i < |Trim(s)| && !NumericChar(Trim(s)[i])
    ensures StringToNumber(s).None?
  {
    AcceptedTextIsNumeric(s);
  }

  /** A number followed by a unit is NaN. */
  lemma UnitSuffixIsNaN()
    ensures StringToNumber("100 sqm").None?
  {
    UnpaddedNonNumericIsNaN("100 sqm", 3);
  }

  /** A text without whitespace at its ends holding a non-numeric character is NaN. */
  lemma UnpaddedNonNumericIsNaN(s: string, i: nat)
    requires i < |s| && !IsWhitespace(s[0]) && !IsWhitespace(s[|s| - 1]) && !NumericChar(s[i])
    ensures StringToNumber(s).None?
  {
    UnpaddedReadsLiteral(s);
    LiteralIsNumeric(s);
  }
}

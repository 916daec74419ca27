/**
 * Decimal text and the number parsing the source relies on: `parseInt` on
 * digit-only strings, `parseFloat` on strings of digits and dots, and
 * `Number.prototype.toString` on integers. Values are exact (no IEEE rounding).
 */
module Numeric {
  import opened Wrappers

  /**
   * A JavaScript number that may be NaN.  The game session keeps exact
   * decimals (`JsNumber<real>`), the server's wallet entries whole amounts
   * (`JsNumber<int>`).
   */
  datatype JsNumber<N> = Num(value: N) | NaN

  predicate IsDigit(c: char) {
    '0' <= c <= '9'
  }

  predicate AllDigits(s: string) {
    forall i :: 0 <= i < |s| ==> IsDigit(s[i])
  }

  function DigitValue(c: char): (d: nat)
    requires IsDigit(c)
    ensures d <= 9
  {
    c as int - '0' as int
  }

  function DigitChar(d: nat): (c: char)
    requires d <= 9
    ensures IsDigit(c) && DigitValue(c) == d
  {
    ('0' as int + d) as char
  }

  /** The value of a decimal digit string, most significant digit first; "" is 0. */
  function DigitsValue(s: string): nat
    requires AllDigits(s)
  {
    if s == [] then 0 else DigitsValue(s[..|s| - 1]) * 10 + DigitValue(s[|s| - 1])
  }

  function Pow10(n: nat): (p: nat)
    ensures p >= 1
  {
    if n == 0 then 1 else 10 * Pow10(n - 1)
  }

  /** The value of the digits after a decimal point: b / 10^|b|. */
  function Fraction(b: string): real
    requires AllDigits(b)
  {
    DigitsValue(b) as real / Pow10(|b|) as real
  }

  /** The decimal text of a natural number, as `toString` writes it: no leading zeros. */
  function NatText(n: nat): (s: string)
    ensures AllDigits(s) && |s| >= 1
    ensures |s| > 1 ==> s[0] != '0'
  {
    if n < 10 then [DigitChar(n)] else NatText(n / 10) + [DigitChar(n % 10)]
  }

  /** The decimal text of an integer: a minus sign before negative values. */
  function IntText(i: int): string {
    if i < 0 then "-" + NatText(-i) else NatText(i)
  }

  lemma DigitsValueSnoc(s: string, c: char)
    requires AllDigits(s) && IsDigit(c)
    ensures AllDigits(s + [c]) && DigitsValue(s + [c]) == DigitsValue(s) * 10 + DigitValue(c)
  {
    assert (s + [c])[..|s|] == s;
  }

  /** Parsing the text that `toString` writes gives the number back. */
  lemma {:induction false} NatTextRoundTrip(n: nat)
    ensures DigitsValue(NatText(n)) == n
  {
    if n >= 10 {
      NatTextRoundTrip(n / 10);
      DigitsValueSnoc(NatText(n / 10), DigitChar(n % 10));
    }
  }

  /** The number of leading decimal digits of s. */
  function LeadingDigits(s: string): (n: nat)
    ensures n <= |s|
    ensures AllDigits(s[..n])
    ensures n < |s| ==> !IsDigit(s[n])
  {
    if s == [] || !IsDigit(s[0]) then 0
    else
      var k := LeadingDigits(s[1..]);
      assert s[..1 + k] == [s[0]] + s[1..][..k];
      1 + k
  }

  /**
   * JavaScript's parseFloat on a string of digits and dots: the value of the
   * longest prefix of the form digits [ "." digits ] holding at least one digit
   * (ParseDecimalOfFraction, ParseDecimalOfDigits);
   * None stands for NaN.
   */
  function ParseDecimal(s: string): (r: Option<real>)
    ensures r.Some? ==> r.value >= 0.0
  {
    var n := LeadingDigits(s);
    var whole := DigitsValue(s[..n]) as real;
    if n < |s| && s[n] == '.' then
      var rest := s[n + 1..];
      var m := LeadingDigits(rest);
      if n == 0 && m == 0 then None
      else Some(whole + Fraction(rest[..m]))
    else if n == 0 then None
    else Some(whole)
  }

  lemma {:induction false} LeadingDigitsOfDigits(s: string)
    requires AllDigits(s)
    ensures LeadingDigits(s) == |s|
  {
    if s != [] {
      LeadingDigitsOfDigits(s[1..]);
    }
  }

  /** On a non-empty digit string, parseFloat reads the whole string as an integer. */
  lemma ParseDecimalOfDigits(s: string)
    requires AllDigits(s) && s != ""
    ensures ParseDecimal(s) == Some(DigitsValue(s) as real)
  {
    LeadingDigitsOfDigits(s);
    assert s[..|s|] == s;
  }

  /** The leading digits end where the first non-digit begins. */
  lemma {:induction false} LeadingDigitsStop(a: string, t: string)
    requires AllDigits(a) && t != [] && !IsDigit(t[0])
    ensures LeadingDigits(a + t) == |a|
  {
    if a == [] {
      assert a + t == t;
    } else {
      assert (a + t)[0] == a[0];
      assert (a + t)[1..] == a[1..] + t;
      LeadingDigitsStop(a[1..], t);
    }
  }

  /** parseFloat on text whose only non-digit is a dot at index k. */
  lemma ParseDecimalAtDot(s: string, k: nat)
    requires k < |s| && s[k] == '.' && AllDigits(s[..k]) && AllDigits(s[k + 1..]) && |s| > 1
    ensures ParseDecimal(s) == Some(DigitsValue(s[..k]) as real + Fraction(s[k + 1..]))
  {
    assert s == s[..k] + s[k..];
    LeadingDigitsStop(s[..k], s[k..]);
    LeadingDigitsOfDigits(s[k + 1..]);
    assert s[k + 1..][..|s| - k - 1] == s[k + 1..];
  }

  /**
   * parseFloat on digits, a dot and digits, at least one digit in all: the
   * whole part plus the fraction b / 10^|b|. Either part may be empty
   * ("5." is 5, ".5" is 0.5).
   */
  lemma ParseDecimalOfFraction(a: string, b: string)
    requires AllDigits(a) && AllDigits(b) && |a| + |b| > 0
    ensures var r := ParseDecimal(a + "." + b);
      r.Some? && r.value == DigitsValue(a) as real + Fraction(b)
  {
    var s := a + "." + b;
    assert s[..|a|] == a && s[|a|] == '.' && s[|a| + 1..] == b;
    ParseDecimalAtDot(s, |a|);
  }

  /**
   * On text of digits and dots, parseFloat gives NaN exactly when no digit
   * comes before the second dot or the end: the text is "", "." or starts with "..".
   */
  lemma ParseDecimalNaN(s: string)
    requires forall i :: 0 <= i < |s| ==> IsDigit(s[i]) || s[i] == '.'
    ensures ParseDecimal(s).None? <==> |s| == 0 || (s[0] == '.' && (|s| == 1 || s[1] == '.'))
  {
    if |s| > 0 && s[0] == '.' {
      assert LeadingDigits(s) == 0;
      if |s| > 1 {
        assert s[1..][0] == s[1];
      }
    }
  }

  /** "1.5" reads as 1.5; ".", "" and "..5" read as NaN. */
  lemma ParseDecimalExamples()
    ensures ParseDecimal("1.5").Some? && ParseDecimal("1.5").value == 1.5
    ensures ParseDecimal(".").None? && ParseDecimal("").None? && ParseDecimal("..5").None?
  {
    assert "1" + "." + "5" == "1.5";
    assert DigitsValue("1") == 1 by {
      assert "1"[..0] == "";
    }
    assert DigitsValue("5") == 5 by {
      assert "5"[..0] == "";
    }
    ParseDecimalOfFraction("1", "5");
    ParseDecimalNaN(".");
    ParseDecimalNaN("");
    ParseDecimalNaN("..5");
  }
}

/**
 * The two ways the components turn text into numbers: Number.parseFloat
 * (the longest decimal prefix, after leading white space) and Number(...)
 * (the whole trimmed text must be a decimal literal; the empty text is 0).
 * NaN is None. Values are exact reals.
 */
module JsNumbers {
  import opened Common

  predicate IsDigit(c: char) {
    '0' <= c <= '9'
  }

  predicate AllDigits(s: string) {
    forall i :: 0 <= i < |s| ==> IsDigit(s[i])
  }

  /** Length of the run of decimal digits at the start of s. */
  function DigitRun(s: string): (n: nat)
    ensures n <= |s|
    ensures AllDigits(s[..n])
    ensures n < |s| ==> !IsDigit(s[n])
  {
    if s != [] && IsDigit(s[0]) then 1 + DigitRun(s[1..]) else 0
  }

  /** The value of a string of decimal digits. */
  function DigitsValue(s: string): nat
    requires AllDigits(s)
  {
    if s == [] then 0
    else 10 * DigitsValue(s[..|s| - 1]) + (s[|s| - 1] as int - '0' as int)
  }

  /** The value of the digits after a decimal point: "25" is 0.25. */
  function FractionValue(s: string): (r: real)
    requires AllDigits(s)
    ensures 0.0 <= r <= 1.0
  {
    if s == [] then 0.0
    else ((s[0] as int - '0' as int) as real + FractionValue(s[1..])) / 10.0
  }

  /**
   * The longest unsigned decimal literal at the start of s, as (value,
   * length): digits, optionally followed by '.' and more digits, or '.'
   * followed by at least one digit.
   */
  function ScanUnsigned(s: string): (r: Option<(real, nat)>)
    ensures r.Some? ==> 0 < r.value.1 <= |s| && r.value.0 >= 0.0
  {
    var a := DigitRun(s);
    if a < |s| && s[a] == '.' then
      var b := DigitRun(s[a + 1..]);
      if a == 0 && b == 0 then None
      else
        var whole := DigitsValue(s[..a]) as real;
        var frac := FractionValue(s[a + 1..][..b]);
        Some((whole + frac, a + 1 + b))
    else if a == 0 then None
    else Some((DigitsValue(s[..a]) as real, a))
  }

  /** A decimal literal with an optional sign at the start of s. */
  function ScanDecimal(s: string): (r: Option<(real, nat)>)
    ensures r.Some? ==> 0 < r.value.1 <= |s|
  {
    if s != [] && (s[0] == '-' || s[0] == '+') then
      match ScanUnsigned(s[1..])
      case None => None
      case Some(p) => Some((if s[0] == '-' then -p.0 else p.0, p.1 + 1))
    else ScanUnsigned(s)
  }

  /** Number.parseFloat (exponents and "Infinity" are not recognised). */
  function ParseFloat(s: string): Option<real> {
    match ScanDecimal(TrimStart(s))
    case None => None
    case Some(p) => Some(p.0)
  }

  /** Number(s), the conversion `isNaN(Number(x))` tests (no exponents, hex or "Infinity"). */
  function ToNumber(s: string): Option<real> {
    var t := Trim(s);
    if t == [] then Some(0.0)
    else match ScanDecimal(t)
      case Some(p) => if p.1 == |t| then Some(p.0) else None
      case None => None
  }

  /** `Number.parseFloat(s) || 0`: NaN (and 0) become 0. */
  function ParseFloatOrZero(s: string): real {
    ParseFloat(s).GetOr(0.0)
  }

  // ---------------------------------------------------------------------
  // Round trips with the decimal printer of Common
  // ---------------------------------------------------------------------

  lemma {:induction false} DigitRunAllDigits(s: string)
    requires AllDigits(s)
    ensures DigitRun(s) == |s|
  {
    if s != [] {
      DigitRunAllDigits(s[1..]);
    }
  }

  lemma {:induction false} DigitsValueOfNatToString(n: nat)
    ensures AllDigits(NatToString(n)) && DigitsValue(NatToString(n)) == n
  {
    var s := NatToString(n);
    if n >= 10 {
      DigitsValueOfNatToString(n / 10);
      assert s[..|s| - 1] == NatToString(n / 10);
    }
  }

  lemma ScanUnsignedDigits(s: string)
    requires s != [] && AllDigits(s)
    ensures ScanUnsigned(s) == Some((DigitsValue(s) as real, |s|))
  {
    DigitRunAllDigits(s);
    assert s[..|s|] == s;
  }

  /** A non-empty run of digits scans as a whole, with its digit value. */
  lemma ScanDigits(s: string)
    requires s != [] && AllDigits(s)
    ensures ScanDecimal(s) == Some((DigitsValue(s) as real, |s|))
  {
    ScanUnsignedDigits(s);
    assert IsDigit(s[0]);
  }

  /** A minus sign and a non-empty run of digits scan as a whole, with minus the digit value. */
  lemma ScanMinusDigits(s: string)
    requires s != [] && AllDigits(s)
    ensures ScanDecimal("-" + s) == Some((-(DigitsValue(s) as real), |s| + 1))
  {
    ScanUnsignedDigits(s);
    var m := "-" + s;
    assert m[0] == '-' && m[1..] == s;
  }

  /** parseFloat of a non-empty run of digits is its digit value. */
  lemma ParseFloatDigits(s: string)
    requires s != [] && AllDigits(s)
    ensures ParseFloat(s) == Some(DigitsValue(s) as real)
  {
    ScanDigits(s);
    assert IsDigit(s[0]);
    assert TrimStart(s) == s;
  }

  /** Printing a natural number and parsing it back gives the number. */
  lemma ParseFloatNatToString(n: nat)
    ensures ParseFloat(NatToString(n)) == Some(n as real)
  {
    DigitsValueOfNatToString(n);
    ParseFloatDigits(NatToString(n));
  }

  lemma TrimUnspaced(s: string)
    requires s != [] && !IsSpace(s[0]) && !IsSpace(s[|s| - 1])
    ensures Trim(s) == s
  {
    assert TrimStart(s) == s;
    assert TrimEnd(s) == s;
  }

  /** Text with no space at either end that scans completely has that value. */
  lemma ToNumberWhole(t: string, v: real)
    requires t != [] && Trim(t) == t && ScanDecimal(t) == Some((v, |t|))
    ensures ToNumber(t) == Some(v)
  {
  }

  /** Number(...) of a non-empty run of digits is its digit value. */
  lemma ToNumberDigits(s: string)
    requires s != [] && AllDigits(s)
    ensures ToNumber(s) == Some(DigitsValue(s) as real)
  {
    ScanDigits(s);
    assert IsDigit(s[0]) && IsDigit(s[|s| - 1]);
    TrimUnspaced(s);
    ToNumberWhole(s, DigitsValue(s) as real);
  }

  /** Number(...) of a minus sign and a non-empty run of digits is minus its value. */
  lemma ToNumberMinusDigits(s: string)
    requires s != [] && AllDigits(s)
    ensures ToNumber("-" + s) == Some(-(DigitsValue(s) as real))
  {
    var m := "-" + s;
    ScanMinusDigits(s);
    assert m[0] == '-' && m[|m| - 1] == s[|s| - 1];
    assert IsDigit(s[|s| - 1]);
    TrimUnspaced(m);
    ToNumberWhole(m, -(DigitsValue(s) as real));
  }

  /** Number(...) reads back a printed natural number. */
  lemma ToNumberNatToString(n: nat)
    ensures ToNumber(NatToString(n)) == Some(n as real)
  {
    DigitsValueOfNatToString(n);
    ToNumberDigits(NatToString(n));
  }

  /**
   * Text that does not start (after white space) with a sign, digit, '.' or
   * the word Infinity is NaN.
   */
  lemma ParseFloatNonNumeric(s: string)
    requires TrimStart(s) != [] && !IsDigit(TrimStart(s)[0])
    requires TrimStart(s)[0] != '+' && TrimStart(s)[0] != '-' && TrimStart(s)[0] != '.'
    requires !("Infinity" <= TrimStart(s))
    ensures ParseFloat(s) == None && ParseFloatOrZero(s) == 0.0
  {
    ScanNonNumeric(TrimStart(s));
  }

  lemma ScanNonNumeric(t: string)
    requires t != [] && !IsDigit(t[0]) && t[0] != '+' && t[0] != '-' && t[0] != '.'
    ensures ScanDecimal(t) == None
  {
    assert DigitRun(t) == 0;
  }
}

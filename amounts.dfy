/** `parseFloat` as the add-forms use it on the amount they read from a text
    field, on exact reals. `None` stands for `NaN`. */
module Amounts {
  import opened Text
  import opened Seqs

  function Pow10Real(k: nat): (r: real)
    ensures r >= 1.0
  {
    if k == 0 then 1.0 else 10.0 * Pow10Real(k - 1)
  }

  /** Digits `ip` before and `fp` after a decimal point. */
  function DecimalValue(ip: string, fp: string): (r: real)
    requires AllDigits(ip) && AllDigits(fp)
    ensures r >= 0.0
  {
    Value(ip) as real + Value(fp) as real / Pow10Real(|fp|)
  }

  /** An optional exponent part `e`/`E`, optional sign, one or more digits; the
      factor it stands for, or 1 when the text does not start with one. */
  function ExponentFactor(s: string): (r: real)
    ensures r > 0.0
  {
    if s == [] || (s[0] != 'e' && s[0] != 'E') then 1.0
    else
      var negative := |s| > 1 && s[1] == '-';
      var start := if |s| > 1 && (s[1] == '-' || s[1] == '+') then 2 else 1;
      var ds := LeadingDigits(s[start..]);
      if ds == [] then 1.0
      else if negative then 1.0 / Pow10Real(Value(ds))
      else Pow10Real(Value(ds))
  }

  /** `parseFloat(s)`: leading white space is skipped, then the longest prefix
      that reads as a signed decimal number is taken; `None` when there is none,
      as for a blank text. A text whose first character past the white space
      is a minus sign never reads as a positive amount. */
  function ParseFloat(s: string): (r: Option<real>)
    ensures TrimStart(s) == [] ==> r.None?
    ensures TrimStart(s) != [] && TrimStart(s)[0] == '-' ==> !IsPositiveAmount(r)
  {
    ParseSigned(TrimStart(s))
  }

  function ParseSigned(t: string): Option<real> {
    if t != [] && t[0] == '-' then
      match ParseUnsigned(t[1..])
      case None => None
      case Some(x) => Some(-x)
    else if t != [] && t[0] == '+' then ParseUnsigned(t[1..])
    else ParseUnsigned(t)
  }

  function ParseUnsigned(u: string): (r: Option<real>)
    ensures r.Some? ==> r.value >= 0.0
  {
    var ip := LeadingDigits(u);
    ParseFraction(ip, u[|ip|..])
  }

  function ParseFraction(ip: string, rest: string): (r: Option<real>)
    requires AllDigits(ip)
    ensures r.Some? ==> r.value >= 0.0
  {
    if rest != [] && rest[0] == '.' then
      var fp := LeadingDigits(rest[1..]);
      Finish(ip, fp, rest[1 + |fp|..])
    else Finish(ip, "", rest)
  }

  /** At least one digit before or after the point, then an optional exponent. */
  function Finish(ip: string, fp: string, rest: string): (r: Option<real>)
    requires AllDigits(ip) && AllDigits(fp)
    ensures r.Some? ==> r.value >= 0.0
  {
    if ip == [] && fp == [] then None
    else Some(DecimalValue(ip, fp) * ExponentFactor(rest))
  }

  /** A text with no digit at all reads as `NaN`; the empty field is one. */
  lemma NoDigitsIsNaN(s: string)
    requires Digits(s) == ""
    ensures ParseFloat(s) == None
  {
    var t := TrimStart(s);
    NoDigitsInSuffix(s, t);
    if t != [] && (t[0] == '-' || t[0] == '+') {
      NoDigitsInSuffix(s, t[1..]);
      NoDigitsUnsigned(t[1..]);
    } else {
      NoDigitsUnsigned(t);
    }
  }

  lemma NoDigitsUnsigned(u: string)
    requires forall i :: 0 <= i < |u| ==> !IsDigit(u[i])
    ensures ParseUnsigned(u) == None
  {
    assert LeadingDigits(u) == [];
    assert u[0..] == u;
    if u != [] && u[0] == '.' {
      assert u[1..] == [] || !IsDigit(u[1..][0]);
      assert LeadingDigits(u[1..]) == [];
    }
  }

  /** A string without digits has no digit in a suffix of it either. */
  lemma NoDigitsInSuffix(s: string, t: string)
    requires Digits(s) == ""
    requires |t| <= |s| && t == s[|s| - |t|..]
    ensures forall i :: 0 <= i < |t| ==> !IsDigit(t[i])
  {
    forall i | 0 <= i < |t| ensures !IsDigit(t[i]) {
      assert t[i] == s[|s| - |t| + i];
      NoDigitAt(s, |s| - |t| + i);
    }
  }

  lemma {:induction false} NoDigitAt(s: string, k: nat)
    requires Digits(s) == "" && k < |s|
    ensures !IsDigit(s[k])
  {
    assert !IsDigit(s[0]);
    if k > 0 {
      NoDigitAt(s[1..], k - 1);
    }
  }

  lemma ParseDigits(ds: string)
    requires ds != [] && AllDigits(ds)
    ensures ParseUnsigned(ds) == Some(Value(ds) as real)
  {
    LeadingDigitsAppend(ds, "");
    assert ds + "" == ds;
    assert ds[|ds|..] == "";
    assert ParseFraction(ds, "") == Finish(ds, "", "");
    assert ExponentFactor("") == 1.0;
    assert DecimalValue(ds, "") == Value(ds) as real;
  }

  /** A decimal numeral reads as its value. */
  lemma ParseDecimal(n: nat)
    ensures ParseFloat(Decimal(n)) == Some(n as real)
  {
    var d := Decimal(n);
    assert TrimStart(d) == d;
    ParseDigits(d);
  }

  /** A minus sign makes the amount negative, so the `> 0` checks reject it. */
  lemma ParseNegative(n: nat)
    ensures ParseFloat("-" + Decimal(n)) == Some(-(n as real))
  {
    var s := "-" + Decimal(n);
    assert TrimStart(s) == s;
    assert s[1..] == Decimal(n);
    ParseDigits(Decimal(n));
  }

  /** `parseFloat` reads a prefix and ignores the text after it ("12.5abc" is 12.5). */
  lemma TrailingTextIgnored(ip: string, fp: string, rest: string)
    requires ip != [] && AllDigits(ip) && AllDigits(fp)
    requires rest == [] || (!IsDigit(rest[0]) && rest[0] != 'e' && rest[0] != 'E')
    ensures ParseUnsigned(ip + "." + fp + rest) == Some(DecimalValue(ip, fp))
  {
    var tail := "." + fp + rest;
    var u := ip + tail;
    assert ip + "." + fp + rest == u;
    LeadingDigitsAppend(ip, tail);
    assert u[|ip|..] == tail;
    assert tail[1..] == fp + rest;
    LeadingDigitsAppend(fp, rest);
    assert tail[1 + |fp|..] == rest;
    assert ParseUnsigned(u) == ParseFraction(ip, tail);
    assert ParseFraction(ip, tail) == Finish(ip, fp, rest);
    assert ExponentFactor(rest) == 1.0;
  }

  /** The amount checks of the add-forms: the text reads as a number and it is positive. */
  predicate IsPositiveAmount(r: Option<real>) {
    r.Some? && r.value > 0.0
  }
}

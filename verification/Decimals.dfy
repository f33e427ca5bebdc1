/** Amounts as decimal text, parsed to and printed from whole units. */
module Decimals {
  import opened Basics
  import opened Numerals

  /** Digits, and behind a dot one or more digits: `\d+(?:\.\d+)?`. */
  predicate PlainDecimal(s: string) {
    var i := IndexOf(s, '.');
    && i > 0 && AllDigits(s[..i])
    && (i < |s| ==> i + 1 < |s| && AllDigits(s[i + 1..]))
  }

  function WholePart(s: string): string { s[..IndexOf(s, '.')] }

  function FractionPart(s: string): string {
    var i := IndexOf(s, '.');
    if i < |s| then s[i + 1..] else ""
  }

  function Unsigned(s: string): string { if s != "" && s[0] == '-' then s[1..] else s }

  function Signed(negative: bool, units: nat): int { if negative then 0 - units else units }

  /** A plain decimal in units of ten to the minus `scale`. */
  function ParseUnits(unsigned: string, scale: nat): Option<nat> {
    if !PlainDecimal(unsigned) then None
    else
      var whole, fraction := WholePart(unsigned), FractionPart(unsigned);
      if |fraction| > scale then None
      else Some(NatValue(whole) * Pow10(scale) + NatValue((fraction + Zeros(scale))[..scale]))
  }

  /** `parseDecimal`. */
  function ParseDecimal(value: string, scale: nat): Option<int> {
    var text := Trim(value);
    match ParseUnits(Unsigned(text), scale)
    case None => None
    case Some(units) => Some(Signed(text != Unsigned(text), units))
  }

  function PadStart(s: string, n: nat): string { if |s| < n then Zeros(n - |s|) + s else s }

  function Div(a: nat, d: nat): (q: nat)
    requires d >= 1
    ensures q == a / d
  {
    a / d
  }

  function Mod(a: nat, d: nat): (r: nat)
    requires d >= 1
    ensures r == a % d && r < d && a == Div(a, d) * d + r
  {
    a % d
  }

  function Magnitude(value: int): nat { if value < 0 then -value else value }

  function Sign(value: int): string { if value < 0 then "-" else "" }

  /** `formatDecimal`. */
  function FormatDecimal(value: int, scale: nat): string {
    var absolute := Magnitude(value);
    Sign(value) + NatText(Div(absolute, Pow10(scale))) + "." + PadStart(NatText(Mod(absolute, Pow10(scale))), scale)
  }

  /** The digits of a plain decimal, as units. */
  function Units(whole: string, fraction: string, scale: nat): nat
    requires AllDigits(whole) && AllDigits(fraction) && |fraction| <= scale
  {
    NatValue(whole) * Pow10(scale) + NatValue(fraction) * Pow10(scale - |fraction|)
  }

  lemma PaddedFraction(fraction: string, scale: nat)
    requires AllDigits(fraction) && |fraction| <= scale
    ensures AllDigits((fraction + Zeros(scale))[..scale])
    ensures NatValue((fraction + Zeros(scale))[..scale]) == NatValue(fraction) * Pow10(scale - |fraction|)
  {
    hide Zeros, NatValue, Pow10;
    var pad := Zeros(scale - |fraction|);
    ZerosPrefix(scale, scale - |fraction|);
    assert (fraction + Zeros(scale))[..scale] == fraction + pad;
    NatValueConcat(fraction, pad);
    ZerosValue(scale - |fraction|);
  }

  function Body(whole: string, fraction: string): string { whole + (if fraction == "" then "" else "." + fraction) }

  /** The parse is exact: a text means its sign times the number its digits
      spell, scaled, however it is padded with white space or zeros. */
  lemma ParseIsExact(value: string, negative: bool, whole: string, fraction: string, scale: nat)
    requires Trim(value) == (if negative then "-" else "") + Body(whole, fraction)
    requires whole != "" && AllDigits(whole) && AllDigits(fraction)
    ensures |fraction| > scale ==> ParseDecimal(value, scale) == None
    ensures |fraction| <= scale ==>
              ParseDecimal(value, scale) == Some(Signed(negative, Units(whole, fraction, scale)))
  {
    hide ParseUnits, NatValue, Pow10, PlainDecimal;
    UnsignedBody(negative, whole, fraction);
    UnitsAreExact(whole, fraction, scale);
  }

  lemma UnitsAreExact(whole: string, fraction: string, scale: nat)
    requires whole != "" && AllDigits(whole) && AllDigits(fraction)
    ensures ParseUnits(Body(whole, fraction), scale)
              == if |fraction| > scale then None else Some(Units(whole, fraction, scale))
  {
    hide Zeros, NatValue, Pow10, Body;
    SplitAtDot(whole, fraction);
    if |fraction| <= scale {
      PaddedFraction(fraction, scale);
    }
  }

  lemma UnsignedBody(negative: bool, whole: string, fraction: string)
    requires whole != "" && AllDigits(whole)
    ensures var text := (if negative then "-" else "") + Body(whole, fraction);
            Unsigned(text) == Body(whole, fraction) && (text == Unsigned(text) <==> !negative)
  {
    assert Body(whole, fraction)[0] == whole[0];
  }

  lemma SplitAtDot(whole: string, fraction: string)
    requires whole != "" && AllDigits(whole) && AllDigits(fraction)
    ensures var body := Body(whole, fraction);
            PlainDecimal(body) && WholePart(body) == whole && FractionPart(body) == fraction
  {
    var body := Body(whole, fraction);
    if fraction == "" {
      assert body == whole;
      assert forall i :: 0 <= i < |whole| ==> IsDigit(whole[i]);
    } else {
      IndexOfAfter(whole, '.', fraction);
      assert body == whole + ['.'] + fraction;
    }
  }

  lemma {:induction false} ZerosPrefix(n: nat, m: nat)
    requires m <= n
    ensures Zeros(n)[..m] == Zeros(m)
  {
    if m > 0 {
      ZerosPrefix(n - 1, m - 1);
    }
  }

  lemma PadStartValue(s: string, n: nat)
    requires AllDigits(s) && |s| <= n
    ensures |PadStart(s, n)| == n && AllDigits(PadStart(s, n)) && NatValue(PadStart(s, n)) == NatValue(s)
  {
    if |s| < n {
      NatValueConcat(Zeros(n - |s|), s);
      ZerosValue(n - |s|);
    }
  }

  lemma FormatShape(value: int, scale: nat)
    ensures var m := Magnitude(value);
            var whole, fraction := NatText(Div(m, Pow10(scale))), PadStart(NatText(Mod(m, Pow10(scale))), scale);
            && whole != "" && AllDigits(whole) && fraction != "" && AllDigits(fraction)
            && NatValue(whole) == Div(m, Pow10(scale))
            && Trim(FormatDecimal(value, scale)) == Sign(value) + Body(whole, fraction)
            && (scale >= 1 ==> |fraction| == scale && NatValue(fraction) == Mod(m, Pow10(scale)))
  {
    hide Div, NatText, Zeros, NatValue, Pow10;
    var m := Magnitude(value);
    var r := Mod(m, Pow10(scale));
    var whole, fraction := NatText(Div(m, Pow10(scale))), PadStart(NatText(r), scale);
    var text := FormatDecimal(value, scale);
    NatTextRoundTrip(Div(m, Pow10(scale)));
    NatTextRoundTrip(r);
    if scale >= 1 {
      NatTextLength(r, scale);
      PadStartValue(NatText(r), scale);
    }
    assert text == Sign(value) + Body(whole, fraction);
    TrimKeeps(text) by {
      assert text[|text| - 1] == fraction[|fraction| - 1];
      assert text[0] == if value < 0 then '-' else whole[0];
    }
  }

  /** Printing and parsing back returns every integer, negative ones included,
      exactly when there is at least one fraction digit: at scale zero the
      printed text still carries one. */
  lemma FormatRoundTrip(value: int, scale: nat)
    ensures ParseDecimal(FormatDecimal(value, scale), scale) == Some(value) <==> scale >= 1
  {
    hide Div, NatText, Zeros, NatValue, FormatDecimal, ParseDecimal;
    var m := Magnitude(value);
    var whole, fraction := NatText(Div(m, Pow10(scale))), PadStart(NatText(Mod(m, Pow10(scale))), scale);
    FormatShape(value, scale);
    ParseIsExact(FormatDecimal(value, scale), value < 0, whole, fraction, scale);
    if scale >= 1 {
      assert Pow10(0) == 1;
      assert Units(whole, fraction, scale) == m;
    }
  }
}

/** Energy readings as text: sign, digits, dots as thousands separators. */
module Energy {
  import opened Basics
  import opened Numerals

  /** An exact decimal number: `units` over ten to the `scale`. */
  datatype Decimal = Decimal(units: int, scale: nat)

  predicate SameNumber(a: Decimal, b: Decimal) { a.units * Pow10(b.scale) == b.units * Pow10(a.scale) }

  function SplitDots(s: string): (parts: seq<string>)
    ensures parts != []
    decreases |s|
  {
    var i := IndexOf(s, '.');
    if i == |s| then [s] else [s[..i]] + SplitDots(s[i + 1..])
  }

  function JoinDots(parts: seq<string>): string
    requires parts != []
  {
    if |parts| == 1 then parts[0] else parts[0] + "." + JoinDots(parts[1..])
  }

  predicate IsNumeral(p: string) { p != "" && AllDigits(p) }

  predicate AllNumerals(parts: seq<string>) { forall i :: 0 <= i < |parts| ==> IsNumeral(parts[i]) }

  function Concat(parts: seq<string>): string { if parts == [] then "" else parts[0] + Concat(parts[1..]) }

  /** Groups as thousands separators need them: one to three digits first, then
      three each; the last part is the fraction and may have any length. */
  predicate WellGrouped(parts: seq<string>) {
    |parts| <= 2 || (1 <= |parts[0]| <= 3 && forall i :: 1 <= i < |parts| - 1 ==> |parts[i]| == 3)
  }

  function SignOf(s: string): string { if s != "" && (s[0] == '+' || s[0] == '-') then s[..1] else "" }

  function Signed(sign: string, n: nat): int { if sign == "-" then 0 - n else n }

  lemma {:induction false} ConcatDigits(parts: seq<string>)
    requires AllNumerals(parts)
    ensures AllDigits(Concat(parts))
  {
    if parts != [] {
      ConcatDigits(parts[1..]);
    }
  }

  /** The number that the parts of a reading spell. */
  function ReadingOf(sign: string, parts: seq<string>): Decimal
    requires parts != [] && AllNumerals(parts)
  {
    ConcatDigits(parts);
    Decimal(Signed(sign, NatValue(Concat(parts))), if |parts| == 1 then 0 else |parts[|parts| - 1]|)
  }

  /** `parseEnergyValue` on text, before the rounding of `Number`. */
  function ParseEnergy(value: string): Option<Decimal> {
    var text := Trim(value);
    var sign := SignOf(text);
    var parts := SplitDots(text[|sign|..]);
    if !AllNumerals(parts) || !WellGrouped(parts) then None else Some(ReadingOf(sign, parts))
  }

  // ----- reading back parts -----

  lemma SplitFirst(p: string, rest: string)
    requires IsNumeral(p)
    ensures SplitDots(p + "." + rest) == [p] + SplitDots(rest)
  {
    hide AllDigits, IsNumeral;
    NumeralHasNoDot(p);
    var s := p + "." + rest;
    assert s == p + ['.'] + rest;
    IndexOfAfter(p, '.', rest);
    assert s[..|p|] == p && s[|p| + 1..] == rest;
  }

  lemma NumeralHasNoDot(p: string)
    requires IsNumeral(p)
    ensures forall i :: 0 <= i < |p| ==> p[i] != '.'
  {}

  lemma {:induction false} SplitJoin(parts: seq<string>)
    requires parts != [] && AllNumerals(parts)
    ensures SplitDots(JoinDots(parts)) == parts
  {
    hide IsNumeral;
    assert IsNumeral(parts[0]);
    if |parts| == 1 {
      NumeralHasNoDot(parts[0]);
      IndexOfNone(parts[0], '.');
      assert parts == [parts[0]];
    } else {
      hide SplitDots;
      SplitJoin(parts[1..]);
      SplitFirst(parts[0], JoinDots(parts[1..]));
      assert parts == [parts[0]] + parts[1..];
    }
  }

  lemma {:induction false} JoinEnds(parts: seq<string>)
    requires parts != [] && AllNumerals(parts)
    ensures JoinDots(parts) != "" && IsDigit(JoinDots(parts)[0])
    ensures IsDigit(JoinDots(parts)[|JoinDots(parts)| - 1])
  {
    assert IsNumeral(parts[0]);
    if |parts| > 1 {
      JoinEnds(parts[1..]);
    }
  }

  lemma DigitsAreNotSpace(c: char)
    requires IsDigit(c) || c == '+' || c == '-'
    ensures !IsSpace(c)
  {}

  /** A signed list of digit groups is read exactly when it is well grouped, and
      then as the number its digits spell. */
  lemma ParseIsExact(sign: string, parts: seq<string>)
    requires sign in {"", "+", "-"} && parts != [] && AllNumerals(parts)
    ensures ParseEnergy(sign + JoinDots(parts)) == if WellGrouped(parts) then Some(ReadingOf(sign, parts)) else None
  {
    hide ReadingOf, WellGrouped, AllNumerals, SplitDots, JoinDots, IsSpace, Trim;
    var body := JoinDots(parts);
    var text := sign + body;
    JoinEnds(parts);
    SignedBody(sign, body);
    SplitJoin(parts);
  }

  lemma SignedBody(sign: string, body: string)
    requires sign in {"", "+", "-"} && body != "" && IsDigit(body[0]) && IsDigit(body[|body| - 1])
    ensures Trim(sign + body) == sign + body && SignOf(sign + body) == sign && (sign + body)[|sign|..] == body
  {
    hide IsSpace, Trim;
    var text := sign + body;
    assert text[0] == (if sign == "" then body[0] else sign[0]) && text[|text| - 1] == body[|body| - 1];
    DigitsAreNotSpace(text[0]);
    DigitsAreNotSpace(text[|text| - 1]);
    TrimKeeps(text);
  }

  // ----- thousands separators -----

  function Pad3(n: nat): string
    requires n < 1000
  {
    [Digit(n / 100), Digit(n / 10 % 10), Digit(n % 10)]
  }

  lemma OneDigit(d: nat)
    requires d < 10
    ensures IsDigit(Digit(d)) && DigitValue(Digit(d)) == d && AllDigits([Digit(d)]) && NatValue([Digit(d)]) == d
  {
    assert [Digit(d)][..0] == "";
  }

  lemma OneMoreDigit(s: string, d: nat)
    requires AllDigits(s) && d < 10
    ensures AllDigits(s + [Digit(d)]) && NatValue(s + [Digit(d)]) == 10 * NatValue(s) + d
  {
    OneDigit(d);
    assert (s + [Digit(d)])[..|s|] == s;
  }

  lemma ThreeDigits(n: nat)
    requires n < 1000
    ensures n == 10 * (10 * (n / 100) + n / 10 % 10) + n % 10
  {
    assert n / 10 == 10 * (n / 100) + n / 10 % 10;
  }

  lemma Pad3Value(n: nat)
    requires n < 1000
    ensures IsNumeral(Pad3(n)) && |Pad3(n)| == 3 && NatValue(Pad3(n)) == n
  {
    hide NatValue, Digit;
    OneDigit(n / 100);
    OneMoreDigit([Digit(n / 100)], n / 10 % 10);
    OneMoreDigit([Digit(n / 100)] + [Digit(n / 10 % 10)], n % 10);
    assert Pad3(n) == [Digit(n / 100)] + [Digit(n / 10 % 10)] + [Digit(n % 10)];
    ThreeDigits(n);
  }

  /** The digits of a number in groups of three. */
  function Groups(n: nat): (parts: seq<string>)
    ensures parts != []
  {
    if n < 1000 then [NatText(n)] else Groups(n / 1000) + [Pad3(n % 1000)]
  }

  lemma {:induction false} ConcatSnoc(parts: seq<string>, last: string)
    ensures Concat(parts + [last]) == Concat(parts) + last
  {
    if parts == [] {
      assert [last][1..] == [];
    } else {
      ConcatSnoc(parts[1..], last);
      assert (parts + [last])[1..] == parts[1..] + [last];
    }
  }

  lemma {:induction false} GroupsSpell(n: nat)
    ensures AllNumerals(Groups(n)) && AllDigits(Concat(Groups(n))) && NatValue(Concat(Groups(n))) == n
    ensures 1 <= |Groups(n)[0]| <= 3 && forall i :: 1 <= i < |Groups(n)| ==> |Groups(n)[i]| == 3
  {
    hide NatText, NatValue;
    if n < 1000 {
      NatTextRoundTrip(n);
      assert Pow10(3) == 1000 by { assert Pow10(0) == 1 && Pow10(1) == 10 && Pow10(2) == 100; }
      NatTextLength(n, 3);
      assert Concat([NatText(n)]) == NatText(n) by { assert [NatText(n)][1..] == []; }
    } else {
      GroupsSpell(n / 1000);
      Pad3Value(n % 1000);
      ConcatSnoc(Groups(n / 1000), Pad3(n % 1000));
      NatValueConcat(Concat(Groups(n / 1000)), Pad3(n % 1000));
      assert Pow10(3) == 1000 by { assert Pow10(0) == 1 && Pow10(1) == 10 && Pow10(2) == 100; }
    }
  }

  /** A number printed with dots as thousands separators, a dot and fraction
      digits, reads as exactly that number, with its sign, and as the same
      number without the separators. */
  lemma GroupedReading(sign: string, n: nat, fraction: string)
    requires sign in {"", "+", "-"} && IsNumeral(fraction)
    ensures ParseEnergy(sign + JoinDots(Groups(n) + [fraction]))
              == Some(Decimal(Signed(sign, n * Pow10(|fraction|) + NatValue(fraction)), |fraction|))
    ensures ParseEnergy(sign + NatText(n) + "." + fraction) == ParseEnergy(sign + JoinDots(Groups(n) + [fraction]))
  {
    hide NatText, NatValue, ParseEnergy, Groups, Concat, Pow10, Signed, JoinDots;
    GroupsSpell(n);
    NatTextRoundTrip(n);
    var grouped, plain := Groups(n) + [fraction], [NatText(n), fraction];
    ParseIsExact(sign, grouped);
    ParseIsExact(sign, plain);
    ConcatSnoc(Groups(n), fraction);
    NatValueConcat(Concat(Groups(n)), fraction);
    PlainPair(NatText(n), fraction);
    NatValueConcat(NatText(n), fraction);
    assert sign + JoinDots(plain) == sign + NatText(n) + "." + fraction;
  }

  lemma PlainPair(a: string, b: string)
    ensures Concat([a, b]) == a + b && JoinDots([a, b]) == a + "." + b
  {
    assert [a, b][1..] == [b];
    assert [b][1..] == [];
    assert Concat([b]) == b + Concat([]);
  }

  /** More than one dot and a group of the wrong length: rejected. */
  lemma WrongGroupRejected(sign: string, parts: seq<string>, i: nat)
    requires sign in {"", "+", "-"} && |parts| > 2 && AllNumerals(parts)
    requires i < |parts| - 1 && (if i == 0 then |parts[0]| > 3 else |parts[i]| != 3)
    ensures ParseEnergy(sign + JoinDots(parts)) == None
  {
    hide ParseEnergy;
    ParseIsExact(sign, parts);
  }

  lemma {:induction false} GroupCount(n: nat)
    ensures |Groups(n)| == 1 <==> n < 1000
  {}

  lemma GroupedThousands(n: nat)
    ensures WellGrouped(Groups(n)) && AllNumerals(Groups(n))
    ensures n >= 1000 ==> |Groups(n)| > 1 && |Groups(n)[|Groups(n)| - 1]| == 3
  {
    hide NatText, NatValue, Concat;
    GroupsSpell(n);
    GroupCount(n);
  }

  /** Without a fraction the last separator is taken for the decimal point: a
      whole number printed with thousands separators reads as itself exactly
      below one thousand, and a thousand times too small from there on. */
  lemma LastSeparatorIsThePoint(sign: string, n: nat)
    requires sign in {"", "+", "-"}
    ensures ParseEnergy(sign + JoinDots(Groups(n))) == Some(Decimal(Signed(sign, n), if n < 1000 then 0 else 3))
    ensures SameNumber(Decimal(Signed(sign, n), if n < 1000 then 0 else 3), Decimal(Signed(sign, n), 0)) <==> n < 1000
  {
    hide NatText, NatValue, ParseEnergy, Concat, Groups, JoinDots;
    GroupsSpell(n);
    GroupCount(n);
    GroupedThousands(n);
    ParseIsExact(sign, Groups(n));
    assert Pow10(0) == 1 && Pow10(1) == 10 && Pow10(2) == 100 && Pow10(3) == 1000;
  }
}

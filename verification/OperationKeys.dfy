/** The text that is hashed into a durable award operation key. */
module OperationKeys {
  import opened Basics
  import opened Numerals

  /** JavaScript measures a string in UTF-16 code units: a character outside
      the basic plane counts twice. */
  function UnitLength(s: string): nat {
    if s == "" then 0 else (if s[0] as int >= 0x1_0000 then 2 else 1) + UnitLength(s[1..])
  }

  /** One length-prefixed component: `<length>:<text>`. */
  function Framed(s: string): string { NatText(UnitLength(s)) + ":" + s }

  /** Provider and session, each behind its length. */
  function OperationTuple(provider: string, session: string): string {
    Framed(provider) + Framed(session)
  }

  /** The older deduplication key. */
  function LegacyKey(provider: string, session: string): string { session + "-" + provider }

  /** The digits in front of the first other character. */
  function DigitPrefix(s: string): (p: string)
    ensures AllDigits(p) && |p| <= |s| && s[..|p|] == p
    ensures |p| < |s| ==> !IsDigit(s[|p|])
  {
    if s == "" || !IsDigit(s[0]) then "" else [s[0]] + DigitPrefix(s[1..])
  }

  /** The prefix of `s` that is `units` code units long, if there is one. */
  function TakeUnits(s: string, units: nat): Option<string> {
    if units == 0 then Some("")
    else if s == "" then None
    else
      var width := if s[0] as int >= 0x1_0000 then 2 else 1;
      if units < width then None
      else match TakeUnits(s[1..], units - width)
        case None => None
        case Some(rest) => Some([s[0]] + rest)
  }

  /** Reads one framed component and what follows it. */
  function Unframe(s: string): Option<(string, string)> {
    var digits := DigitPrefix(s);
    if digits == "" || |digits| == |s| || s[|digits|] != ':' then None
    else
      var rest := s[|digits| + 1..];
      match TakeUnits(rest, NatValue(digits))
      case None => None
      case Some(text) => if |text| <= |rest| then Some((text, rest[|text|..])) else None
  }

  /** Inverse of `OperationTuple`. */
  function DecodeTuple(s: string): Option<(string, string)> {
    match Unframe(s)
    case None => None
    case Some((provider, rest)) =>
      match Unframe(rest)
      case None => None
      case Some((session, tail)) => if tail == "" then Some((provider, session)) else None
  }

  lemma {:induction false} DigitPrefixStops(digits: string, c: char, rest: string)
    requires AllDigits(digits) && !IsDigit(c)
    ensures DigitPrefix(digits + [c] + rest) == digits
  {
    var s := digits + [c] + rest;
    if digits != "" {
      DigitPrefixStops(digits[1..], c, rest);
      assert s[1..] == digits[1..] + [c] + rest;
    }
  }

  lemma {:induction false} TakeUnitsInverts(text: string, rest: string)
    ensures TakeUnits(text + rest, UnitLength(text)) == Some(text)
  {
    if text != "" {
      TakeUnitsInverts(text[1..], rest);
      assert (text + rest)[1..] == text[1..] + rest;
      assert [text[0]] + text[1..] == text;
    }
  }

  lemma UnframeFramed(text: string, rest: string)
    ensures Unframe(Framed(text) + rest) == Some((text, rest))
  {
    var digits := NatText(UnitLength(text));
    NatTextRoundTrip(UnitLength(text));
    assert Framed(text) + rest == digits + [':'] + (text + rest);
    DigitPrefixStops(digits, ':', text + rest);
    TakeUnitsInverts(text, rest);
    assert (digits + [':'] + (text + rest))[|digits| + 1..] == text + rest;
  }

  /** The tuple can be read back for every pair of strings. */
  lemma TupleRoundTrip(provider: string, session: string)
    ensures DecodeTuple(OperationTuple(provider, session)) == Some((provider, session))
  {
    UnframeFramed(provider, Framed(session));
    UnframeFramed(session, "");
    assert Framed(session) + "" == Framed(session);
  }

  /** Two charging records share an operation tuple exactly when they name the
      same provider and the same session. */
  lemma TupleInjective(p1: string, s1: string, p2: string, s2: string)
    ensures OperationTuple(p1, s1) == OperationTuple(p2, s2) <==> p1 == p2 && s1 == s2
  {
    TupleRoundTrip(p1, s1);
    TupleRoundTrip(p2, s2);
  }

  /** `mid` lies between two dashes and can be read as the end of one session
      or as the start of the other provider. */
  ghost predicate Overlaps(p1: string, s1: string, p2: string, s2: string) {
    exists mid: string :: s2 == s1 + "-" + mid && p1 == mid + "-" + p2
  }

  /** The legacy key joins with a dash and does not protect dashes inside its
      parts: it collides exactly when one text splits in two ways. */
  lemma LegacyKeyCollision(p1: string, s1: string, p2: string, s2: string)
    ensures LegacyKey(p1, s1) == LegacyKey(p2, s2)
            <==> (p1 == p2 && s1 == s2) || Overlaps(p1, s1, p2, s2) || Overlaps(p2, s2, p1, s1)
  {
    if |s1| < |s2| {
      LongerSession(p1, s1, p2, s2);
    } else if |s2| < |s1| {
      LongerSession(p2, s2, p1, s1);
    } else {
      var k, l := LegacyKey(p1, s1), LegacyKey(p2, s2);
      assert s1 == k[..|s1|] && p1 == k[|s1| + 1..];
      assert s2 == l[..|s2|] && p2 == l[|s2| + 1..];
    }
  }

  lemma LongerSession(p1: string, s1: string, p2: string, s2: string)
    requires |s1| < |s2|
    ensures LegacyKey(p1, s1) == LegacyKey(p2, s2) <==> Overlaps(p1, s1, p2, s2)
  {
    var k := LegacyKey(p1, s1);
    if k == LegacyKey(p2, s2) {
      assert s2 == k[..|s2|] && p2 == k[|s2| + 1..] && k[|s2|] == '-';
      assert s1 == k[..|s1|] && p1 == k[|s1| + 1..];
      var mid := k[|s1| + 1..|s2|];
      assert s2 == s1 + "-" + mid && p1 == mid + "-" + p2;
    }
    forall mid: string | s2 == s1 + "-" + mid && p1 == mid + "-" + p2
      ensures k == LegacyKey(p2, s2)
    {
      assert k == s1 + "-" + mid + "-" + p2;
    }
  }

  /** Two different records with one legacy key. */
  lemma LegacyKeyNotInjective()
    ensures LegacyKey("c", "a-b") == LegacyKey("b-c", "a")
    ensures OperationTuple("c", "a-b") != OperationTuple("b-c", "a")
  {
    TupleInjective("c", "a-b", "b-c", "a");
    assert LegacyKey("c", "a-b") == "a-b-c" == LegacyKey("b-c", "a");
  }
}

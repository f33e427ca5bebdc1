/** The order in which an object lists keys that were inserted sorted: array
    indices by value, then the other keys by UTF-16 code units. */
module KeyOrder {
  import opened Basics
  import opened Numerals

  /** The UTF-16 code units of one character. */
  function CharUnits(c: char): seq<int> {
    var n := c as int;
    if n < 0x1_0000 then [n] else [0xD800 + (n - 0x1_0000) / 0x400, 0xDC00 + (n - 0x1_0000) % 0x400]
  }

  function Units(s: string): seq<int> { if s == "" then [] else CharUnits(s[0]) + Units(s[1..]) }

  predicate LexLess(a: seq<int>, b: seq<int>) {
    b != [] && (a == [] || a[0] < b[0] || (a[0] == b[0] && LexLess(a[1..], b[1..])))
  }

  /** Characters outside the basic plane come before its upper end. */
  function CharRank(c: char): int { if 0xE000 <= c as int < 0x1_0000 then c as int + 0x11_0000 else c as int }

  predicate UnitsLess(a: string, b: string) {
    b != "" && (a == "" || CharRank(a[0]) < CharRank(b[0]) || (a[0] == b[0] && UnitsLess(a[1..], b[1..])))
  }

  lemma {:induction false} LexPrefix(p: seq<int>, a: seq<int>, b: seq<int>)
    ensures LexLess(p + a, p + b) == LexLess(a, b)
  {
    if p == [] {
      assert p + a == a && p + b == b;
    } else {
      assert (p + a)[1..] == p[1..] + a && (p + b)[1..] == p[1..] + b;
      LexPrefix(p[1..], a, b);
    }
  }

  lemma LexDiffers(c: char, d: char, x: seq<int>, y: seq<int>)
    requires c != d
    ensures LexLess(CharUnits(c) + x, CharUnits(d) + y) <==> CharRank(c) < CharRank(d)
  {
    var u, v := CharUnits(c) + x, CharUnits(d) + y;
    assert u[0] == CharUnits(c)[0] && v[0] == CharUnits(d)[0];
    if |CharUnits(c)| == 2 && |CharUnits(d)| == 2 {
      assert u[1..][0] == CharUnits(c)[1] && v[1..][0] == CharUnits(d)[1];
    }
  }

  /** Comparing characters by rank is comparing texts by code units. */
  lemma {:induction false} UnitsLessIsUtf16(a: string, b: string)
    ensures UnitsLess(a, b) <==> LexLess(Units(a), Units(b))
  {
    if a != "" && b != "" {
      if a[0] == b[0] {
        LexPrefix(CharUnits(a[0]), Units(a[1..]), Units(b[1..]));
        UnitsLessIsUtf16(a[1..], b[1..]);
      } else {
        LexDiffers(a[0], b[0], Units(a[1..]), Units(b[1..]));
      }
    }
  }

  lemma {:induction false} UnitsTotal(a: string, b: string)
    ensures a == b <==> !UnitsLess(a, b) && !UnitsLess(b, a)
    ensures !(UnitsLess(a, b) && UnitsLess(b, a))
  {
    if a != "" && b != "" && a[0] == b[0] {
      UnitsTotal(a[1..], b[1..]);
      assert a == [a[0]] + a[1..] && b == [b[0]] + b[1..];
    }
  }

  lemma {:induction false} UnitsTransitive(a: string, b: string, c: string)
    requires UnitsLess(a, b) && UnitsLess(b, c)
    ensures UnitsLess(a, c)
  {
    if a != "" && a[0] == b[0] == c[0] {
      UnitsTransitive(a[1..], b[1..], c[1..]);
    }
  }

  /** An array index: canonical decimal text, below the largest array length. */
  predicate IsIndex(k: string) { k != "" && AllDigits(k) && NatText(NatValue(k)) == k && NatValue(k) < 4294967295 }

  predicate KeyLess(a: string, b: string) {
    if IsIndex(a) && IsIndex(b) then NatValue(a) < NatValue(b)
    else if IsIndex(a) != IsIndex(b) then IsIndex(a)
    else UnitsLess(a, b)
  }

  /** The order written out: array indices first, by value, then the other keys by
      their UTF-16 code units. */
  lemma KeyLessExactly(a: string, b: string)
    ensures KeyLess(a, b)
            <==> || (IsIndex(a) && !IsIndex(b))
                 || (IsIndex(a) && IsIndex(b) && NatValue(a) < NatValue(b))
                 || (!IsIndex(a) && !IsIndex(b) && LexLess(Units(a), Units(b)))
  {
    hide IsIndex, LexLess, Units, UnitsLess;
    UnitsLessIsUtf16(a, b);
  }

  lemma KeyTotal(a: string, b: string)
    ensures a == b <==> !KeyLess(a, b) && !KeyLess(b, a)
    ensures !(KeyLess(a, b) && KeyLess(b, a))
  {
    UnitsTotal(a, b);
  }

  lemma KeyTransitive(a: string, b: string, c: string)
    requires KeyLess(a, b) && KeyLess(b, c)
    ensures KeyLess(a, c)
  {
    if UnitsLess(a, b) && UnitsLess(b, c) {
      UnitsTransitive(a, b, c);
    }
  }
}

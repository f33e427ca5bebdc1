/** JSON text as `JSON.stringify` writes it, for values whose object members are
    listed in the order in which they are written, and a reader for it by the
    grammar of RFC 8259. */
module Json {
  import opened Basics
  import opened Numerals

  datatype Json = JNull | JBool(b: bool) | JNum(n: int) | JStr(s: string) | JArr(items: seq<Json>)
      | JObj(members: seq<Member>)

  datatype Member = Member(key: string, value: Json)

  function HexDigit(d: nat): char
    requires d < 16
  {
    if d < 10 then '0' + d as char else 'a' + (d - 10) as char
  }

  function EscapeChar(c: char): (e: string)
    ensures e != "" && e[0] != '"'
  {
    if c == '"' then "\\\""
    else if c == '\\' then "\\\\"
    else if c == '\U{0008}' then "\\b"
    else if c == '\U{000C}' then "\\f"
    else if c == '\n' then "\\n"
    else if c == '\r' then "\\r"
    else if c == '\t' then "\\t"
    else if c < ' ' then "\\u00" + [HexDigit(c as int / 16), HexDigit(c as int % 16)]
    else [c]
  }

  function Escaped(s: string): string { if s == "" then "" else EscapeChar(s[0]) + Escaped(s[1..]) }

  function Quoted(s: string): string { "\"" + Escaped(s) + "\"" }

  function IntText(n: int): string { if n < 0 then "-" + NatText(-n) else NatText(n) }

  function Write(j: Json): string
    decreases j
  {
    match j
    case JNull => "null"
    case JBool(b) => if b then "true" else "false"
    case JNum(n) => IntText(n)
    case JStr(s) => Quoted(s)
    case JArr(items) => "[" + (if items == [] then "]" else Write(items[0]) + WriteItems(items[1..]))
    case JObj(members) => "{" + (if members == [] then "}" else WriteMember(members[0]) + WriteMembers(members[1..]))
  }

  function WriteItems(items: seq<Json>): string
    decreases items
  {
    if items == [] then "]" else "," + Write(items[0]) + WriteItems(items[1..])
  }

  function WriteMember(m: Member): string
    decreases m
  {
    Quoted(m.key) + ":" + Write(m.value)
  }

  function WriteMembers(members: seq<Member>): string
    decreases members
  {
    if members == [] then "}" else "," + WriteMember(members[0]) + WriteMembers(members[1..])
  }

  // ----- reading -----

  /** Sections 2 to 7 of RFC 8259, for texts without white space between tokens,
      whole numbers and no escaped surrogate pairs. Every reader returns what it
      read and the rest. */
  type Reading<T> = Option<(T, string)>

  function HexValue(c: char): nat
    requires IsHexDigit(c)
  {
    if IsDigit(c) then c as int - '0' as int
    else if 'a' <= c then c as int - 'a' as int + 10
    else c as int - 'A' as int + 10
  }

  /** What follows a backslash. */
  function ReadEscape(s: string): (r: Reading<char>)
    ensures r.Some? ==> |r.value.1| < |s|
  {
    if s == "" then None
    else
      match s[0]
      case '"' => Some(('"', s[1..]))
      case '\\' => Some(('\\', s[1..]))
      case '/' => Some(('/', s[1..]))
      case 'b' => Some(('\U{0008}', s[1..]))
      case 'f' => Some(('\U{000C}', s[1..]))
      case 'n' => Some(('\n', s[1..]))
      case 'r' => Some(('\r', s[1..]))
      case 't' => Some(('\t', s[1..]))
      case 'u' =>
        if |s| < 5 || exists i :: 1 <= i < 5 && !IsHexDigit(s[i]) then None
        else
          var n := 4096 * HexValue(s[1]) + 256 * HexValue(s[2]) + 16 * HexValue(s[3]) + HexValue(s[4]);
          if 0xD800 <= n < 0xE000 then None else Some((n as char, s[5..]))
      case _ => None
  }

  /** The rest of a string, up to its closing quote. */
  function ReadText(s: string): (r: Reading<string>)
    ensures r.Some? ==> |r.value.1| < |s|
    decreases |s|
  {
    if s == "" || s[0] < ' ' then None
    else if s[0] == '"' then Some(("", s[1..]))
    else
      var first := if s[0] == '\\' then ReadEscape(s[1..]) else Some((s[0], s[1..]));
      match first
      case None => None
      case Some((c, rest)) =>
        match ReadText(rest)
        case None => None
        case Some((text, after)) => Some(([c] + text, after))
  }

  function DigitCount(s: string): (n: nat)
    ensures n <= |s| && AllDigits(s[..n]) && (n < |s| ==> !IsDigit(s[n]))
  {
    if s == "" || !IsDigit(s[0]) then 0 else 1 + DigitCount(s[1..])
  }

  /** Digits without a needless zero in front. */
  function ReadNat(s: string): (r: Reading<int>)
    ensures r.Some? ==> |r.value.1| < |s|
  {
    var n := DigitCount(s);
    if n == 0 || (n > 1 && s[0] == '0') then None else Some((NatValue(s[..n]), s[n..]))
  }

  function ReadInt(s: string): (r: Reading<int>)
    ensures r.Some? ==> |r.value.1| < |s|
  {
    if s != "" && s[0] == '-' then
      match ReadNat(s[1..]) case None => None case Some((n, rest)) => Some((-n, rest))
    else
      match ReadNat(s) case None => None case Some((n, rest)) => Some((n, rest))
  }

  function ReadValue(s: string): (r: Reading<Json>)
    ensures r.Some? ==> |r.value.1| < |s|
    decreases |s|, 0
  {
    if "null" <= s then Some((JNull, s[4..]))
    else if "true" <= s then Some((JBool(true), s[4..]))
    else if "false" <= s then Some((JBool(false), s[5..]))
    else if "\"" <= s then
      match ReadText(s[1..]) case None => None case Some((text, rest)) => Some((JStr(text), rest))
    else if "[]" <= s then Some((JArr([]), s[2..]))
    else if "[" <= s then
      match ReadItems(s[1..]) case None => None case Some((items, rest)) => Some((JArr(items), rest))
    else if "{}" <= s then Some((JObj([]), s[2..]))
    else if "{" <= s then
      match ReadMembers(s[1..]) case None => None case Some((members, rest)) => Some((JObj(members), rest))
    else
      match ReadInt(s) case None => None case Some((n, rest)) => Some((JNum(n), rest))
  }

  /** Values divided by commas, up to the closing bracket. */
  function ReadItems(s: string): (r: Reading<seq<Json>>)
    ensures r.Some? ==> |r.value.1| < |s|
    decreases |s|, 1
  {
    match ReadValue(s)
    case None => None
    case Some((item, rest)) =>
      if "]" <= rest then Some(([item], rest[1..]))
      else if !("," <= rest) then None
      else
        match ReadItems(rest[1..])
        case None => None
        case Some((items, after)) => Some(([item] + items, after))
  }

  function ReadMember(s: string): (r: Reading<Member>)
    ensures r.Some? ==> |r.value.1| < |s|
    decreases |s|, 1
  {
    if !("\"" <= s) then None
    else
      match ReadText(s[1..])
      case None => None
      case Some((key, rest)) =>
        if !(":" <= rest) then None
        else
          match ReadValue(rest[1..])
          case None => None
          case Some((value, after)) => Some((Member(key, value), after))
  }

  function ReadMembers(s: string): (r: Reading<seq<Member>>)
    ensures r.Some? ==> |r.value.1| < |s|
    decreases |s|, 2
  {
    match ReadMember(s)
    case None => None
    case Some((member, rest)) =>
      if "}" <= rest then Some(([member], rest[1..]))
      else if !("," <= rest) then None
      else
        match ReadMembers(rest[1..])
        case None => None
        case Some((members, after)) => Some(([member] + members, after))
  }

  // ----- what is written reads back -----

  lemma ControlBack(c: char)
    requires c < ' '
    ensures IsHexDigit(HexDigit(c as int / 16)) && IsHexDigit(HexDigit(c as int % 16))
    ensures HexValue(HexDigit(c as int / 16)) == c as int / 16 && HexValue(HexDigit(c as int % 16)) == c as int % 16
  {}

  lemma HexBack(c: char, a: char, b: char, x: string)
    requires c < ' ' && IsHexDigit(a) && IsHexDigit(b) && HexValue(a) == c as int / 16 && HexValue(b) == c as int % 16
    ensures ReadEscape(['u', '0', '0', a, b] + x) == Some((c, x))
  {
    var u := ['u', '0', '0', a, b] + x;
    assert u[0] == 'u' && u[1] == '0' && u[2] == '0' && u[3] == a && u[4] == b && u[5..] == x;
    assert HexValue('0') == 0;
    hide IsHexDigit, HexValue;
    assert 16 * (c as int / 16) + c as int % 16 == c as int;
  }

  /** The control characters without a short escape. */
  predicate LongEscape(c: char) { c < ' ' && c !in {'\U{0008}', '\U{000C}', '\n', '\r', '\t'} }

  lemma LongEscapeBack(c: char, x: string)
    requires LongEscape(c)
    ensures ReadText(EscapeChar(c) + x)
              == match ReadText(x) case None => None case Some((text, rest)) => Some(([c] + text, rest))
  {
    var a, b := HexDigit(c as int / 16), HexDigit(c as int % 16);
    ControlBack(c);
    var s := EscapeChar(c) + x;
    assert EscapeChar(c) == ['\\', 'u', '0', '0', a, b];
    assert s[0] == '\\' && s[1..] == ['u', '0', '0', a, b] + x;
    hide EscapeChar, ReadEscape;
    HexBack(c, a, b, x);
  }

  /** One character read back. */
  lemma EscapeBack(c: char, x: string)
    ensures ReadText(EscapeChar(c) + x)
              == match ReadText(x) case None => None case Some((text, rest)) => Some(([c] + text, rest))
  {
    if LongEscape(c) {
      LongEscapeBack(c, x);
    } else {
      var e := EscapeChar(c);
      var s := e + x;
      assert s[|e|..] == x;
      if |e| == 2 {
        assert s[1..][0] == e[1] && s[1..][1..] == x;
      }
    }
  }

  lemma EscapedCons(s: string, x: string)
    requires s != ""
    ensures Escaped(s) + "\"" + x == EscapeChar(s[0]) + (Escaped(s[1..]) + "\"" + x)
  {
    hide EscapeChar;
    var e, rest := EscapeChar(s[0]), Escaped(s[1..]);
    assert Escaped(s) == e + rest;
    hide Escaped;
    assert e + rest + "\"" + x == e + (rest + "\"" + x);
  }

  lemma {:induction false} TextBack(s: string, x: string)
    ensures ReadText(Escaped(s) + "\"" + x) == Some((s, x))
  {
    hide EscapeChar;
    if s == "" {
      var t := Escaped(s) + "\"" + x;
      assert t[0] == '"' && t[1..] == x;
    } else {
      EscapedCons(s, x);
      TextBack(s[1..], x);
      EscapeBack(s[0], Escaped(s[1..]) + "\"" + x);
      assert s == [s[0]] + s[1..];
    }
  }

  lemma QuotedBack(s: string, x: string)
    ensures "\"" <= Quoted(s) + x && ReadText((Quoted(s) + x)[1..]) == Some((s, x))
  {
    assert (Quoted(s) + x)[1..] == Escaped(s) + "\"" + x;
    TextBack(s, x);
  }

  /** What may follow a value. */
  predicate Ends(x: string) { x == "" || x[0] == ',' || x[0] == ']' || x[0] == '}' }

  lemma {:induction false} CountDigits(a: string, x: string)
    requires AllDigits(a) && Ends(x)
    ensures DigitCount(a + x) == |a|
  {
    if a == "" {
      assert a + x == x;
    } else {
      assert (a + x)[1..] == a[1..] + x;
      CountDigits(a[1..], x);
    }
  }

  lemma {:induction false} NoNeedlessZero(n: nat)
    ensures AllDigits(NatText(n)) && NatText(n) != "" && (|NatText(n)| > 1 ==> NatText(n)[0] != '0')
  {
    NatTextRoundTrip(n);
    if n >= 10 {
      NoNeedlessZero(n / 10);
      assert NatText(n)[0] == NatText(n / 10)[0];
      if |NatText(n / 10)| == 1 {
        assert n < 100;
      }
    }
  }

  lemma NatBack(n: nat, x: string)
    requires Ends(x)
    ensures ReadNat(NatText(n) + x) == Some((n, x)) && NatText(n) != "" && IsDigit((NatText(n) + x)[0])
  {
    hide NatText, NatValue;
    NatTextRoundTrip(n);
    NoNeedlessZero(n);
    CountDigits(NatText(n), x);
    assert (NatText(n) + x)[..|NatText(n)|] == NatText(n) && (NatText(n) + x)[|NatText(n)|..] == x;
  }

  lemma IntBack(n: int, x: string)
    requires Ends(x)
    ensures ReadInt(IntText(n) + x) == Some((n, x))
    ensures IntText(n) != "" && (IntText(n)[0] == '-' || IsDigit(IntText(n)[0]))
  {
    hide NatText, ReadNat;
    var s := IntText(n) + x;
    if n < 0 {
      NatBack(-n, x);
      assert s[0] == '-' && s[1..] == NatText(-n) + x;
    } else {
      NatBack(n, x);
    }
  }

  lemma WriteStart(j: Json)
    ensures Write(j) != "" && Write(j)[0] != ']'
  {
    if j.JNum? {
      IntBack(j.n, "");
    }
  }

  lemma ItemsStart(items: seq<Json>, x: string)
    ensures WriteItems(items) + x
              == if items == [] then "]" + x else "," + (Write(items[0]) + (WriteItems(items[1..]) + x))
  {
    hide Write;
  }

  lemma MembersStart(members: seq<Member>, x: string)
    ensures WriteMembers(members) + x
              == if members == [] then "}" + x
                 else "," + (WriteMember(members[0]) + (WriteMembers(members[1..]) + x))
  {
    hide WriteMember;
  }

  lemma ArrayTail(a: seq<Json>, x: string)
    ensures a == [] ==> Write(JArr(a)) + x == "[]" + x
    ensures a != [] ==> |Write(JArr(a)) + x| > 1 && (Write(JArr(a)) + x)[1] != ']'
    ensures a != [] ==> (Write(JArr(a)) + x)[1..] == Write(a[0]) + (WriteItems(a[1..]) + x)
  {
    if a != [] {
      WriteStart(a[0]);
      assert Write(JArr(a)) + x == "[" + (Write(a[0]) + (WriteItems(a[1..]) + x));
    }
  }

  lemma MemberText(m: Member, x: string)
    ensures WriteMember(m) + x == Quoted(m.key) + (":" + (Write(m.value) + x))
  {
    hide Write, Quoted;
  }

  lemma ObjectTail(a: seq<Member>, x: string)
    ensures a == [] ==> Write(JObj(a)) + x == "{}" + x
    ensures a != [] ==> |Write(JObj(a)) + x| > 1 && (Write(JObj(a)) + x)[1] == '"'
    ensures a != [] ==> (Write(JObj(a)) + x)[1..] == WriteMember(a[0]) + (WriteMembers(a[1..]) + x)
  {
    if a != [] {
      assert Write(JObj(a)) + x == "{" + (WriteMember(a[0]) + (WriteMembers(a[1..]) + x));
      assert WriteMember(a[0])[0] == '"';
    }
  }

  lemma {:induction false} ValueBack(j: Json, x: string)
    requires Ends(x)
    ensures ReadValue(Write(j) + x) == Some((j, x))
    decreases j
  {
    var s := Write(j) + x;
    match j
    case JNull => assert s[..4] == "null" && s[4..] == x;
    case JBool(b) => BoolBack(b, x);
    case JNum(n) => NumberBack(n, x);
    case JStr(t) =>
      QuotedBack(t, x);
      assert s[0] == '"';
    case JArr(items) => ArrayBack(items, x);
    case JObj(members) => ObjectBack(members, x);
  }

  lemma BoolBack(b: bool, x: string)
    ensures ReadValue((if b then "true" else "false") + x) == Some((JBool(b), x))
  {
    var t := if b then "true" else "false";
    var s := t + x;
    assert s[0] == t[0] && s[..|t|] == t && s[|t|..] == x;
  }

  lemma NumberBack(n: int, x: string)
    requires Ends(x)
    ensures ReadValue(IntText(n) + x) == Some((JNum(n), x))
  {
    hide IntText, ReadInt;
    IntBack(n, x);
    var s := IntText(n) + x;
    assert s[0] == IntText(n)[0];
  }

  lemma {:induction false} ArrayBack(items: seq<Json>, x: string)
    requires Ends(x)
    ensures ReadValue(Write(JArr(items)) + x) == Some((JArr(items), x))
    decreases items, 1
  {
    hide ReadItems;
    var s := Write(JArr(items)) + x;
    ArrayTail(items, x);
    assert s[0] == '[';
    if items == [] {
      assert s[..2] == "[]" && s[2..] == x;
    } else {
      ItemsBack(items, x);
      assert !("[]" <= s) by { assert s[1] != ']'; }
    }
  }

  /** The items of an array, up to and with its closing bracket. */
  lemma {:induction false} ItemsBack(items: seq<Json>, x: string)
    requires Ends(x) && items != []
    ensures ReadItems(Write(items[0]) + (WriteItems(items[1..]) + x)) == Some((items, x))
    decreases items, 0
  {
    hide ReadValue, Write;
    var rest := WriteItems(items[1..]) + x;
    ItemsStart(items[1..], x);
    assert rest[0] == (if items[1..] == [] then ']' else ',');
    ValueBack(items[0], rest);
    if items[1..] == [] {
      assert rest[1..] == x;
    } else {
      ItemsBack(items[1..], x);
      assert rest[1..] == Write(items[1..][0]) + (WriteItems(items[1..][1..]) + x);
    }
    assert items == [items[0]] + items[1..];
    if items[1..] == [] {
      assert items == [items[0]];
    }
  }

  lemma {:induction false} ObjectBack(members: seq<Member>, x: string)
    requires Ends(x)
    ensures ReadValue(Write(JObj(members)) + x) == Some((JObj(members), x))
    decreases members, 2
  {
    hide ReadMembers;
    var s := Write(JObj(members)) + x;
    ObjectTail(members, x);
    assert s[0] == '{';
    if members == [] {
      assert s[..2] == "{}" && s[2..] == x;
    } else {
      MembersBack(members, x);
      assert !("{}" <= s) by { assert s[1] == '"'; }
    }
  }

  lemma {:induction false} MembersBack(members: seq<Member>, x: string)
    requires Ends(x) && members != []
    ensures ReadMembers(WriteMember(members[0]) + (WriteMembers(members[1..]) + x)) == Some((members, x))
    decreases members, 1
  {
    hide ReadMember, WriteMember;
    var rest := WriteMembers(members[1..]) + x;
    MembersStart(members[1..], x);
    assert rest[0] == (if members[1..] == [] then '}' else ',');
    MemberBack(members[0], rest);
    if members[1..] == [] {
      assert rest[1..] == x;
    } else {
      MembersBack(members[1..], x);
      assert rest[1..] == WriteMember(members[1..][0]) + (WriteMembers(members[1..][1..]) + x);
    }
    assert members == [members[0]] + members[1..];
    if members[1..] == [] {
      assert members == [members[0]];
    }
  }

  lemma MemberBack(m: Member, x: string)
    requires Ends(x)
    ensures ReadMember(WriteMember(m) + x) == Some((m, x))
    decreases m
  {
    hide Write, ReadValue, ReadText, Quoted, WriteMember;
    MemberText(m, x);
    var rest := ":" + (Write(m.value) + x);
    QuotedBack(m.key, rest);
    ValueBack(m.value, x);
    assert rest[1..] == Write(m.value) + x;
  }

  /** What is written for a value reads back as that value, all of it, by the
      grammar of RFC 8259. */
  lemma WriteReadBack(j: Json)
    ensures ReadValue(Write(j)) == Some((j, ""))
  {
    ValueBack(j, "");
    assert Write(j) + "" == Write(j);
  }

  /** So two values with one text are one value. */
  lemma WriteInjective(a: Json, b: Json)
    ensures Write(a) == Write(b) <==> a == b
  {
    hide Write, ReadValue;
    WriteReadBack(a);
    WriteReadBack(b);
  }
}

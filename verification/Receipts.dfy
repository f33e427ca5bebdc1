/** Canonical receipt text, and signatures over it. */
module Receipts {
  import opened Basics
  import opened Numerals
  import opened KeyOrder
  import opened Json

  /** A receipt value as JavaScript holds it, keys in any order. Numbers are
      the whole ones. */
  datatype Js = Undefined | Null | Bool(b: bool) | Num(n: int) | Str(s: string) | Arr(items: seq<Js>)
      | Obj(fields: seq<Field>)

  datatype Field = Field(key: string, value: Js)

  predicate DistinctKeys(fields: seq<Field>) { forall i, j :: 0 <= i < j < |fields| ==> fields[i].key != fields[j].key }

  /** No object holds a key twice. */
  predicate WellFormed(v: Js)
    decreases v
  {
    match v
    case Arr(items) => forall i :: 0 <= i < |items| ==> WellFormed(items[i])
    case Obj(fields) => DistinctKeys(fields) && forall i :: 0 <= i < |fields| ==> WellFormed(fields[i].value)
    case _ => true
  }

  /** A member that reaches the sorted copy: defined, and not assigned to the
      prototype slot. */
  predicate Kept(f: Field) { f.value != Undefined && f.key != "__proto__" }

  // ----- the canonical text -----

  function Insert(m: Member, sorted: seq<Member>): seq<Member> {
    if sorted == [] || KeyLess(m.key, sorted[0].key) then [m] + sorted else [sorted[0]] + Insert(m, sorted[1..])
  }

  function SortMembers(members: seq<Member>): seq<Member> {
    if members == [] then [] else Insert(members[0], SortMembers(members[1..]))
  }

  /** What `JSON.stringify` reads from the copy that `sortForCanonicalJson`
      makes. Undefined array elements are written as null. */
  function Canonical(v: Js): Json
    decreases v
  {
    match v
    case Undefined => JNull
    case Null => JNull
    case Bool(b) => JBool(b)
    case Num(n) => JNum(n)
    case Str(s) => JStr(s)
    case Arr(items) => JArr(seq(|items|, i requires 0 <= i < |items| => Canonical(items[i])))
    case Obj(fields) => JObj(SortMembers(KeptMembers(fields)))
  }

  function KeptMembers(fields: seq<Field>): seq<Member>
    decreases fields
  {
    if fields == [] then []
    else
      (if Kept(fields[0]) then [Member(fields[0].key, Canonical(fields[0].value))] else [])
      + KeptMembers(fields[1..])
  }

  /** `canonicalizeReceiptPayload`. */
  function CanonicalText(v: Js): string { Write(Canonical(v)) }

  // ----- what a value says, whatever the order of its keys -----

  datatype Meaning = MNull | MBool(b: bool) | MNum(n: int) | MStr(s: string) | MArr(items: seq<Meaning>)
      | MObj(members: map<string, Meaning>)

  function MeaningOf(v: Js): Meaning
    decreases v
  {
    match v
    case Undefined => MNull
    case Null => MNull
    case Bool(b) => MBool(b)
    case Num(n) => MNum(n)
    case Str(s) => MStr(s)
    case Arr(items) => MArr(seq(|items|, i requires 0 <= i < |items| => MeaningOf(items[i])))
    case Obj(fields) => MObj(FieldsMeaning(fields))
  }

  function FieldsMeaning(fields: seq<Field>): map<string, Meaning>
    decreases fields
  {
    if fields == [] then map[]
    else
      var rest := FieldsMeaning(fields[1..]);
      if fields[0].value == Undefined || fields[0].key == "__proto__" then rest
      else rest[fields[0].key := MeaningOf(fields[0].value)]
  }

  function Plain(j: Json): Meaning
    decreases j
  {
    match j
    case JNull => MNull
    case JBool(b) => MBool(b)
    case JNum(n) => MNum(n)
    case JStr(s) => MStr(s)
    case JArr(items) => MArr(seq(|items|, i requires 0 <= i < |items| => Plain(items[i])))
    case JObj(members) => MObj(MembersMeaning(members))
  }

  function MembersMeaning(members: seq<Member>): map<string, Meaning>
    decreases members
  {
    if members == [] then map[] else MembersMeaning(members[1..])[members[0].key := Plain(members[0].value)]
  }

  predicate Ascending(members: seq<Member>) {
    forall i, j :: 0 <= i < j < |members| ==> KeyLess(members[i].key, members[j].key)
  }

  /** Every object lists its keys in order, none of them the prototype slot. */
  predicate Ordered(j: Json)
    decreases j
  {
    match j
    case JArr(items) => forall i :: 0 <= i < |items| ==> Ordered(items[i])
    case JObj(members) =>
      && Ascending(members)
      && forall i :: 0 <= i < |members| ==> members[i].key != "__proto__" && Ordered(members[i].value)
    case _ => true
  }

  // ----- sorting -----

  lemma {:induction false} MeaningKeys(members: seq<Member>)
    ensures forall k :: k in MembersMeaning(members) <==> exists i :: 0 <= i < |members| && members[i].key == k
  {
    if members != [] {
      MeaningKeys(members[1..]);
      forall k ensures k in MembersMeaning(members) <==> exists i :: 0 <= i < |members| && members[i].key == k {
        if i :| 0 <= i < |members| && members[i].key == k {
          if i > 0 {
            assert members[1..][i - 1].key == k;
          }
        }
        if k in MembersMeaning(members[1..]) {
          var i :| 0 <= i < |members| - 1 && members[1..][i].key == k;
          assert members[i + 1].key == k;
        }
      }
    }
  }

  lemma {:induction false} InsertMembers(m: Member, sorted: seq<Member>)
    ensures forall x :: x in Insert(m, sorted) <==> x == m || x in sorted
  {
    hide KeyLess;
    if sorted != [] {
      assert sorted == [sorted[0]] + sorted[1..];
      InsertMembers(m, sorted[1..]);
    }
  }

  lemma AscendingCons(m: Member, rest: seq<Member>)
    requires Ascending(rest) && forall x :: x in rest ==> KeyLess(m.key, x.key)
    ensures Ascending([m] + rest)
  {
    hide KeyLess;
  }

  lemma {:induction false} InsertAscending(m: Member, sorted: seq<Member>)
    requires Ascending(sorted) && forall x :: x in sorted ==> x.key != m.key
    ensures Ascending(Insert(m, sorted))
  {
    hide KeyLess;
    if sorted == [] || KeyLess(m.key, sorted[0].key) {
      forall x | x in sorted ensures KeyLess(m.key, x.key) {
        var i :| 0 <= i < |sorted| && sorted[i] == x;
        if i > 0 {
          KeyTransitive(m.key, sorted[0].key, x.key);
        }
      }
      AscendingCons(m, sorted);
    } else {
      KeyTotal(m.key, sorted[0].key);
      assert sorted[0] in sorted;
      InsertAscending(m, sorted[1..]);
      InsertMembers(m, sorted[1..]);
      forall x | x in Insert(m, sorted[1..]) ensures KeyLess(sorted[0].key, x.key) {
        if x != m {
          var i :| 0 <= i < |sorted| - 1 && sorted[1..][i] == x;
        }
      }
      AscendingCons(sorted[0], Insert(m, sorted[1..]));
    }
  }

  lemma {:induction false} InsertMeaning(m: Member, sorted: seq<Member>)
    requires forall x :: x in sorted ==> x.key != m.key
    ensures MembersMeaning(Insert(m, sorted)) == MembersMeaning(sorted)[m.key := Plain(m.value)]
  {
    hide KeyLess, Plain;
    if sorted == [] || KeyLess(m.key, sorted[0].key) {
      assert ([m] + sorted)[1..] == sorted;
    } else {
      assert sorted[0] in sorted;
      InsertMeaning(m, sorted[1..]);
      var rest := Insert(m, sorted[1..]);
      assert ([sorted[0]] + rest)[1..] == rest;
    }
  }

  predicate DistinctMembers(members: seq<Member>) {
    forall i, j :: 0 <= i < j < |members| ==> members[i].key != members[j].key
  }

  /** Sorting keeps the members and their meaning, and leaves keys in order. */
  lemma {:induction false} SortKeeps(members: seq<Member>)
    requires DistinctMembers(members)
    ensures Ascending(SortMembers(members))
    ensures MembersMeaning(SortMembers(members)) == MembersMeaning(members)
    ensures forall x :: x in SortMembers(members) <==> x in members
  {
    hide Plain, KeyLess, Insert;
    if members != [] {
      assert members == [members[0]] + members[1..];
      SortKeeps(members[1..]);
      var sorted := SortMembers(members[1..]);
      forall x | x in sorted ensures x.key != members[0].key {
        var i :| 0 <= i < |members| - 1 && members[1..][i] == x;
      }
      InsertAscending(members[0], sorted);
      InsertMeaning(members[0], sorted);
      InsertMembers(members[0], sorted);
    }
  }

  // ----- the canonical form says what the value says -----

  lemma {:induction false} KeptAreDistinct(fields: seq<Field>)
    requires DistinctKeys(fields)
    ensures DistinctMembers(KeptMembers(fields))
    ensures forall m :: m in KeptMembers(fields) ==>
              m.key != "__proto__" && exists f :: f in fields && f.key == m.key && m.value == Canonical(f.value)
  {
    hide Canonical;
    if fields != [] {
      assert fields == [fields[0]] + fields[1..];
      KeptAreDistinct(fields[1..]);
      var rest := KeptMembers(fields[1..]);
      forall i | 0 <= i < |rest| ensures rest[i].key != fields[0].key {
        assert rest[i] in rest;
        var f :| f in fields[1..] && f.key == rest[i].key;
        var j :| 0 <= j < |fields| - 1 && fields[1..][j] == f;
      }
    }
  }

  /** The canonical form of a well-formed value is ordered and means the same. */
  lemma {:induction false} CanonicalMeans(v: Js)
    requires WellFormed(v)
    ensures Plain(Canonical(v)) == MeaningOf(v) && Ordered(Canonical(v))
    decreases v, 1
  {
    match v
    case Arr(items) =>
      forall i | 0 <= i < |items| ensures Plain(Canonical(items[i])) == MeaningOf(items[i])
          && Ordered(Canonical(items[i])) {
        CanonicalMeans(items[i]);
      }
    case Obj(fields) =>
      KeptAreDistinct(fields);
      SortKeeps(KeptMembers(fields));
      KeptMeans(fields);
      forall f | f in fields ensures Ordered(Canonical(f.value)) {
        var i :| 0 <= i < |fields| && fields[i] == f;
        CanonicalMeans(fields[i].value);
      }
      var sorted := SortMembers(KeptMembers(fields));
      forall i | 0 <= i < |sorted| ensures sorted[i].key != "__proto__" && Ordered(sorted[i].value) {
        assert sorted[i] in sorted;
      }
    case _ =>
  }

  lemma {:induction false} KeptMeans(fields: seq<Field>)
    requires forall i :: 0 <= i < |fields| ==> WellFormed(fields[i].value)
    ensures MembersMeaning(KeptMembers(fields)) == FieldsMeaning(fields)
    decreases fields, 0
  {
    if fields != [] {
      KeptMeans(fields[1..]);
      CanonicalMeans(fields[0].value);
      var rest := KeptMembers(fields[1..]);
      if Kept(fields[0]) {
        var m := Member(fields[0].key, Canonical(fields[0].value));
        assert KeptMembers(fields) == [m] + rest && ([m] + rest)[1..] == rest;
      } else {
        assert KeptMembers(fields) == rest;
      }
    }
  }

  // ----- one meaning, one ordered form -----

  lemma {:induction false} OrderedUnique(a: Json, b: Json)
    requires Ordered(a) && Ordered(b) && Plain(a) == Plain(b)
    ensures a == b
    decreases a, 1
  {
    match a
    case JArr(items) =>
      forall i | 0 <= i < |items| ensures items[i] == b.items[i] {
        assert Plain(a).items[i] == Plain(items[i]) && Plain(b).items[i] == Plain(b.items[i]);
        OrderedUnique(items[i], b.items[i]);
      }
      assert items == b.items;
    case JObj(members) => MembersUniqueOrder(members, b.members);
    case _ =>
  }

  lemma LaterKeys(members: seq<Member>)
    requires Ascending(members) && members != []
    ensures forall k :: k in MembersMeaning(members[1..]) ==> KeyLess(members[0].key, k)
    ensures members[0].key !in MembersMeaning(members[1..])
  {
    hide KeyLess, Plain, MembersMeaning;
    MeaningKeys(members[1..]);
    forall k | k in MembersMeaning(members[1..]) ensures KeyLess(members[0].key, k) {
      var i :| 0 <= i < |members| - 1 && members[1..][i].key == k;
      assert members[i + 1].key == k;
    }
    KeyTotal(members[0].key, members[0].key);
  }

  /** The first key of an ordered list is the least key of its meaning. */
  lemma LeastFirst(members: seq<Member>)
    requires Ascending(members) && members != []
    ensures members[0].key in MembersMeaning(members)
    ensures forall k :: k in MembersMeaning(members) ==> k == members[0].key || KeyLess(members[0].key, k)
    ensures MembersMeaning(members)[members[0].key] == Plain(members[0].value)
    ensures MembersMeaning(members[1..]) == MembersMeaning(members) - {members[0].key}
  {
    hide KeyLess, Plain;
    LaterKeys(members);
  }

  lemma EmptyMeaning(members: seq<Member>)
    ensures MembersMeaning(members) == map[] <==> members == []
  {
    if members != [] {
      assert members[0].key in MembersMeaning(members);
    }
  }

  lemma {:induction false} MembersUniqueOrder(a: seq<Member>, b: seq<Member>)
    requires Ordered(JObj(a)) && Ordered(JObj(b)) && MembersMeaning(a) == MembersMeaning(b)
    ensures a == b
    decreases a, 0
  {
    hide KeyLess, Plain;
    EmptyMeaning(a);
    EmptyMeaning(b);
    if a != [] && b != [] {
      LeastFirst(a);
      LeastFirst(b);
      KeyTotal(a[0].key, b[0].key);
      OrderedUnique(a[0].value, b[0].value);
      assert Ordered(JObj(a[1..])) && Ordered(JObj(b[1..]));
      MembersUniqueOrder(a[1..], b[1..]);
      assert a == [a[0]] + a[1..] && b == [b[0]] + b[1..];
    }
  }

  // ----- the theorems -----

  /** Two receipts have one canonical text exactly when they say the same: the
      order of keys at every depth, undefined members and a member called
      `__proto__` do not matter, and everything else does. */
  lemma CanonicalTextExact(v: Js, w: Js)
    requires WellFormed(v) && WellFormed(w)
    ensures CanonicalText(v) == CanonicalText(w) <==> MeaningOf(v) == MeaningOf(w)
  {
    hide Write, Canonical, MeaningOf, Ordered, Plain;
    WriteInjective(Canonical(v), Canonical(w));
    CanonicalMeans(v);
    CanonicalMeans(w);
    if MeaningOf(v) == MeaningOf(w) {
      OrderedUnique(Canonical(v), Canonical(w));
    }
  }

  /** The canonical text is JSON by the grammar of RFC 8259: read back, it means
      what the value means, and every object in it lists its keys in order. */
  lemma CanonicalReadsBack(v: Js)
    requires WellFormed(v)
    ensures var r := ReadValue(CanonicalText(v));
            r.Some? && r.value.1 == "" && Plain(r.value.0) == MeaningOf(v) && Ordered(r.value.0)
  {
    hide Write, ReadValue, Canonical, MeaningOf, Ordered, Plain, WellFormed;
    WriteReadBack(Canonical(v));
    CanonicalMeans(v);
  }

  /** The canonical value as JavaScript reads it back. */
  function Reread(j: Json): Js
    decreases j
  {
    match j
    case JNull => Null
    case JBool(b) => Bool(b)
    case JNum(n) => Num(n)
    case JStr(s) => Str(s)
    case JArr(items) => Arr(seq(|items|, i requires 0 <= i < |items| => Reread(items[i])))
    case JObj(members) =>
        Obj(seq(|members|, i requires 0 <= i < |members| => Field(members[i].key, Reread(members[i].value))))
  }

  lemma {:induction false} RereadMeans(j: Json)
    requires Ordered(j)
    ensures WellFormed(Reread(j)) && MeaningOf(Reread(j)) == Plain(j) && Reread(j) != Undefined
    decreases j, 1
  {
    match j
    case JArr(items) =>
      forall i | 0 <= i < |items| ensures WellFormed(Reread(items[i]))
          && MeaningOf(Reread(items[i])) == Plain(items[i]) {
        RereadMeans(items[i]);
      }
    case JObj(members) => RereadMembers(members);
    case _ =>
  }

  lemma {:induction false} RereadMembers(members: seq<Member>)
    requires Ordered(JObj(members))
    ensures WellFormed(Reread(JObj(members))) && FieldsMeaning(Reread(JObj(members)).fields) == MembersMeaning(members)
    decreases members, 0
  {
    if members != [] {
      var fields := Reread(JObj(members)).fields;
      assert Ordered(JObj(members[1..]));
      RereadMembers(members[1..]);
      RereadMeans(members[0].value);
      assert fields[1..] == Reread(JObj(members[1..])).fields;
      assert fields == [fields[0]] + fields[1..];
      forall i | 0 < i < |fields| ensures fields[0].key != fields[i].key {
        KeyTotal(members[0].key, members[i].key);
      }
    }
  }

  /** Canonicalising canonical data again gives the same text. */
  lemma CanonicalIdempotent(v: Js)
    requires WellFormed(v)
    ensures WellFormed(Reread(Canonical(v))) && CanonicalText(Reread(Canonical(v))) == CanonicalText(v)
  {
    hide Write, Canonical, MeaningOf, Ordered, Plain, WellFormed, Reread, CanonicalText;
    CanonicalMeans(v);
    RereadMeans(Canonical(v));
    CanonicalTextExact(v, Reread(Canonical(v)));
  }

  /** The fields of an object in another order say the same. */
  lemma FieldsReordered(a: seq<Field>, b: seq<Field>)
    requires DistinctKeys(a) && DistinctKeys(b) && forall f :: f in a <==> f in b
    ensures MeaningOf(Obj(a)) == MeaningOf(Obj(b))
  {
    FieldsMeaningIs(a);
    FieldsMeaningIs(b);
  }

  lemma {:induction false} FieldsMeaningIs(fields: seq<Field>)
    requires DistinctKeys(fields)
    ensures forall k :: k in FieldsMeaning(fields) <==> exists f :: f in fields && Kept(f) && f.key == k
    ensures forall f :: f in fields && Kept(f) ==> FieldsMeaning(fields)[f.key] == MeaningOf(f.value)
  {
    hide MeaningOf;
    if fields != [] {
      assert fields == [fields[0]] + fields[1..];
      FieldsMeaningIs(fields[1..]);
      forall f | f in fields[1..] ensures f.key != fields[0].key {
        var i :| 0 <= i < |fields| - 1 && fields[1..][i] == f;
      }
    }
  }

  /** A member that is not undefined can be lost: the one called `__proto__`. */
  lemma PrototypeMemberIsLost(fields: seq<Field>, value: Js)
    requires WellFormed(Obj([Field("__proto__", value)] + fields))
    ensures WellFormed(Obj(fields))
              && CanonicalText(Obj([Field("__proto__", value)] + fields)) == CanonicalText(Obj(fields))
  {
    var all := [Field("__proto__", value)] + fields;
    assert all[1..] == fields;
    forall i, j | 0 <= i < j < |fields| ensures fields[i].key != fields[j].key {
      assert all[i + 1].key != all[j + 1].key;
    }
    forall i | 0 <= i < |fields| ensures WellFormed(fields[i].value) {
      assert WellFormed(all[i + 1].value);
    }
    CanonicalTextExact(Obj(all), Obj(fields));
  }

  // ----- signatures -----

  type Address = string

  /** Signing and recovery, as functions: recovery throws on malformed
      signatures. `address` is the checksum form of an address. */
  datatype Scheme = Scheme(address: string -> Option<Address>, sign: (Address, string) -> string,
                           recover: (string, string) -> Option<Address>)

  /** A signature recovers to its signer. */
  ghost predicate Sound(scheme: Scheme) {
    forall who: Address, text: string :: scheme.recover(text, scheme.sign(who, text)) == Some(who)
  }

  datatype Signed = Signed(payload: Js, signature: string, signer: Address, canonicalPayload: string)

  /** `signSpendReceipt`. */
  function SignReceipt(payload: Js, who: Address, scheme: Scheme): Signed {
    var text := CanonicalText(payload);
    Signed(payload, scheme.sign(who, text), who, text)
  }

  datatype TrustFailure = InvalidTrustedSigner | InvalidClaimedSigner | SignerMismatch | InvalidSignature

  datatype Trust = Trusted(signer: Address) | Untrusted(failure: TrustFailure, recovered: Option<Address>)

  /** `verifySpendReceiptAgainstTrustedSigner`. */
  function VerifyAgainstTrusted(payload: Js, signature: string, claimed: string, trusted: string,
                                scheme: Scheme): Trust {
    match (scheme.address(trusted), scheme.address(claimed))
    case (None, _) => Untrusted(InvalidTrustedSigner, None)
    case (_, None) => Untrusted(InvalidClaimedSigner, None)
    case (Some(t), Some(c)) =>
      if Lower(c) != Lower(t) then Untrusted(SignerMismatch, None)
      else
        match scheme.recover(CanonicalText(payload), signature)
        case None => Untrusted(InvalidSignature, None)
        case Some(r) => if Lower(r) != Lower(t) then Untrusted(InvalidSignature, Some(r)) else Trusted(r)
  }

  /** `verifySpendReceipt`; `None` is the exception of a malformed signature. */
  function VerifyReceipt(payload: Js, signature: string, expected: string, scheme: Scheme): Option<bool> {
    match scheme.recover(CanonicalText(payload), signature)
    case None => None
    case Some(r) => Some(Lower(r) == Lower(expected))
  }

  /** Both texts are the address of one account. */
  predicate SameAccount(scheme: Scheme, a: string, b: string) {
    && scheme.address(a).Some? && scheme.address(b).Some?
    && Lower(scheme.address(a).value) == Lower(scheme.address(b).value)
  }

  /** Nobody else's signature, and no signature of another text, recovers to this
      account. */
  ghost predicate Unforgeable(scheme: Scheme, account: Address) {
    forall who: Address, r: Address, text: string, other: string ::
      scheme.recover(other, scheme.sign(who, text)) == Some(r) && Lower(r) == Lower(account) ==>
        other == text && Lower(who) == Lower(account)
  }

  /** A signed receipt is trusted exactly when the claimed signer is the trusted
      one, that one signed it, and the payload shown says what was signed,
      whatever the order of its keys. Otherwise the first check that fails is the
      one that is named. */
  lemma SignedReceiptVerifies(signed: Js, shown: Js, who: Address, claimed: string, trusted: string, scheme: Scheme)
    requires Sound(scheme) && WellFormed(signed) && WellFormed(shown)
    requires scheme.address(trusted).Some? ==> Unforgeable(scheme, scheme.address(trusted).value)
    ensures var v := VerifyAgainstTrusted(shown, SignReceipt(signed, who, scheme).signature, claimed, trusted, scheme);
            && (v.Trusted? <==> && SameAccount(scheme, claimed, trusted)
                                && Lower(who) == Lower(scheme.address(trusted).value)
                                && MeaningOf(shown) == MeaningOf(signed))
            && (v.Trusted? ==> v.signer == who)
            && (v.Untrusted? ==>
                  && (v.failure == InvalidTrustedSigner <==> scheme.address(trusted) == None)
                  && (v.failure == InvalidClaimedSigner
                      <==> scheme.address(trusted).Some? && scheme.address(claimed) == None)
                  && (v.failure == InvalidSignature <==> SameAccount(scheme, claimed, trusted)))
  {
    hide CanonicalText, MeaningOf, WellFormed, Lower;
    CanonicalTextExact(shown, signed);
  }

  /** The plain check: a signature verifies for its own signer and payload, and
      for no other payload. */
  lemma SignedReceiptIsValid(signed: Js, shown: Js, who: Address, expected: string, scheme: Scheme)
    requires Sound(scheme) && WellFormed(signed) && WellFormed(shown) && Unforgeable(scheme, expected)
    ensures VerifyReceipt(shown, SignReceipt(signed, who, scheme).signature, expected, scheme) == Some(true)
            <==> Lower(who) == Lower(expected) && MeaningOf(shown) == MeaningOf(signed)
  {
    hide CanonicalText, MeaningOf, WellFormed, Lower;
    CanonicalTextExact(shown, signed);
  }
}

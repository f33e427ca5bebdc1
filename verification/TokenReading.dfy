/** Which fields of a charging record tell of its token: the UID fields named in
    diagnostics, and the metadata that is kept. */
module TokenReading {
  import opened Basics
  import opened Numerals
  import opened Cdr
  import opened CdrIdentity
  import opened OwnerReading
  import opened TokenMetadata

  // ----- UID fields -----

  function UidSpellings(prefix: Path): seq<Path> { [prefix + ["UID"], prefix + ["uid"]] }

  function UidIdentified(name: string): seq<Path> {
    UidSpellings([name]) + UidSpellings([name, "RFIDIdentification"]) + UidSpellings([name, "QRCodeIdentification"])
    + UidSpellings([name, "PlugAndChargeIdentification"]) + UidSpellings([name, "RemoteIdentification"])
    + UidSpellings([name, "RFIDMifareFamilyIdentification"])
  }

  const FLAT_UIDS: seq<Path> := [["UID"], ["uid"], ["cdr_token_uid"], ["cdr_token", "uid"]]
  const UID_PATHS: seq<Path> := FLAT_UIDS + UidIdentified("Identification") + UidIdentified("identification")

  /** The names of those fields that hold a value. */
  function PresentAt(input: Input, paths: seq<Path>): seq<string> {
    if paths == [] then []
    else
      (if HasValue(At(Record(input), paths[0])) then [Dotted(paths[0])] else []) + PresentAt(input, paths[1..])
  }

  lemma {:induction false} PresentConcat(input: Input, a: seq<Path>, b: seq<Path>)
    ensures PresentAt(input, a + b) == PresentAt(input, a) + PresentAt(input, b)
  {
    hide At, Dotted, HasValue;
    if a == [] {
      assert a + b == b;
    } else {
      assert (a + b)[1..] == a[1..] + b && (a + b)[0] == a[0];
      PresentConcat(input, a[1..], b);
    }
  }

  lemma PresentPair(input: Input, p: Path, q: Path)
    ensures PresentAt(input, [p, q])
              == NamedIf(Dotted(p), At(Record(input), p)) + NamedIf(Dotted(q), At(Record(input), q))
  {
    hide At, Dotted, HasValue;
    assert [p, q][1..] == [q] && [q][1..] == [];
    assert PresentAt(input, [q]) == NamedIf(Dotted(q), At(Record(input), q));
  }

  lemma OwnUids(input: Input, name: string)
    ensures PresentAt(input, UidSpellings([name]))
              == NamedIf(name + ".UID", GetIn(Get(input, name), "UID"))
                 + NamedIf(name + ".uid", GetIn(Get(input, name), "uid"))
  {
    hide At, Dotted, HasValue;
    assert [name] + ["UID"] == [name, "UID"] && [name] + ["uid"] == [name, "uid"];
    AtTwo(Record(input), name, "UID");
    AtTwo(Record(input), name, "uid");
    assert name + "." + "UID" == name + ".UID" && name + "." + "uid" == name + ".uid";
    PresentPair(input, [name, "UID"], [name, "uid"]);
  }

  lemma VariantUidsAt(input: Input, name: string, variant: string)
    ensures var details := GetIn(Get(input, name), variant);
            PresentAt(input, UidSpellings([name, variant]))
              == NamedIf(name + "." + variant + ".UID", GetIn(details, "UID"))
                 + NamedIf(name + "." + variant + ".uid", GetIn(details, "uid"))
  {
    hide At, Dotted, HasValue;
    assert [name, variant] + ["UID"] == [name, variant, "UID"] && [name, variant] + ["uid"] == [name, variant, "uid"];
    AtThree(Record(input), name, variant, "UID");
    AtThree(Record(input), name, variant, "uid");
    var prefix := name + "." + variant;
    assert prefix + "." + "UID" == prefix + ".UID" && prefix + "." + "uid" == prefix + ".uid";
    PresentPair(input, [name, variant, "UID"], [name, variant, "uid"]);
  }

  function VariantUidPaths(name: string, variants: seq<string>): seq<Path> {
    if variants == [] then []
    else
      var n := |variants| - 1;
      VariantUidPaths(name, variants[..n]) + UidSpellings([name, variants[n]])
  }

  lemma {:induction false} VariantsUids(input: Input, name: string, n: nat)
    requires n <= |UID_VARIANTS|
    ensures PresentAt(input, VariantUidPaths(name, UID_VARIANTS[..n])) == VariantUids(name, Get(input, name), n)
  {
    hide PresentAt, NamedIf;
    if n == 0 {
      NothingPresent(input);
    } else {
      VariantsUids(input, name, n - 1);
      assert UID_VARIANTS[..n][..n - 1] == UID_VARIANTS[..n - 1];
      PresentConcat(input, VariantUidPaths(name, UID_VARIANTS[..n - 1]), UidSpellings([name, UID_VARIANTS[n - 1]]));
      VariantUidsAt(input, name, UID_VARIANTS[n - 1]);
      NothingNamed();
    }
  }

  lemma NothingPresent(input: Input)
    ensures PresentAt(input, []) == []
  {}

  lemma NothingNamed()
    ensures forall name :: NamedIf(name, Value.Missing) == []
  {}

  lemma {:induction false} NoVariantUids(name: string, v: Value, n: nat)
    requires n <= |UID_VARIANTS| && !v.Record?
    ensures VariantUids(name, v, n) == []
  {
    if n > 0 {
      NoVariantUids(name, v, n - 1);
    }
  }

  lemma FiveVariants(name: string, a: string, b: string, c: string, d: string, e: string)
    ensures VariantUidPaths(name, [a, b, c, d, e])
              == UidSpellings([name, a]) + UidSpellings([name, b]) + UidSpellings([name, c]) + UidSpellings([name, d])
                 + UidSpellings([name, e])
  {
    hide UidSpellings;
    assert [a, b, c, d, e][..4] == [a, b, c, d] && [a, b, c, d][..3] == [a, b, c];
    assert [a, b, c][..2] == [a, b] && [a, b][..1] == [a] && [a][..0] == [];
    assert VariantUidPaths(name, [a]) == UidSpellings([name, a]);
    assert VariantUidPaths(name, [a, b]) == VariantUidPaths(name, [a]) + UidSpellings([name, b]);
    assert VariantUidPaths(name, [a, b, c]) == VariantUidPaths(name, [a, b]) + UidSpellings([name, c]);
    assert VariantUidPaths(name, [a, b, c, d]) == VariantUidPaths(name, [a, b, c]) + UidSpellings([name, d]);
  }

  lemma UidIdentifiedIs(name: string)
    ensures UidIdentified(name) == UidSpellings([name]) + VariantUidPaths(name, UID_VARIANTS)
  {
    hide UidSpellings, VariantUidPaths;
    FiveVariants(name, "RFIDIdentification", "QRCodeIdentification", "PlugAndChargeIdentification",
                 "RemoteIdentification", "RFIDMifareFamilyIdentification");
    assert UID_VARIANTS == VARIANT_NAMES;
  }

  lemma IdentificationUidsAt(input: Input, name: string)
    ensures PresentAt(input, UidIdentified(name)) == IdentificationUids(name, Get(input, name))
  {
    hide PresentAt, NamedIf, UidIdentified, VariantUidPaths, VariantUids, UidSpellings;
    UidIdentifiedIs(name);
    PresentConcat(input, UidSpellings([name]), VariantUidPaths(name, UID_VARIANTS));
    OwnUids(input, name);
    VariantsUids(input, name, 5);
    assert UID_VARIANTS[..5] == UID_VARIANTS;
    NothingNamed();
    if !Get(input, name).Record? {
      NoVariantUids(name, Get(input, name), 5);
    }
  }

  lemma FlatUidsAt(input: Input)
    ensures PresentAt(input, FLAT_UIDS) == FlatUids(input)
  {
    hide At, Dotted, HasValue;
    AtOne(Record(input), "UID");
    AtOne(Record(input), "uid");
    AtOne(Record(input), "cdr_token_uid");
    AtTwo(Record(input), "cdr_token", "uid");
    assert "cdr_token" + "." + "uid" == "cdr_token.uid";
    PresentPair(input, ["UID"], ["uid"]);
    PresentPair(input, ["cdr_token_uid"], ["cdr_token", "uid"]);
    assert FLAT_UIDS == [["UID"], ["uid"]] + [["cdr_token_uid"], ["cdr_token", "uid"]];
    PresentConcat(input, [["UID"], ["uid"]], [["cdr_token_uid"], ["cdr_token", "uid"]]);
  }

  /** The diagnostics name every UID field that holds a value, by its path and in
      this order, and no other. */
  lemma UidsExactly(input: Input)
    ensures UidSources(input) == PresentAt(input, UID_PATHS)
  {
    hide PresentAt, UidIdentified, IdentificationUids, FlatUids;
    FlatUidsAt(input);
    IdentificationUidsAt(input, "Identification");
    IdentificationUidsAt(input, "identification");
    PresentConcat(input, FLAT_UIDS, UidIdentified("Identification"));
    PresentConcat(input, FLAT_UIDS + UidIdentified("Identification"), UidIdentified("identification"));
  }

  // ----- metadata -----

  /** The first value present is this text. */
  predicate FirstText(values: seq<Value>, text: string) {
    exists i :: 0 <= i < |values| && values[i] == Text(text) && HasValue(values[i])
                && forall j :: 0 <= j < i ==> !HasValue(values[j])
  }

  lemma {:induction false} FirstTextIs(values: seq<Value>, text: string)
    ensures FirstString(values) == Some(text) <==> FirstText(values, text)
  {
    hide HasValue;
    if values != [] {
      var rest := values[1..];
      FirstTextIs(rest, text);
      if HasValue(values[0]) {
        assert FirstText(values, text) <==> values[0] == Text(text);
      } else {
        if i :| 0 <= i < |values| && values[i] == Text(text) && HasValue(values[i])
                && forall j :: 0 <= j < i ==> !HasValue(values[j]) {
          assert rest[i - 1] == values[i] && forall j :: 0 <= j < i - 1 ==> rest[j] == values[j + 1];
        }
        if i :| 0 <= i < |rest| && rest[i] == Text(text) && HasValue(rest[i])
                && forall j :: 0 <= j < i ==> !HasValue(rest[j]) {
          assert values[i + 1] == rest[i] && forall j :: 0 < j < i + 1 ==> values[j] == rest[j - 1];
        }
      }
    }
  }

  const VARIANT_NAMES := ["RFIDIdentification", "QRCodeIdentification", "PlugAndChargeIdentification",
                          "RemoteIdentification", "RFIDMifareFamilyIdentification"]

  function DetailsAt(input: Input, name: string, i: nat): Value
    requires i < 5
  {
    GetIn(Get(input, name), VARIANT_NAMES[i])
  }

  /** The first variant of an identification object that tells of a token: by an
      upper-case UID, or by an owner field. */
  predicate FirstVariant(input: Input, name: string, i: int) {
    0 <= i < 5 && Tells(DetailsAt(input, name, i)) && forall j :: 0 <= j < i ==> !Tells(DetailsAt(input, name, j))
  }

  predicate NoVariant(input: Input, name: string) { forall j :: 0 <= j < 5 ==> !Tells(DetailsAt(input, name, j)) }

  lemma {:induction false} FirstTellingIs(v: Value, i: nat)
    requires i <= |UID_VARIANTS|
    ensures FirstTelling(v, i) == None <==> forall j :: i <= j < |UID_VARIANTS| ==> !Tells(GetIn(v, UID_VARIANTS[j]))
    ensures FirstTelling(v, i).Some? ==>
              var k := FirstTelling(v, i).value;
              && i <= k < |UID_VARIANTS| && Tells(GetIn(v, UID_VARIANTS[k]))
              && forall j :: i <= j < k ==> !Tells(GetIn(v, UID_VARIANTS[j]))
    decreases |UID_VARIANTS| - i
  {
    hide Tells;
    if i < |UID_VARIANTS| {
      FirstTellingIs(v, i + 1);
    }
  }

  lemma VariantIs(input: Input, name: string)
    ensures var f := FirstTelling(Get(input, name), 0);
            && (f == None <==> NoVariant(input, name))
            && (f.Some? ==> f.value < 5 && FirstVariant(input, name, f.value))
  {
    hide Tells;
    FirstTellingIs(Get(input, name), 0);
    assert UID_VARIANTS == VARIANT_NAMES;
    forall j | 0 <= j < 5 ensures DetailsAt(input, name, j) == GetIn(Get(input, name), UID_VARIANTS[j]) {}
  }

  /** Type, country and party of the kept metadata: the first value present, if it
      is a text. */
  lemma MetadataFields(input: Input, t: string)
    ensures var m := AllMetadata(input);
            var token := Get(input, "cdr_token");
            && (m.kind == Some(t) <==> FirstText([GetIn(token, "type"), Get(input, "cdr_token_type")], t))
            && (m.countryCode == Some(t)
                <==> FirstText([GetIn(token, "country_code"), Get(input, "cdr_token_country_code")], t))
            && (m.partyId == Some(t)
                <==> FirstText([GetIn(token, "party_id"), Get(input, "cdr_token_party_id")], t))
  {
    hide FirstString, FirstText, Tells, FirstTelling;
    var token := Get(input, "cdr_token");
    FirstTextIs([GetIn(token, "type"), Get(input, "cdr_token_type")], t);
    FirstTextIs([GetIn(token, "country_code"), Get(input, "cdr_token_country_code")], t);
    FirstTextIs([GetIn(token, "party_id"), Get(input, "cdr_token_party_id")], t);
  }

  /** The UID texts of the token itself. */
  function OwnUidsOf(input: Input): seq<Value> {
    [GetIn(Get(input, "cdr_token"), "uid"), Get(input, "cdr_token_uid"), Get(input, "UID")]
  }

  /** The metadata as the variant `i` of one identification object gives it: its
      name, and its upper-case UID if the token has none of its own. */
  ghost predicate VariantGives(input: Input, m: Metadata, name: string, i: nat) {
    && FirstVariant(input, name, i) && m.variant == Some(name + "." + VARIANT_NAMES[i])
    && forall t :: m.uid == Some(t)
         <==> FirstText(OwnUidsOf(input), t)
              || ((forall u :: !FirstText(OwnUidsOf(input), u))
                  && FirstText([GetIn(DetailsAt(input, name, i), "UID")], t))
  }

  /** The variant is the first that tells of a token, in the two identification
      objects in turn; without one the UID is the token's own. */
  lemma MetadataExactly(input: Input)
    ensures var m := AllMetadata(input);
            if !NoVariant(input, "Identification") then exists i :: VariantGives(input, m, "Identification", i)
            else if !NoVariant(input, "identification") then exists i :: VariantGives(input, m, "identification", i)
            else m.variant == None && forall t :: m.uid == Some(t) <==> FirstText(OwnUidsOf(input), t)
  {
    hide FirstString, FirstText, Tells, FirstTelling;
    forall values, t ensures FirstString(values) == Some(t) <==> FirstText(values, t) {
      FirstTextIs(values, t);
    }
    VariantIs(input, "Identification");
    VariantIs(input, "identification");
    var m := AllMetadata(input);
    if f :| FirstTelling(Get(input, "Identification"), 0) == Some(f) {
      assert VariantGives(input, m, "Identification", f);
    } else if f :| FirstTelling(Get(input, "identification"), 0) == Some(f) {
      assert VariantGives(input, m, "identification", f);
    }
  }
}

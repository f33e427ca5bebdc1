/** What is kept of a token that does not own anything. */
module TokenMetadata {
  import opened Basics
  import opened Numerals
  import opened Cdr
  import opened CdrIdentity

  datatype Metadata = Metadata(uid: Option<string>, kind: Option<string>, countryCode: Option<string>,
                               partyId: Option<string>, variant: Option<string>)

  const NOTHING := Metadata(None, None, None, None, None)

  /** `firstString`: the first value there is, if it is a text. */
  function FirstString(values: seq<Value>): Option<string> {
    if values == [] then None
    else if HasValue(values[0]) then (if values[0].Text? then Some(values[0].text) else None)
    else FirstString(values[1..])
  }

  predicate Truthy(v: Value) {
    match v
    case Missing => false
    case Null => false
    case Bool(b) => b
    case Num(_, number) => number.units != 0
    case Text(text) => text != ""
    case _ => true
  }

  /** A variant that says something about the token. */
  predicate Tells(details: Value) {
    details.Record?
    && (FirstString([GetIn(details, "UID")]).Some?
        || Truthy(GetIn(details, "EvcoID")) || Truthy(GetIn(details, "eMAID")) || Truthy(GetIn(details, "EMAID")))
  }

  /** The first telling variant from position `i` on. */
  function FirstTelling(identification: Value, i: nat): Option<nat>
    requires i <= |UID_VARIANTS|
    decreases |UID_VARIANTS| - i
  {
    if i == |UID_VARIANTS| then None
    else if Tells(GetIn(identification, UID_VARIANTS[i])) then Some(i)
    else FirstTelling(identification, i + 1)
  }

  lemma {:induction false} TellingIsVariant(identification: Value, i: nat)
    requires i <= |UID_VARIANTS|
    ensures FirstTelling(identification, i).Some? ==> i <= FirstTelling(identification, i).value < |UID_VARIANTS|
    decreases |UID_VARIANTS| - i
  {
    hide Tells;
    if i < |UID_VARIANTS| {
      TellingIsVariant(identification, i + 1);
    }
  }

  /** The variant's name, and its UID where none was found before. */
  function WithVariant(m: Metadata, name: string, identification: Value): Metadata {
    TellingIsVariant(identification, 0);
    match FirstTelling(identification, 0)
    case None => m
    case Some(i) =>
      var uid := FirstString([GetIn(GetIn(identification, UID_VARIANTS[i]), "UID")]);
      m.(uid := if m.uid.Some? then m.uid else uid, variant := Some(name + "." + UID_VARIANTS[i]))
  }

  function FlatMetadata(input: Input): Metadata {
    var token := Get(input, "cdr_token");
    Metadata(FirstString([GetIn(token, "uid"), Get(input, "cdr_token_uid"), Get(input, "UID")]),
             FirstString([GetIn(token, "type"), Get(input, "cdr_token_type")]),
             FirstString([GetIn(token, "country_code"), Get(input, "cdr_token_country_code")]),
             FirstString([GetIn(token, "party_id"), Get(input, "cdr_token_party_id")]),
             None)
  }

  function AllMetadata(input: Input): Metadata {
    var first := WithVariant(FlatMetadata(input), "Identification", Get(input, "Identification"));
    if first.variant.Some? then first else WithVariant(first, "identification", Get(input, "identification"))
  }

  /** `collectTokenMetadata`. */
  function Collected(input: Input): Option<Metadata> {
    if AllMetadata(input) == NOTHING then None else Some(AllMetadata(input))
  }

  // ----- the loops -----

  method AddVariant(found: Metadata, name: string, identification: Value) returns (m: Metadata)
    ensures m == WithVariant(found, name, identification)
  {
    hide FirstString, Truthy;
    m := found;
    if !identification.Record? {
      NoRecordTells(identification, 0);
      return;
    }
    var i := 0;
    while i < |UID_VARIANTS|
      invariant i <= |UID_VARIANTS| && m == found && FirstTelling(identification, 0) == FirstTelling(identification, i)
    {
      var details := GetIn(identification, UID_VARIANTS[i]);
      if details.Record? {
        var variantUid := FirstString([GetIn(details, "UID")]);
        var owned := Truthy(GetIn(details, "EvcoID"));
        owned := owned || Truthy(GetIn(details, "eMAID")) || Truthy(GetIn(details, "EMAID"));
        if variantUid.Some? && m.uid == None {
          m := m.(uid := variantUid);
        }
        if variantUid.Some? || owned {
          m := m.(variant := Some(name + "." + UID_VARIANTS[i]));
          return;
        }
      }
      i := i + 1;
    }
  }

  lemma {:induction false} NoRecordTells(v: Value, i: nat)
    requires !v.Record? && i <= |UID_VARIANTS|
    ensures FirstTelling(v, i) == None
    decreases |UID_VARIANTS| - i
  {
    if i < |UID_VARIANTS| {
      NoRecordTells(v, i + 1);
    }
  }

  method CollectTokenMetadata(input: Input) returns (metadata: Option<Metadata>)
    ensures metadata == Collected(input)
  {
    hide FirstString, WithVariant;
    var token := Get(input, "cdr_token");
    var m := NOTHING;
    m := m.(uid := FirstString([GetIn(token, "uid"), Get(input, "cdr_token_uid"), Get(input, "UID")]));
    m := m.(kind := FirstString([GetIn(token, "type"), Get(input, "cdr_token_type")]));
    m := m.(countryCode := FirstString([GetIn(token, "country_code"), Get(input, "cdr_token_country_code")]));
    m := m.(partyId := FirstString([GetIn(token, "party_id"), Get(input, "cdr_token_party_id")]));
    m := AddVariant(m, "Identification", Get(input, "Identification"));
    if m.variant == None {
      m := AddVariant(m, "identification", Get(input, "identification"));
    }
    metadata := if m == NOTHING then None else Some(m);
  }

  // ----- lower-case UIDs are not kept -----

  /** A custom, lower-case UID outside the token object. */
  predicate IsCustomUid(f: UidField) {
    match f
    case TopField(key) => key == "uid"
    case TokenField => false
    case IdentificationField(name, key) => name in {"Identification", "identification"} && key == "uid"
    case VariantField(name, variant, key) =>
      name in {"Identification", "identification"} && variant in UID_VARIANTS && key == "uid"
  }

  /** What the metadata reads of one variant. */
  predicate SameDetails(a: Value, b: Value) {
    && GetIn(a, "UID") == GetIn(b, "UID") && GetIn(a, "EvcoID") == GetIn(b, "EvcoID")
    && GetIn(a, "eMAID") == GetIn(b, "eMAID") && GetIn(a, "EMAID") == GetIn(b, "EMAID")
  }

  lemma SameTells(a: Value, b: Value)
    requires SameDetails(a, b)
    ensures Tells(a) == Tells(b)
  {
    MissingTellsNothing();
  }

  lemma MissingTellsNothing()
    ensures FirstString([Value.Missing]) == None && !Truthy(Value.Missing)
  {
    assert [Value.Missing][1..] == [];
  }

  predicate SameVariantDetails(a: Value, b: Value) {
    forall i :: 0 <= i < |UID_VARIANTS| ==> SameDetails(GetIn(a, UID_VARIANTS[i]), GetIn(b, UID_VARIANTS[i]))
  }

  lemma {:induction false} SameTelling(a: Value, b: Value, i: nat)
    requires SameVariantDetails(a, b) && i <= |UID_VARIANTS|
    ensures FirstTelling(a, i) == FirstTelling(b, i)
    decreases |UID_VARIANTS| - i
  {
    hide Tells, SameDetails;
    if i < |UID_VARIANTS| {
      assert SameDetails(GetIn(a, UID_VARIANTS[i]), GetIn(b, UID_VARIANTS[i]));
      SameTells(GetIn(a, UID_VARIANTS[i]), GetIn(b, UID_VARIANTS[i]));
      SameTelling(a, b, i + 1);
    }
  }

  lemma SameWithVariant(m: Metadata, name: string, a: Value, b: Value)
    requires SameVariantDetails(a, b)
    ensures WithVariant(m, name, a) == WithVariant(m, name, b)
  {
    hide FirstString;
    SameTelling(a, b, 0);
    TellingIsVariant(a, 0);
    if FirstTelling(a, 0).Some? {
      var i := FirstTelling(a, 0).value;
      assert SameDetails(GetIn(a, UID_VARIANTS[i]), GetIn(b, UID_VARIANTS[i]));
    }
  }

  lemma NamesApart(key: string)
    requires key == "uid"
    ensures key != "UID" && key != "EvcoID" && key != "eMAID" && key != "EMAID"
    ensures forall i :: 0 <= i < |UID_VARIANTS| ==> UID_VARIANTS[i] != key
  {
    assert |key| == 3 && key[0] == 'u';
  }

  lemma PutKeepsDetails(record: Value, v: Option<Value>)
    ensures SameDetails(record, PutIn(record, "uid", v)) && SameVariantDetails(record, PutIn(record, "uid", v))
  {
    NamesApart("uid");
  }

  lemma PutVariantKeeps(record: Value, variant: string, v: Option<Value>)
    requires variant in UID_VARIANTS
    ensures SameVariantDetails(record, PutVariant(record, variant, "uid", v))
  {
    hide SameDetails;
    var inner := PutIn(GetIn(record, variant), "uid", v);
    PutKeepsDetails(GetIn(record, variant), v);
    OtherFields(record, variant, inner);
    forall i | 0 <= i < |UID_VARIANTS|
      ensures SameDetails(GetIn(record, UID_VARIANTS[i]),
                          GetIn(PutVariant(record, variant, "uid", v), UID_VARIANTS[i]))
    {
      DetailsAreSame(GetIn(record, UID_VARIANTS[i]));
    }
  }

  lemma DetailsAreSame(v: Value)
    ensures SameDetails(v, v)
  {}

  /** A lower-case UID, wherever it is put outside the token object, never enters
      the metadata. */
  lemma CustomUidIsNotKept(input: Input, f: UidField, v: Option<Value>)
    requires IsCustomUid(f)
    ensures Collected(SetUid(input, f, v)) == Collected(input)
  {
    hide FirstString, WithVariant, SameVariantDetails, PutIn, PutVariant;
    VariantsAreSame(Get(input, "Identification"));
    VariantsAreSame(Get(input, "identification"));
    match f
    case TopField(key) => SameEverywhere(input, SetUid(input, f, v));
    case IdentificationField(name, key) =>
      PutKeepsDetails(Get(input, name), v);
      SameEverywhere(input, SetUid(input, f, v));
    case VariantField(name, variant, key) =>
      PutVariantKeeps(Get(input, name), variant, v);
      SameEverywhere(input, SetUid(input, f, v));
  }

  lemma VariantsAreSame(v: Value)
    ensures SameVariantDetails(v, v)
  {}

  lemma SameEverywhere(a: Input, b: Input)
    requires FlatMetadata(a) == FlatMetadata(b)
    requires SameVariantDetails(Get(a, "Identification"), Get(b, "Identification"))
    requires SameVariantDetails(Get(a, "identification"), Get(b, "identification"))
    ensures Collected(a) == Collected(b)
  {
    hide FlatMetadata, WithVariant, SameVariantDetails;
    SameWithVariant(FlatMetadata(a), "Identification", Get(a, "Identification"), Get(b, "Identification"));
    var first := WithVariant(FlatMetadata(a), "Identification", Get(a, "Identification"));
    SameWithVariant(first, "identification", Get(a, "identification"), Get(b, "identification"));
  }
}

/** Who owns a charging record: the eMAID and nothing else. */
module CdrIdentity {
  import opened Basics
  import opened Numerals
  import opened Cdr

  /** A field that may name the owner. */
  datatype Slot = Slot(source: string, value: Value, protocol: Protocol)

  datatype Candidate = Candidate(source: string, value: string, protocol: Protocol)

  datatype IdentityError =
    | InvalidEmaid(source: string)
    | UidOnly(sources: seq<string>)
    | MissingEmaid
    | Conflicting(sources: seq<string>)

  datatype Usability = Skipped | Bad | Usable(text: string)

  /** `addEmaidCandidate`: empty fields and the text "null" are skipped; other
      types and padded texts are errors. */
  function Check(v: Value): Usability {
    if !HasValue(v) then Skipped
    else if !v.Text? || Trim(v.text) != v.text then Bad
    else if v.text == "" || Lower(v.text) == "null" then Skipped
    else Usable(v.text)
  }

  const VARIANTS :=
      ["RFIDIdentification", "QRCodeIdentification", "PlugAndChargeIdentification", "RemoteIdentification"]

  function OwnerSlots(prefix: string, record: Value): seq<Slot> {
    [Slot(prefix + ".EvcoID", GetIn(record, "EvcoID"), OICP),
     Slot(prefix + ".eMAID", GetIn(record, "eMAID"), OICP),
     Slot(prefix + ".EMAID", GetIn(record, "EMAID"), OICP)]
  }

  function VariantSlots(name: string, identification: Value, n: nat): seq<Slot>
    requires n <= |VARIANTS|
  {
    if n == 0 then []
    else
      VariantSlots(name, identification, n - 1)
      + (if GetIn(identification, VARIANTS[n - 1]).Record?
         then OwnerSlots(name + "." + VARIANTS[n - 1], GetIn(identification, VARIANTS[n - 1])) else [])
  }

  function IdentificationSlots(name: string, identification: Value): seq<Slot> {
    if identification.Record? then
      OwnerSlots(name, identification) + VariantSlots(name, identification, |VARIANTS|)
    else []
  }

  function TokenSlots(token: Value): seq<Slot> {
    if token.Record? then [Slot("cdr_token.contract_id", GetIn(token, "contract_id"), OCPI)] else []
  }

  function FlatSlots(input: Input): seq<Slot> {
    [Slot("cdr_token_contract_id", Get(input, "cdr_token_contract_id"), OCPI),
     Slot("ContractID", Get(input, "ContractID"), OICP)]
  }

  /** All fields that may name the owner, in the order in which they are read. */
  function EmaidSlots(input: Input): seq<Slot> {
    TokenSlots(Get(input, "cdr_token")) + FlatSlots(input)
    + IdentificationSlots("Identification", Get(input, "Identification"))
    + IdentificationSlots("identification", Get(input, "identification"))
  }

  /** The candidates of some slots, or the first bad one. */
  function Collect(slots: seq<Slot>): Result<seq<Candidate>, IdentityError> {
    if slots == [] then Ok([])
    else
      match Collect(slots[..|slots| - 1])
      case Err(e) => Err(e)
      case Ok(candidates) =>
        var last := slots[|slots| - 1];
        match Check(last.value)
        case Skipped => Ok(candidates)
        case Bad => Err(InvalidEmaid(last.source))
        case Usable(text) => Ok(candidates + [Candidate(last.source, text, last.protocol)])
  }

  lemma {:induction false} CollectMore(a: seq<Slot>, b: seq<Slot>)
    ensures Collect(a).Err? ==> Collect(a + b) == Collect(a)
    decreases |b|
  {
    if b == [] {
      assert a + b == a;
    } else {
      assert (a + b)[..|a + b| - 1] == a + b[..|b| - 1];
      CollectMore(a, b[..|b| - 1]);
    }
  }

  lemma CollectSnoc(slots: seq<Slot>, s: Slot)
    requires Collect(slots).Ok?
    ensures Collect(slots + [s])
              == match Check(s.value)
                 case Skipped => Collect(slots)
                 case Bad => Err(InvalidEmaid(s.source))
                 case Usable(text) => Ok(Collect(slots).value + [Candidate(s.source, text, s.protocol)])
  {
    hide Check;
    assert (slots + [s])[..|slots|] == slots;
  }

  // ----- the loops -----

  /** Adds some slots to what was collected so far. */
  method AddSlots(ghost seen: seq<Slot>, slots: seq<Slot>, found: seq<Candidate>)
      returns (r: Result<seq<Candidate>, IdentityError>)
    requires Collect(seen) == Ok(found)
    ensures r == Collect(seen + slots)
  {
    hide Collect, Check;
    var candidates := found;
    ghost var done := seen;
    for i := 0 to |slots|
      invariant done == seen + slots[..i] && Collect(done) == Ok(candidates)
    {
      CollectSnoc(done, slots[i]);
      done := done + [slots[i]];
      match Check(slots[i].value)
      case Skipped =>
      case Bad =>
        CollectMore(done, slots[i + 1..]);
        assert done + slots[i + 1..] == seen + slots;
        return Err(InvalidEmaid(slots[i].source));
      case Usable(text) =>
        candidates := candidates + [Candidate(slots[i].source, text, slots[i].protocol)];
    }
    assert done == seen + slots;
    r := Ok(candidates);
  }

  /** One `Identification` object and its variants. */
  method AddIdentification(ghost seen: seq<Slot>, name: string, identification: Value, found: seq<Candidate>)
    returns (r: Result<seq<Candidate>, IdentityError>)
    requires Collect(seen) == Ok(found)
    ensures r == Collect(seen + IdentificationSlots(name, identification))
  {
    hide Collect, OwnerSlots, VariantSlots;
    if !identification.Record? {
      assert seen + [] == seen;
      return Ok(found);
    }
    r := AddSlots(seen, OwnerSlots(name, identification), found);
    ghost var done := seen + OwnerSlots(name, identification);
    NoVariants(name, identification);
    var i := 0;
    while i < |VARIANTS| && r.Ok?
      invariant i <= |VARIANTS| && r == Collect(done)
      invariant done == seen + OwnerSlots(name, identification) + VariantSlots(name, identification, i)
    {
      var details := GetIn(identification, VARIANTS[i]);
      NextVariant(name, identification, i);
      if details.Record? {
        r := AddSlots(done, OwnerSlots(name + "." + VARIANTS[i], details), r.value);
        done := done + OwnerSlots(name + "." + VARIANTS[i], details);
      }
      i := i + 1;
    }
    assert seen + IdentificationSlots(name, identification)
        == seen + OwnerSlots(name, identification) + VariantSlots(name, identification, |VARIANTS|);
    if r.Err? {
      var rest := VariantsSplit(name, identification, i);
      CollectMore(done, rest);
      assert done + rest == seen + OwnerSlots(name, identification) + VariantSlots(name, identification, |VARIANTS|);
    }
  }

  lemma NoVariants(name: string, identification: Value)
    ensures VariantSlots(name, identification, 0) == []
  {}

  lemma NextVariant(name: string, identification: Value, i: nat)
    requires i < |VARIANTS|
    ensures VariantSlots(name, identification, i + 1)
              == VariantSlots(name, identification, i)
                 + (if GetIn(identification, VARIANTS[i]).Record?
                    then OwnerSlots(name + "." + VARIANTS[i], GetIn(identification, VARIANTS[i])) else [])
  {
    hide OwnerSlots;
  }

  lemma {:induction false} VariantsSplit(name: string, identification: Value, n: nat) returns (rest: seq<Slot>)
    requires n <= |VARIANTS|
    ensures VariantSlots(name, identification, |VARIANTS|) == VariantSlots(name, identification, n) + rest
    decreases |VARIANTS| - n
  {
    hide OwnerSlots, VariantSlots;
    if n == |VARIANTS| {
      rest := [];
    } else {
      var more := VariantsSplit(name, identification, n + 1);
      NextVariant(name, identification, n);
      rest := (if GetIn(identification, VARIANTS[n]).Record?
               then OwnerSlots(name + "." + VARIANTS[n], GetIn(identification, VARIANTS[n])) else []) + more;
    }
  }

  /** `collectEmaidCandidates`. */
  method CollectEmaidCandidates(input: Input) returns (r: Result<seq<Candidate>, IdentityError>)
    ensures r == Collect(EmaidSlots(input))
  {
    ghost var token := TokenSlots(Get(input, "cdr_token"));
    ghost var first := IdentificationSlots("Identification", Get(input, "Identification"));
    ghost var second := IdentificationSlots("identification", Get(input, "identification"));
    ghost var flat := token + FlatSlots(input);
    assert EmaidSlots(input) == flat + first + second;
    assert Collect([]) == Ok([]) && [] + flat == flat;
    r := AddSlots([], TokenSlots(Get(input, "cdr_token")) + FlatSlots(input), []);
    if r.Ok? {
      r := AddIdentification(flat, "Identification", Get(input, "Identification"), r.value);
    } else {
      CollectMore(flat, first);
    }
    if r.Ok? {
      r := AddIdentification(flat + first, "identification", Get(input, "identification"), r.value);
    } else {
      CollectMore(flat + first, second);
    }
  }

  // ----- the owner -----

  /** Some field names this text. */
  predicate Mentioned(slots: seq<Slot>, text: string) { exists s :: s in slots && Check(s.value) == Usable(text) }

  predicate Malformed(slots: seq<Slot>) { exists s :: s in slots && Check(s.value) == Bad }

  /** The record names `owner` and nobody else, and no field is malformed. */
  ghost predicate Names(slots: seq<Slot>, owner: string) {
    !Malformed(slots) && Mentioned(slots, owner) && forall text :: Mentioned(slots, text) ==> text == owner
  }

  predicate Mentions(candidates: seq<Candidate>, text: string) { exists c :: c in candidates && c.value == text }

  /** The text comes from the field of that name. */
  predicate FromField(slots: seq<Slot>, source: string, text: string) {
    exists s :: s in slots && s.source == source && Check(s.value) == Usable(text)
  }

  lemma MentionedSnoc(slots: seq<Slot>, s: Slot, text: string)
    ensures Mentioned(slots + [s], text) <==> Mentioned(slots, text) || Check(s.value) == Usable(text)
    ensures Malformed(slots + [s]) <==> Malformed(slots) || Check(s.value) == Bad
  {
    hide Check;
    assert s in slots + [s];
  }

  lemma MentionsSnoc(candidates: seq<Candidate>, c: Candidate, text: string)
    ensures Mentions(candidates + [c], text) <==> Mentions(candidates, text) || c.value == text
  {
    assert c in candidates + [c];
  }

  /** Collecting fails exactly on a malformed field, and else finds exactly the
      texts the fields name. */
  lemma {:induction false} CollectIs(slots: seq<Slot>)
    ensures Collect(slots).Err? <==> Malformed(slots)
    ensures Collect(slots).Ok? ==> forall text :: Mentions(Collect(slots).value, text) <==> Mentioned(slots, text)
  {
    hide Check, Mentioned, Malformed, Mentions;
    if slots == [] {
      assert !Malformed([]) by { NothingMentioned(); }
      NothingMentioned();
    } else {
      var n := |slots| - 1;
      CollectIs(slots[..n]);
      assert slots == slots[..n] + [slots[n]];
      MentionedSnoc(slots[..n], slots[n], "");
      forall text | Collect(slots).Ok? ensures Mentions(Collect(slots).value, text) <==> Mentioned(slots, text) {
        MentionedSnoc(slots[..n], slots[n], text);
        if Check(slots[n].value).Usable? {
          MentionsSnoc(Collect(slots[..n]).value,
                       Candidate(slots[n].source, Check(slots[n].value).text, slots[n].protocol), text);
        }
      }
    }
  }

  lemma NothingMentioned()
    ensures !Malformed([]) && forall text :: !Mentioned([], text) && !Mentions([], text)
  {}

  lemma FromFieldMore(slots: seq<Slot>, s: Slot, source: string, text: string)
    requires FromField(slots, source, text)
    ensures FromField(slots + [s], source, text)
  {
    hide Check;
  }

  lemma {:induction false} CandidatesHaveFields(slots: seq<Slot>)
    requires Collect(slots).Ok?
    ensures forall c :: c in Collect(slots).value ==> FromField(slots, c.source, c.value)
  {
    hide Check, FromField;
    if slots != [] {
      var n := |slots| - 1;
      CandidatesHaveFields(slots[..n]);
      assert slots == slots[..n] + [slots[n]];
      forall c | c in Collect(slots).value ensures FromField(slots, c.source, c.value) {
        if c in Collect(slots[..n]).value {
          FromFieldMore(slots[..n], slots[n], c.source, c.value);
        } else {
          LastField(slots, c.source, c.value);
        }
      }
    }
  }

  lemma LastField(slots: seq<Slot>, source: string, text: string)
    requires slots != [] && slots[|slots| - 1].source == source && Check(slots[|slots| - 1].value) == Usable(text)
    ensures FromField(slots, source, text)
  {
    hide Check;
    assert slots[|slots| - 1] in slots;
  }

  datatype Resolved = Resolved(eMAID: string, sourceField: string, protocol: Protocol)

  const UID_VARIANTS := VARIANTS + ["RFIDMifareFamilyIdentification"]

  function NamedIf(name: string, v: Value): seq<string> { if HasValue(v) then [name] else [] }

  function VariantUids(name: string, identification: Value, n: nat): seq<string>
    requires n <= |UID_VARIANTS|
  {
    if n == 0 then []
    else
      var details := GetIn(identification, UID_VARIANTS[n - 1]);
      var prefix := name + "." + UID_VARIANTS[n - 1];
      VariantUids(name, identification, n - 1)
      + (if details.Record? then
           NamedIf(prefix + ".UID", GetIn(details, "UID")) + NamedIf(prefix + ".uid", GetIn(details, "uid"))
         else [])
  }

  function IdentificationUids(name: string, v: Value): seq<string> {
    if v.Record? then
      NamedIf(name + ".UID", GetIn(v, "UID")) + NamedIf(name + ".uid", GetIn(v, "uid"))
      + VariantUids(name, v, |UID_VARIANTS|)
    else []
  }

  function FlatUids(input: Input): seq<string> {
    NamedIf("UID", Get(input, "UID")) + NamedIf("uid", Get(input, "uid"))
    + NamedIf("cdr_token_uid", Get(input, "cdr_token_uid"))
    + NamedIf("cdr_token.uid", GetIn(Get(input, "cdr_token"), "uid"))
  }

  /** Every field that holds a UID, in any of its spellings. */
  function UidSources(input: Input): seq<string> {
    FlatUids(input) + IdentificationUids("Identification", Get(input, "Identification"))
    + IdentificationUids("identification", Get(input, "identification"))
  }

  method AddIf(sources: seq<string>, name: string, v: Value) returns (more: seq<string>)
    ensures more == sources + NamedIf(name, v)
  {
    more := if HasValue(v) then sources + [name] else sources;
  }

  method AddIdentificationUids(sources: seq<string>, name: string, v: Value) returns (more: seq<string>)
    ensures more == sources + IdentificationUids(name, v)
  {
    hide HasValue, NamedIf;
    more := sources;
    if !v.Record? {
      return;
    }
    more := AddIf(more, name + ".UID", GetIn(v, "UID"));
    more := AddIf(more, name + ".uid", GetIn(v, "uid"));
    ghost var own := more;
    var i := 0;
    while i < |UID_VARIANTS|
      invariant i <= |UID_VARIANTS| && more == own + VariantUids(name, v, i)
    {
      var details := GetIn(v, UID_VARIANTS[i]);
      if details.Record? {
        more := AddIf(more, name + "." + UID_VARIANTS[i] + ".UID", GetIn(details, "UID"));
        more := AddIf(more, name + "." + UID_VARIANTS[i] + ".uid", GetIn(details, "uid"));
      }
      i := i + 1;
    }
  }

  /** `collectUidSourceFields`. */
  method CollectUidSourceFields(input: Input) returns (sources: seq<string>)
    ensures sources == UidSources(input)
  {
    hide HasValue, NamedIf, IdentificationUids;
    sources := AddIf([], "UID", Get(input, "UID"));
    sources := AddIf(sources, "uid", Get(input, "uid"));
    sources := AddIf(sources, "cdr_token_uid", Get(input, "cdr_token_uid"));
    sources := AddIf(sources, "cdr_token.uid", GetIn(Get(input, "cdr_token"), "uid"));
    sources := AddIdentificationUids(sources, "Identification", Get(input, "Identification"));
    sources := AddIdentificationUids(sources, "identification", Get(input, "identification"));
  }

  function Sources(candidates: seq<Candidate>): seq<string> {
    seq(|candidates|, j requires 0 <= j < |candidates| => candidates[j].source)
  }

  /** The outcome for the candidates of a record. */
  function Agreement(input: Input, candidates: seq<Candidate>): Result<Resolved, IdentityError> {
    if candidates == [] then Err(if UidSources(input) != [] then UidOnly(UidSources(input)) else MissingEmaid)
    else if exists c :: c in candidates && c.value != candidates[0].value then Err(Conflicting(Sources(candidates)))
    else
      var protocol := DetectProtocol(input);
      Ok(Resolved(candidates[0].value, candidates[0].source,
                  if exists c :: c in candidates && c.protocol != candidates[0].protocol then MIXED
                  else if protocol == UNKNOWN then candidates[0].protocol else protocol))
  }

  function Resolution(input: Input): Result<Resolved, IdentityError> {
    match Collect(EmaidSlots(input))
    case Err(e) => Err(e)
    case Ok(candidates) => Agreement(input, candidates)
  }

  /** `resolveEmaid`; its token metadata is `TokenMetadata.Collected`. */
  method ResolveEmaid(input: Input) returns (r: Result<Resolved, IdentityError>)
    ensures r == Resolution(input)
  {
    hide EmaidSlots, DetectProtocol, UidSources, Collect;
    var protocol := DetectProtocol(input);
    var collected := CollectEmaidCandidates(input);
    if collected.Err? {
      return Err(collected.error);
    }
    var candidates := collected.value;
    if candidates == [] {
      var uids := CollectUidSourceFields(input);
      return Err(if uids != [] then UidOnly(uids) else MissingEmaid);
    }
    var first := candidates[0];
    var mixed := false;
    for i := 1 to |candidates|
      invariant forall j :: 0 <= j < i ==> candidates[j].value == first.value
      invariant mixed <==> exists j :: 0 <= j < i && candidates[j].protocol != first.protocol
    {
      if candidates[i].value != first.value {
        assert candidates[i] in candidates;
        return Err(Conflicting(Sources(candidates)));
      }
      if candidates[i].protocol != first.protocol { mixed := true; }
    }
    AllAgree(candidates);
    var detected := if mixed then MIXED else if protocol == UNKNOWN then first.protocol else protocol;
    r := Ok(Resolved(first.value, first.source, detected));
  }

  lemma AllAgree(candidates: seq<Candidate>)
    requires candidates != [] && forall j :: 0 <= j < |candidates| ==> candidates[j].value == candidates[0].value
    ensures !exists c :: c in candidates && c.value != candidates[0].value
    ensures (exists c :: c in candidates && c.protocol != candidates[0].protocol)
            <==> exists j :: 0 <= j < |candidates| && candidates[j].protocol != candidates[0].protocol
  {
    forall c | c in candidates ensures c.value == candidates[0].value {
      var j :| 0 <= j < |candidates| && candidates[j] == c;
    }
    if j :| 0 <= j < |candidates| && candidates[j].protocol != candidates[0].protocol {
      assert candidates[j] in candidates;
    }
  }

  /** A record resolves exactly when its owner fields are well formed, name an
      owner and all name the same one; that owner is the result, from the field
      it reports. The protocol is known without asking that field. */
  lemma ResolvesExactly(input: Input)
    ensures Resolution(input).Ok? <==> exists owner :: Names(EmaidSlots(input), owner)
    ensures Resolution(input).Ok? ==>
              && Names(EmaidSlots(input), Resolution(input).value.eMAID)
              && FromField(EmaidSlots(input), Resolution(input).value.sourceField, Resolution(input).value.eMAID)
              && (Resolution(input).value.protocol == DetectProtocol(input) != UNKNOWN
                  || Resolution(input).value.protocol == MIXED)
  {
    hide EmaidSlots, DetectProtocol, UidSources, Collect, Mentioned, Malformed, FromField;
    var slots := EmaidSlots(input);
    CollectIs(slots);
    CandidateProtocol(input);
    if Collect(slots).Ok? {
      CandidatesHaveFields(slots);
      var candidates := Collect(slots).value;
      if candidates == [] {
        assert forall text :: !Mentions([], text);
      } else {
        assert candidates[0] in candidates;
        assert Mentions(candidates, candidates[0].value);
        if c :| c in candidates && c.value != candidates[0].value {
          assert Mentions(candidates, c.value);
        } else {
          assert Names(slots, candidates[0].value);
        }
      }
    }
  }

  /** The other errors: a malformed field, or no owner field at all, and then
      the UID fields there are. */
  lemma ErrorsExactly(input: Input)
    ensures Resolution(input).Err? && Resolution(input).error.InvalidEmaid? <==> Malformed(EmaidSlots(input))
    ensures Resolution(input).Err? && (Resolution(input).error.UidOnly? || Resolution(input).error.MissingEmaid?)
            <==> !Malformed(EmaidSlots(input)) && forall text :: !Mentioned(EmaidSlots(input), text)
    ensures Resolution(input).Err? && Resolution(input).error.UidOnly? ==>
              Resolution(input).error.sources == UidSources(input) != []
  {
    hide EmaidSlots, DetectProtocol, UidSources, Collect, Mentioned, Malformed;
    var slots := EmaidSlots(input);
    CollectIs(slots);
    if Collect(slots).Err? {
      BadMeansInvalid(slots);
    } else {
      var candidates := Collect(slots).value;
      if candidates == [] {
        assert forall text :: !Mentions([], text);
      } else {
        assert candidates[0] in candidates;
        assert Mentions(candidates, candidates[0].value);
      }
    }
  }

  lemma {:induction false} BadMeansInvalid(slots: seq<Slot>)
    requires Collect(slots).Err?
    ensures Collect(slots).error.InvalidEmaid?
  {
    if slots != [] && Collect(slots[..|slots| - 1]).Err? {
      BadMeansInvalid(slots[..|slots| - 1]);
    }
  }

  /** A record that names an owner has structure that tells its protocol. */
  lemma CandidateProtocol(input: Input)
    ensures DetectProtocol(input) == UNKNOWN ==> forall text :: !Mentioned(EmaidSlots(input), text)
  {
    hide Check, HasValue, VariantSlots, OwnerSlots;
    if DetectProtocol(input) == UNKNOWN {
      assert "cdr_token" in OCPI_KEYS && "cdr_token_contract_id" in OCPI_KEYS;
      assert "ContractID" in OICP_KEYS && "Identification" in OICP_KEYS && "identification" in OICP_KEYS;
      RecordsHaveValues(Get(input, "cdr_token"));
      RecordsHaveValues(Get(input, "Identification"));
      RecordsHaveValues(Get(input, "identification"));
      EmptyIsSkipped(Get(input, "cdr_token_contract_id"));
      EmptyIsSkipped(Get(input, "ContractID"));
    }
  }

  lemma RecordsHaveValues(v: Value)
    ensures v.Record? ==> HasValue(v)
  {}

  lemma EmptyIsSkipped(v: Value)
    ensures !HasValue(v) ==> !Check(v).Usable?
  {}

  // ----- UIDs never matter -----

  /** A field that holds a UID, in any of its spellings. */
  datatype UidField =
    | TopField(key: string)
    | TokenField
    | IdentificationField(name: string, key: string)
    | VariantField(name: string, variant: string, key: string)

  predicate IsUidField(f: UidField) {
    match f
    case TopField(key) => key in {"UID", "uid", "cdr_token_uid"}
    case TokenField => true
    case IdentificationField(name, key) => name in {"Identification", "identification"} && key in {"UID", "uid"}
    case VariantField(name, variant, key) =>
      name in {"Identification", "identification"} && variant in UID_VARIANTS && key in {"UID", "uid"}
  }

  /** A field set to a value, or removed. */
  function Put(input: Input, key: string, v: Option<Value>): Input {
    match v
    case Some(value) => input[key := value]
    case None => input - {key}
  }

  /** A field of an inner record; a value put where there is no record makes one. */
  function PutIn(record: Value, key: string, v: Option<Value>): Value {
    if record.Record? then Record(Put(record.fields, key, v))
    else if v.Some? then Record(map[key := v.value])
    else record
  }

  /** The inner record itself, put back unless nothing changed. */
  function PutInside(input: Input, name: string, inner: Value): Input {
    if inner == Get(input, name) then input else input[name := inner]
  }

  /** A variant's field; removing it from a variant that is not there is nothing. */
  function PutVariant(record: Value, variant: string, key: string, v: Option<Value>): Value {
    var inner := PutIn(GetIn(record, variant), key, v);
    if inner == GetIn(record, variant) then record else PutIn(record, variant, Some(inner))
  }

  function SetUid(input: Input, f: UidField, v: Option<Value>): Input {
    match f
    case TopField(key) => Put(input, key, v)
    case TokenField => PutInside(input, "cdr_token", PutIn(Get(input, "cdr_token"), "uid", v))
    case IdentificationField(name, key) => PutInside(input, name, PutIn(Get(input, name), key, v))
    case VariantField(name, variant, key) => PutInside(input, name, PutVariant(Get(input, name), variant, key, v))
  }

  /** The owner fields of one record, all missing where there is no record. */
  predicate SameOwner(a: Value, b: Value) {
    GetIn(a, "EvcoID") == GetIn(b, "EvcoID") && GetIn(a, "eMAID") == GetIn(b, "eMAID")
        && GetIn(a, "EMAID") == GetIn(b, "EMAID")
  }

  predicate SameIdentification(a: Value, b: Value) {
    SameOwner(a, b) && forall i :: 0 <= i < |VARIANTS| ==> SameOwner(GetIn(a, VARIANTS[i]), GetIn(b, VARIANTS[i]))
  }

  predicate SameOwnerFields(a: Input, b: Input) {
    && GetIn(Get(a, "cdr_token"), "contract_id") == GetIn(Get(b, "cdr_token"), "contract_id")
    && Get(a, "cdr_token_contract_id") == Get(b, "cdr_token_contract_id")
    && Get(a, "ContractID") == Get(b, "ContractID")
    && SameIdentification(Get(a, "Identification"), Get(b, "Identification"))
    && SameIdentification(Get(a, "identification"), Get(b, "identification"))
  }

  // ----- slots without a value change nothing -----

  /** The slots that hold something. */
  function Filled(slots: seq<Slot>): seq<Slot> {
    if slots == [] then []
    else
      var last := slots[|slots| - 1];
      Filled(slots[..|slots| - 1]) + (if Check(last.value) == Skipped then [] else [last])
  }

  lemma {:induction false} FilledConcat(a: seq<Slot>, b: seq<Slot>)
    ensures Filled(a + b) == Filled(a) + Filled(b)
    decreases |b|
  {
    hide Check;
    if b == [] {
      assert a + b == a;
    } else {
      assert (a + b)[..|a + b| - 1] == a + b[..|b| - 1];
      FilledConcat(a, b[..|b| - 1]);
    }
  }

  lemma {:induction false} CollectFilled(slots: seq<Slot>)
    ensures Collect(Filled(slots)) == Collect(slots)
  {
    hide Check;
    if slots != [] {
      var n := |slots| - 1;
      CollectFilled(slots[..n]);
      assert slots == slots[..n] + [slots[n]];
      if Collect(slots[..n]).Ok? {
        CollectSnoc(slots[..n], slots[n]);
        CollectSnoc(Filled(slots[..n]), slots[n]);
      } else {
        CollectMore(slots[..n], [slots[n]]);
        CollectMore(Filled(slots[..n]), [slots[n]]);
      }
      if Check(slots[n].value) == Skipped {
        assert Filled(slots) == Filled(slots[..n]);
      }
    }
  }

  lemma MissingIsSkipped()
    ensures Check(Value.Missing) == Skipped
  {}

  lemma {:induction false} SkippedAreNotFilled(slots: seq<Slot>)
    requires forall s :: s in slots ==> Check(s.value) == Skipped
    ensures Filled(slots) == []
  {
    hide Check;
    if slots != [] {
      var n := |slots| - 1;
      assert slots[n] in slots;
      SkippedAreNotFilled(slots[..n]);
    }
  }

  lemma OwnerSlotsFilled(prefix: string, record: Value)
    ensures !record.Record? ==> Filled(OwnerSlots(prefix, record)) == []
  {
    MissingIsSkipped();
    hide Check, Filled;
    if !record.Record? {
      SkippedAreNotFilled(OwnerSlots(prefix, record));
    }
  }

  /** What the variants hold depends on their owner fields only. */
  lemma {:induction false} SameVariants(name: string, a: Value, b: Value, n: nat)
    requires n <= |VARIANTS| && SameIdentification(a, b)
    ensures Filled(VariantSlots(name, a, n)) == Filled(VariantSlots(name, b, n))
  {
    hide OwnerSlots, SameOwner, VariantSlots, Filled;
    if n == 0 {
      NoVariants(name, a);
      NoVariants(name, b);
    } else {
      var prefix := name + "." + VARIANTS[n - 1];
      var u, v := GetIn(a, VARIANTS[n - 1]), GetIn(b, VARIANTS[n - 1]);
      SameVariants(name, a, b, n - 1);
      VariantFilled(name, a, n - 1);
      VariantFilled(name, b, n - 1);
      assert SameOwner(u, v);
      SameOwnerSlots(prefix, u, v);
    }
  }

  lemma SameOwnerSlots(prefix: string, a: Value, b: Value)
    requires SameOwner(a, b)
    ensures OwnerSlots(prefix, a) == OwnerSlots(prefix, b)
  {}

  lemma VariantFilled(name: string, record: Value, i: nat)
    requires i < |VARIANTS|
    ensures Filled(VariantSlots(name, record, i + 1))
              == Filled(VariantSlots(name, record, i))
                 + Filled(OwnerSlots(name + "." + VARIANTS[i], GetIn(record, VARIANTS[i])))
  {
    hide OwnerSlots, VariantSlots, Filled;
    var details := GetIn(record, VARIANTS[i]);
    NextVariant(name, record, i);
    OwnerSlotsFilled(name + "." + VARIANTS[i], details);
    FilledConcat(VariantSlots(name, record, i), OwnerSlots(name + "." + VARIANTS[i], details));
    assert VariantSlots(name, record, i) + [] == VariantSlots(name, record, i);
  }

  lemma {:induction false} EmptyVariants(name: string, record: Value, n: nat)
    requires n <= |VARIANTS| && !record.Record?
    ensures VariantSlots(name, record, n) == []
  {
    hide OwnerSlots;
    if n > 0 {
      EmptyVariants(name, record, n - 1);
    }
  }

  lemma IdentificationFilled(name: string, record: Value)
    ensures Filled(IdentificationSlots(name, record))
              == Filled(OwnerSlots(name, record)) + Filled(VariantSlots(name, record, |VARIANTS|))
  {
    hide OwnerSlots, VariantSlots;
    OwnerSlotsFilled(name, record);
    FilledConcat(OwnerSlots(name, record), VariantSlots(name, record, |VARIANTS|));
    if !record.Record? {
      EmptyVariants(name, record, |VARIANTS|);
    }
  }

  lemma SameIdentificationFilled(name: string, a: Value, b: Value)
    requires SameIdentification(a, b)
    ensures Filled(IdentificationSlots(name, a)) == Filled(IdentificationSlots(name, b))
  {
    hide OwnerSlots, VariantSlots, Filled, SameOwner;
    IdentificationFilled(name, a);
    IdentificationFilled(name, b);
    SameOwnerSlots(name, a, b);
    SameVariants(name, a, b, |VARIANTS|);
  }

  lemma SameTokenFilled(a: Value, b: Value)
    requires GetIn(a, "contract_id") == GetIn(b, "contract_id")
    ensures Filled(TokenSlots(a)) == Filled(TokenSlots(b))
  {
    MissingIsSkipped();
    hide Check;
    TokenFilled(a);
    TokenFilled(b);
  }

  lemma TokenFilled(token: Value)
    ensures Filled(TokenSlots(token))
              == if Check(GetIn(token, "contract_id")) == Skipped then []
                 else [Slot("cdr_token.contract_id", GetIn(token, "contract_id"), OCPI)]
  {
    MissingIsSkipped();
    hide Check;
    var s := TokenSlots(token);
    if token.Record? {
      assert s[..0] == [];
    }
  }

  lemma SlotsFilled(input: Input)
    ensures Filled(EmaidSlots(input))
              == Filled(TokenSlots(Get(input, "cdr_token"))) + Filled(FlatSlots(input))
                 + Filled(IdentificationSlots("Identification", Get(input, "Identification")))
                 + Filled(IdentificationSlots("identification", Get(input, "identification")))
  {
    hide Filled, TokenSlots, FlatSlots, IdentificationSlots;
    var t, f := TokenSlots(Get(input, "cdr_token")), FlatSlots(input);
    var x := IdentificationSlots("Identification", Get(input, "Identification"));
    var y := IdentificationSlots("identification", Get(input, "identification"));
    FilledConcat(t, f);
    FilledConcat(t + f, x);
    FilledConcat(t + f + x, y);
  }

  /** The same owner: it resolves or not alike, to the same identifier from the
      same field, and the same field is malformed if one is. */
  predicate SameResolution(a: Input, b: Input) {
    var r, s := Resolution(a), Resolution(b);
    && (r.Ok? <==> s.Ok?)
    && (r.Ok? ==> r.value.eMAID == s.value.eMAID && r.value.sourceField == s.value.sourceField)
    && (r.Err? && r.error.InvalidEmaid? ==> s == r)
    && (s.Err? && s.error.InvalidEmaid? ==> r == s)
    && (r.Err? && r.error.Conflicting? <==> s.Err? && s.error.Conflicting?)
  }

  /** The owner depends on the owner fields, and on nothing else. */
  lemma OwnerDependsOnOwnerFields(a: Input, b: Input)
    requires SameOwnerFields(a, b)
    ensures Collect(EmaidSlots(a)) == Collect(EmaidSlots(b)) && SameResolution(a, b)
  {
    hide Filled, TokenSlots, IdentificationSlots, EmaidSlots, SameIdentification, Collect, DetectProtocol, UidSources;
    SlotsFilled(a);
    SlotsFilled(b);
    SameTokenFilled(Get(a, "cdr_token"), Get(b, "cdr_token"));
    SameIdentificationFilled("Identification", Get(a, "Identification"), Get(b, "Identification"));
    SameIdentificationFilled("identification", Get(a, "identification"), Get(b, "identification"));
    CollectFilled(EmaidSlots(a));
    CollectFilled(EmaidSlots(b));
  }

  // ----- a UID is no owner field -----

  lemma UidIsNoOwnerField(record: Value, key: string, v: Option<Value>)
    requires key in {"UID", "uid"}
    ensures SameOwner(record, PutIn(record, key, v))
    ensures SameIdentification(record, PutIn(record, key, v))
  {
    VariantsAreNoUid(key);
  }

  lemma VariantsAreNoUid(key: string)
    requires key in {"UID", "uid"}
    ensures key != "EvcoID" && key != "eMAID" && key != "EMAID"
    ensures forall i :: 0 <= i < |VARIANTS| ==> VARIANTS[i] != key
  {
    assert |key| == 3;
  }

  lemma SameIsSame(v: Value)
    ensures SameOwner(v, v) && SameIdentification(v, v)
  {}

  lemma VariantUid(record: Value, variant: string, key: string, v: Option<Value>)
    requires key in {"UID", "uid"} && variant in UID_VARIANTS
    ensures SameIdentification(record, PutVariant(record, variant, key, v))
  {
    hide SameOwner;
    var inner := PutIn(GetIn(record, variant), key, v);
    var changed := PutVariant(record, variant, key, v);
    UidIsNoOwnerField(GetIn(record, variant), key, v);
    VariantNames(variant);
    if changed == record {
      SameIsSame(record);
    } else {
      OtherFields(record, variant, inner);
      forall i | 0 <= i < |VARIANTS| ensures SameOwner(GetIn(record, VARIANTS[i]), GetIn(changed, VARIANTS[i])) {
        SameIsSame(GetIn(record, VARIANTS[i]));
      }
      assert SameOwner(record, changed) by { OwnerUntouched(record, variant, inner); }
    }
  }

  lemma OtherFields(record: Value, key: string, v: Value)
    ensures forall k :: k != key ==> GetIn(PutIn(record, key, Some(v)), k) == GetIn(record, k)
    ensures GetIn(PutIn(record, key, Some(v)), key) == v
  {}

  lemma OwnerUntouched(record: Value, key: string, v: Value)
    requires key != "EvcoID" && key != "eMAID" && key != "EMAID"
    ensures SameOwner(record, PutIn(record, key, Some(v)))
  {
    OtherFields(record, key, v);
  }

  lemma VariantNames(variant: string)
    requires variant in UID_VARIANTS
    ensures variant != "EvcoID" && variant != "eMAID" && variant != "EMAID"
  {
    assert |variant| > 6;
  }

  lemma PutInsideKeeps(input: Input, name: string, inner: Value)
    requires name in {"Identification", "identification"} && SameIdentification(Get(input, name), inner)
    ensures SameOwnerFields(input, PutInside(input, name, inner))
  {
    hide SameIdentification;
    SameIsSame(Get(input, "Identification"));
    SameIsSame(Get(input, "identification"));
  }

  lemma TopUid(input: Input, key: string, v: Option<Value>)
    requires key in {"UID", "uid", "cdr_token_uid"}
    ensures SameOwnerFields(input, Put(input, key, v))
  {
    hide SameIdentification;
    SameIsSame(Get(input, "Identification"));
    SameIsSame(Get(input, "identification"));
  }

  lemma TokenUid(input: Input, v: Option<Value>)
    ensures SameOwnerFields(input, SetUid(input, TokenField, v))
  {
    hide SameIdentification;
    SameIsSame(Get(input, "Identification"));
    SameIsSame(Get(input, "identification"));
  }

  lemma UidKeepsOwnerFields(input: Input, f: UidField, v: Option<Value>)
    requires IsUidField(f)
    ensures SameOwnerFields(input, SetUid(input, f, v))
  {
    hide SameIdentification, SameOwnerFields;
    match f
    case TopField(key) => TopUid(input, key, v);
    case TokenField => TokenUid(input, v);
    case IdentificationField(name, key) =>
      UidIsNoOwnerField(Get(input, name), key, v);
      PutInsideKeeps(input, name, PutIn(Get(input, name), key, v));
    case VariantField(name, variant, key) =>
      VariantUid(Get(input, name), variant, key, v);
      PutInsideKeeps(input, name, PutVariant(Get(input, name), variant, key, v));
  }

  /** Adding any UID field, with the records around it where they are missing,
      removing it or changing it never alters the owner, nor whether the record
      resolves. */
  lemma UidNeverMatters(input: Input, f: UidField, v: Option<Value>)
    requires IsUidField(f)
    ensures Resolution(input).Ok? <==> Resolution(SetUid(input, f, v)).Ok?
    ensures Resolution(input).Ok? ==>
              && Resolution(SetUid(input, f, v)).value.eMAID == Resolution(input).value.eMAID
              && Resolution(SetUid(input, f, v)).value.sourceField == Resolution(input).value.sourceField
    ensures SameResolution(input, SetUid(input, f, v))
  {
    hide SameOwnerFields, SetUid, Resolution;
    UidKeepsOwnerFields(input, f, v);
    OwnerDependsOnOwnerFields(input, SetUid(input, f, v));
  }
}

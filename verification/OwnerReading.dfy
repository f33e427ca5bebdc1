/** Which fields of a charging record name its owner: every one of them by its
    path, in the order of precedence. */
module OwnerReading {
  import opened Basics
  import opened Numerals
  import opened Cdr
  import opened CdrIdentity

  type Path = seq<string>

  /** The value found by following the keys; missing where there is no record. */
  function At(v: Value, path: Path): Value
    decreases |path|
  {
    if path == [] then v else At(GetIn(v, path[0]), path[1..])
  }

  function Dotted(path: Path): string {
    if path == [] then "" else if |path| == 1 then path[0] else Dotted(path[..|path| - 1]) + "." + path[|path| - 1]
  }

  /** The three spellings of the contract identifier in one OICP object. */
  function Spellings(prefix: Path): seq<Path> {
    [prefix + ["EvcoID"], prefix + ["eMAID"], prefix + ["EMAID"]]
  }

  function Identified(name: string): seq<Path> {
    Spellings([name]) + Spellings([name, "RFIDIdentification"]) + Spellings([name, "QRCodeIdentification"])
    + Spellings([name, "PlugAndChargeIdentification"]) + Spellings([name, "RemoteIdentification"])
  }

  /** OCPI names the contract in two places, OICP in the other ones. */
  const OCPI_PATHS: seq<Path> := [["cdr_token", "contract_id"], ["cdr_token_contract_id"]]
  const OICP_PATHS: seq<Path> := [["ContractID"]] + Identified("Identification") + Identified("identification")
  const OWNER_PATHS: seq<Path> := OCPI_PATHS + OICP_PATHS

  /** Nothing, or the text "null" of an empty spreadsheet cell. */
  predicate Blank(v: Value) { !HasValue(v) || (v.Text? && Trim(v.text) == v.text && Lower(v.text) == "null") }

  /** The owner as the record has it along some paths: all fields that are not
      blank hold this very text, unpadded, and the first of them is the source. */
  ghost predicate OwnsAlong(input: Input, paths: seq<Path>, owner: string, source: string) {
    && Trim(owner) == owner
    && (forall path :: path in paths ==> Blank(At(Record(input), path)) || At(Record(input), path) == Text(owner))
    && exists i :: FirstFilled(input, paths, i) && source == Dotted(paths[i])
  }

  predicate FirstFilled(input: Input, paths: seq<Path>, i: int) {
    && 0 <= i < |paths| && !Blank(At(Record(input), paths[i]))
    && forall j :: 0 <= j < i ==> Blank(At(Record(input), paths[j]))
  }

  ghost predicate Owns(input: Input, owner: string, source: string) { OwnsAlong(input, OWNER_PATHS, owner, source) }

  predicate SomeFilled(input: Input, paths: seq<Path>) {
    exists path :: path in paths && !Blank(At(Record(input), path))
  }

  // ----- the slots are the paths -----

  function SlotAt(input: Input, path: Path): Slot {
    Slot(Dotted(path), At(Record(input), path), if path in OCPI_PATHS then OCPI else OICP)
  }

  function SlotsAt(input: Input, paths: seq<Path>): (slots: seq<Slot>)
    ensures |slots| == |paths|
    ensures forall i :: 0 <= i < |paths| ==> slots[i] == SlotAt(input, paths[i])
  {
    seq(|paths|, i requires 0 <= i < |paths| => SlotAt(input, paths[i]))
  }

  lemma AtOne(v: Value, a: string)
    ensures At(v, [a]) == GetIn(v, a) && Dotted([a]) == a
  {}

  lemma AtTwo(v: Value, a: string, b: string)
    ensures At(v, [a, b]) == GetIn(GetIn(v, a), b) && Dotted([a, b]) == a + "." + b
  {
    assert [a, b][1..] == [b] && [a, b][..1] == [a];
    AtOne(GetIn(v, a), b);
  }

  lemma AtThree(v: Value, a: string, b: string, c: string)
    ensures At(v, [a, b, c]) == GetIn(GetIn(GetIn(v, a), b), c) && Dotted([a, b, c]) == a + "." + b + "." + c
  {
    assert [a, b, c][1..] == [b, c] && [a, b, c][..2] == [a, b];
    AtTwo(GetIn(v, a), b, c);
    AtTwo(v, a, b);
  }

  lemma OicpSlot(input: Input, path: Path)
    requires path != [] && |path[|path| - 1]| <= 6
    ensures SlotAt(input, path).protocol == OICP
  {
    hide At, Dotted;
    assert |"contract_id"| > 6 && |"cdr_token_contract_id"| > 6;
  }

  lemma OwnSpellings(input: Input, name: string)
    ensures OwnerSlots(name, Get(input, name)) == SlotsAt(input, Spellings([name]))
  {
    hide At, Dotted;
    assert [name] + ["EvcoID"] == [name, "EvcoID"] && [name] + ["eMAID"] == [name, "eMAID"]
        && [name] + ["EMAID"] == [name, "EMAID"];
    AtTwo(Record(input), name, "EvcoID");
    AtTwo(Record(input), name, "eMAID");
    AtTwo(Record(input), name, "EMAID");
    OicpSlot(input, [name, "EvcoID"]);
    OicpSlot(input, [name, "eMAID"]);
    OicpSlot(input, [name, "EMAID"]);
    var slots, own := SlotsAt(input, Spellings([name])), OwnerSlots(name, Get(input, name));
    assert slots[0] == own[0] && slots[1] == own[1] && slots[2] == own[2];
  }

  lemma VariantSpellings(input: Input, name: string, variant: string)
    ensures OwnerSlots(name + "." + variant, GetIn(Get(input, name), variant))
              == SlotsAt(input, Spellings([name, variant]))
  {
    hide At, Dotted;
    assert [name, variant] + ["EvcoID"] == [name, variant, "EvcoID"]
        && [name, variant] + ["eMAID"] == [name, variant, "eMAID"]
        && [name, variant] + ["EMAID"] == [name, variant, "EMAID"];
    AtThree(Record(input), name, variant, "EvcoID");
    AtThree(Record(input), name, variant, "eMAID");
    AtThree(Record(input), name, variant, "EMAID");
    OicpSlot(input, [name, variant, "EvcoID"]);
    OicpSlot(input, [name, variant, "eMAID"]);
    OicpSlot(input, [name, variant, "EMAID"]);
    var slots := SlotsAt(input, Spellings([name, variant]));
    var own := OwnerSlots(name + "." + variant, GetIn(Get(input, name), variant));
    assert slots[0] == own[0] && slots[1] == own[1] && slots[2] == own[2];
  }

  lemma SlotsConcat(input: Input, a: seq<Path>, b: seq<Path>)
    ensures SlotsAt(input, a + b) == SlotsAt(input, a) + SlotsAt(input, b)
  {
    forall i | 0 <= i < |a + b| ensures SlotsAt(input, a + b)[i] == (SlotsAt(input, a) + SlotsAt(input, b))[i] {
      assert (a + b)[i] == if i < |a| then a[i] else b[i - |a|];
    }
  }

  /** The first `n` variants of one identification object. */
  function VariantPaths(name: string, n: nat): seq<Path>
    requires n <= |VARIANTS|
  {
    if n == 0 then [] else VariantPaths(name, n - 1) + Spellings([name, VARIANTS[n - 1]])
  }

  lemma {:induction false} VariantsAt(input: Input, name: string, n: nat)
    requires n <= |VARIANTS|
    ensures Filled(VariantSlots(name, Get(input, name), n)) == Filled(SlotsAt(input, VariantPaths(name, n)))
  {
    hide Filled, OwnerSlots, VariantSlots;
    if n == 0 {
      NoVariants(name, Get(input, name));
      assert SlotsAt(input, []) == [];
    } else {
      VariantsAt(input, name, n - 1);
      VariantFilled(name, Get(input, name), n - 1);
      VariantSpellings(input, name, VARIANTS[n - 1]);
      SlotsConcat(input, VariantPaths(name, n - 1), Spellings([name, VARIANTS[n - 1]]));
      FilledConcat(SlotsAt(input, VariantPaths(name, n - 1)), SlotsAt(input, Spellings([name, VARIANTS[n - 1]])));
    }
  }

  lemma IdentifiedIs(name: string)
    ensures Identified(name) == Spellings([name]) + VariantPaths(name, |VARIANTS|)
  {
    hide Spellings;
    assert VariantPaths(name, 1) == Spellings([name, VARIANTS[0]]);
    assert VariantPaths(name, 2) == VariantPaths(name, 1) + Spellings([name, VARIANTS[1]]);
    assert VariantPaths(name, 3) == VariantPaths(name, 2) + Spellings([name, VARIANTS[2]]);
    assert VariantPaths(name, 4) == VariantPaths(name, 3) + Spellings([name, VARIANTS[3]]);
  }

  lemma IdentificationAt(input: Input, name: string)
    ensures Filled(IdentificationSlots(name, Get(input, name))) == Filled(SlotsAt(input, Identified(name)))
  {
    hide Filled, OwnerSlots, VariantSlots, Identified, VariantPaths;
    IdentifiedIs(name);
    VariantsAt(input, name, |VARIANTS|);
    IdentificationFilled(name, Get(input, name));
    OwnSpellings(input, name);
    SlotsConcat(input, Spellings([name]), VariantPaths(name, |VARIANTS|));
    FilledConcat(SlotsAt(input, Spellings([name])), SlotsAt(input, VariantPaths(name, |VARIANTS|)));
  }

  lemma OneFilled(slot: Slot)
    ensures Filled([slot]) == if Check(slot.value) == Skipped then [] else [slot]
  {
    hide Check;
    assert [slot][..0] == [];
  }

  lemma OneSlotAt(input: Input, path: Path)
    ensures SlotsAt(input, [path]) == [SlotAt(input, path)]
  {
    hide SlotAt;
  }

  lemma ContractSlot(input: Input)
    ensures SlotAt(input, ["cdr_token", "contract_id"])
              == Slot("cdr_token.contract_id", GetIn(Get(input, "cdr_token"), "contract_id"), OCPI)
  {
    hide At, Dotted;
    AtTwo(Record(input), "cdr_token", "contract_id");
    assert "cdr_token" + "." + "contract_id" == "cdr_token.contract_id";
    assert OCPI_PATHS[0] in OCPI_PATHS;
  }

  lemma TokenAt(input: Input)
    ensures Filled(TokenSlots(Get(input, "cdr_token"))) == Filled(SlotsAt(input, [["cdr_token", "contract_id"]]))
  {
    hide Check, Filled, SlotAt, SlotsAt, TokenSlots;
    TokenFilled(Get(input, "cdr_token"));
    OneSlotAt(input, ["cdr_token", "contract_id"]);
    ContractSlot(input);
    OneFilled(SlotAt(input, ["cdr_token", "contract_id"]));
  }

  lemma FlatAt(input: Input)
    ensures FlatSlots(input) == SlotsAt(input, [["cdr_token_contract_id"], ["ContractID"]])
  {
    AtOne(Record(input), "cdr_token_contract_id");
    AtOne(Record(input), "ContractID");
    assert ["cdr_token_contract_id"] in OCPI_PATHS;
    assert "ContractID"[0] != "cdr_token_contract_id"[0];
    var slots := SlotsAt(input, [["cdr_token_contract_id"], ["ContractID"]]);
    assert slots[0] == FlatSlots(input)[0] && slots[1] == FlatSlots(input)[1];
  }

  lemma SlotsAreAt(input: Input)
    ensures Filled(EmaidSlots(input)) == Filled(SlotsAt(input, OWNER_PATHS))
  {
    hide Filled, TokenSlots, FlatSlots, IdentificationSlots, Identified, EmaidSlots;
    var token, flat := [["cdr_token", "contract_id"]], [["cdr_token_contract_id"], ["ContractID"]];
    var x, y := Identified("Identification"), Identified("identification");
    SlotsFilled(input);
    TokenAt(input);
    FlatAt(input);
    IdentificationAt(input, "Identification");
    IdentificationAt(input, "identification");
    assert OWNER_PATHS == token + flat + x + y;
    SlotsConcat(input, token, flat);
    SlotsConcat(input, token + flat, x);
    SlotsConcat(input, token + flat + x, y);
    FilledConcat(SlotsAt(input, token), SlotsAt(input, flat));
    FilledConcat(SlotsAt(input, token + flat), SlotsAt(input, x));
    FilledConcat(SlotsAt(input, token + flat + x), SlotsAt(input, y));
  }

  lemma CollectedAt(input: Input)
    ensures Collect(EmaidSlots(input)) == Collect(SlotsAt(input, OWNER_PATHS))
  {
    hide Collect, Filled, EmaidSlots;
    SlotsAreAt(input);
    CollectFilled(EmaidSlots(input));
    CollectFilled(SlotsAt(input, OWNER_PATHS));
  }

  // ----- the first candidate -----

  lemma EmptyIsTrimmed()
    ensures Trim("") == ""
  {}

  lemma BlankIs(v: Value)
    ensures Check(v) == Skipped <==> Blank(v)
  {
    hide Trim, Lower;
    EmptyIsTrimmed();
  }

  lemma UsableIs(v: Value, text: string)
    ensures Check(v) == Usable(text) <==> !Blank(v) && v == Text(text) && Trim(text) == text
  {
    hide Trim, Lower;
    EmptyIsTrimmed();
  }

  lemma SkippedIsBlank(slots: seq<Slot>)
    ensures forall i :: 0 <= i < |slots| ==> (Check(slots[i].value) == Skipped <==> Blank(slots[i].value))
  {
    hide Check, Blank;
    forall i | 0 <= i < |slots| ensures Check(slots[i].value) == Skipped <==> Blank(slots[i].value) {
      BlankIs(slots[i].value);
    }
  }

  /** The first candidate comes from the first slot that is not skipped. */
  lemma {:induction false} FirstCandidate(slots: seq<Slot>) returns (i: nat)
    requires Collect(slots).Ok?
    ensures Collect(slots).value == [] <==> forall s :: s in slots ==> Check(s.value) == Skipped
    ensures Collect(slots).value != [] ==>
              && i < |slots| && Check(slots[i].value) == Usable(Collect(slots).value[0].value)
              && slots[i].source == Collect(slots).value[0].source
              && forall j :: 0 <= j < i ==> Check(slots[j].value) == Skipped
  {
    hide Check;
    i := 0;
    if slots != [] {
      var n := |slots| - 1;
      assert slots == slots[..n] + [slots[n]];
      i := FirstCandidate(slots[..n]);
      if Collect(slots[..n]).value == [] {
        forall j | 0 <= j < n ensures Check(slots[j].value) == Skipped {
          assert slots[..n][j] in slots[..n];
        }
        i := n;
      }
    }
  }

  /** Candidates of both protocols mean filled slots of both. */
  lemma {:induction false} CandidateProtocols(slots: seq<Slot>, protocol: Protocol)
    requires Collect(slots).Ok?
    ensures (exists c :: c in Collect(slots).value && c.protocol == protocol)
            <==> exists s :: s in slots && s.protocol == protocol && Check(s.value) != Skipped
  {
    hide Check;
    if slots != [] {
      var n := |slots| - 1;
      assert slots == slots[..n] + [slots[n]];
      CandidateProtocols(slots[..n], protocol);
      if Check(slots[n].value) != Skipped {
        var last := Candidate(slots[n].source, Check(slots[n].value).text, slots[n].protocol);
        assert Collect(slots).value == Collect(slots[..n]).value + [last];
        assert last in Collect(slots).value && slots[n] in slots;
        assert forall c :: c in Collect(slots).value <==> c in Collect(slots[..n]).value || c == last;
      }
    }
  }

  lemma SlotMembers(input: Input, paths: seq<Path>)
    ensures forall s :: s in SlotsAt(input, paths) <==> exists p :: p in paths && s == SlotAt(input, p)
  {
    var slots := SlotsAt(input, paths);
    forall s ensures s in slots <==> exists p :: p in paths && s == SlotAt(input, p) {
      if s in slots {
        var i :| 0 <= i < |slots| && slots[i] == s;
        assert paths[i] in paths && s == SlotAt(input, paths[i]);
      }
      if p :| p in paths && s == SlotAt(input, p) {
        var i :| 0 <= i < |paths| && paths[i] == p;
        assert slots[i] == s;
      }
    }
  }

  lemma SomeSlotAt(input: Input, paths: seq<Path>, s: Slot) returns (path: Path)
    requires s in SlotsAt(input, paths)
    ensures path in paths && s.value == At(Record(input), path)
  {
    hide At, Dotted;
    var i :| 0 <= i < |paths| && SlotsAt(input, paths)[i] == s;
    path := paths[i];
  }

  /** Slots that collect to one owner are owned. */
  lemma CollectedOwns(input: Input, paths: seq<Path>, owner: string)
    requires var c := Collect(SlotsAt(input, paths));
             c.Ok? && c.value != [] && forall j :: 0 <= j < |c.value| ==> c.value[j].value == owner
    ensures OwnsAlong(input, paths, owner, Collect(SlotsAt(input, paths)).value[0].source)
  {
    hide Collect, Check, Blank, At, Dotted, Malformed;
    var slots := SlotsAt(input, paths);
    CollectIs(slots);
    var i := FirstCandidate(slots);
    SkippedIsBlank(slots);
    UsableIs(slots[i].value, owner);
    forall path | path in paths ensures Blank(At(Record(input), path)) || At(Record(input), path) == Text(owner) {
      var k :| 0 <= k < |paths| && paths[k] == path;
      CollectedSlot(slots, slots[k], owner);
    }
    assert FirstFilled(input, paths, i);
  }

  lemma CollectedSlot(slots: seq<Slot>, s: Slot, owner: string)
    requires s in slots && Collect(slots).Ok? && !Malformed(slots)
    requires forall j :: 0 <= j < |Collect(slots).value| ==> Collect(slots).value[j].value == owner
    ensures Blank(s.value) || s.value == Text(owner)
  {
    hide Collect, Check, Blank, Mentioned, Malformed;
    CollectIs(slots);
    NotMalformed(slots, s);
    BlankIs(s.value);
    if Check(s.value) != Skipped {
      var text := Check(s.value).text;
      MentionedHere(slots, s);
      assert Mentions(Collect(slots).value, text);
      UsableIs(s.value, text);
    }
  }

  lemma NotMalformed(slots: seq<Slot>, s: Slot)
    requires !Malformed(slots) && s in slots
    ensures Check(s.value) == Skipped || Check(s.value) == Usable(Check(s.value).text)
  {
    hide Check;
  }

  lemma MentionedHere(slots: seq<Slot>, s: Slot)
    requires s in slots && Check(s.value).Usable?
    ensures Mentioned(slots, Check(s.value).text)
  {
    hide Check;
  }

  /** Owned slots collect to the owner. */
  lemma OwnedCollects(input: Input, paths: seq<Path>, owner: string, source: string)
    requires OwnsAlong(input, paths, owner, source)
    ensures var c := Collect(SlotsAt(input, paths));
            c.Ok? && c.value != [] && c.value[0].source == source && forall d :: d in c.value ==> d.value == owner
  {
    hide Collect, Check, Blank, At, Dotted;
    var slots := SlotsAt(input, paths);
    OwnedSlots(input, paths, owner);
    SkippedIsBlank(slots);
    var k :| FirstFilled(input, paths, k) && source == Dotted(paths[k]);
    OwnedCandidates(slots, owner, k);
  }

  lemma OwnedSlots(input: Input, paths: seq<Path>, owner: string)
    requires Trim(owner) == owner
    requires forall path :: path in paths ==> Blank(At(Record(input), path)) || At(Record(input), path) == Text(owner)
    ensures forall s :: s in SlotsAt(input, paths) ==> Check(s.value) == Skipped || Check(s.value) == Usable(owner)
  {
    hide Check, Blank, At, Dotted, SlotsAt;
    forall s | s in SlotsAt(input, paths) ensures Check(s.value) == Skipped || Check(s.value) == Usable(owner) {
      var path := SomeSlotAt(input, paths, s);
      BlankIs(s.value);
      UsableIs(s.value, owner);
    }
  }

  lemma OwnedCandidates(slots: seq<Slot>, owner: string, k: nat)
    requires forall s :: s in slots ==> Check(s.value) == Skipped || Check(s.value) == Usable(owner)
    requires k < |slots| && Check(slots[k].value) != Skipped
    requires forall j :: 0 <= j < k ==> Check(slots[j].value) == Skipped
    ensures Collect(slots).Ok? && Collect(slots).value != [] && Collect(slots).value[0].source == slots[k].source
    ensures forall c :: c in Collect(slots).value ==> c.value == owner
  {
    hide Check, Collect;
    CollectIs(slots);
    assert slots[k] in slots;
    var i := FirstCandidate(slots);
    assert i == k;
    var candidates := Collect(slots).value;
    forall c | c in candidates ensures c.value == owner {
      assert Mentions(candidates, c.value);
    }
  }

  lemma ResolvedOwns(input: Input)
    requires Resolution(input).Ok?
    ensures Owns(input, Resolution(input).value.eMAID, Resolution(input).value.sourceField)
  {
    hide EmaidSlots, DetectProtocol, UidSources, Collect, OwnsAlong, SlotsAt;
    CollectedAt(input);
    CollectedOwns(input, OWNER_PATHS, Resolution(input).value.eMAID);
  }

  lemma OwnsResolves(input: Input, owner: string, source: string)
    requires Owns(input, owner, source)
    ensures Resolution(input).Ok?
    ensures Resolution(input).value.eMAID == owner && Resolution(input).value.sourceField == source
  {
    hide EmaidSlots, DetectProtocol, UidSources, Collect, OwnsAlong, SlotsAt;
    CollectedAt(input);
    OwnedCollects(input, OWNER_PATHS, owner, source);
    var candidates := Collect(SlotsAt(input, OWNER_PATHS)).value;
    assert candidates[0] in candidates;
  }

  /** A record resolves to an owner, from a field, exactly when it owns it there. */
  lemma OwnerExactly(input: Input, owner: string, source: string)
    ensures Resolution(input).Ok? && Resolution(input).value.eMAID == owner
              && Resolution(input).value.sourceField == source
            <==> Owns(input, owner, source)
  {
    hide Resolution, Owns;
    if Resolution(input).Ok? {
      ResolvedOwns(input);
    }
    if Owns(input, owner, source) {
      OwnsResolves(input, owner, source);
    }
  }

  /** The protocol is told by the whole record, unless owner fields of both are
      filled. */
  lemma ProtocolExactly(input: Input)
    requires Resolution(input).Ok?
    ensures DetectProtocol(input) != UNKNOWN
    ensures Resolution(input).value.protocol
              == if SomeFilled(input, OCPI_PATHS) && SomeFilled(input, OICP_PATHS) then MIXED else DetectProtocol(input)
  {
    hide EmaidSlots, DetectProtocol, UidSources, Collect, Check, Blank, At, Dotted, Mentioned;
    var slots := SlotsAt(input, OWNER_PATHS);
    CollectedAt(input);
    CandidateProtocol(input);
    CollectIs(EmaidSlots(input));
    var candidates := Collect(slots).value;
    assert candidates[0] in candidates && Mentions(candidates, candidates[0].value);
    CandidateProtocols(slots, OCPI);
    CandidateProtocols(slots, OICP);
    SomeSlot(input);
    OnlyTwo(input);
    forall c | c in candidates ensures c.protocol == OCPI || c.protocol == OICP {
      CandidateProtocols(slots, c.protocol);
    }
  }

  lemma OnlyTwo(input: Input)
    ensures forall s :: s in SlotsAt(input, OWNER_PATHS) ==> s.protocol == OCPI || s.protocol == OICP
  {
    hide At, Dotted;
    SlotMembers(input, OWNER_PATHS);
  }

  lemma SomeSlot(input: Input)
    ensures var slots := SlotsAt(input, OWNER_PATHS);
            && (SomeFilled(input, OCPI_PATHS)
                <==> exists s :: s in slots && s.protocol == OCPI && Check(s.value) != Skipped)
            && (SomeFilled(input, OICP_PATHS)
                <==> exists s :: s in slots && s.protocol == OICP && Check(s.value) != Skipped)
  {
    hide Check, Blank, At, Dotted, SlotsAt;
    var slots := SlotsAt(input, OWNER_PATHS);
    SlotMembers(input, OWNER_PATHS);
    PathsApart();
    forall v ensures Check(v) == Skipped <==> Blank(v) {
      BlankIs(v);
    }
    if path :| path in OCPI_PATHS && !Blank(At(Record(input), path)) {
      assert path in OWNER_PATHS && SlotAt(input, path) in slots;
    }
    if path :| path in OICP_PATHS && !Blank(At(Record(input), path)) {
      assert path in OWNER_PATHS && SlotAt(input, path) in slots;
    }
  }

  lemma PathsApart()
    ensures forall p :: p in OCPI_PATHS ==> p !in OICP_PATHS
  {
    forall p | p in OICP_PATHS ensures p !in OCPI_PATHS {
      LastIsShort(p);
      assert |"contract_id"| > 10 && |"cdr_token_contract_id"| > 10;
    }
  }

  lemma LastIsShort(p: Path)
    requires p in OICP_PATHS
    ensures p != [] && |p[|p| - 1]| <= 10
  {
    if p != ["ContractID"] {
      IdentifiedIsShort("Identification", p);
      IdentifiedIsShort("identification", p);
    }
  }

  lemma IdentifiedIsShort(name: string, p: Path)
    ensures p in Identified(name) ==> p != [] && |p[|p| - 1]| <= 10
  {
    hide Spellings;
    SpellingIsShort([name], p);
    SpellingIsShort([name, "RFIDIdentification"], p);
    SpellingIsShort([name, "QRCodeIdentification"], p);
    SpellingIsShort([name, "PlugAndChargeIdentification"], p);
    SpellingIsShort([name, "RemoteIdentification"], p);
  }

  lemma SpellingIsShort(prefix: Path, p: Path)
    ensures p in Spellings(prefix) ==> p != [] && |p[|p| - 1]| <= 10
  {
  }

  // ----- the protocol -----

  /** Some of these fields of the record holds a value. */
  predicate Holds(input: Input, names: set<string>) { exists k :: k in names && k in input && HasValue(input[k]) }

  predicate LooksOcpi(input: Input) {
    Holds(input, {"id", "country_code", "party_id", "session_id", "start_date_time", "end_date_time", "cdr_token",
                  "cdr_token_contract_id", "cdr_location", "cdr_location_evse_id", "total_energy"})
  }

  predicate LooksOicp(input: Input) {
    Holds(input, {"Identification", "identification", "CPOPartnerSessionID", "EMPPartnerSessionID", "EvseID",
                  "ChargingStart", "ChargingEnd", "ConsumedEnergy", "ContractID"})
  }

  lemma HasAnyIs(input: Input, keys: seq<string>)
    ensures HasAny(input, keys) <==> Holds(input, set k | k in keys)
  {
    hide HasValue;
    NothingIsNoValue();
  }

  lemma NothingIsNoValue()
    ensures !HasValue(Value.Missing)
  {}

  /** Structure of both protocols is mixed, of one is that one; the flat contract
      counts as OICP. */
  lemma ProtocolTold(input: Input)
    ensures DetectProtocol(input)
              == if LooksOcpi(input) && LooksOicp(input) then MIXED
                 else if LooksOcpi(input) then OCPI
                 else if LooksOicp(input) || Holds(input, {"SessionID", "ProviderID", "EVSEID", "UID"}) then OICP
                 else UNKNOWN
  {
    hide Holds;
    HasAnyIs(input, OCPI_KEYS);
    HasAnyIs(input, OICP_KEYS);
    HasAnyIs(input, FLAT_KEYS);
    OcpiNames();
    OicpNames();
    FlatNames();
    hide HasAny, HasValue;
  }

  lemma OcpiNames()
    ensures (set k | k in OCPI_KEYS)
              == {"id", "country_code", "party_id", "session_id", "start_date_time", "end_date_time", "cdr_token",
                  "cdr_token_contract_id", "cdr_location", "cdr_location_evse_id", "total_energy"}
  {}

  lemma OicpNames()
    ensures (set k | k in OICP_KEYS)
              == {"Identification", "identification", "CPOPartnerSessionID", "EMPPartnerSessionID", "EvseID",
                  "ChargingStart", "ChargingEnd", "ConsumedEnergy", "ContractID"}
  {}

  lemma FlatNames()
    ensures (set k | k in FLAT_KEYS) == {"SessionID", "ProviderID", "EVSEID", "UID"}
  {}
}

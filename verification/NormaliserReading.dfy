/** Which field of a charging record becomes which field of the session, said of
    the record: the strict path accepts a record as a session exactly when the
    session reads the record. */
module NormaliserReading {
  import opened Basics
  import opened Numerals
  import opened Energy
  import opened Cdr
  import opened CdrIdentity
  import opened Normaliser
  import opened OwnerReading
  import TokenMetadata

  /** The first value that is present. */
  predicate FirstOf(values: seq<Value>, v: Value) {
    exists i :: 0 <= i < |values| && values[i] == v && HasValue(v) && forall j :: 0 <= j < i ==> !HasValue(values[j])
  }

  predicate NonePresent(values: seq<Value>) { forall v :: v in values ==> !HasValue(v) }

  predicate Given(v: Value) { v != Value.Missing && v != Null }

  /** The first value that is neither undefined nor null. */
  predicate FirstGiven(values: seq<Value>, v: Value) {
    exists i :: 0 <= i < |values| && values[i] == v && Given(v) && forall j :: 0 <= j < i ==> !Given(values[j])
  }

  // ----- the aliases -----

  function SessionIds(r: Input): seq<Value> {
    [Get(r, "SessionID"), Get(r, "sessionId"), Get(r, "id"), Get(r, "session_id")]
  }

  function ProviderIds(r: Input): seq<Value> {
    [Get(r, "ProviderID"), Get(r, "providerId"), Get(r, "provider"), Get(r, "HubProviderID"), Get(r, "provider_id"),
     GetIn(Get(r, "custom_data"), "provider_id"), Get(r, "party_id")]
  }

  function EvseIds(r: Input): seq<Value> {
    [Get(r, "EVSEID"), Get(r, "EvseID"), Get(r, "evseId"), Get(r, "evse"), GetIn(Get(r, "cdr_location"), "evse_id"),
     Get(r, "cdr_location_evse_id"), Get(r, "evse_id")]
  }

  function Starts(r: Input): seq<Value> {
    [Get(r, "Session Start"), Get(r, "SessionStart"), Get(r, "Charging Start"), Get(r, "ChargingStart"),
     Get(r, "StartTime"), Get(r, "timestamp"), Get(r, "start_date_time")]
  }

  function Ends(r: Input): seq<Value> {
    [Get(r, "Session End"), Get(r, "SessionEnd"), Get(r, "Charging End"), Get(r, "ChargingEnd"), Get(r, "EndTime"),
     Get(r, "end_date_time")]
  }

  function Energies(r: Input): seq<Value> {
    [Get(r, "Consumed Energy"), Get(r, "ConsumedEnergy"), Get(r, "Energy"), Get(r, "chargedEnergyKwh"),
     Get(r, "charged"), Get(r, "total_energy")]
  }

  function Directions(r: Input): seq<Value> {
    [Get(r, "EnergyDirection"), Get(r, "energyDirection"), Get(r, "energy_direction")]
  }

  function Zones(r: Input): seq<Value> {
    [Get(r, "timeZone"), GetIn(Get(r, "custom_data"), "time_zone"), GetIn(Get(r, "cdr_location"), "time_zone")]
  }

  const ZONE_NAMES := ["timeZone", "custom_data.time_zone", "cdr_location.time_zone"]

  // ----- what a session says of its record -----

  /** A text or a number, not blank, taken as it is spelled. */
  predicate Spells(v: Value, text: string) {
    (v == Text(text) || (v.Num? && v.text == text)) && Trim(text) != ""
  }

  /** The energy reading, with its sign. */
  predicate IsReading(v: Value, reading: Decimal) {
    if v.Num? then v.number == reading else v.Text? && ParseEnergy(v.text) == Some(reading)
  }

  /** Credits and corrections earn nothing. */
  ghost predicate EarnsNothing(r: Input) {
    || (HasValue(Get(r, "credit")) && Get(r, "credit") != Bool(false)
        && Lower(Trim(StringOf(Get(r, "credit")))) != "false")
    || HasValue(Get(r, "credit_reference_id"))
    || (exists v :: FirstGiven([Get(r, "correction_reference_id"), Get(r, "CorrectionReferenceID")], v) && HasValue(v))
    || (exists v :: FirstGiven([Get(r, "correction"), Get(r, "Correction"), Get(r, "is_correction"),
                                Get(r, "isCorrection")], v)
                    && Lower(Trim(StringOf(v))) == "true")
    || (exists v :: FirstGiven([Get(r, "Operation Status"), Get(r, "OperationStatus"), Get(r, "operation_status")], v)
                    && Lower(Trim(StringOf(v))) in {"credit", "correction"})
  }

  /** The reading gives the energy by its size, and the direction by its sign
      unless the record names one; a record that says CHARGE may not be negative. */
  predicate EnergyReads(r: Input, s: Session, v: Value, reading: Decimal) {
    && FirstOf(Energies(r), v) && IsReading(v, reading)
    && s.energy.scale == reading.scale
    && s.energy.units == (if reading.units < 0 then -reading.units else reading.units)
    && if NonePresent(Directions(r)) then s.direction == (if reading.units < 0 then DISCHARGE else CHARGE)
       else if s.direction == CHARGE then FirstOf(Directions(r), Text("CHARGE")) && reading.units >= 0
       else FirstOf(Directions(r), Text("DISCHARGE"))
  }

  /** The record id stands for the session, and a session id comes with it. */
  predicate Aliased(r: Input) {
    && !HasValue(Get(r, "SessionID")) && !HasValue(Get(r, "sessionId"))
    && HasValue(Get(r, "id")) && HasValue(Get(r, "session_id"))
  }

  predicate IdsRead(r: Input, s: Session) {
    && (if Aliased(r) then
          && s.cdrId.Some? && Spells(Get(r, "id"), s.cdrId.value)
          && s.reservationSessionId.Some? && Spells(Get(r, "session_id"), s.reservationSessionId.value)
        else s.cdrId == None && s.reservationSessionId == None)
    && (if (s.protocol == OCPI || s.protocol == MIXED) && HasValue(Get(r, "id")) && HasValue(Get(r, "session_id")) then
          s.chargingSessionId.Some? && Spells(Get(r, "session_id"), s.chargingSessionId.value)
        else s.chargingSessionId == None)
  }

  /** The zones present are one zone; the first of them is named as its source. */
  predicate ZoneReads(r: Input, s: Session, p: Parsers) {
    && (forall v :: v in Zones(r) && HasValue(v) ==> p.zone(v).Some? && p.zone(v) == s.timeZone)
    && (if NonePresent(Zones(r)) then s.timeZone == None && s.timeZoneSource == None
        else exists i :: 0 <= i < 3 && HasValue(Zones(r)[i]) && s.timeZoneSource == Some(ZONE_NAMES[i])
                         && forall j :: 0 <= j < i ==> !HasValue(Zones(r)[j]))
  }

  ghost predicate TextsRead(r: Input, s: Session) {
    && (exists v :: FirstOf(SessionIds(r), v) && Spells(v, s.sessionId))
    && (exists v :: FirstOf(ProviderIds(r), v) && Spells(v, s.providerId))
    && (exists v :: FirstOf(EvseIds(r), v) && Spells(v, s.evseId))
  }

  ghost predicate TimesRead(r: Input, s: Session, p: Parsers) {
    && (exists v :: FirstOf(Starts(r), v) && p.date(v) == Some(s.startTime))
    && (exists v :: FirstOf(Ends(r), v) && p.date(v) == Some(s.endTime))
    && s.startTime <= s.endTime
  }

  /** The owner, the field it is read from, and the protocol: both of them if
      owner fields of both are filled. */
  ghost predicate OwnerReads(r: Input, s: Session) {
    && Owns(r, s.eMAID, s.sourceField) && s.metadata == TokenMetadata.Collected(r)
    && s.protocol == if SomeFilled(r, OCPI_PATHS) && SomeFilled(r, OICP_PATHS) then MIXED else DetectProtocol(r)
  }

  ghost predicate Reads(r: Input, s: Session, p: Parsers) {
    && !EarnsNothing(r) && OwnerReads(r, s) && TextsRead(r, s) && TimesRead(r, s, p)
    && (exists v, reading :: EnergyReads(r, s, v, reading)) && IdsRead(r, s) && ZoneReads(r, s, p)
  }

  // ----- first values -----

  function ValuesOf(fields: seq<Named>): (values: seq<Value>)
    ensures |values| == |fields| && forall i :: 0 <= i < |fields| ==> values[i] == fields[i].value
  {
    seq(|fields|, i requires 0 <= i < |fields| => fields[i].value)
  }

  /** The first field present, and where it stands. */
  predicate FirstAt(fields: seq<Named>, i: nat) {
    i < |fields| && HasValue(fields[i].value) && forall j :: 0 <= j < i ==> !HasValue(fields[j].value)
  }

  lemma NonePresentCons(fields: seq<Named>)
    requires fields != []
    ensures NonePresent(ValuesOf(fields)) <==> !HasValue(fields[0].value) && NonePresent(ValuesOf(fields[1..]))
  {
    hide HasValue;
    assert ValuesOf(fields) == [fields[0].value] + ValuesOf(fields[1..]);
  }

  lemma FirstAtLater(fields: seq<Named>, k: nat)
    requires fields != [] && !HasValue(fields[0].value) && FirstAt(fields[1..], k)
    ensures FirstAt(fields, k + 1) && fields[k + 1] == fields[1..][k]
  {
    hide HasValue;
    forall j | 0 <= j < k + 1 ensures !HasValue(fields[j].value) {
      assert j == 0 || fields[j] == fields[1..][j - 1];
    }
  }

  lemma {:induction false} FirstPresentIs(fields: seq<Named>) returns (i: nat)
    ensures FirstPresent(fields) == None <==> NonePresent(ValuesOf(fields))
    ensures FirstPresent(fields).Some? ==> FirstAt(fields, i) && fields[i] == FirstPresent(fields).value
  {
    i := 0;
    if fields != [] {
      hide HasValue;
      NonePresentCons(fields);
      if !HasValue(fields[0].value) {
        hide NonePresent, ValuesOf;
        var k := FirstPresentIs(fields[1..]);
        i := k + 1;
        if FirstPresent(fields[1..]).Some? {
          hide FirstAt;
          FirstAtLater(fields, k);
        }
      }
    }
  }

  /** Read as a relation, the first value present is what the aliases give. */
  lemma FirstOfIs(fields: seq<Named>, v: Value)
    ensures FirstOf(ValuesOf(fields), v) <==> FirstPresent(fields).Some? && FirstPresent(fields).value.value == v
  {
    hide HasValue, FirstPresent;
    var i := FirstPresentIs(fields);
    var values := ValuesOf(fields);
    if FirstPresent(fields).Some? {
      assert values[i] == fields[i].value;
    }
    if FirstOf(values, v) {
      var k :| 0 <= k < |fields| && values[k] == v && HasValue(v) && forall j :: 0 <= j < k ==> !HasValue(values[j]);
      assert values[k] in values;
      assert FirstAt(fields, i);
      assert i == k;
    }
  }

  lemma SessionsAre(r: Input)
    ensures forall v :: FirstOf(SessionIds(r), v) <==> (SessionField(r).Some? && SessionField(r).value.value == v)
    ensures Aliased(r)
            <==> SessionField(r).Some? && SessionField(r).value.name == "id" && HasValue(Get(r, "session_id"))
  {
    hide HasValue, FirstOf;
    var fields := Fields(r, ["SessionID", "sessionId", "id", "session_id"]);
    assert ValuesOf(fields) == SessionIds(r);
    forall v ensures FirstOf(SessionIds(r), v) <==> (SessionField(r).Some? && SessionField(r).value.value == v) {
      FirstOfIs(fields, v);
    }
    hide FirstPresent;
    var i := FirstPresentIs(fields);
    assert fields[0].value == Get(r, "SessionID") && fields[1].value == Get(r, "sessionId");
    assert fields[2] == Normaliser.Named("id", Get(r, "id"));
    assert ValuesOf(fields)[2] in ValuesOf(fields);
    NamesDiffer();
  }

  lemma NamesDiffer()
    ensures "SessionID" != "id" && "sessionId" != "id" && "session_id" != "id"
  {
    assert |"id"| == 2;
  }

  lemma ProvidersAre(r: Input)
    ensures forall v :: FirstOf(ProviderIds(r), v) <==> (ProviderField(r).Some? && ProviderField(r).value.value == v)
  {
    hide FirstPresent, FirstOf;
    var fields := Fields(r, ["ProviderID", "providerId", "provider", "HubProviderID", "provider_id"])
        + [Normaliser.Named("custom_data.provider_id", GetIn(Get(r, "custom_data"), "provider_id"))]
        + Fields(r, ["party_id"]);
    assert ValuesOf(fields) == ProviderIds(r);
    forall v ensures FirstOf(ProviderIds(r), v) <==> (ProviderField(r).Some? && ProviderField(r).value.value == v) {
      FirstOfIs(fields, v);
    }
  }

  lemma EvsesAre(r: Input)
    ensures forall v :: FirstOf(EvseIds(r), v) <==> (EvseField(r).Some? && EvseField(r).value.value == v)
  {
    hide FirstPresent, FirstOf;
    var fields := Fields(r, ["EVSEID", "EvseID", "evseId", "evse"])
        + [Normaliser.Named("cdr_location.evse_id", GetIn(Get(r, "cdr_location"), "evse_id"))]
        + Fields(r, ["cdr_location_evse_id", "evse_id"]);
    assert ValuesOf(fields) == EvseIds(r);
    forall v ensures FirstOf(EvseIds(r), v) <==> (EvseField(r).Some? && EvseField(r).value.value == v) {
      FirstOfIs(fields, v);
    }
  }

  lemma StartsAre(r: Input)
    ensures forall v :: FirstOf(Starts(r), v) <==> (StartField(r).Some? && StartField(r).value.value == v)
  {
    hide FirstPresent, FirstOf;
    var fields := Fields(r, ["Session Start", "SessionStart", "Charging Start", "ChargingStart", "StartTime",
                             "timestamp", "start_date_time"]);
    assert ValuesOf(fields) == Starts(r);
    forall v ensures FirstOf(Starts(r), v) <==> (StartField(r).Some? && StartField(r).value.value == v) {
      FirstOfIs(fields, v);
    }
  }

  lemma EndsAre(r: Input)
    ensures forall v :: FirstOf(Ends(r), v) <==> (EndField(r).Some? && EndField(r).value.value == v)
  {
    hide FirstPresent, FirstOf;
    var fields := Fields(r, ["Session End", "SessionEnd", "Charging End", "ChargingEnd", "EndTime", "end_date_time"]);
    assert ValuesOf(fields) == Ends(r);
    forall v ensures FirstOf(Ends(r), v) <==> (EndField(r).Some? && EndField(r).value.value == v) {
      FirstOfIs(fields, v);
    }
  }

  lemma EnergiesAre(r: Input)
    ensures forall v :: FirstOf(Energies(r), v) <==> (EnergyField(r).Some? && EnergyField(r).value.value == v)
  {
    hide FirstPresent, FirstOf;
    var fields := Fields(r, ["Consumed Energy", "ConsumedEnergy", "Energy", "chargedEnergyKwh", "charged",
                             "total_energy"]);
    assert ValuesOf(fields) == Energies(r);
    forall v ensures FirstOf(Energies(r), v) <==> (EnergyField(r).Some? && EnergyField(r).value.value == v) {
      FirstOfIs(fields, v);
    }
  }

  lemma DirectionsAre(r: Input)
    ensures forall v :: FirstOf(Directions(r), v) <==> (DirectionField(r).Some? && DirectionField(r).value.value == v)
    ensures NonePresent(Directions(r)) <==> DirectionField(r) == None
  {
    hide FirstPresent, FirstOf, NonePresent;
    var fields := Fields(r, ["EnergyDirection", "energyDirection", "energy_direction"]);
    assert ValuesOf(fields) == Directions(r);
    var _ := FirstPresentIs(fields);
    forall v ensures FirstOf(Directions(r), v) <==> (DirectionField(r).Some? && DirectionField(r).value.value == v) {
      FirstOfIs(fields, v);
    }
  }

  // ----- credits and corrections -----

  lemma FirstGivenSplit(a: Value, rest: seq<Value>, v: Value)
    ensures FirstGiven([a] + rest, v) <==> if Given(a) then v == a else FirstGiven(rest, v)
  {
    hide Given;
    var all := [a] + rest;
    if Given(a) {
      assert all[0] == a;
    } else {
      if k :| 0 <= k < |all| && all[k] == v && Given(v) && forall j :: 0 <= j < k ==> !Given(all[j]) {
        assert rest[k - 1] == v;
        forall j | 0 <= j < k - 1 ensures !Given(rest[j]) {
          assert all[j + 1] == rest[j];
        }
      }
      if k :| 0 <= k < |rest| && rest[k] == v && Given(v) && forall j :: 0 <= j < k ==> !Given(rest[j]) {
        assert all[k + 1] == v;
        forall j | 0 <= j < k + 1 ensures !Given(all[j]) {
          assert j == 0 || all[j] == rest[j - 1];
        }
      }
    }
  }

  lemma NoneGiven(v: Value)
    ensures !FirstGiven([], v)
  {}

  lemma GivenOne(a: Value, v: Value)
    ensures FirstGiven([a], v) <==> Given(v) && v == a
  {
    FirstGivenSplit(a, [], v);
    NoneGiven(v);
    assert [a] == [a] + [];
  }

  lemma GivenTwo(a: Value, b: Value, v: Value)
    ensures FirstGiven([a, b], v) <==> Given(v) && v == Coalesce(a, b)
  {
    FirstGivenSplit(a, [b], v);
    GivenOne(b, v);
    assert [a, b] == [a] + [b];
  }

  lemma GivenThree(a: Value, b: Value, c: Value, v: Value)
    ensures FirstGiven([a, b, c], v) <==> Given(v) && v == Coalesce(a, Coalesce(b, c))
  {
    FirstGivenSplit(a, [b, c], v);
    GivenTwo(b, c, v);
    assert [a, b, c] == [a] + [b, c];
  }

  lemma GivenFour(a: Value, b: Value, c: Value, d: Value, v: Value)
    ensures FirstGiven([a, b, c, d], v) <==> Given(v) && v == Coalesce(a, Coalesce(b, Coalesce(c, d)))
  {
    FirstGivenSplit(a, [b, c, d], v);
    GivenThree(b, c, d, v);
    assert [a, b, c, d] == [a] + [b, c, d];
  }

  lemma TrueText()
    ensures Lower(Trim("true")) == "true"
  {
    SmallWord("true");
  }

  lemma SmallLetter(c: char)
    requires 'a' <= c <= 'z'
    ensures !IsSpace(c) && LowerChar(c) == c
  {}

  lemma SmallWord(s: string)
    requires s != "" && forall i :: 0 <= i < |s| ==> 'a' <= s[i] <= 'z'
    ensures Lower(Trim(s)) == s
  {
    hide IsSpace, LowerChar, Trim;
    forall i | 0 <= i < |s| ensures !IsSpace(s[i]) && LowerChar(s[i]) == s[i] {
      SmallLetter(s[i]);
    }
    TrimKeeps(s);
    assert Lower(s) == s;
  }

  lemma LowerOfNothing(v: Value)
    requires Lower(Trim(StringOf(v))) in {"true", "credit", "correction"}
    ensures Trim(StringOf(v)) != ""
  {
    assert Lower("") == "";
  }

  lemma KindIs(r: Input)
    ensures EarnsNothing(r) <==> UnsupportedKind(r)
  {
    hide FirstGiven, Coalesce, Trim, Lower, HasValue, StringOf, Given;
    var reference := Coalesce(Get(r, "correction_reference_id"), Get(r, "CorrectionReferenceID"));
    var correction :=
        Coalesce(Get(r, "correction"),
                 Coalesce(Get(r, "Correction"), Coalesce(Get(r, "is_correction"), Get(r, "isCorrection"))));
    var status := Coalesce(Get(r, "Operation Status"),
                           Coalesce(Get(r, "OperationStatus"), Get(r, "operation_status")));
    forall v
      ensures FirstGiven([Get(r, "correction_reference_id"), Get(r, "CorrectionReferenceID")], v)
              <==> (Given(v) && v == reference)
    {
      GivenTwo(Get(r, "correction_reference_id"), Get(r, "CorrectionReferenceID"), v);
    }
    forall v
      ensures FirstGiven([Get(r, "correction"), Get(r, "Correction"), Get(r, "is_correction"),
                          Get(r, "isCorrection")], v)
              <==> (Given(v) && v == correction)
    {
      GivenFour(Get(r, "correction"), Get(r, "Correction"), Get(r, "is_correction"), Get(r, "isCorrection"), v);
    }
    forall v
      ensures FirstGiven([Get(r, "Operation Status"), Get(r, "OperationStatus"), Get(r, "operation_status")], v)
              <==> (Given(v) && v == status)
    {
      GivenThree(Get(r, "Operation Status"), Get(r, "OperationStatus"), Get(r, "operation_status"), v);
    }
    PresentIsGiven(reference);
    PresentIsGiven(correction);
    PresentIsGiven(status);
    TruthIs(correction);
    StatusIs(status);
  }

  lemma PresentIsGiven(v: Value)
    ensures HasValue(v) ==> Given(v)
  {}

  lemma TruthIs(v: Value)
    ensures Given(v) && Lower(Trim(StringOf(v))) == "true" <==> HasValue(v) && SaysTrue(v)
  {
    hide Trim, Lower;
    TrueText();
    if Given(v) && Lower(Trim(StringOf(v))) == "true" {
      LowerOfNothing(v);
    }
  }

  lemma StatusIs(v: Value)
    ensures Given(v) && Lower(Trim(StringOf(v))) in {"credit", "correction"}
            <==> HasValue(v) && Lower(Trim(StringOf(v))) in {"credit", "correction"}
  {
    hide Trim, Lower;
    if Given(v) && Lower(Trim(StringOf(v))) in {"credit", "correction"} {
      LowerOfNothing(v);
    }
  }

  // ----- single fields -----

  lemma SpellsIs(v: Value, text: string)
    ensures Spells(v, text) <==> StringValue(v) == Some(text)
  {
    hide Trim;
  }

  lemma ReadingIs(v: Value, reading: Decimal)
    ensures IsReading(v, reading) <==> EnergyOf(v) == Some(reading)
  {
    hide ParseEnergy;
    NoTruthIsANumber(v);
  }

  lemma NoTruthIsANumber(v: Value)
    ensures v.Bool? ==> ParseEnergy(StringOf(v)) == None
  {
    if v.Bool? {
      WordIsNoNumber(StringOf(v));
    }
  }

  lemma WordIsNoNumber(s: string)
    requires s != "" && forall i :: 0 <= i < |s| ==> 'a' <= s[i] <= 'z'
    ensures ParseEnergy(s) == None
  {
    hide IsSpace;
    forall i | 0 <= i < |s| ensures !IsSpace(s[i]) {
      SmallLetter(s[i]);
    }
    TrimKeeps(s);
    assert SignOf(s) == "" && s[0..] == s;
    assert IndexOf(s, '.') == |s|;
    assert !IsDigit(s[0]);
  }

  // ----- time zones -----

  /** The zone as the fields give it, one after the other. */
  predicate ZoneIs(r: Input, s: Session, p: Parsers) {
    var zone := ResolveZone(ZoneFields(r), p, NoZone);
    && zone.Ok?
    && s.timeZone == (if zone.value.ZoneFrom? then Some(zone.value.name) else None)
    && s.timeZoneSource == (if zone.value.ZoneFrom? then Some(zone.value.source) else None)
  }

  lemma ZoneOne(f: Named, rest: seq<Named>, p: Parsers, found: Zone)
    ensures ResolveZone([f] + rest, p, found)
              == if !HasValue(f.value) then ResolveZone(rest, p, found)
                 else if p.zone(f.value) == None || (found.ZoneFrom? && p.zone(f.value) != Some(found.name)) then
                   Err(ZoneError)
                 else ResolveZone(rest, p, if found.ZoneFrom? then found else ZoneFrom(p.zone(f.value).value, f.name))
  {
    hide HasValue;
    assert ([f] + rest)[1..] == rest;
  }

  lemma ZoneReadsIs(r: Input, s: Session, p: Parsers)
    ensures ZoneReads(r, s, p) <==> ZoneIs(r, s, p)
  {
    hide HasValue, ResolveZone;
    var fields := ZoneFields(r);
    var a, b, c := fields[0], fields[1], fields[2];
    assert fields == [a] + [b, c] && [b, c] == [b] + [c] && [c] == [c] + [];
    var first := ZoneAfter(a, p, NoZone);
    var second := ZoneAfter(b, p, first);
    var third := ZoneAfter(c, p, second);
    ZoneOne(a, [b, c], p, NoZone);
    ZoneOne(b, [c], p, first);
    ZoneOne(c, [], p, second);
    NoMoreZones(p, third);
    assert Zones(r) == [a.value, b.value, c.value] && ZONE_NAMES == [a.name, b.name, c.name];
    ZoneSpelled(r, s, p);
  }

  /** The three zone fields written out. */
  lemma ZoneSpelled(r: Input, s: Session, p: Parsers)
    ensures var a, b, c := Zones(r)[0], Zones(r)[1], Zones(r)[2];
            ZoneReads(r, s, p)
            <==> && (HasValue(a) ==> p.zone(a).Some? && p.zone(a) == s.timeZone)
                 && (HasValue(b) ==> p.zone(b).Some? && p.zone(b) == s.timeZone)
                 && (HasValue(c) ==> p.zone(c).Some? && p.zone(c) == s.timeZone)
                 && (if HasValue(a) then s.timeZoneSource == Some(ZONE_NAMES[0])
                     else if HasValue(b) then s.timeZoneSource == Some(ZONE_NAMES[1])
                     else if HasValue(c) then s.timeZoneSource == Some(ZONE_NAMES[2])
                     else s.timeZone == None && s.timeZoneSource == None)
  {
    hide HasValue;
    var a, b, c := Zones(r)[0], Zones(r)[1], Zones(r)[2];
    assert Zones(r) == [a, b, c];
    assert forall v :: v in Zones(r) <==> v == a || v == b || v == c;
    if !NonePresent(Zones(r)) {
      var first := if HasValue(a) then 0 else if HasValue(b) then 1 else 2;
      assert HasValue(Zones(r)[first]) && forall j :: 0 <= j < first ==> !HasValue(Zones(r)[j]);
    }
  }

  function ZoneAfter(f: Named, p: Parsers, found: Zone): Zone {
    if found.ZoneFrom? || !HasValue(f.value) || p.zone(f.value) == None then found
    else ZoneFrom(p.zone(f.value).value, f.name)
  }

  lemma NoMoreZones(p: Parsers, found: Zone)
    ensures ResolveZone([], p, found) == Ok(found)
  {}

  // ----- the strict path -----

  /** The parts of an accepted record as the normaliser looks them up. */
  predicate Parts(r: Input, s: Session, p: Parsers) {
    var session, provider, evse := SessionField(r), ProviderField(r), EvseField(r);
    var start, end, energy, direction := StartField(r), EndField(r), EnergyField(r), DirectionField(r);
    && !UnsupportedKind(r) && ZoneIs(r, s, p)
    && Resolution(r) == Ok(Resolved(s.eMAID, s.sourceField, s.protocol)) && s.metadata == TokenMetadata.Collected(r)
    && session.Some? && StringValue(session.value.value) == Some(s.sessionId)
    && provider.Some? && StringValue(provider.value.value) == Some(s.providerId)
    && evse.Some? && StringValue(evse.value.value) == Some(s.evseId)
    && start.Some? && p.date(start.value.value) == Some(s.startTime)
    && end.Some? && p.date(end.value.value) == Some(s.endTime) && s.startTime <= s.endTime
    && energy.Some? && EnergyOf(energy.value.value).Some?
    && (if session.value.name == "id" && HasValue(Get(r, "session_id")) then
          && s.reservationSessionId.Some? && StringValue(Get(r, "session_id")) == s.reservationSessionId
          && (if HasValue(Get(r, "id")) then s.cdrId.Some? && StringValue(Get(r, "id")) == s.cdrId else s.cdrId == None)
        else s.reservationSessionId == None && s.cdrId == None)
    && (if (s.protocol == OCPI || s.protocol == MIXED) && HasValue(Get(r, "id")) && HasValue(Get(r, "session_id")) then
          s.chargingSessionId.Some? && StringValue(Get(r, "session_id")) == s.chargingSessionId
        else s.chargingSessionId == None)
    && var reading := EnergyOf(energy.value.value).value;
       && s.energy == Absolute(reading)
       && (if direction.Some? then
             && Normaliser.DirectionOf(direction.value.value) == Some(s.direction)
             && (s.direction == CHARGE ==> reading.units >= 0)
           else s.direction == if reading.units < 0 then DISCHARGE else CHARGE)
  }

  lemma AcceptedHasParts(raw: Value, now: int, p: Parsers)
    requires Strict(raw, now, p).Ok?
    ensures raw.Record? && Parts(raw.fields, Strict(raw, now, p).value, p)
  {
    hide ResolveZone, SessionField, ProviderField, EvseField, StartField, EndField, EnergyField, DirectionField;
    hide UnsupportedKind, Resolution, StringValue, EnergyOf, DirectionOf, Absolute, HasValue, TokenMetadata.Collected;
  }

  lemma PartsAreAccepted(r: Input, now: int, p: Parsers, s: Session)
    requires Parts(r, s, p)
    ensures Strict(Record(r), now, p).Ok?
  {
    hide ResolveZone, SessionField, ProviderField, EvseField, StartField, EndField, EnergyField, DirectionField;
    hide UnsupportedKind, Resolution, StringValue, EnergyOf, DirectionOf, Absolute, HasValue, TokenMetadata.Collected;
  }

  /** The parts of a record make one session. */
  lemma PartsAreOne(r: Input, p: Parsers, s: Session, t: Session)
    requires Parts(r, s, p) && Parts(r, t, p)
    ensures s == t
  {
    hide ResolveZone, SessionField, ProviderField, EvseField, StartField, EndField, EnergyField, DirectionField;
    hide UnsupportedKind, Resolution, StringValue, EnergyOf, DirectionOf, Absolute, HasValue, TokenMetadata.Collected;
  }

  lemma StrictIsParts(raw: Value, now: int, p: Parsers, s: Session)
    ensures Strict(raw, now, p) == Ok(s) <==> (raw.Record? && Parts(raw.fields, s, p))
  {
    hide Strict, Parts;
    if Strict(raw, now, p).Ok? {
      AcceptedHasParts(raw, now, p);
    }
    if raw.Record? && Parts(raw.fields, s, p) {
      assert raw == Record(raw.fields);
      PartsAreAccepted(raw.fields, now, p, s);
      AcceptedHasParts(raw, now, p);
      PartsAreOne(raw.fields, p, s, Strict(raw, now, p).value);
    }
  }

  lemma TextsAre(r: Input, s: Session)
    ensures TextsRead(r, s)
            <==> && SessionField(r).Some? && StringValue(SessionField(r).value.value) == Some(s.sessionId)
                 && ProviderField(r).Some? && StringValue(ProviderField(r).value.value) == Some(s.providerId)
                 && EvseField(r).Some? && StringValue(EvseField(r).value.value) == Some(s.evseId)
  {
    hide FirstOf, SessionField, ProviderField, EvseField, StringValue, Spells;
    SessionsAre(r);
    ProvidersAre(r);
    EvsesAre(r);
    forall v, text ensures Spells(v, text) <==> StringValue(v) == Some(text) {
      SpellsIs(v, text);
    }
  }

  lemma TimesAre(r: Input, s: Session, p: Parsers)
    ensures TimesRead(r, s, p)
            <==> && StartField(r).Some? && p.date(StartField(r).value.value) == Some(s.startTime)
                 && EndField(r).Some? && p.date(EndField(r).value.value) == Some(s.endTime) && s.startTime <= s.endTime
  {
    hide FirstOf, StartField, EndField;
    StartsAre(r);
    EndsAre(r);
  }

  lemma EnergyIs(r: Input, s: Session)
    ensures (exists v, reading :: EnergyReads(r, s, v, reading))
            <==> && EnergyField(r).Some? && EnergyOf(EnergyField(r).value.value).Some?
                 && var reading := EnergyOf(EnergyField(r).value.value).value;
                    && s.energy == Absolute(reading)
                    && if DirectionField(r).Some? then
                         && Normaliser.DirectionOf(DirectionField(r).value.value) == Some(s.direction)
                         && (s.direction == CHARGE ==> reading.units >= 0)
                       else s.direction == if reading.units < 0 then DISCHARGE else CHARGE
  {
    hide FirstOf, EnergyField, DirectionField, EnergyOf, IsReading, NonePresent;
    EnergiesAre(r);
    DirectionsAre(r);
    forall v, reading ensures IsReading(v, reading) <==> EnergyOf(v) == Some(reading) {
      ReadingIs(v, reading);
    }
    if EnergyField(r).Some? && EnergyOf(EnergyField(r).value.value).Some? {
      var v := EnergyField(r).value.value;
      var reading := EnergyOf(v).value;
      DirectionNames();
      assert EnergyReads(r, s, v, reading)
          <==> s.energy == Absolute(reading)
               && if DirectionField(r).Some? then
                    && Normaliser.DirectionOf(DirectionField(r).value.value) == Some(s.direction)
                    && (s.direction == CHARGE ==> reading.units >= 0)
                  else s.direction == if reading.units < 0 then DISCHARGE else CHARGE;
    }
  }

  lemma DirectionNames()
    ensures Text("CHARGE") != Text("DISCHARGE")
  {
    assert |"CHARGE"| != |"DISCHARGE"|;
  }

  lemma OwnerIs(r: Input, s: Session)
    ensures OwnerReads(r, s)
            <==> && Resolution(r) == Ok(Resolved(s.eMAID, s.sourceField, s.protocol))
                 && s.metadata == TokenMetadata.Collected(r)
  {
    hide Owns, Resolution, SomeFilled, DetectProtocol;
    OwnerExactly(r, s.eMAID, s.sourceField);
    if Resolution(r).Ok? {
      ProtocolExactly(r);
    }
  }

  lemma IdsAre(r: Input, s: Session)
    requires SessionField(r).Some?
    ensures IdsRead(r, s)
            <==> && (if SessionField(r).value.name == "id" && HasValue(Get(r, "session_id")) then
                       && s.reservationSessionId.Some? && StringValue(Get(r, "session_id")) == s.reservationSessionId
                       && (if HasValue(Get(r, "id")) then s.cdrId.Some? && StringValue(Get(r, "id")) == s.cdrId
                           else s.cdrId == None)
                     else s.reservationSessionId == None && s.cdrId == None)
                 && (if (s.protocol == OCPI || s.protocol == MIXED) && HasValue(Get(r, "id"))
                         && HasValue(Get(r, "session_id")) then
                       s.chargingSessionId.Some? && StringValue(Get(r, "session_id")) == s.chargingSessionId
                     else s.chargingSessionId == None)
  {
    hide SessionField, StringValue, Spells, HasValue;
    SessionsAre(r);
    forall v, text ensures Spells(v, text) <==> StringValue(v) == Some(text) {
      SpellsIs(v, text);
    }
  }

  /** The strict path accepts exactly the records that a session reads, and
      returns that session: no field of it comes from anywhere else, no record
      that can be read is refused, and the clock plays no part. */
  lemma StrictExactly(raw: Value, now: int, p: Parsers, s: Session)
    ensures Strict(raw, now, p) == Ok(s) <==> raw.Record? && Reads(raw.fields, s, p)
  {
    hide Strict, TextsRead, TimesRead, EnergyReads, OwnerReads, IdsRead, ZoneReads, EarnsNothing;
    hide SessionField, ProviderField, EvseField, StartField, EndField, EnergyField, DirectionField;
    hide UnsupportedKind, Resolution, StringValue, EnergyOf, HasValue, ZoneIs;
    StrictIsParts(raw, now, p, s);
    if raw.Record? {
      var r := raw.fields;
      KindIs(r);
      OwnerIs(r, s);
      TextsAre(r, s);
      TimesAre(r, s, p);
      EnergyIs(r, s);
      ZoneReadsIs(r, s, p);
      if SessionField(r).Some? {
        IdsAre(r, s);
      }
    }
  }
}

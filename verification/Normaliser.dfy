/** From a charging record to the canonical session. */
module Normaliser {
  import opened Basics
  import opened Numerals
  import opened Energy
  import opened Cdr
  import opened CdrIdentity
  import TokenMetadata

  datatype Direction = CHARGE | DISCHARGE

  /** The canonical session; times are milliseconds. */
  datatype Session = Session(
    sessionId: string, providerId: string, eMAID: string, protocol: Protocol, sourceField: string,
    metadata: Option<TokenMetadata.Metadata>, evseId: string, startTime: int, endTime: int,
    energy: Decimal, direction: Direction, cdrId: Option<string>, reservationSessionId: Option<string>,
    chargingSessionId: Option<string>, timeZone: Option<string>, timeZoneSource: Option<string>)

  /** Date and time zone parsing, as functions. */
  datatype Parsers = Parsers(date: Value -> Option<int>, zone: Value -> Option<string>)

  /** A canonical time zone has a name. */
  ghost predicate SoundParsers(p: Parsers) { forall v: Value :: p.zone(v) != Some("") }

  datatype Failure = NotAnObject | Unsupported | ZoneError | Missing(field: string) | BadField(field: string)
                   | IdentityFailure(error: IdentityError) | Reversed | BadDirection

  datatype Named = Named(name: string, value: Value)

  /** `firstPresent`. */
  function FirstPresent(values: seq<Named>): Option<Named> {
    if values == [] then None else if HasValue(values[0].value) then Some(values[0]) else FirstPresent(values[1..])
  }

  function Fields(input: Input, names: seq<string>): seq<Named> {
    seq(|names|, i requires 0 <= i < |names| => Named(names[i], Get(input, names[i])))
  }

  /** `String(value)`. */
  function StringOf(v: Value): string {
    match v
    case Missing => "undefined"
    case Null => "null"
    case Bool(b) => if b then "true" else "false"
    case Num(text, _) => text
    case Text(text) => text
    case List(text) => text
    case Record(_) => "[object Object]"
  }

  /** `stringValue`: texts and numbers that are not blank. */
  function StringValue(v: Value): Option<string> {
    if (v.Text? || v.Num?) && Trim(StringOf(v)) != "" then Some(StringOf(v)) else None
  }

  /** `a ?? b`. */
  function Coalesce(a: Value, b: Value): Value { if a == Value.Missing || a == Null then b else a }

  predicate SaysTrue(v: Value) { v == Bool(true) || Lower(Trim(StringOf(v))) == "true" }

  /** `rejectUnsupportedCdrKind`: credits and corrections earn nothing. */
  predicate UnsupportedKind(input: Input) {
    var credit := Get(input, "credit");
    var reference := Coalesce(Get(input, "correction_reference_id"), Get(input, "CorrectionReferenceID"));
    var correction :=
        Coalesce(Get(input, "correction"),
                 Coalesce(Get(input, "Correction"), Coalesce(Get(input, "is_correction"), Get(input, "isCorrection"))));
    var status := Coalesce(Get(input, "Operation Status"),
                           Coalesce(Get(input, "OperationStatus"), Get(input, "operation_status")));
    || (HasValue(credit) && credit != Bool(false) && Lower(Trim(StringOf(credit))) != "false")
    || HasValue(Get(input, "credit_reference_id")) || HasValue(reference)
    || (HasValue(correction) && SaysTrue(correction))
    || (HasValue(status) && Lower(Trim(StringOf(status))) in {"credit", "correction"})
  }

  // ----- time zones -----

  datatype Zone = NoZone | ZoneFrom(name: string, source: string)

  /** The zones given must be one zone; the first field that gives it is its source. */
  function ResolveZone(fields: seq<Named>, p: Parsers, found: Zone): Result<Zone, Failure> {
    if fields == [] then Ok(found)
    else if !HasValue(fields[0].value) then ResolveZone(fields[1..], p, found)
    else
      match p.zone(fields[0].value)
      case None => Err(ZoneError)
      case Some(zone) =>
        if found.ZoneFrom? && found.name != zone then Err(ZoneError)
        else ResolveZone(fields[1..], p, if found.ZoneFrom? then found else ZoneFrom(zone, fields[0].name))
  }

  function ZoneFields(input: Input): seq<Named> {
    [Named("timeZone", Get(input, "timeZone")),
     Named("custom_data.time_zone", GetIn(Get(input, "custom_data"), "time_zone")),
     Named("cdr_location.time_zone", GetIn(Get(input, "cdr_location"), "time_zone"))]
  }

  // ----- fields and their aliases -----

  function SessionField(input: Input): Option<Named> {
    FirstPresent(Fields(input, ["SessionID", "sessionId", "id", "session_id"]))
  }

  function ProviderField(input: Input): Option<Named> {
    FirstPresent(Fields(input, ["ProviderID", "providerId", "provider", "HubProviderID", "provider_id"])
                 + [Named("custom_data.provider_id", GetIn(Get(input, "custom_data"), "provider_id"))]
                 + Fields(input, ["party_id"]))
  }

  function EvseField(input: Input): Option<Named> {
    FirstPresent(Fields(input, ["EVSEID", "EvseID", "evseId", "evse"])
                 + [Named("cdr_location.evse_id", GetIn(Get(input, "cdr_location"), "evse_id"))]
                 + Fields(input, ["cdr_location_evse_id", "evse_id"]))
  }

  function StartField(input: Input): Option<Named> {
    FirstPresent(Fields(input,
                        ["Session Start", "SessionStart", "Charging Start", "ChargingStart", "StartTime", "timestamp",
                         "start_date_time"]))
  }

  function EndField(input: Input): Option<Named> {
    FirstPresent(Fields(input,
                        ["Session End", "SessionEnd", "Charging End", "ChargingEnd", "EndTime", "end_date_time"]))
  }

  function EnergyField(input: Input): Option<Named> {
    FirstPresent(Fields(input,
                        ["Consumed Energy", "ConsumedEnergy", "Energy", "chargedEnergyKwh", "charged", "total_energy"]))
  }

  function DirectionField(input: Input): Option<Named> {
    FirstPresent(Fields(input, ["EnergyDirection", "energyDirection", "energy_direction"]))
  }

  /** `parseEnergyValue`: numbers as they are, texts by the strict format. */
  function EnergyOf(v: Value): Option<Decimal> {
    match v
    case Num(_, number) => Some(number)
    case Text(text) => ParseEnergy(text)
    case Bool(_) => ParseEnergy(StringOf(v))
    case _ => None
  }

  function DirectionOf(v: Value): Option<Direction> {
    if v == Text("CHARGE") then Some(CHARGE) else if v == Text("DISCHARGE") then Some(DISCHARGE) else None
  }

  function Absolute(d: Decimal): Decimal { if d.units < 0 then Decimal(0 - d.units, d.scale) else d }

  // ----- normalisation -----

  /** `normaliseSession`. It reads the clock for a missing start time, takes the
      start for a missing end time and zero for a missing energy. */
  function Normalise(raw: Value, now: int, p: Parsers): Result<Session, Failure> {
    if !raw.Record? then Err(NotAnObject)
    else
      var input := raw.fields;
      var zone := ResolveZone(ZoneFields(input), p, NoZone);
      var session, provider, evse := SessionField(input), ProviderField(input), EvseField(input);
      var identity := Resolution(input);
      var start := if StartField(input).Some? then p.date(StartField(input).value.value) else Some(now);
      var end := if EndField(input).Some? then p.date(EndField(input).value.value) else start;
      var energy := if EnergyField(input).Some? then EnergyOf(EnergyField(input).value.value) else Some(Decimal(0, 0));
      if UnsupportedKind(input) then Err(Unsupported)
      else if zone.Err? then Err(zone.error)
      else if session == None then Err(Failure.Missing("sessionId"))
      else if StringValue(session.value.value) == None then Err(BadField("sessionId"))
      else if provider == None then Err(Failure.Missing("providerId"))
      else if StringValue(provider.value.value) == None then Err(BadField("providerId"))
      else if identity.Err? then Err(IdentityFailure(identity.error))
      else if evse == None then Err(Failure.Missing("evseId"))
      else if StringValue(evse.value.value) == None then Err(BadField("evseId"))
      else if start == None then Err(BadField("startTime"))
      else if end == None then Err(BadField("endTime"))
      else if end.value < start.value then Err(Reversed)
      else if energy == None then Err(BadField("energy"))
      else
        var direction := DirectionField(input);
        if direction.Some? && DirectionOf(direction.value.value) == None then Err(BadDirection)
        else if direction.Some? && DirectionOf(direction.value.value) == Some(CHARGE) && energy.value.units < 0 then
          Err(BadDirection)
        else
          var reservation := Get(input, "session_id");
          var cdr := Get(input, "id");
          var aliased := session.value.name == "id" && HasValue(reservation);
          var physical := (identity.value.protocol == OCPI || identity.value.protocol == MIXED) && HasValue(cdr)
              && HasValue(reservation);
          if aliased && StringValue(reservation) == None then Err(BadField("reservationSessionId"))
          else if aliased && HasValue(cdr) && StringValue(cdr) == None then Err(BadField("cdrId"))
          else if physical && StringValue(reservation) == None then Err(BadField("chargingSessionId"))
          else
            Ok(Session(
              StringValue(session.value.value).value, StringValue(provider.value.value).value,
              identity.value.eMAID, identity.value.protocol, identity.value.sourceField, TokenMetadata.Collected(input),
              StringValue(evse.value.value).value, start.value, end.value, Absolute(energy.value),
              if direction.Some? then DirectionOf(direction.value.value).value
              else if energy.value.units < 0 then DISCHARGE else CHARGE,
              if aliased && HasValue(cdr) then StringValue(cdr) else None,
              if aliased then StringValue(reservation) else None,
              if physical then StringValue(reservation) else None,
              if zone.value.ZoneFrom? then Some(zone.value.name) else None,
              if zone.value.ZoneFrom? then Some(zone.value.source) else None))
  }

  /** `validateAndNormaliseCdr`: what may reach a token claim. */
  function Strict(raw: Value, now: int, p: Parsers): Result<Session, Failure> {
    if !raw.Record? then Err(NotAnObject)
    else
      var input := raw.fields;
      var start, end, direction := StartField(input), EndField(input), DirectionField(input);
      if UnsupportedKind(input) then Err(Unsupported)
      else if start == None then Err(Failure.Missing("start time"))
      else if p.date(start.value.value) == None then Err(BadField("startTime"))
      else if end == None then Err(Failure.Missing("end time"))
      else if p.date(end.value.value) == None then Err(BadField("endTime"))
      else if EnergyField(input) == None then Err(Failure.Missing("energy"))
      else if direction.Some? && DirectionOf(direction.value.value) == None then Err(BadDirection)
      else Normalise(raw, now, p)
  }

  // ----- what the strict path promises -----

  /** The strict path never reads the clock: at every two moments a record gives
      the same session or the same failure. */
  lemma StrictIgnoresTheClock(raw: Value, now: int, later: int, p: Parsers)
    ensures Strict(raw, now, p) == Strict(raw, later, p)
  {
    hide ResolveZone, SessionField, ProviderField, EvseField, StartField, EndField, EnergyField, DirectionField;
    hide UnsupportedKind, Resolution, StringValue, EnergyOf, DirectionOf;
  }

  /** The lenient path reads it for exactly the records without a start time:
      those it accepts at two moments get those two moments. */
  lemma LenientReadsTheClock(raw: Value, now: int, later: int, p: Parsers)
    requires now != later && Normalise(raw, now, p).Ok? && Normalise(raw, later, p).Ok?
    ensures Normalise(raw, now, p) == Normalise(raw, later, p) <==> StartField(raw.fields).Some?
  {
    hide ResolveZone, SessionField, ProviderField, EvseField, StartField, EndField, EnergyField, DirectionField;
    hide UnsupportedKind, Resolution, StringValue, EnergyOf, DirectionOf;
  }

  /** What recovery later relies on. */
  predicate Complete(s: Session) {
    && s.sessionId != "" && s.providerId != "" && s.eMAID != "" && s.sourceField != "" && s.evseId != ""
    && s.startTime <= s.endTime && s.energy.units >= 0
    && s.cdrId != Some("") && s.reservationSessionId != Some("") && s.chargingSessionId != Some("")
    && s.timeZone != Some("") && s.timeZoneSource != Some("")
  }

  lemma StringValueIsText(v: Value)
    ensures StringValue(v) != Some("")
  {
    assert Trim("") == "";
  }

  lemma {:induction false} ZoneIsNamed(fields: seq<Named>, p: Parsers, found: Zone)
    requires SoundParsers(p) && (found.ZoneFrom? ==> found.name != "" && found.source != "")
    requires forall i :: 0 <= i < |fields| ==> fields[i].name != ""
    ensures var r := ResolveZone(fields, p, found);
            r.Ok? && r.value.ZoneFrom? ==> r.value.name != "" && r.value.source != ""
  {
    hide HasValue;
    if fields != [] {
      assert forall i :: 0 <= i < |fields| - 1 ==> fields[1..][i].name == fields[i + 1].name;
      if !HasValue(fields[0].value) {
        ZoneIsNamed(fields[1..], p, found);
      } else if p.zone(fields[0].value).Some? {
        ZoneIsNamed(fields[1..], p, if found.ZoneFrom? then found
                    else ZoneFrom(p.zone(fields[0].value).value, fields[0].name));
      }
    }
  }

  /** The owner of a resolved record and the field that names it are not empty. */
  lemma OwnerIsNamed(input: Input)
    requires Resolution(input).Ok?
    ensures Resolution(input).value.eMAID != "" && Resolution(input).value.sourceField != ""
  {
    hide EmaidSlots, Check, Resolution;
    ResolvesExactly(input);
    var r := Resolution(input).value;
    var s :| s in EmaidSlots(input) && s.source == r.sourceField && Check(s.value) == Usable(r.eMAID);
    UsableIsText(s.value);
    SlotsAreNamed(input);
  }

  lemma UsableIsText(v: Value)
    ensures Check(v) != Usable("")
  {}

  lemma SlotsAreNamed(input: Input)
    ensures forall s :: s in EmaidSlots(input) ==> s.source != ""
  {
    hide VariantSlots;
    VariantsAreNamed("Identification", Get(input, "Identification"), |VARIANTS|);
    VariantsAreNamed("identification", Get(input, "identification"), |VARIANTS|);
  }

  lemma {:induction false} VariantsAreNamed(name: string, v: Value, n: nat)
    requires n <= |VARIANTS|
    ensures forall s :: s in VariantSlots(name, v, n) ==> s.source != ""
  {
    if n > 0 {
      VariantsAreNamed(name, v, n - 1);
    }
  }

  /** Every session of the strict path is complete. */
  lemma StrictIsComplete(raw: Value, now: int, p: Parsers)
    requires SoundParsers(p) && Strict(raw, now, p).Ok?
    ensures Complete(Strict(raw, now, p).value)
  {
    hide ResolveZone, SessionField, ProviderField, EvseField, StartField, EndField, EnergyField, DirectionField;
    hide UnsupportedKind, Resolution, StringValue, EnergyOf, DirectionOf;
    var input := raw.fields;
    ZoneIsNamed(ZoneFields(input), p, NoZone);
    OwnerIsNamed(input);
    StringValueIsText(Get(input, "session_id"));
    StringValueIsText(Get(input, "id"));
    StringValueIsText(SessionField(input).value.value);
    StringValueIsText(ProviderField(input).value.value);
    StringValueIsText(EvseField(input).value.value);
  }
}

/** The recovery snapshot kept with an award claim: written, stored as JSON,
    parsed and validated against the durable operation. */
module RecoverySnapshot {
  import opened Basics
  import opened Numerals
  import opened Energy
  import opened Cdr
  import opened Normaliser
  import TokenMetadata

  /** ISO text of instants, their parser, and the fingerprint hash. */
  datatype Codec = Codec(iso: int -> string, instant: string -> Option<int>, hash: Intent -> string)

  /** The fields that enter an award's request fingerprint. */
  datatype Intent = Intent(providerId: string, sessionId: string, uid: string, wallet: string, evseId: string,
                           startTime: string, endTime: string, energy: Decimal, direction: Direction,
                           cdrId: Option<string>, reservationSessionId: Option<string>,
                           timeZone: Option<string>, timeZoneSource: Option<string>)

  function IntentOf(s: Session, wallet: string, c: Codec): Intent {
    Intent(s.providerId, s.sessionId, s.eMAID, Lower(wallet), s.evseId, c.iso(s.startTime), c.iso(s.endTime),
           s.energy, s.direction,
           s.cdrId, s.reservationSessionId, s.timeZone, s.timeZoneSource)
  }

  predicate IsFingerprint(s: string) { |s| == 64 && forall i :: 0 <= i < 64 ==> IsDigit(s[i]) || 'a' <= s[i] <= 'f' }

  /** Instants read back, and hashes have the fingerprint's form. */
  ghost predicate SoundCodec(c: Codec) {
    && (forall t: int :: c.instant(c.iso(t)) == Some(t))
    && (forall i: Intent :: IsFingerprint(c.hash(i)))
  }

  /** No other intent hashes to the same text as this one. */
  ghost predicate NoCollision(c: Codec, i: Intent) {
    forall j: Intent :: c.hash(j) == c.hash(i) ==> j == i
  }

  /** A stored JSON value where an object is expected. */
  datatype Stored<T> = Absent | NotAnObject | Object(value: T)

  /** The stored session: every field may hold anything. */
  datatype StoredSession = StoredSession(
    sessionId: Value, providerId: Value, eMAID: Value, emaid: Value, protocol: Value, sourceField: Value,
    metadata: Stored<TokenMetadata.Metadata>, uid: Value, evseId: Value, startTime: Value, endTime: Value,
    energyKWh: Value, direction: Value, cdrId: Value, reservationSessionId: Value, chargingSessionId: Value,
    timeZone: Value, timeZoneSource: Value)

  datatype StoredSnapshot = StoredSnapshot(version: Value, fingerprint: Value, session: Stored<StoredSession>,
                                           rawCDR: Stored<Input>)

  datatype Snapshot = Snapshot(fingerprint: string, session: StoredSession, rawCDR: Option<Input>)

  // ----- writing -----

  function TextOrMissing(s: Option<string>): Value { if s.Some? && s.value != "" then Text(s.value) else Value.Missing }

  function ProtocolText(p: Protocol): string {
    match p case OCPI => "OCPI" case OICP => "OICP" case MIXED => "MIXED" case UNKNOWN => "UNKNOWN"
  }

  function DirectionText(d: Direction): string { if d == CHARGE then "CHARGE" else "DISCHARGE" }

  /** `serialiseNormalisedSession`: absent optional fields are left out. */
  function Serialise(s: Session, c: Codec): Option<StoredSession> {
    if s.eMAID == "" || s.sourceField == "" || s.energy.units < 0 then None
    else
      Some(StoredSession(
        Text(s.sessionId), Text(s.providerId), Text(s.eMAID), Text(s.eMAID), Text(ProtocolText(s.protocol)),
        Text(s.sourceField),
        if s.metadata.Some? then Object(s.metadata.value) else Absent,
        Text(s.eMAID), Text(s.evseId), Text(c.iso(s.startTime)), Text(c.iso(s.endTime)),
        Num("", s.energy), Text(DirectionText(s.direction)), TextOrMissing(s.cdrId),
        TextOrMissing(s.reservationSessionId),
        TextOrMissing(s.chargingSessionId), TextOrMissing(s.timeZone), TextOrMissing(s.timeZoneSource)))
  }

  /** `createAwardRecoverySnapshot`. */
  function Create(s: Session, wallet: string, rawCDR: Option<Value>, c: Codec): Option<Snapshot> {
    var session := Serialise(s, c);
    if session == None || (rawCDR.Some? && !rawCDR.value.Record?) then None
    else
      Some(Snapshot(c.hash(IntentOf(s, wallet, c)), session.value,
                    if rawCDR.Some? then Some(rawCDR.value.fields) else None))
  }

  const ONE := Num("1", Decimal(1, 0))

  /** The JSON column. */
  function Store(s: Snapshot): StoredSnapshot {
    StoredSnapshot(ONE, Text(s.fingerprint), Object(s.session),
                   if s.rawCDR.Some? then Object(s.rawCDR.value) else Absent)
  }

  // ----- reading -----

  function ParseProtocol(v: Value): Option<Protocol> {
    if v == Text("OCPI") then Some(OCPI) else if v == Text("OICP") then Some(OICP)
    else if v == Text("MIXED") then Some(MIXED) else if v == Text("UNKNOWN") then Some(UNKNOWN) else None
  }

  predicate IsText(v: Value) { v.Text? && v.text != "" }

  function TextOption(v: Value): Option<string> { if IsText(v) then Some(v.text) else None }

  function InstantOf(v: Value, c: Codec): Option<int> { if v.Text? then c.instant(v.text) else None }

  /** `deserialiseNormalisedSession`. */
  function Deserialise(stored: Stored<StoredSession>, c: Codec): Option<Session> {
    if !stored.Object? then None
    else
      var v := stored.value;
      var start, end := InstantOf(v.startTime, c), InstantOf(v.endTime, c);
      if !(IsText(v.sessionId) && IsText(v.providerId) && IsText(v.eMAID) && IsText(v.emaid) && IsText(v.sourceField)
           && IsText(v.uid) && IsText(v.evseId))
      then None
      else if v.eMAID != v.emaid || v.eMAID != v.uid then None
      else if ParseProtocol(v.protocol) == None then None
      else if start == None || end == None || end.value < start.value then None
      else if !v.energyKWh.Num? || v.energyKWh.number.units < 0 then None
      else if Normaliser.DirectionOf(v.direction) == None then None
      else if v.metadata.NotAnObject? then None
      else
        Some(Session(
          v.sessionId.text, v.providerId.text, v.eMAID.text, ParseProtocol(v.protocol).value, v.sourceField.text,
          if v.metadata.Object? then Some(v.metadata.value) else None, v.evseId.text, start.value, end.value,
          v.energyKWh.number, Normaliser.DirectionOf(v.direction).value, TextOption(v.cdrId),
          TextOption(v.reservationSessionId),
          TextOption(v.chargingSessionId), TextOption(v.timeZone), TextOption(v.timeZoneSource)))
  }

  datatype Parsed = NoSnapshot | Invalid | Valid(snapshot: Snapshot)

  /** `parseAwardRecoverySnapshot`: the session is read and written again. */
  function Parse(stored: Stored<StoredSnapshot>, c: Codec): Parsed {
    match stored
    case Absent => NoSnapshot
    case NotAnObject => Invalid
    case Object(v) =>
      if !v.version.Num? || !SameNumber(v.version.number, Decimal(1, 0)) then Invalid
      else if !v.fingerprint.Text? || !IsFingerprint(v.fingerprint.text) then Invalid
      else
        var session := Deserialise(v.session, c);
        if session == None || v.rawCDR.NotAnObject? then Invalid
        else
          match Serialise(session.value, c)
          case None => Invalid
          case Some(again) =>
              Valid(Snapshot(v.fingerprint.text, again, if v.rawCDR.Object? then Some(v.rawCDR.value) else None))
  }

  // ----- validation -----

  /** The durable columns; `amountOk` says that the amount text is an exact
      two-decimal value. */
  datatype Operation = Operation(isAward: bool, uid: Option<string>, wallet: string, amountOk: bool,
                                 fingerprint: Option<string>, chargingSession: Option<string>)

  datatype Recovered = Recovered(session: Session, rawCDR: Option<Input>)

  /** `validateStoredRecoverySnapshot`. */
  function Validate(op: Operation, snapshot: Snapshot, requireRaw: bool, now: int, p: Parsers,
                    c: Codec): Option<Recovered> {
    var session := Deserialise(Object(snapshot.session), c);
    if requireRaw && snapshot.rawCDR == None then None
    else if !op.amountOk then None
    else if op.uid.Some? && Text(op.uid.value) != snapshot.session.uid then None
    else if session == None then None
    else
      var expected := c.hash(IntentOf(session.value, op.wallet, c));
      if snapshot.fingerprint != expected || op.fingerprint != Some(expected) then None
      else if snapshot.rawCDR == None then Some(Recovered(session.value, None))
      else
        match Strict(Record(snapshot.rawCDR.value), now, p)
        case Err(_) => None
        case Ok(raw) =>
          if c.hash(IntentOf(raw, op.wallet, c)) != expected || raw.eMAID != session.value.eMAID
             || raw.protocol != session.value.protocol || raw.sourceField != session.value.sourceField
          then None
          else Some(Recovered(session.value, snapshot.rawCDR))
  }

  /** `resolveRecoveryInput` for a record presented again. */
  function Resolve(op: Operation, stored: Stored<StoredSnapshot>, s: Session, raw: Input, requireRaw: bool, now: int,
                   p: Parsers, c: Codec): Option<Recovered> {
    match Parse(stored, c)
    case NoSnapshot => Some(Recovered(s, Some(raw)))
    case Invalid => None
    case Valid(snapshot) =>
      var charging := TextOption(snapshot.session.chargingSessionId);
      if charging.Some? && charging != s.chargingSessionId then None
      else
        match Validate(op, snapshot, requireRaw, now, p, c)
        case None => None
        case Some(found) => Some(Recovered(found.session, if found.rawCDR.Some? then found.rawCDR else Some(raw)))
  }

  /** `awardRecoveryIntentMismatch`, empty columns being `None`. */
  predicate Mismatch(op: Operation, s: Session, c: Codec) {
    || !op.isAward
    || (op.uid.Some? && op.uid.value != s.eMAID)
    || (op.chargingSession.Some? && op.chargingSession != s.chargingSessionId)
    || (op.fingerprint.Some? && op.wallet != "" && op.fingerprint.value != c.hash(IntentOf(s, op.wallet, c)))
  }

  // ----- the round trip -----

  /** A complete session comes back from storage as it went in. */
  lemma SessionSurvives(s: Session, c: Codec)
    requires SoundCodec(c) && Complete(s)
    ensures Serialise(s, c).Some? && Deserialise(Object(Serialise(s, c).value), c) == Some(s)
  {
    ProtocolReadsBack(s.protocol);
  }

  lemma ProtocolReadsBack(p: Protocol)
    ensures ParseProtocol(Text(ProtocolText(p))) == Some(p)
  {
    assert "OCPI"[1] != "OICP"[1] && |"OCPI"| != |"MIXED"| && |"OICP"| != |"UNKNOWN"|;
    assert |"OICP"| != |"MIXED"| && |"MIXED"| != |"UNKNOWN"| && |"OCPI"| != |"UNKNOWN"|;
  }

  /** The operation as the claim saves it. */
  function Claimed(s: Session, wallet: string, c: Codec): Operation {
    Operation(true, Some(s.eMAID), wallet, true, Some(c.hash(IntentOf(s, wallet, c))), s.chargingSessionId)
  }

  /** Every session the strict path returns survives snapshot creation, storage
      and parsing unchanged, the record with it, and validation accepts the
      snapshot for the operation that stored it, at any later moment. */
  lemma SnapshotSurvives(raw: Value, now: int, later: int, wallet: string, p: Parsers, c: Codec)
    requires SoundCodec(c) && SoundParsers(p) && Strict(raw, now, p).Ok?
    ensures var s := Strict(raw, now, p).value;
            && Create(s, wallet, Some(raw), c).Some?
            && Parse(Object(Store(Create(s, wallet, Some(raw), c).value)), c)
               == Valid(Create(s, wallet, Some(raw), c).value)
            && Validate(Claimed(s, wallet, c), Create(s, wallet, Some(raw), c).value, true, later, p, c)
                 == Some(Recovered(s, Some(raw.fields)))
  {
    hide Strict, Complete, Serialise, Deserialise;
    var s := Strict(raw, now, p).value;
    StrictIsComplete(raw, now, p);
    StrictIgnoresTheClock(raw, now, later, p);
    StrictNeedsRecord(raw, now, p);
    SessionSurvives(s, c);
    OwnerIsStored(s, c);
  }

  lemma StrictNeedsRecord(raw: Value, now: int, p: Parsers)
    ensures Strict(raw, now, p).Ok? ==> raw.Record? && raw == Record(raw.fields)
  {}

  lemma OwnerIsStored(s: Session, c: Codec)
    requires Serialise(s, c).Some?
    ensures Serialise(s, c).value.uid == Text(s.eMAID)
    ensures Serialise(s, c).value.chargingSessionId == TextOrMissing(s.chargingSessionId)
  {}

  /** So the same record presented again is recovered as it was claimed, and no
      column disagrees with it. */
  lemma SameRecordRecovers(raw: Value, now: int, later: int, wallet: string, p: Parsers, c: Codec)
    requires SoundCodec(c) && SoundParsers(p) && Strict(raw, now, p).Ok?
    ensures var s := Strict(raw, now, p).value;
            && Create(s, wallet, Some(raw), c).Some?
            && Resolve(Claimed(s, wallet, c), Object(Store(Create(s, wallet, Some(raw), c).value)), s, raw.fields,
                       false, later, p, c)
                 == Some(Recovered(s, Some(raw.fields)))
            && !Mismatch(Claimed(s, wallet, c), s, c)
  {
    hide Strict, Complete, Serialise, Deserialise, Parse;
    var s := Strict(raw, now, p).value;
    SnapshotSurvives(raw, now, later, wallet, p, c);
    StrictNeedsRecord(raw, now, p);
    OwnerIsStored(s, c);
    StrictIsComplete(raw, now, p);
    ChargingIsNamed(s);
  }

  lemma ChargingIsNamed(s: Session)
    requires Complete(s)
    ensures IsText(TextOrMissing(s.chargingSessionId)) ==>
              s.chargingSessionId == Some(TextOrMissing(s.chargingSessionId).text)
  {}

  /** Two sessions of one financial intent: one record, owner and place, the same
      times, energy and direction, the same optional ids and zone. */
  predicate SameFinancially(s: Session, t: Session) {
    && s.providerId == t.providerId && s.sessionId == t.sessionId && s.eMAID == t.eMAID && s.evseId == t.evseId
    && s.startTime == t.startTime && s.endTime == t.endTime && s.energy == t.energy && s.direction == t.direction
    && s.cdrId == t.cdrId && s.reservationSessionId == t.reservationSessionId
    && s.timeZone == t.timeZone && s.timeZoneSource == t.timeZoneSource
  }

  lemma IntentIsFinancial(s: Session, t: Session, wallet: string, c: Codec)
    requires SoundCodec(c)
    ensures IntentOf(s, wallet, c) == IntentOf(t, wallet, c) <==> SameFinancially(s, t)
  {
    assert c.instant(c.iso(s.startTime)) == Some(s.startTime) && c.instant(c.iso(t.startTime)) == Some(t.startTime);
    assert c.instant(c.iso(s.endTime)) == Some(s.endTime) && c.instant(c.iso(t.endTime)) == Some(t.endTime);
  }

  /** Another record presented for a claimed operation is refused exactly when it
      differs in a field of the financial intent, or is bound to another charging
      session than the one that was claimed. */
  lemma PresentedAgainExactly(s: Session, t: Session, wallet: string, c: Codec)
    requires SoundCodec(c) && NoCollision(c, IntentOf(s, wallet, c)) && wallet != ""
    ensures !Mismatch(Claimed(s, wallet, c), t, c)
            <==> && SameFinancially(s, t)
                 && (s.chargingSessionId.Some? ==> t.chargingSessionId == s.chargingSessionId)
  {
    IntentIsFinancial(s, t, wallet, c);
  }

  /** Nothing else is accepted: whatever a stored snapshot says, a validated
      session has the financial intent that was claimed, and its record, if one
      is stored, says the same. */
  lemma AcceptedIsOriginal(s: Session, wallet: string, snapshot: Snapshot, requireRaw: bool, now: int, p: Parsers,
                           c: Codec)
    requires SoundCodec(c) && NoCollision(c, IntentOf(s, wallet, c))
    requires Validate(Claimed(s, wallet, c), snapshot, requireRaw, now, p, c).Some?
    ensures var found := Validate(Claimed(s, wallet, c), snapshot, requireRaw, now, p, c).value;
            && SameFinancially(found.session, s) && found.rawCDR == snapshot.rawCDR
            && (requireRaw ==> found.rawCDR.Some?)
            && (found.rawCDR.Some? ==>
                  && Strict(Record(found.rawCDR.value), now, p).Ok?
                  && var raw := Strict(Record(found.rawCDR.value), now, p).value;
                     && SameFinancially(raw, s) && raw.protocol == found.session.protocol
                     && raw.sourceField == found.session.sourceField)
  {
    hide Strict, Deserialise, IntentOf, SameFinancially;
    var found := Validate(Claimed(s, wallet, c), snapshot, requireRaw, now, p, c).value;
    IntentIsFinancial(found.session, s, wallet, c);
    if found.rawCDR.Some? {
      IntentIsFinancial(Strict(Record(found.rawCDR.value), now, p).value, s, wallet, c);
    }
  }

  // ----- what any accepted snapshot says -----

  /** A stored session that is read at all is complete. */
  lemma ReadIsComplete(stored: Stored<StoredSession>, c: Codec)
    requires Deserialise(stored, c).Some?
    ensures Complete(Deserialise(stored, c).value)
  {}

  /** Parsing accepts version one with a well-formed fingerprint and a session that
      can be read, and changes nothing of what the session says. */
  lemma ParsedExactly(v: StoredSnapshot, c: Codec)
    requires SoundCodec(c)
    ensures Parse(Object(v), c).Valid?
            <==> && v.version.Num? && v.version.number.units == Pow10(v.version.number.scale)
                 && v.fingerprint.Text? && IsFingerprint(v.fingerprint.text)
                 && Deserialise(v.session, c).Some? && !v.rawCDR.NotAnObject?
    ensures Parse(Object(v), c).Valid? ==>
              var snapshot := Parse(Object(v), c).snapshot;
              && snapshot.fingerprint == v.fingerprint.text
              && Deserialise(Object(snapshot.session), c) == Deserialise(v.session, c)
              && snapshot.rawCDR == (if v.rawCDR.Object? then Some(v.rawCDR.value) else None)
  {
    if Deserialise(v.session, c).Some? {
      ReadIsComplete(v.session, c);
      SessionSurvives(Deserialise(v.session, c).value, c);
    }
    hide Deserialise, Serialise;
    assert Pow10(0) == 1;
  }

  /** Whatever operation it is validated for: an accepted session belongs to the
      operation's owner, has the fingerprint that operation and snapshot store, and
      the record stored with it, if there is one, gives that fingerprint, owner,
      protocol and source field again. */
  lemma AcceptedBelongs(op: Operation, snapshot: Snapshot, requireRaw: bool, now: int, p: Parsers, c: Codec)
    requires Validate(op, snapshot, requireRaw, now, p, c).Some?
    ensures var found := Validate(op, snapshot, requireRaw, now, p, c).value;
            && op.amountOk && (op.uid.Some? ==> op.uid.value == found.session.eMAID)
            && op.fingerprint == Some(snapshot.fingerprint)
            && snapshot.fingerprint == c.hash(IntentOf(found.session, op.wallet, c))
            && Some(found.session) == Deserialise(Object(snapshot.session), c)
            && found.rawCDR == snapshot.rawCDR && (requireRaw ==> found.rawCDR.Some?)
            && (found.rawCDR.Some? ==>
                  && Strict(Record(found.rawCDR.value), now, p).Ok?
                  && var raw := Strict(Record(found.rawCDR.value), now, p).value;
                     && c.hash(IntentOf(raw, op.wallet, c)) == snapshot.fingerprint
                     && raw.eMAID == found.session.eMAID && raw.protocol == found.session.protocol
                     && raw.sourceField == found.session.sourceField)
  {
    hide Strict, IntentOf;
  }

  /** A record presented for a stored snapshot is recovered as the stored session
      and never as itself, and only if it is bound to the charging session that is
      stored, if one is; without a snapshot it is recovered as it is presented. */
  lemma ResolvedIsStored(op: Operation, stored: Stored<StoredSnapshot>, s: Session, raw: Input, requireRaw: bool,
                         now: int, p: Parsers, c: Codec)
    requires SoundCodec(c) && Resolve(op, stored, s, raw, requireRaw, now, p, c).Some?
    ensures var found := Resolve(op, stored, s, raw, requireRaw, now, p, c).value;
            if stored.Object? then
              && Some(found.session) == Deserialise(stored.value.session, c)
              && (found.session.chargingSessionId.Some? ==> found.session.chargingSessionId == s.chargingSessionId)
              && found.rawCDR == (if stored.value.rawCDR.Object? then Some(stored.value.rawCDR.value) else Some(raw))
            else stored.Absent? && found == Recovered(s, Some(raw))
  {
    if stored.Object? {
      ParsedExactly(stored.value, c);
      StoredCharging(Parse(stored, c).snapshot, c);
      AcceptedBelongs(op, Parse(stored, c).snapshot, requireRaw, now, p, c);
    }
    hide Parse, Deserialise, Validate, Strict;
  }

  lemma StoredCharging(snapshot: Snapshot, c: Codec)
    ensures Deserialise(Object(snapshot.session), c).Some? ==>
              Deserialise(Object(snapshot.session), c).value.chargingSessionId
                == TextOption(snapshot.session.chargingSessionId)
  {}
}

/** The durable tables behind an award operation, and every single-statement
    or single-transaction update made to them, as functions. */
module OperationTables {
  import opened Basics
  import opened OperationKeys

  /** A transaction hash. Signing at distinct nonces yields distinct hashes, so
      a fresh number stands for the hash of each newly signed transfer. */
  type Hash = nat

  /** The canonical charging record. `details` stands for the remaining fields
      that enter the intent fingerprint (EVSE, times, energy, zone). */
  datatype Session = Session(provider: string, session: string, uid: string,
                             chargingSession: Option<string>, details: string)

  /** The operation key: the SHA-256 text of `OperationTuple(provider, session)`.
      Both maps are injective (`OperationKeys.TupleInjective`), so the pair
      itself serves as the key. */
  datatype Key = Key(provider: string, session: string)

  function KeyOf(s: Session): Key { Key(s.provider, s.session) }

  function LegacyKeyOf(s: Session): string { LegacyKey(s.provider, s.session) }

  /** The SHA-256 text of an award intent, taken as injective: the tuple of the
      fields that are hashed. The amount is a parameter of the source function
      but not one of the hashed fields. */
  datatype Fingerprint = Fingerprint(provider: string, session: string, uid: string, wallet: string, details: string)

  function FingerprintOf(s: Session, amount: nat, wallet: string): Fingerprint {
    Fingerprint(s.provider, s.session, s.uid, wallet, s.details)
  }

  datatype Status = Submitting | Submitted | Unknown | Confirmed | Projected | Failed
  datatype Outcome = UnknownOutcome | ConfirmedOutcome | NoMovement | Review

  /** One row of `token_operations`; amounts are whole hundredths of a token. */
  datatype Row = Row(session: Session, wallet: string, amount: nat, status: Status,
                     hash: Option<Hash>, outcome: Outcome, preflight: bool)

  datatype LeaseStatus = Prepared | LeaseSubmitted | LeaseUnknown

  /** One row of `treasury_transaction_leases`: the transfer that was signed. */
  datatype Lease = Lease(hash: Hash, amount: nat, wallet: string, status: LeaseStatus)

  /** One row of `awards`, the ledger. */
  datatype Award = Award(provider: string, session: string, dedup: string, amount: nat,
                         hash: Hash, uid: string, wallet: string)

  /** A row of `users`: one identifier with one wallet. */
  datatype Owner = Owner(uid: string, wallet: string)

  /** `awarded` is the `total_awarded` column of each owner's balance row. */
  datatype Tables = Tables(rows: map<Key, Row>, leases: map<Key, Lease>,
                           awards: seq<Award>, awarded: map<Owner, nat>, nextHash: Hash)

  predicate Open(s: Status) { s == Submitting || s == Submitted || s == Unknown }

  // ----- claim -----

  datatype ClaimResult = Acquired(row: Row) | Existing(row: Row) | Refused

  predicate SameIntent(r: Row, s: Session, amount: nat, wallet: string) {
    && (r.session.chargingSession.Some? ==> r.session.chargingSession == s.chargingSession)
    && FingerprintOf(r.session, r.amount, r.wallet) == FingerprintOf(s, amount, wallet)
  }

  predicate Bound(s: Session) {
    s.provider != "" && s.chargingSession.Some? && s.chargingSession.value != ""
  }

  predicate SamePhysicalSession(a: Session, b: Session) {
    Bound(a) && a.provider == b.provider && a.chargingSession == b.chargingSession
  }

  predicate Collides(rows: map<Key, Row>, s: Session) {
    exists k :: k in rows && k != KeyOf(s)
                && (SamePhysicalSession(s, rows[k].session) || LegacyKeyOf(rows[k].session) == LegacyKeyOf(s))
  }

  predicate Reclaimable(r: Row) { r.status == Failed && r.hash == None && r.preflight }

  function NewRow(s: Session, amount: nat, wallet: string): Row {
    Row(s, wallet, amount, Submitting, None, UnknownOutcome, false)
  }

  function Reclaimed(r: Row): Row {
    r.(status := Submitting, outcome := UnknownOutcome, preflight := false)
  }

  function ClaimOutcome(t: Tables, s: Session, amount: nat, wallet: string): ClaimResult {
    var k := KeyOf(s);
    if k in t.rows then
      var r := t.rows[k];
      if !SameIntent(r, s, amount, wallet) then Refused
      else if Reclaimable(r) then Acquired(Reclaimed(r))
      else Existing(r)
    else if Collides(t.rows, s) then Refused
    else Acquired(NewRow(s, amount, wallet))
  }

  function Claimed(t: Tables, s: Session, amount: nat, wallet: string): Tables {
    match ClaimOutcome(t, s, amount, wallet)
    case Acquired(r) => WithRow(t, KeyOf(s), r)
    case _ => t
  }

  // ----- row updates -----

  function WithRow(t: Tables, k: Key, r: Row): Tables { t.(rows := t.rows[k := r]) }

  function SavedHash(t: Tables, k: Key, h: Hash): Option<Tables> {
    if k !in t.rows then None
    else
      var r := t.rows[k];
      if r.hash == None && Open(r.status) then Some(WithRow(t, k, r.(hash := Some(h), status := Submitted)))
      else if r.hash.Some? && r.hash.value != h then None
      else if r.hash.Some? && Open(r.status) then Some(WithRow(t, k, r.(status := Submitted)))
      else Some(t)
  }

  function UnknownRow(t: Tables, k: Key): Tables {
    if k in t.rows && Open(t.rows[k].status) then WithRow(t, k, t.rows[k].(status := Unknown)) else t
  }

  function ConfirmedRow(t: Tables, k: Key): Tables {
    if k in t.rows && t.rows[k].hash.Some? && (Open(t.rows[k].status) || t.rows[k].status == Confirmed)
    then WithRow(t, k, t.rows[k].(status := Confirmed, outcome := ConfirmedOutcome)) else t
  }

  function ProjectionErrorRow(t: Tables, k: Key): Tables {
    if k in t.rows && t.rows[k].hash.Some? && (Open(t.rows[k].status) || t.rows[k].status == Confirmed)
    then WithRow(t, k, t.rows[k].(status := Confirmed)) else t
  }

  function ProjectedRow(t: Tables, k: Key): Tables {
    if k !in t.rows || t.rows[k].status == Failed || (t.rows[k].hash == None && t.rows[k].amount != 0) then t
    else WithRow(t, k, t.rows[k].(status := Projected,
                                  outcome := if t.rows[k].amount == 0 then NoMovement else ConfirmedOutcome))
  }

  function FailedRow(t: Tables, k: Key, outcome: Outcome): Tables {
    if k in t.rows && t.rows[k].hash.Some? && Open(t.rows[k].status)
    then WithRow(t, k, t.rows[k].(status := Failed, outcome := outcome)) else t
  }

  function PreflightFailedRow(t: Tables, k: Key): Tables {
    if k in t.rows && t.rows[k].hash == None
    then WithRow(t, k, t.rows[k].(status := Failed, outcome := NoMovement, preflight := true)) else t
  }

  // ----- signed-transaction leases -----

  datatype PrepareResult = Fresh(hash: Hash) | Already(lease: Lease) | Unprepared

  function PrepareOutcome(t: Tables, k: Key, amount: nat, wallet: string): PrepareResult {
    if k in t.leases then
      if t.leases[k].amount == amount && t.leases[k].wallet == wallet then Already(t.leases[k]) else Unprepared
    else if k !in t.rows || !Open(t.rows[k].status) || t.rows[k].hash.Some? then Unprepared
    else Fresh(t.nextHash)
  }

  /** One transaction inserts the lease and saves the hash on the row. The row
      goes to `submitting`, not to `submitted`. */
  function PreparedTables(t: Tables, k: Key, amount: nat, wallet: string): Tables {
    if PrepareOutcome(t, k, amount, wallet).Fresh? then
      t.(rows := t.rows[k := t.rows[k].(hash := Some(t.nextHash), status := Submitting)],
         leases := t.leases[k := Lease(t.nextHash, amount, wallet, Prepared)],
         nextHash := t.nextHash + 1)
    else t
  }

  function LeaseSubmittedTables(t: Tables, k: Key, h: Hash): Tables {
    if k !in t.leases || t.leases[k].hash != h then t
    else
      var u := t.(leases := t.leases[k := t.leases[k].(status := LeaseSubmitted)]);
      if k in u.rows && Open(u.rows[k].status) then WithRow(u, k, u.rows[k].(status := Submitted)) else u
  }

  function LeaseUnknownTables(t: Tables, k: Key): Tables {
    if k !in t.leases then t
    else UnknownRow(t.(leases := t.leases[k := t.leases[k].(status := LeaseUnknown)]), k)
  }

  // ----- ledger -----

  function WithHash(awards: seq<Award>, h: Hash): seq<Award> {
    if awards == [] then []
    else (if awards[0].hash == h then [awards[0]] else []) + WithHash(awards[1..], h)
  }

  function WithDedup(awards: seq<Award>, dedup: string): seq<Award> {
    if awards == [] then []
    else (if awards[0].dedup == dedup then [awards[0]] else []) + WithDedup(awards[1..], dedup)
  }

  function AwardFor(s: Session, amount: nat, h: Hash, wallet: string): Award {
    Award(s.provider, s.session, LegacyKeyOf(s), amount, h, s.uid, wallet)
  }

  function OwnerOf(a: Award): Owner { Owner(a.uid, a.wallet) }

  function TotalAwarded(awarded: map<Owner, nat>, o: Owner): nat { if o in awarded then awarded[o] else 0 }

  /** One transaction inserts the ledger row and adds it to the owner's total. */
  function WithAward(t: Tables, a: Award): Tables {
    t.(awards := t.awards + [a], awarded := t.awarded[OwnerOf(a) := TotalAwarded(t.awarded, OwnerOf(a)) + a.amount])
  }

  /** The ledger after `recordAward`, or `None` when it throws. A row with the
      same hash, and otherwise one with the same deduplication key, must agree
      and is then returned in place of a second insert. */
  function Recorded(t: Tables, a: Award): Option<Tables> {
    var sameHash := WithHash(t.awards, a.hash);
    if |sameHash| > 1 then None
    else if |sameHash| == 1 then (if sameHash[0] == a then Some(t) else None)
    else
      var sameDedup := WithDedup(t.awards, a.dedup);
      if sameDedup != [] then (if sameDedup[0].(hash := a.hash) == a then Some(t) else None)
      else Some(WithAward(t, a))
  }
}

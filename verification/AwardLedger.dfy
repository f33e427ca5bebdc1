/** The ledger against the chain. Two branches of the code let them part, so the
    results for a key hold for the runs whose calls for that key avoid those
    branches, and `AwardReplay` shows that each branch does part them. */
module AwardLedger {
  import opened Basics
  import opened OperationTables
  import opened AwardProtocol
  import opened AwardSafety

  /** A saved row whose transfer was signed and never reported as submitted:
      projection takes it for confirmed and asks the chain nothing. */
  predicate Unproven(r: Row) { r.status == Submitting && r.hash.Some? }

  /** Which calls are watched: those of one operation key. They must not take a
      failed claim over with another amount than the row holds and, where the
      evidence matters too, not project an unproven row without fresh evidence. */
  datatype Watch = Watch(key: Key, evidence: bool)

  predicate CarefulCall(w: Watch, db: Tables, p: Process, ch: Choice) {
    match p
    case Claiming(i) =>
      KeyOf(i.session) == w.key && ch == Ok ==>
        (match ClaimOutcome(db, i.session, i.amount, i.wallet)
         case Acquired(r) => r.amount == i.amount
         case Existing(r) => w.evidence ==> !Unproven(r)
         case Refused => true)
    case Recovering(k, demandFresh) =>
      k == w.key && w.evidence && ch == Ok && k in db.rows && !demandFresh ==> !Unproven(db.rows[k])
    case _ => true
  }

  predicate CarefulStep(w: Watch, s: State, e: Event) {
    e.Act? && e.pid in s.procs ==> CarefulCall(w, s.db, s.procs[e.pid], e.choice)
  }

  predicate CarefulRun(w: Watch, s: State, events: seq<Event>)
    decreases |events|
  {
    events == [] ||
    (CarefulRun(w, s, events[..|events| - 1])
     && CarefulStep(w, Run(s, events[..|events| - 1]), events[|events| - 1]))
  }

  /** Careful about the amounts and the evidence of every key. */
  ghost predicate CarefulForAll(s: State, events: seq<Event>) {
    forall k: Key :: CarefulRun(Watch(k, true), s, events)
  }

  // ----- the invariant of careful runs -----

  predicate Moved(mined: map<Hash, Receipt>, h: Hash) { h in mined && mined[h].ok }

  /** The watched transfer is known to have moved, if that is watched. */
  predicate Shown(w: Watch, mined: map<Hash, Receipt>, h: Hash) { w.evidence ==> Moved(mined, h) }

  /** A signed transfer carries the claimed amount. */
  ghost predicate AmountsOk(w: Watch, t: Tables) {
    w.key in t.leases ==>
      w.key in t.rows && t.leases[w.key].amount == t.rows[w.key].amount && t.leases[w.key].amount > 0
  }

  predicate Settled(r: Row) { r.status == Confirmed || r.status == Projected }

  ghost predicate ProvenOk(w: Watch, t: Tables, mined: map<Hash, Receipt>) {
    w.key in t.rows && t.rows[w.key].hash.Some? && Settled(t.rows[w.key]) ==>
      Shown(w, mined, t.rows[w.key].hash.value)
  }

  /** The key's ledger rows are of the claimed amount and, if watched, backed. */
  ghost predicate BackedOk(w: Watch, t: Tables, mined: map<Hash, Receipt>) {
    forall i :: 0 <= i < |t.awards| && AwardKey(t.awards[i]) == w.key ==>
      && Shown(w, mined, t.awards[i].hash)
      && w.key in t.rows && t.awards[i].amount == t.rows[w.key].amount
  }

  ghost predicate ClaimedAmount(w: Watch, t: Tables, k: Key, amount: nat) {
    k == w.key ==> k in t.rows && t.rows[k].amount == amount
  }

  ghost predicate SnapProven(w: Watch, t: Tables, mined: map<Hash, Receipt>, snap: Row) {
    && snap.hash.Some? && ClaimedAmount(w, t, KeyOf(snap.session), snap.amount)
    && (KeyOf(snap.session) == w.key ==> Shown(w, mined, snap.hash.value))
  }

  ghost predicate CareOk(w: Watch, t: Tables, mined: map<Hash, Receipt>, p: Process) {
    match p
    case Holding(i) => ClaimedAmount(w, t, KeyOf(i.session), i.amount)
    case ProjectingZero(k) => ClaimedAmount(w, t, k, 0)
    case Verifying(snap) => ClaimedAmount(w, t, KeyOf(snap.session), snap.amount)
    case RecoverVerifying(snap) => ClaimedAmount(w, t, KeyOf(snap.session), snap.amount)
    case Confirming(snap) => SnapProven(w, t, mined, snap)
    case Recording(snap) => SnapProven(w, t, mined, snap)
    case NotingProjectionError(snap) => SnapProven(w, t, mined, snap)
    case Projecting(snap) => SnapProven(w, t, mined, snap)
    case Finished(k, Success(amount, _)) => ClaimedAmount(w, t, k, amount)
    case _ => true
  }

  ghost predicate LedgerOk(w: Watch, t: Tables, mined: map<Hash, Receipt>) {
    AmountsOk(w, t) && ProvenOk(w, t, mined) && BackedOk(w, t, mined)
  }

  ghost predicate CareInv(w: Watch, s: State) {
    && Inv(s) && LedgerOk(w, s.db, s.mined)
    && (forall p :: p in s.procs ==> CareOk(w, s.db, s.mined, s.procs[p]))
  }

  lemma CareStable(w: Watch, t: Tables, m: map<Hash, Receipt>, u: Tables, n: map<Hash, Receipt>, p: Process)
    requires CareOk(w, t, m, p) && TablesExtend(t, u) && MinedExtend(m, n)
    ensures CareOk(w, u, n, p)
  {}

  // ----- one awaited call -----

  /** A status write keeps the ledger invariant if a row that becomes confirmed
      or projected has moved. */
  lemma RestatusLedger(w: Watch, t: Tables, mined: map<Hash, Receipt>, k: Key, u: Tables)
    requires LedgerOk(w, t, mined) && Restatus(t, mined, k, u)
    requires k == w.key && k in u.rows && u.rows[k].hash.Some? && Settled(u.rows[k]) ==>
               Shown(w, mined, u.rows[k].hash.value)
    ensures LedgerOk(w, u, mined)
  {
    hide RowOk;
    assert AmountsOk(w, u) by { hide ProvenOk, BackedOk; }
    assert ProvenOk(w, u, mined) by { hide AmountsOk, BackedOk; }
    assert BackedOk(w, u, mined) by { hide ProvenOk, AmountsOk; }
  }

  lemma QuietRows(t: Tables, k: Key)
    ensures k in UnknownRow(t, k).rows && Settled(UnknownRow(t, k).rows[k]) ==>
              k in t.rows && UnknownRow(t, k).rows[k] == t.rows[k]
    ensures k in PreflightFailedRow(t, k).rows && Settled(PreflightFailedRow(t, k).rows[k]) ==>
              k in t.rows && PreflightFailedRow(t, k).rows[k] == t.rows[k]
  {}

  /** Updates that never make a row confirmed or projected. */
  lemma QuietWrites(w: Watch, t: Tables, mined: map<Hash, Receipt>, k: Key)
    requires TablesOk(t) && LedgerOk(w, t, mined)
    ensures LedgerOk(w, UnknownRow(t, k), mined) && LedgerOk(w, PreflightFailedRow(t, k), mined)
  {
    hide TablesOk, AmountsOk, BackedOk, Restatus, UnknownRow, PreflightFailedRow;
    StatusWrites(t, mined, k);
    QuietRows(t, k);
    RestatusLedger(w, t, mined, k, UnknownRow(t, k));
    RestatusLedger(w, t, mined, k, PreflightFailedRow(t, k));
  }

  /** Updates that do, for a row whose transfer moved. */
  lemma ProvenWrites(w: Watch, t: Tables, mined: map<Hash, Receipt>, k: Key)
    requires TablesOk(t) && LedgerOk(w, t, mined)
    requires k == w.key && k in t.rows && t.rows[k].hash.Some? ==> Shown(w, mined, t.rows[k].hash.value)
    ensures LedgerOk(w, ConfirmedRow(t, k), mined) && LedgerOk(w, ProjectionErrorRow(t, k), mined)
    ensures LedgerOk(w, ProjectedRow(t, k), mined)
  {
    StatusWrites(t, mined, k);
    hide TablesOk, AmountsOk, ProvenOk, BackedOk;
    RestatusLedger(w, t, mined, k, ConfirmedRow(t, k));
    RestatusLedger(w, t, mined, k, ProjectionErrorRow(t, k));
    RestatusLedger(w, t, mined, k, ProjectedRow(t, k));
  }

  lemma LeaseStatusLedger(w: Watch, t: Tables, mined: map<Hash, Receipt>, k: Key, status: LeaseStatus)
    requires LedgerOk(w, t, mined) && k in t.leases
    ensures LedgerOk(w, t.(leases := t.leases[k := t.leases[k].(status := status)]), mined)
  {
    var u := t.(leases := t.leases[k := t.leases[k].(status := status)]);
    assert AmountsOk(w, u) by { hide ProvenOk, BackedOk; }
    assert ProvenOk(w, u, mined) && BackedOk(w, u, mined) by { hide AmountsOk; }
  }

  lemma LeaseWritesLedger(w: Watch, t: Tables, mined: map<Hash, Receipt>, k: Key, h: Hash)
    requires TablesOk(t) && FailuresOk(t, mined) && LedgerOk(w, t, mined) && k in t.leases && t.leases[k].hash == h
    ensures LedgerOk(w, LeaseSubmittedTables(t, k, h), mined) && LedgerOk(w, LeaseUnknownTables(t, k), mined)
  {
    hide RowsOk, LeasesOk, HashesApart, ClaimsApart, AwardsOk, FailuresOk, AmountsOk, ProvenOk, BackedOk;
    var u := t.(leases := t.leases[k := t.leases[k].(status := LeaseSubmitted)]);
    LeaseStatusKeeps(t, mined, k, LeaseSubmitted);
    LeaseStatusLedger(w, t, mined, k, LeaseSubmitted);
    LeasedRow(t, k);
    SavedLedger(w, u, mined, k, h);
    var v := t.(leases := t.leases[k := t.leases[k].(status := LeaseUnknown)]);
    LeaseStatusKeeps(t, mined, k, LeaseUnknown);
    LeaseStatusLedger(w, t, mined, k, LeaseUnknown);
    QuietWrites(w, v, mined, k);
  }

  lemma SavedLedger(w: Watch, t: Tables, mined: map<Hash, Receipt>, k: Key, h: Hash)
    requires TablesOk(t) && LedgerOk(w, t, mined) && k in t.leases && t.leases[k].hash == h
    ensures SavedHash(t, k, h).Some? && LedgerOk(w, SavedHash(t, k, h).value, mined)
  {
    SavedWrite(t, mined, k, h);
    var u := SavedHash(t, k, h).value;
    hide TablesOk, AmountsOk, BackedOk;
    RestatusLedger(w, t, mined, k, u);
  }

  lemma NewClaimLedger(w: Watch, t: Tables, mined: map<Hash, Receipt>, s: Session, amount: nat, wallet: string)
    requires TablesOk(t) && LedgerOk(w, t, mined) && KeyOf(s) !in t.rows
    ensures LedgerOk(w, WithRow(t, KeyOf(s), NewRow(s, amount, wallet)), mined)
  {
    hide HashesApart, ClaimsApart, AwardsOk;
    var u := WithRow(t, KeyOf(s), NewRow(s, amount, wallet));
    assert AmountsOk(w, u) by { hide ProvenOk, BackedOk; }
    assert ProvenOk(w, u, mined) by { hide AmountsOk, BackedOk; }
    assert BackedOk(w, u, mined) by { hide ProvenOk, AmountsOk; }
  }

  lemma ClaimLedger(w: Watch, t: Tables, mined: map<Hash, Receipt>, s: Session, amount: nat, wallet: string)
    requires TablesOk(t) && LedgerOk(w, t, mined)
    ensures LedgerOk(w, Claimed(t, s, amount, wallet), mined)
  {
    hide TablesOk, Collides, AmountsOk, BackedOk, Restatus;
    if ClaimOutcome(t, s, amount, wallet).Acquired? {
      if KeyOf(s) in t.rows {
        ReclaimWrite(t, mined, KeyOf(s)) by { TablesHaveRows(t); }
        RestatusLedger(w, t, mined, KeyOf(s), WithRow(t, KeyOf(s), Reclaimed(t.rows[KeyOf(s)])));
      } else {
        NewClaimLedger(w, t, mined, s, amount, wallet);
      }
    }
  }

  lemma TablesHaveRows(t: Tables)
    requires TablesOk(t)
    ensures RowsOk(t)
  {}

  lemma PrepareLedger(w: Watch, t: Tables, mined: map<Hash, Receipt>, i: Intent)
    requires LedgerOk(w, t, mined) && ClaimedAmount(w, t, KeyOf(i.session), i.amount) && i.amount > 0
    requires PrepareOutcome(t, KeyOf(i.session), i.amount, i.wallet).Fresh?
    ensures LedgerOk(w, PreparedTables(t, KeyOf(i.session), i.amount, i.wallet), mined)
  {
    var u := PreparedTables(t, KeyOf(i.session), i.amount, i.wallet);
    assert AmountsOk(w, u) by { hide ProvenOk, BackedOk; }
    assert ProvenOk(w, u, mined) by { hide AmountsOk, BackedOk; }
    assert BackedOk(w, u, mined) by { hide ProvenOk, AmountsOk; }
  }

  lemma RecordLedger(w: Watch, t: Tables, mined: map<Hash, Receipt>, snap: Row)
    requires LedgerOk(w, t, mined) && SnapProven(w, t, mined, snap)
    ensures var a := AwardFor(snap.session, snap.amount, snap.hash.value, snap.wallet);
            Recorded(t, a).Some? ==> LedgerOk(w, Recorded(t, a).value, mined)
  {
    var a := AwardFor(snap.session, snap.amount, snap.hash.value, snap.wallet);
    hide WithHash, WithDedup;
    if Recorded(t, a).Some? && Recorded(t, a).value != t {
      var u := Recorded(t, a).value;
      assert u == WithAward(t, a);
      assert AmountsOk(w, u) && ProvenOk(w, u, mined) by { hide BackedOk; }
      assert BackedOk(w, u, mined) by { hide ProvenOk, AmountsOk; }
    }
  }

  /** A row just read, unless it is unproven, may be projected from. */
  lemma ReadRowCare(w: Watch, t: Tables, mined: map<Hash, Receipt>, k: Key, verifier: bool)
    requires TablesOk(t) && LedgerOk(w, t, mined) && k in t.rows
    requires k == w.key && w.evidence ==> !Unproven(t.rows[k])
    requires verifier || t.rows[k].hash == None
    ensures CareOk(w, t, mined, Project(t.rows[k], false, verifier))
  {
    hide LeasesOk, HashesApart, ClaimsApart, AwardsOk, AmountsOk, BackedOk;
    assert RowOk(k, t.rows[k]);
  }

  ghost predicate CareReady(w: Watch, db: Tables, log: seq<Broadcast>, mined: map<Hash, Receipt>, p: Process,
                            ch: Choice) {
    Ready(db, log, mined, p) && LedgerOk(w, db, mined) && CareOk(w, db, mined, p) && CarefulCall(w, db, p, ch)
  }

  ghost predicate CareDone(w: Watch, mined: map<Hash, Receipt>, f: Effect) {
    LedgerOk(w, f.db, mined) && CareOk(w, f.db, mined, f.next)
  }

  lemma ClaimingCare(w: Watch, db: Tables, log: seq<Broadcast>, mined: map<Hash, Receipt>, p: Process, ch: Choice)
    requires CareReady(w, db, log, mined, p, ch) && p.Claiming?
    ensures CareDone(w, mined, Advance(db, log, mined, p, ch))
  {
    hide TablesOk, LedgerOk, LogOk, MinedOk, FailuresOk, Collides, Reclaimed;
    var i := p.intent;
    ClaimLedger(w, db, mined, i.session, i.amount, i.wallet);
    if ch == Ok && ClaimOutcome(db, i.session, i.amount, i.wallet).Existing? {
      ReadRowCare(w, db, mined, KeyOf(i.session), true);
    }
  }

  lemma ReadCare(w: Watch, db: Tables, log: seq<Broadcast>, mined: map<Hash, Receipt>, p: Process, ch: Choice)
    requires CareReady(w, db, log, mined, p, ch) && (p.LookingUp? || p.Recovering? || p.Pricing?)
    ensures CareDone(w, mined, Advance(db, log, mined, p, ch))
  {
    hide TablesOk, LedgerOk, LogOk, MinedOk, FailuresOk, ClaimOutcome, RecordMatches;
    match p
    case LookingUp(s) =>
      if KeyOf(s) in db.rows && db.rows[KeyOf(s)].hash == None {
        ReadRowCare(w, db, mined, KeyOf(s), false);
      }
    case Recovering(k, demandFresh) =>
      if k in db.rows {
        ReadRowOk(db, log, mined, k, false, true);
        if ch == Ok && !demandFresh {
          ReadRowCare(w, db, mined, k, true);
        }
      }
    case Pricing(_) =>
  }

  lemma HoldingCare(w: Watch, db: Tables, log: seq<Broadcast>, mined: map<Hash, Receipt>, p: Process, ch: Choice)
    requires CareReady(w, db, log, mined, p, ch) && (p.Holding? || p.Broadcasting?)
    ensures CareDone(w, mined, Advance(db, log, mined, p, ch))
  {
    hide TablesOk, LogOk, MinedOk, FailuresOk, LedgerOk;
    var i := p.intent;
    var k := KeyOf(i.session);
    if p.Holding? && i.amount > 0 && PrepareOutcome(db, k, i.amount, i.wallet).Fresh? {
      PrepareLedger(w, db, mined, i);
    }
  }

  lemma SubmittingLeaseCare(w: Watch, db: Tables, log: seq<Broadcast>, mined: map<Hash, Receipt>, p: Process,
                            ch: Choice)
    requires CareReady(w, db, log, mined, p, ch) && p.SubmittingLease?
    ensures CareDone(w, mined, Advance(db, log, mined, p, ch))
  {
    hide TablesOk, LogOk, MinedOk, FailuresOk, LedgerOk, LeaseSubmittedTables, LeaseUnknownTables;
    LeaseWritesLedger(w, db, mined, KeyOf(p.intent.session), p.hash);
  }

  lemma DoubtingLeaseCare(w: Watch, db: Tables, log: seq<Broadcast>, mined: map<Hash, Receipt>, p: Process, ch: Choice)
    requires CareReady(w, db, log, mined, p, ch) && p.DoubtingLease?
    ensures CareDone(w, mined, Advance(db, log, mined, p, ch))
  {
    hide TablesOk, LogOk, MinedOk, FailuresOk, AmountsOk, ProvenOk, BackedOk, TablesExtend, LeaseUnknownTables;
    var i, h := p.intent, p.hash;
    var k := KeyOf(i.session);
    LeaseWritesLedger(w, db, mined, k, h);
    LeaseUnknownKeeps(db, mined, k);
    NothingKeeps(db, mined);
    LeasedVerifying(w, db, mined, i, h, Unknown, db);
    LeasedVerifying(w, db, mined, i, h, Unknown, LeaseUnknownTables(db, k));
  }

  /** The row built from a signed intent is verified for the claimed amount. */
  lemma LeasedVerifying(w: Watch, t: Tables, mined: map<Hash, Receipt>, i: Intent, h: Hash, status: Status, u: Tables)
    requires AmountsOk(w, t) && LeasedIntent(t, i, h) && TablesExtend(t, u)
    ensures CareOk(w, u, mined, Verifying(LocalRow(i, h, status)))
  {}

  lemma SavingCare(w: Watch, db: Tables, log: seq<Broadcast>, mined: map<Hash, Receipt>, p: Process, ch: Choice)
    requires CareReady(w, db, log, mined, p, ch) && p.SavingHash?
    ensures CareDone(w, mined, Advance(db, log, mined, p, ch))
  {
    hide TablesOk, LogOk, MinedOk, FailuresOk, AmountsOk, ProvenOk, BackedOk, TablesExtend, Restatus, SavedHash;
    var i, h := p.intent, p.hash;
    var k := KeyOf(i.session);
    SavedLedger(w, db, mined, k, h);
    SavedWrite(db, mined, k, h);
    RestatusKeeps(db, mined, k, SavedHash(db, k, h).value);
    LeasedVerifying(w, db, mined, i, h, Submitted, SavedHash(db, k, h).value);
  }

  lemma SnapRow(t: Tables, snap: Row)
    requires TablesOk(t) && SnapOk(t, snap)
    ensures t.rows[KeyOf(snap.session)].hash == snap.hash
  {
    hide RowsOk, HashesApart, ClaimsApart, AwardsOk;
  }

  lemma ProjectCare(w: Watch, db: Tables, log: seq<Broadcast>, mined: map<Hash, Receipt>, p: Process, ch: Choice)
    requires CareReady(w, db, log, mined, p, ch)
    requires p.Confirming? || p.Recording? || p.NotingProjectionError? || p.Projecting?
    ensures CareDone(w, mined, Advance(db, log, mined, p, ch))
  {
    hide TablesOk, LogOk, MinedOk, FailuresOk, LedgerOk, Recorded, ConfirmedRow, ProjectionErrorRow, ProjectedRow;
    var k := KeyOf(p.snap.session);
    SnapRow(db, p.snap);
    ProvenWrites(w, db, mined, k);
    RecordLedger(w, db, mined, p.snap);
    AdvanceKeeps(db, log, mined, p, ch);
    CareStable(w, db, mined, Advance(db, log, mined, p, ch).db, mined, p);
  }

  /** A zero-amount claim never gets a transfer. */
  lemma ZeroHasNoHash(w: Watch, t: Tables, k: Key)
    requires RowsOk(t) && AmountsOk(w, t) && ClaimedAmount(w, t, k, 0)
    ensures k == w.key ==> t.rows[k].hash == None
  {}

  lemma ZeroCare(w: Watch, db: Tables, log: seq<Broadcast>, mined: map<Hash, Receipt>, p: Process, ch: Choice)
    requires CareReady(w, db, log, mined, p, ch) && p.ProjectingZero?
    ensures CareDone(w, mined, Advance(db, log, mined, p, ch))
  {
    hide RowsOk, LeasesOk, HashesApart, ClaimsApart, AwardsOk, LogOk, MinedOk, FailuresOk;
    hide AmountsOk, ProvenOk, BackedOk, ProjectedRow, TablesExtend, Restatus;
    ZeroHasNoHash(w, db, p.key);
    hide Submit, Record, Recover, ClaimOutcome, Claimed, ObserveFor, SavedHash;
    ProvenWrites(w, db, mined, p.key);
    StatusWrites(db, mined, p.key);
    RestatusKeeps(db, mined, p.key, ProjectedRow(db, p.key));
    CareStable(w, db, mined, ProjectedRow(db, p.key), mined, p);
  }

  lemma FailingCare(w: Watch, db: Tables, log: seq<Broadcast>, mined: map<Hash, Receipt>, p: Process, ch: Choice)
    requires CareReady(w, db, log, mined, p, ch) && p.Failing?
    ensures CareDone(w, mined, Advance(db, log, mined, p, ch))
  {
    hide TablesOk, LogOk, MinedOk, FailuresOk, BackedOk, AmountsOk;
    var k := KeyOf(p.snap.session);
    FailedWrite(db, mined, k, p.snap.hash.value, p.outcome);
    RestatusLedger(w, db, mined, k, FailedRow(db, k, p.outcome));
  }

  lemma RestCare(w: Watch, db: Tables, log: seq<Broadcast>, mined: map<Hash, Receipt>, p: Process, ch: Choice)
    requires CareReady(w, db, log, mined, p, ch)
    requires p.MarkingPreflight? || p.MarkingUnknown? || p.Verifying? || p.RecoverVerifying? || p.Finished?
    ensures CareDone(w, mined, Advance(db, log, mined, p, ch))
  {
    hide TablesOk, LogOk, MinedOk, FailuresOk, LedgerOk, UnknownRow, PreflightFailedRow;
    if p.MarkingPreflight? || p.MarkingUnknown? {
      QuietWrites(w, db, mined, p.key);
    }
  }

  lemma AdvanceCare(w: Watch, db: Tables, log: seq<Broadcast>, mined: map<Hash, Receipt>, p: Process, ch: Choice)
    requires CareReady(w, db, log, mined, p, ch)
    ensures CareDone(w, mined, Advance(db, log, mined, p, ch))
  {
    hide CareReady, CareDone;
    if p.Claiming? {
      ClaimingCare(w, db, log, mined, p, ch);
    } else if p.LookingUp? || p.Recovering? || p.Pricing? {
      ReadCare(w, db, log, mined, p, ch);
    } else if p.Holding? || p.Broadcasting? {
      HoldingCare(w, db, log, mined, p, ch);
    } else if p.SubmittingLease? {
      SubmittingLeaseCare(w, db, log, mined, p, ch);
    } else if p.DoubtingLease? {
      DoubtingLeaseCare(w, db, log, mined, p, ch);
    } else if p.SavingHash? {
      SavingCare(w, db, log, mined, p, ch);
    } else if p.Confirming? || p.Recording? || p.NotingProjectionError? || p.Projecting? {
      ProjectCare(w, db, log, mined, p, ch);
    } else if p.ProjectingZero? {
      ZeroCare(w, db, log, mined, p, ch);
    } else if p.Failing? {
      FailingCare(w, db, log, mined, p, ch);
    } else {
      RestCare(w, db, log, mined, p, ch);
    }
  }

  // ----- careful runs -----

  lemma CarefulStepKeeps(w: Watch, s: State, e: Event)
    requires CareInv(w, s) && CarefulStep(w, s, e)
    ensures CareInv(w, Step(s, e))
  {
    hide TablesOk, LogOk, MinedOk, FailuresOk, OneBroadcaster, LedgerOk, Advance, ProcessOk, TablesExtend;
    var u := Step(s, e);
    StepKeeps(s, e);
    if e.Act? && e.pid in s.procs {
      assert ProcessOk(s.db, s.log, s.mined, s.procs[e.pid]);
      AdvanceCare(w, s.db, s.log, s.mined, s.procs[e.pid], e.choice);
    } else {
      LedgerStable(w, s, e);
    }
    forall q | q in u.procs ensures CareOk(w, u.db, u.mined, u.procs[q]) {
      if q in s.procs && s.procs[q] == u.procs[q] {
        CareStable(w, s.db, s.mined, u.db, u.mined, s.procs[q]);
      }
    }
  }

  lemma LedgerStable(w: Watch, s: State, e: Event)
    requires LedgerOk(w, s.db, s.mined) && !(e.Act? && e.pid in s.procs)
    ensures LedgerOk(w, Step(s, e).db, Step(s, e).mined)
  {}

  lemma {:induction false} CarefulRunKeeps(w: Watch, s: State, events: seq<Event>)
    requires CareInv(w, s) && CarefulRun(w, s, events)
    ensures CareInv(w, Run(s, events))
    decreases |events|
  {
    hide CareInv;
    if events != [] {
      CarefulRunKeeps(w, s, events[..|events| - 1]);
      CarefulStepKeeps(w, Run(s, events[..|events| - 1]), events[|events| - 1]);
    }
  }

  lemma CarefulReachable(w: Watch, events: seq<Event>)
    requires CarefulRun(w, INITIAL, events)
    ensures CareInv(w, Run(INITIAL, events))
  {
    assert CareInv(w, INITIAL);
    hide CareInv;
    CarefulRunKeeps(w, INITIAL, events);
  }

  // ----- the theorems -----

  /** A ledger row of a key whose own calls were careful matches a successful
      transfer that was broadcast for its claim, of the claimed amount to the
      claimed wallet, whatever was done to other keys. */
  lemma LedgerRowIsBacked(events: seq<Event>, i: nat)
    requires i < |Run(INITIAL, events).db.awards|
    requires CarefulRun(Watch(AwardKey(Run(INITIAL, events).db.awards[i]), true), INITIAL, events)
    ensures var s := Run(INITIAL, events);
            var a := s.db.awards[i];
            && a.hash in s.mined && s.mined[a.hash].ok && s.mined[a.hash].key == AwardKey(a)
            && AwardKey(a) in s.db.rows
            && s.mined[a.hash].amount == a.amount == s.db.rows[AwardKey(a)].amount
            && s.mined[a.hash].wallet == a.wallet == s.db.rows[AwardKey(a)].wallet
  {
    var s := Run(INITIAL, events);
    var w := Watch(AwardKey(s.db.awards[i]), true);
    CarefulReachable(w, events);
    hide RowsOk, ClaimsApart, LogOk, FailuresOk, OneBroadcaster, ProcessOk, CareOk, ProvenOk, Run, CarefulRun;
    assert AwardOk(s.db, s.db.awards[i]);
  }

  /** Different ledger rows match different transfers, in every run. */
  lemma LedgerHashesDiffer(events: seq<Event>, i: nat, j: nat)
    requires i < j < |Run(INITIAL, events).db.awards|
    ensures Run(INITIAL, events).db.awards[i].hash != Run(INITIAL, events).db.awards[j].hash
  {
    Reachable(events);
    hide RowsOk, LeasesOk, HashesApart, ClaimsApart, LogOk, FailuresOk, OneBroadcaster, ProcessOk;
  }

  /** So where all calls were careful the whole ledger is backed. */
  lemma LedgerIsBacked(events: seq<Event>, i: nat)
    requires CarefulForAll(INITIAL, events) && i < |Run(INITIAL, events).db.awards|
    ensures var s := Run(INITIAL, events);
            var a := s.db.awards[i];
            && a.hash in s.mined && s.mined[a.hash].ok && s.mined[a.hash].key == AwardKey(a)
            && AwardKey(a) in s.db.rows
            && s.mined[a.hash].amount == a.amount == s.db.rows[AwardKey(a)].amount
            && s.mined[a.hash].wallet == a.wallet == s.db.rows[AwardKey(a)].wallet
  {
    hide Run, CarefulRun;
    LedgerRowIsBacked(events, i);
  }

  /** A success for a key carries the amount first claimed, in every run in which
      no failed claim of that key was taken over with another amount: skipped
      evidence and other keys make no difference. */
  lemma SuccessCarriesClaim(events: seq<Event>, pid: nat)
    requires pid in Run(INITIAL, events).procs && Run(INITIAL, events).procs[pid].Finished?
    requires Run(INITIAL, events).procs[pid].result.Success?
    requires CarefulRun(Watch(Run(INITIAL, events).procs[pid].key, false), INITIAL, events)
    ensures var s := Run(INITIAL, events);
            && s.procs[pid].key in s.db.rows
            && s.procs[pid].result.amount == s.db.rows[s.procs[pid].key].amount
  {
    hide Inv, LedgerOk, Run, CarefulRun;
    CarefulReachable(Watch(Run(INITIAL, events).procs[pid].key, false), events);
  }

  // ----- conservation -----

  /** Tokens that left the treasury: successful transfers. */
  function ChainCredit(log: seq<Broadcast>, mined: map<Hash, Receipt>): nat {
    if log == [] then 0
    else ChainCredit(log[..|log| - 1], mined) + (if Moved(mined, log[|log| - 1].hash) then log[|log| - 1].amount else 0)
  }

  /** Tokens credited in the ledger. */
  function LedgerCredit(awards: seq<Award>): nat {
    if awards == [] then 0 else LedgerCredit(awards[..|awards| - 1]) + awards[|awards| - 1].amount
  }

  predicate InLedger(awards: seq<Award>, h: Hash) { exists i :: 0 <= i < |awards| && awards[i].hash == h }

  /** Moved transfers that no ledger row records yet. */
  function Unrecorded(log: seq<Broadcast>, mined: map<Hash, Receipt>, awards: seq<Award>): nat {
    if log == [] then 0
    else
      var b := log[|log| - 1];
      Unrecorded(log[..|log| - 1], mined, awards)
      + (if Moved(mined, b.hash) && !InLedger(awards, b.hash) then b.amount else 0)
  }

  /** Every ledger row is one broadcast transfer that moved, for its amount. */
  ghost predicate Matched(log: seq<Broadcast>, mined: map<Hash, Receipt>, awards: seq<Award>) {
    && (forall i, j :: 0 <= i < j < |log| ==> log[i].hash != log[j].hash)
    && (forall i, j :: 0 <= i < j < |awards| ==> awards[i].hash != awards[j].hash)
    && (forall i :: 0 <= i < |awards| ==>
          Moved(mined, awards[i].hash) && HasBroadcast(log, awards[i]))
  }

  ghost predicate HasBroadcast(log: seq<Broadcast>, a: Award) {
    exists j :: 0 <= j < |log| && log[j].hash == a.hash && log[j].amount == a.amount
  }

  /** Recording one more transfer moves its amount out of the gap. */
  lemma {:induction false} OneMoreRecorded(log: seq<Broadcast>, mined: map<Hash, Receipt>, awards: seq<Award>,
                                           a: Award, j: nat)
    requires forall x, y :: 0 <= x < y < |log| ==> log[x].hash != log[y].hash
    requires j < |log| && log[j].hash == a.hash && log[j].amount == a.amount
    requires Moved(mined, a.hash) && !InLedger(awards, a.hash)
    ensures Unrecorded(log, mined, awards) == Unrecorded(log, mined, awards + [a]) + a.amount
  {
    var n := |log| - 1;
    var b := log[n];
    assert InLedger(awards + [a], b.hash) <==> InLedger(awards, b.hash) || b.hash == a.hash by {
      assert forall i :: 0 <= i < |awards| ==> (awards + [a])[i] == awards[i];
      assert (awards + [a])[|awards|] == a;
    }
    if j == n {
      OthersUnrecorded(log[..n], mined, awards, a);
    } else {
      OneMoreRecorded(log[..n], mined, awards, a, j);
    }
  }

  lemma {:induction false} OthersUnrecorded(log: seq<Broadcast>, mined: map<Hash, Receipt>, awards: seq<Award>,
                                            a: Award)
    requires forall x :: 0 <= x < |log| ==> log[x].hash != a.hash
    ensures Unrecorded(log, mined, awards) == Unrecorded(log, mined, awards + [a])
  {
    if log != [] {
      var b := log[|log| - 1];
      OthersUnrecorded(log[..|log| - 1], mined, awards, a);
      assert InLedger(awards + [a], b.hash) <==> InLedger(awards, b.hash) by {
        assert forall i :: 0 <= i < |awards| ==> (awards + [a])[i] == awards[i];
        assert (awards + [a])[|awards|] == a;
      }
    }
  }

  lemma {:induction false} NothingRecorded(log: seq<Broadcast>, mined: map<Hash, Receipt>)
    ensures Unrecorded(log, mined, []) == ChainCredit(log, mined)
  {
    if log != [] {
      NothingRecorded(log[..|log| - 1], mined);
    }
  }

  lemma {:induction false} Conservation(log: seq<Broadcast>, mined: map<Hash, Receipt>, awards: seq<Award>)
    requires Matched(log, mined, awards)
    ensures ChainCredit(log, mined) == LedgerCredit(awards) + Unrecorded(log, mined, awards)
    decreases |awards|
  {
    if awards == [] {
      NothingRecorded(log, mined);
    } else {
      var n := |awards| - 1;
      var a := awards[n];
      assert awards == awards[..n] + [a];
      assert Matched(log, mined, awards[..n]) by {
        forall i | 0 <= i < n
          ensures Moved(mined, awards[..n][i].hash)
          ensures HasBroadcast(log, awards[..n][i])
        {
          assert awards[..n][i] == awards[i];
        }
      }
      Conservation(log, mined, awards[..n]);
      var j :| 0 <= j < |log| && log[j].hash == a.hash && log[j].amount == a.amount;
      assert !InLedger(awards[..n], a.hash);
      OneMoreRecorded(log, mined, awards[..n], a, j);
    }
  }

  /** The broadcast behind a ledger row is its claim's, for the same amount. */
  lemma AwardBroadcast(s: State, a: Award, j: nat)
    requires LeasesOk(s.db) && HashesApart(s.db) && LogOk(s.db, s.log) && AmountsOk(Watch(AwardKey(a), true), s.db)
    requires AwardOk(s.db, a) && a.amount == s.db.rows[AwardKey(a)].amount
    requires j < |s.log| && s.log[j].hash == a.hash
    ensures s.log[j].amount == a.amount
  {
    var b := s.log[j];
    assert IsLeased(s.db, b.key, b.hash, b.amount, b.wallet);
    assert b.key == AwardKey(a);
  }

  lemma BroadcastsApart(s: State, i: nat, j: nat)
    requires HashesApart(s.db) && LogOk(s.db, s.log) && i < j < |s.log|
    ensures s.log[i].hash != s.log[j].hash
  {
    assert IsLeased(s.db, s.log[i].key, s.log[i].hash, s.log[i].amount, s.log[i].wallet);
    assert IsLeased(s.db, s.log[j].key, s.log[j].hash, s.log[j].amount, s.log[j].wallet);
  }

  lemma CareIsMatched(s: State)
    requires Inv(s) && forall k: Key :: LedgerOk(Watch(k, true), s.db, s.mined)
    ensures Matched(s.log, s.mined, s.db.awards)
  {
    hide RowsOk, LeasesOk, HashesApart, LogOk, AmountsOk, ClaimsApart, FailuresOk, OneBroadcaster, ProcessOk, ProvenOk;
    hide MinedOk;
    forall i | 0 <= i < |s.db.awards|
      ensures Moved(s.mined, s.db.awards[i].hash)
      ensures HasBroadcast(s.log, s.db.awards[i])
    {
      var a := s.db.awards[i];
      assert LedgerOk(Watch(AwardKey(a), true), s.db, s.mined);
      assert AwardOk(s.db, a) && Moved(s.mined, a.hash);
      var j :| 0 <= j < |s.log| && s.log[j].hash == a.hash;
      AwardBroadcast(s, a, j);
    }
    forall i, j | 0 <= i < j < |s.log| ensures s.log[i].hash != s.log[j].hash {
      BroadcastsApart(s, i, j);
    }
  }

  /** Where all calls were careful the ledger never credits more than the chain
      moved, and the gap is exactly the moved transfers not yet recorded. */
  lemma LedgerGap(events: seq<Event>)
    requires CarefulForAll(INITIAL, events)
    ensures var s := Run(INITIAL, events);
            && ChainCredit(s.log, s.mined) == LedgerCredit(s.db.awards) + Unrecorded(s.log, s.mined, s.db.awards)
            && LedgerCredit(s.db.awards) <= ChainCredit(s.log, s.mined)
  {
    hide Run, CarefulRun, ChainCredit, LedgerCredit, Unrecorded, Matched, Inv, LedgerOk;
    var s := Run(INITIAL, events);
    Reachable(events);
    forall k: Key ensures LedgerOk(Watch(k, true), s.db, s.mined) {
      CarefulReachable(Watch(k, true), events);
    }
    CareIsMatched(s);
    Conservation(s.log, s.mined, s.db.awards);
  }
}

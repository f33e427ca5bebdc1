/** One fault-free replay of a charging record, and where the ledger and the
    chain can part. */
module AwardReplay {
  import opened Basics
  import opened OperationKeys
  import opened OperationTables
  import opened AwardProtocol
  import opened AwardSafety
  import opened AwardLedger

  /** Every call succeeds and the chain tells the truth. */
  function Fair(p: Process): Choice {
    if p.Verifying? || p.RecoverVerifying? then Chain(Truth) else Ok
  }

  /** A process left alone for a number of fault-free calls. */
  function Drive(s: State, pid: nat, calls: nat): State
    decreases calls
  {
    if calls == 0 || pid !in s.procs then s
    else Drive(Step(s, Act(pid, Fair(s.procs[pid]))), pid, calls - 1)
  }

  /** The longest fault-free replay of a saved row: look up, claim, verify,
      confirm, record, mark projected. */
  const REPLAY: nat := 6

  function Replayed(s: State, pid: nat, session: Session): State {
    Drive(Step(s, Replay(pid, session)), pid, REPLAY)
  }

  // ----- one process alone -----

  function Finish(f: Effect, mined: map<Hash, Receipt>, calls: nat): Effect
    decreases calls
  {
    if calls == 0 then f else Finish(Advance(f.db, f.log, mined, f.next, Fair(f.next)), mined, calls - 1)
  }

  lemma {:induction false} DriveIsFinish(s: State, pid: nat, calls: nat)
    requires pid in s.procs
    ensures var f := Finish(Effect(s.db, s.log, s.procs[pid]), s.mined, calls);
            Drive(s, pid, calls) == State(f.db, f.log, s.mined, s.procs[pid := f.next])
    decreases calls
  {
    hide Advance;
    if calls == 0 {
      assert s.procs[pid := s.procs[pid]] == s.procs;
    } else {
      var u := Step(s, Act(pid, Fair(s.procs[pid])));
      DriveIsFinish(u, pid, calls - 1);
      var f := Finish(Effect(s.db, s.log, s.procs[pid]), s.mined, calls);
      assert u.procs[pid := f.next] == s.procs[pid := f.next];
    }
  }

  lemma {:induction false} FinishSplit(f: Effect, mined: map<Hash, Receipt>, a: nat, b: nat)
    ensures Finish(f, mined, a + b) == Finish(Finish(f, mined, a), mined, b)
    decreases a
  {
    hide Advance;
    if a > 0 {
      FinishSplit(Advance(f.db, f.log, mined, f.next, Fair(f.next)), mined, a - 1, b);
    }
  }

  lemma {:induction false} FinishedStays(f: Effect, mined: map<Hash, Receipt>, calls: nat)
    requires f.next.Finished?
    ensures Finish(f, mined, calls) == f
    decreases calls
  {
    if calls > 0 {
      FinishedStays(f, mined, calls - 1);
    }
  }

  lemma Next(f: Effect, mined: map<Hash, Receipt>, calls: nat)
    requires calls > 0
    ensures Finish(f, mined, calls) == Finish(Advance(f.db, f.log, mined, f.next, Fair(f.next)), mined, calls - 1)
  {}

  // ----- the ledger write -----

  /** The ledger has no row for this hash with another amount. */
  predicate LedgerAgrees(t: Tables, h: Hash, amount: nat) {
    forall i :: 0 <= i < |t.awards| && t.awards[i].hash == h ==> t.awards[i].amount == amount
  }

  ghost predicate HashesOnce(awards: seq<Award>) {
    forall i, j :: 0 <= i < j < |awards| ==> awards[i].hash != awards[j].hash
  }

  lemma {:induction false} WithHashUnique(awards: seq<Award>, i: nat)
    requires HashesOnce(awards) && i < |awards|
    ensures WithHash(awards, awards[i].hash) == [awards[i]]
  {
    if i == 0 {
      WithHashFinds(awards[1..], awards[0].hash);
    } else {
      assert awards[0].hash != awards[i].hash;
      WithHashUnique(awards[1..], i - 1);
    }
  }

  lemma {:induction false} WithDedupFinds(awards: seq<Award>, dedup: string)
    ensures WithDedup(awards, dedup) == [] <==> forall i :: 0 <= i < |awards| ==> awards[i].dedup != dedup
  {
    if awards != [] {
      WithDedupFinds(awards[1..], dedup);
      assert forall i :: 0 < i < |awards| ==> awards[i] == awards[1..][i - 1];
    }
  }

  /** A claim without a ledger row under its hash has none under its legacy key. */
  lemma NoForeignDedup(t: Tables, snap: Row)
    requires TablesOk(t) && SnapOk(t, snap) && WithHash(t.awards, snap.hash.value) == []
    ensures WithDedup(t.awards, LegacyKeyOf(snap.session)) == []
  {
    hide RowsOk, LeasesOk, HashesApart, WithHash, WithDedup;
    WithHashFinds(t.awards, snap.hash.value);
    WithDedupFinds(t.awards, LegacyKeyOf(snap.session));
    forall i | 0 <= i < |t.awards| ensures t.awards[i].dedup != LegacyKeyOf(snap.session) {
      var k := AwardKey(t.awards[i]);
      assert AwardOk(t, t.awards[i]);
      assert k != KeyOf(snap.session);
      assert LegacyKeyOf(t.rows[k].session) != LegacyKeyOf(t.rows[KeyOf(snap.session)].session);
    }
  }

  function SnapAward(snap: Row): Award
    requires snap.hash.Some?
  {
    AwardFor(snap.session, snap.amount, snap.hash.value, snap.wallet)
  }

  /** A ledger row of the same hash belongs to the same claim. */
  lemma SameHashSameClaim(t: Tables, snap: Row, i: nat)
    requires TablesOk(t) && SnapOk(t, snap) && i < |t.awards| && t.awards[i].hash == snap.hash.value
    ensures t.awards[i] == SnapAward(snap) <==> t.awards[i].amount == snap.amount
  {
    hide RowsOk, LeasesOk, ClaimsApart;
    assert AwardOk(t, t.awards[i]);
    assert AwardKey(t.awards[i]) == KeyOf(snap.session);
  }

  /** Recording succeeds exactly when the ledger agrees, and then leaves one
      ledger row for the hash. */
  lemma RecordingExact(t: Tables, snap: Row)
    requires TablesOk(t) && SnapOk(t, snap)
    ensures Recorded(t, SnapAward(snap)).Some? <==> LedgerAgrees(t, snap.hash.value, snap.amount)
    ensures Recorded(t, SnapAward(snap)).Some? ==>
              var u := Recorded(t, SnapAward(snap)).value;
              && u == t.(awards := u.awards, awarded := u.awarded)
              && WithHash(u.awards, snap.hash.value) == [SnapAward(snap)]
              && (u.awards == t.awards || u.awards == t.awards + [SnapAward(snap)])
  {
    hide RowsOk, LeasesOk, HashesApart, ClaimsApart, AwardOk, WithHash, WithDedup, SnapAward;
    var h := snap.hash.value;
    WithHashFinds(t.awards, h);
    if i :| 0 <= i < |t.awards| && t.awards[i].hash == h {
      WithHashUnique(t.awards, i);
      SameHashSameClaim(t, snap, i);
      SnapAwardFields(snap);
    } else {
      NoForeignDedup(t, snap);
      SnapAwardFields(snap);
      AppendedHash(t.awards, SnapAward(snap));
    }
  }

  lemma SnapAwardFields(snap: Row)
    requires snap.hash.Some?
    ensures SnapAward(snap).hash == snap.hash.value && SnapAward(snap).dedup == LegacyKeyOf(snap.session)
  {}

  // ----- the replay of a saved row -----

  /** The record that made the claim, presented again. */
  predicate SavedFor(t: Tables, session: Session) {
    KeyOf(session) in t.rows && RecordMatches(t.rows[KeyOf(session)], session)
  }

  lemma ReplayReadsRow(db: Tables, log: seq<Broadcast>, mined: map<Hash, Receipt>, session: Session)
    requires SavedFor(db, session) && db.rows[KeyOf(session)].hash.Some?
    ensures Finish(Effect(db, log, LookingUp(session)), mined, 2)
              == Effect(db, log, Project(db.rows[KeyOf(session)], false, true))
  {
    hide Collides, Record, Submit, Recover, Project, SavedHash, Write, ObserveFor;
    var r := db.rows[KeyOf(session)];
    var f := Effect(db, log, LookingUp(session));
    var g := Effect(db, log, Claiming(Intent(session, r.amount, r.wallet)));
    Next(f, mined, 2);
    assert Advance(db, log, mined, f.next, Ok) == g;
    Next(g, mined, 1);
    assert ClaimOutcome(db, session, r.amount, r.wallet) == Existing(r);
  }

  /** What a replay that reached the ledger write leaves. */
  ghost predicate Delivered(t: Tables, u: Tables, snap: Row) {
    var k := KeyOf(snap.session);
    && snap.hash.Some? && k in t.rows && k in u.rows && u.rows[k].amount == t.rows[k].amount
    && u.rows[k].status == Projected && u.rows[k].hash == snap.hash
    && u.rows.Keys == t.rows.Keys && (forall l :: l in t.rows && l != k ==> u.rows[l] == t.rows[l])
    && u.leases == t.leases && WithHash(u.awards, snap.hash.value) == [SnapAward(snap)]
    && (u.awards == t.awards || u.awards == t.awards + [SnapAward(snap)])
  }

  /** A projectable row: the durable one, or the image of it with the status
      that confirmation gave it. */
  ghost predicate Projectable(t: Tables, snap: Row) {
    SnapOk(t, snap) && t.rows[KeyOf(snap.session)].hash == snap.hash && t.rows[KeyOf(snap.session)].status != Failed
  }

  lemma RecordCall(db: Tables, log: seq<Broadcast>, mined: map<Hash, Receipt>, snap: Row)
    requires snap.hash.Some?
    ensures Advance(db, log, mined, Recording(snap), Ok)
              == match Recorded(db, SnapAward(snap))
                 case None => Effect(db, log, NotingProjectionError(snap))
                 case Some(u) => Effect(u, log, Projecting(snap))
  {
    hide Recorded;
  }

  lemma MarkCalls(db: Tables, log: seq<Broadcast>, mined: map<Hash, Receipt>, snap: Row)
    ensures var k := KeyOf(snap.session);
            && Advance(db, log, mined, Projecting(snap), Ok)
               == Effect(ProjectedRow(db, k), log, Finished(k, Success(snap.amount, snap.hash)))
            && Advance(db, log, mined, NotingProjectionError(snap), Ok)
               == Effect(ProjectionErrorRow(db, k), log, Finished(k, Pending))
            && Advance(db, log, mined, Confirming(snap), Ok) == Effect(ConfirmedRow(db, k), log, Recording(snap))
  {
    hide ProjectedRow, ProjectionErrorRow, ConfirmedRow;
  }

  lemma MarkDelivers(t: Tables, snap: Row, u: Tables)
    requires Projectable(t, snap) && u == t.(awards := u.awards, awarded := u.awarded)
    requires WithHash(u.awards, snap.hash.value) == [SnapAward(snap)]
    requires u.awards == t.awards || u.awards == t.awards + [SnapAward(snap)]
    ensures Delivered(t, ProjectedRow(u, KeyOf(snap.session)), snap)
  {
    hide WithHash, SnapAward;
  }

  lemma RecordingDelivers(db: Tables, log: seq<Broadcast>, mined: map<Hash, Receipt>, snap: Row, calls: nat)
    requires TablesOk(db) && Projectable(db, snap) && calls >= 2
    ensures var f := Finish(Effect(db, log, Recording(snap)), mined, calls);
            && f.log == log
            && (LedgerAgrees(db, snap.hash.value, snap.amount) ==>
                  Delivered(db, f.db, snap) && f.next == Finished(KeyOf(snap.session), Success(snap.amount, snap.hash)))
            && (!LedgerAgrees(db, snap.hash.value, snap.amount) ==>
                  && f.db == ProjectionErrorRow(db, KeyOf(snap.session))
                  && f.next == Finished(KeyOf(snap.session), Pending))
  {
    hide TablesOk, LedgerAgrees, Recorded, WithHash, SnapAward, Advance, Finish, Delivered;
    hide ProjectedRow, ProjectionErrorRow;
    var k := KeyOf(snap.session);
    RecordingExact(db, snap);
    RecordCall(db, log, mined, snap);
    Next(Effect(db, log, Recording(snap)), mined, calls);
    match Recorded(db, SnapAward(snap))
    case None =>
      MarkCalls(db, log, mined, snap);
      Next(Effect(db, log, NotingProjectionError(snap)), mined, calls - 1);
      FinishedStays(Effect(ProjectionErrorRow(db, k), log, Finished(k, Pending)), mined, calls - 2);
    case Some(u) =>
      MarkDelivers(db, snap, u);
      MarkCalls(u, log, mined, snap);
      Next(Effect(u, log, Projecting(snap)), mined, calls - 1);
      FinishedStays(Effect(ProjectedRow(u, k), log, Finished(k, Success(snap.amount, snap.hash))), mined, calls - 2);
  }

  /** The verdict on a saved transfer, all facts known. */
  predicate ChainAgrees(mined: map<Hash, Receipt>, h: Hash, amount: nat) {
    Moved(mined, h) && mined[h].amount == amount
  }

  /** When a fault-free replay of a hash-bearing row delivers. */
  predicate Delivers(t: Tables, mined: map<Hash, Receipt>, r: Row) {
    && r.hash.Some?
    && match r.status
       case Failed => false
       case Projected => true
       case Submitted => ChainAgrees(mined, r.hash.value, r.amount) && LedgerAgrees(t, r.hash.value, r.amount)
       case Unknown => ChainAgrees(mined, r.hash.value, r.amount) && LedgerAgrees(t, r.hash.value, r.amount)
       case _ => LedgerAgrees(t, r.hash.value, r.amount)
  }

  lemma TruthIsExact(t: Tables, mined: map<Hash, Receipt>, snap: Row)
    requires LeasesOk(t) && HashesApart(t) && MinedOk(t, mined) && SnapOk(t, snap)
    ensures ObserveFor(mined, Truth, snap) == Valid <==> ChainAgrees(mined, snap.hash.value, snap.amount)
  {
    var h := snap.hash.value;
    if h in mined {
      assert IsLeased(t, mined[h].key, h, mined[h].amount, mined[h].wallet);
    }
  }

  /** A verdict other than valid ends without a ledger row. */
  lemma OtherVerdictEnds(db: Tables, log: seq<Broadcast>, mined: map<Hash, Receipt>, snap: Row, e: Evidence, calls: nat)
    requires e != Valid && calls >= 1
    ensures var f := Finish(Effect(db, log, AfterVerdict(snap, e)), mined, calls);
            var k := KeyOf(snap.session);
            && f.log == log && f.db.awards == db.awards
            && (k in db.rows ==> k in f.db.rows)
            && (k in db.rows && db.rows[k].status != Projected ==> f.db.rows[k].status != Projected)
            && f.next.Finished? && f.next.key == k && !f.next.result.Success?
  {
    hide Finish, Record, Submit, Recover, Project, SavedHash, ClaimOutcome, Claimed, ObserveFor;
    var f := Effect(db, log, AfterVerdict(snap, e));
    var g := Advance(db, log, mined, f.next, Ok);
    Next(f, mined, calls);
    FinishedStays(g, mined, calls - 1);
  }

  lemma VerifyCall(db: Tables, log: seq<Broadcast>, mined: map<Hash, Receipt>, snap: Row)
    ensures Advance(db, log, mined, Verifying(snap), Chain(Truth))
              == Effect(db, log, AfterVerdict(snap, ObserveFor(mined, Truth, snap)))
  {
    hide Record, Submit, Recover, Project, SavedHash, ClaimOutcome, Claimed, ObserveFor, AfterVerdict;
  }

  /** What a run of `Project` on a saved row amounts to. */
  ghost predicate Ended(t: Tables, mined: map<Hash, Receipt>, r: Row, log: seq<Broadcast>, f: Effect) {
    EndedAs(t, r, log, Delivers(t, mined, r), f)
  }

  /** The end of a process that projected the row or did not. */
  ghost predicate EndedAs(t: Tables, r: Row, log: seq<Broadcast>, delivers: bool, f: Effect) {
    var k := KeyOf(r.session);
    && f.log == log && f.next.Finished? && f.next.key == k && k in f.db.rows
    && (delivers <==> f.db.rows[k].status == Projected)
    && (delivers <==> f.next.result == Success(r.amount, r.hash))
    && (delivers && r.status != Projected ==> Delivered(t, f.db, r))
    && (!delivers || r.status == Projected ==> f.db.awards == t.awards)
    && (r.status == Projected ==> f.db == t)
  }

  ghost predicate SavedRow(t: Tables, r: Row) {
    SnapOk(t, r) && t.rows[KeyOf(r.session)] == r
  }

  lemma ConfirmedStays(t: Tables, mined: map<Hash, Receipt>, r: Row)
    requires TablesOk(t) && FailuresOk(t, mined) && SavedRow(t, r) && (Open(r.status) || r.status == Confirmed)
    ensures var u := ConfirmedRow(t, KeyOf(r.session));
            && TablesOk(u) && Projectable(u, r) && u == t.(rows := t.rows[KeyOf(r.session) := u.rows[KeyOf(r.session)]])
            && u.rows[KeyOf(r.session)].amount == t.rows[KeyOf(r.session)].amount
            && u.rows[KeyOf(r.session)].status == Confirmed
  {
    hide TablesOk, FailuresOk, TablesExtend, Restatus;
    var k := KeyOf(r.session);
    ConfirmedSnap(t, r);
    hide ConfirmedRow, Projectable;
    StatusWrites(t, mined, k);
    RestatusKeeps(t, mined, k, ConfirmedRow(t, k));
  }

  lemma ConfirmedSnap(t: Tables, r: Row)
    requires SavedRow(t, r) && (Open(r.status) || r.status == Confirmed)
    ensures var u := ConfirmedRow(t, KeyOf(r.session));
            && KeyOf(r.session) in u.rows
            && Projectable(u, r) && u == t.(rows := t.rows[KeyOf(r.session) := u.rows[KeyOf(r.session)]])
            && u.rows[KeyOf(r.session)].amount == t.rows[KeyOf(r.session)].amount
            && u.rows[KeyOf(r.session)].status == Confirmed
  {}

  lemma DeliveredOver(t: Tables, u: Tables, v: Tables, r: Row)
    requires KeyOf(r.session) in t.rows && KeyOf(r.session) in u.rows
    requires u == t.(rows := t.rows[KeyOf(r.session) := u.rows[KeyOf(r.session)]])
    requires u.rows[KeyOf(r.session)].amount == t.rows[KeyOf(r.session)].amount && Delivered(u, v, r)
    ensures Delivered(t, v, r)
  {
    hide WithHash, SnapAward;
  }

  lemma VerifyingEnds(db: Tables, log: seq<Broadcast>, mined: map<Hash, Receipt>, r: Row, calls: nat)
    requires TablesOk(db) && FailuresOk(db, mined) && MinedOk(db, mined) && SavedRow(db, r) && calls >= 4
    requires r.status == Submitted || r.status == Unknown
    ensures Ended(db, mined, r, log, Finish(Effect(db, log, Verifying(r)), mined, calls))
  {
    hide RowsOk, LeasesOk, HashesApart, ClaimsApart, AwardsOk, FailuresOk, MinedOk, Advance, Finish;
    hide Delivered, WithHash;
    hide ChainAgrees, ConfirmedRow, ProjectionErrorRow, AfterVerdict, ObserveFor;
    var k := KeyOf(r.session);
    TruthIsExact(db, mined, r);
    VerifyCall(db, log, mined, r);
    Next(Effect(db, log, Verifying(r)), mined, calls);
    if ObserveFor(mined, Truth, r) == Valid {
      ValidConfirms(r);
      ConfirmedEnds(db, log, mined, r, calls - 1);
    } else {
      OtherVerdictEnds(db, log, mined, r, ObserveFor(mined, Truth, r), calls - 1);
    }
  }

  lemma ValidConfirms(r: Row)
    ensures AfterVerdict(r, Valid) == Confirming(r)
  {}

  /** From the confirmation on only the ledger can refuse. */
  lemma ConfirmingEnds(db: Tables, log: seq<Broadcast>, mined: map<Hash, Receipt>, r: Row, calls: nat)
    requires TablesOk(db) && FailuresOk(db, mined) && SavedRow(db, r) && calls >= 3
    requires Open(r.status) || r.status == Confirmed
    ensures EndedAs(db, r, log, LedgerAgrees(db, r.hash.value, r.amount),
                    Finish(Effect(db, log, Confirming(r)), mined, calls))
  {
    hide TablesOk, FailuresOk, Advance, Finish, WithHash, SnapAward, ConfirmedRow, Delivered;
    var k := KeyOf(r.session);
    var u := ConfirmedRow(db, k);
    ConfirmedStays(db, mined, r);
    MarkCalls(db, log, mined, r);
    Next(Effect(db, log, Confirming(r)), mined, calls);
    RecordingDelivers(u, log, mined, r, calls - 1);
    var f := Finish(Effect(u, log, Recording(r)), mined, calls - 1);
    if LedgerAgrees(db, r.hash.value, r.amount) {
      DeliveredOver(db, u, f.db, r);
      DeliveredIsProjected(db, f.db, r);
    } else {
      ErrorIsConfirmed(u, k);
    }
  }

  lemma DeliveredIsProjected(t: Tables, u: Tables, r: Row)
    requires Delivered(t, u, r)
    ensures KeyOf(r.session) in u.rows && u.rows[KeyOf(r.session)].status == Projected
  {
    hide WithHash, SnapAward;
  }

  lemma ErrorIsConfirmed(t: Tables, k: Key)
    requires k in t.rows && t.rows[k].status != Projected
    ensures ProjectionErrorRow(t, k).awards == t.awards && k in ProjectionErrorRow(t, k).rows
    ensures ProjectionErrorRow(t, k).rows[k].status != Projected
  {}

  lemma ConfirmedEnds(db: Tables, log: seq<Broadcast>, mined: map<Hash, Receipt>, r: Row, calls: nat)
    requires TablesOk(db) && FailuresOk(db, mined) && SavedRow(db, r) && calls >= 3
    requires r.status == Submitted || r.status == Unknown
    requires ChainAgrees(mined, r.hash.value, r.amount)
    ensures Ended(db, mined, r, log, Finish(Effect(db, log, Confirming(r)), mined, calls))
  {
    hide TablesOk, FailuresOk, Advance, Finish, ChainAgrees, LedgerAgrees, EndedAs;
    ConfirmingEnds(db, log, mined, r, calls);
  }

  lemma ProjectEnds(db: Tables, log: seq<Broadcast>, mined: map<Hash, Receipt>, r: Row, calls: nat)
    requires TablesOk(db) && FailuresOk(db, mined) && MinedOk(db, mined) && SavedRow(db, r) && calls >= 4
    ensures Ended(db, mined, r, log, Finish(Effect(db, log, Project(r, false, true)), mined, calls))
  {
    hide TablesOk, FailuresOk, MinedOk, Advance, Finish, WithHash, SnapAward;
    var f := Effect(db, log, Project(r, false, true));
    match r.status
    case Submitted => VerifyingEnds(db, log, mined, r, calls);
    case Unknown => VerifyingEnds(db, log, mined, r, calls);
    case Submitting => RecordingDelivers(db, log, mined, r, calls);
    case Confirmed => RecordingDelivers(db, log, mined, r, calls);
    case _ => FinishedStays(f, mined, calls);
  }

  lemma SavedRowOk(t: Tables, k: Key)
    requires TablesOk(t) && k in t.rows && t.rows[k].hash.Some?
    ensures SavedRow(t, t.rows[k]) && KeyOf(t.rows[k].session) == k
  {
    hide LeasesOk, HashesApart, ClaimsApart, AwardsOk;
    assert RowOk(k, t.rows[k]);
  }

  /** Any reachable state, any saved transfer: a fault-free replay of its record
      ends delivered exactly when `Delivers` holds, and reports success with the
      claimed amount exactly then. It broadcasts nothing. */
  lemma ReplayIsExact(events: seq<Event>, pid: nat, session: Session)
    requires pid !in Run(INITIAL, events).procs && SavedFor(Run(INITIAL, events).db, session)
    requires Run(INITIAL, events).db.rows[KeyOf(session)].hash.Some?
    ensures var s := Run(INITIAL, events);
            var u := Replayed(s, pid, session);
            && u.mined == s.mined && pid in u.procs
            && Ended(s.db, s.mined, s.db.rows[KeyOf(session)], s.log, Effect(u.db, u.log, u.procs[pid]))
  {
    Reachable(events);
    var s := Run(INITIAL, events);
    hide Run;
    ReplayExact(s, pid, session);
  }

  lemma ReplayExact(s: State, pid: nat, session: Session)
    requires Inv(s) && pid !in s.procs && SavedFor(s.db, session) && s.db.rows[KeyOf(session)].hash.Some?
    ensures var u := Replayed(s, pid, session);
            && u.mined == s.mined && pid in u.procs
            && Ended(s.db, s.mined, s.db.rows[KeyOf(session)], s.log, Effect(u.db, u.log, u.procs[pid]))
  {
    hide TablesOk, LogOk, FailuresOk, MinedOk, ProcessOk, OneBroadcaster, MinedLogged, Advance;
    hide Finish, Drive, Project, Ended;
    var r := s.db.rows[KeyOf(session)];
    var f := Effect(s.db, s.log, LookingUp(session));
    SavedRowOk(s.db, KeyOf(session));
    DriveIsFinish(Step(s, Replay(pid, session)), pid, REPLAY);
    FinishSplit(f, s.mined, 2, 4);
    ReplayReadsRow(s.db, s.log, s.mined, session);
    ProjectEnds(s.db, s.log, s.mined, r, 4);
  }

  // ----- recovery without fresh evidence -----

  function Recovered(s: State, pid: nat, k: Key): State {
    Drive(Step(s, Recovery(pid, k, false)), pid, REPLAY)
  }

  lemma RecoveryReadsRow(db: Tables, log: seq<Broadcast>, mined: map<Hash, Receipt>, k: Key)
    requires k in db.rows && db.rows[k].hash.Some? && KeyOf(db.rows[k].session) == k
    ensures Finish(Effect(db, log, Recovering(k, false)), mined, 1) == Effect(db, log, Project(db.rows[k], false, true))
  {
    var f := Effect(db, log, Recovering(k, false));
    Next(f, mined, 1);
    NoCalls(Advance(db, log, mined, f.next, Ok), mined);
  }

  /** The same as `ReplayExact`, for a recovery of the key. */
  lemma RecoveryExact(s: State, pid: nat, k: Key)
    requires Inv(s) && pid !in s.procs && k in s.db.rows && s.db.rows[k].hash.Some?
    ensures var u := Recovered(s, pid, k);
            && u.mined == s.mined && pid in u.procs
            && Ended(s.db, s.mined, s.db.rows[k], s.log, Effect(u.db, u.log, u.procs[pid]))
  {
    hide TablesOk, LogOk, FailuresOk, MinedOk, ProcessOk, OneBroadcaster, MinedLogged;
    hide Advance, Finish, Drive, Project, Ended;
    var r := s.db.rows[k];
    var f := Effect(s.db, s.log, Recovering(k, false));
    SavedRowOk(s.db, k);
    DriveIsFinish(Step(s, Recovery(pid, k, false)), pid, REPLAY);
    FinishSplit(f, s.mined, 1, 5);
    RecoveryReadsRow(s.db, s.log, s.mined, k);
    ProjectEnds(s.db, s.log, s.mined, r, 5);
  }

  // ----- recovery with fresh evidence -----

  function FreshlyRecovered(s: State, pid: nat, k: Key): State {
    Drive(Step(s, Recovery(pid, k, true)), pid, REPLAY)
  }

  /** When a recovery that demands fresh evidence delivers. */
  predicate FreshDelivers(t: Tables, mined: map<Hash, Receipt>, r: Row) {
    && r.hash.Some? && r.status != Failed
    && (r.status == Projected
        || (ChainAgrees(mined, r.hash.value, r.amount) && LedgerAgrees(t, r.hash.value, r.amount)))
  }

  lemma FreshCalls(db: Tables, log: seq<Broadcast>, mined: map<Hash, Receipt>, k: Key)
    requires k in db.rows && db.rows[k].hash.Some?
    ensures var r := db.rows[k];
            && Advance(db, log, mined, Recovering(k, true), Ok)
                 == Effect(db, log,
                           if r.status == Projected then Finished(k, Success(r.amount, r.hash))
                           else RecoverVerifying(r))
            && Advance(db, log, mined, RecoverVerifying(r), Chain(Truth))
                 == Effect(db, log, AfterRecoveryVerdict(r, ObserveFor(mined, Truth, r)))
  {
    hide Record, Submit, Project, SavedHash, ClaimOutcome, Claimed, ObserveFor, AfterRecoveryVerdict;
  }

  /** Any verdict but a valid one on a row that has not failed ends without a
      ledger row. */
  lemma OtherRecoveryVerdictEnds(db: Tables, log: seq<Broadcast>, mined: map<Hash, Receipt>, r: Row, e: Evidence,
                                 calls: nat)
    requires (e != Valid || r.status == Failed) && r.status != Projected && calls >= 1
    requires KeyOf(r.session) in db.rows && db.rows[KeyOf(r.session)] == r
    ensures EndedAs(db, r, log, false, Finish(Effect(db, log, AfterRecoveryVerdict(r, e)), mined, calls))
  {
    hide Finish, Record, Submit, Recover, SavedHash, ClaimOutcome, Claimed, ObserveFor, Delivered;
    var f := Effect(db, log, AfterRecoveryVerdict(r, e));
    if f.next.Finished? {
      FinishedStays(f, mined, calls);
    } else {
      Next(f, mined, calls);
      FinishedStays(Advance(db, log, mined, f.next, Ok), mined, calls - 1);
    }
  }

  lemma ValidRecoveryConfirms(r: Row)
    requires r.status != Failed
    ensures AfterRecoveryVerdict(r, Valid) == Confirming(r)
  {}

  lemma FreshEnds(db: Tables, log: seq<Broadcast>, mined: map<Hash, Receipt>, k: Key)
    requires TablesOk(db) && FailuresOk(db, mined) && MinedOk(db, mined)
    requires k in db.rows && SavedRow(db, db.rows[k]) && KeyOf(db.rows[k].session) == k
    ensures EndedAs(db, db.rows[k], log, FreshDelivers(db, mined, db.rows[k]),
                    Finish(Effect(db, log, Recovering(k, true)), mined, REPLAY))
  {
    var r := db.rows[k];
    hide RowsOk, LeasesOk, HashesApart, ClaimsApart, AwardsOk, FailuresOk, MinedOk, Advance, Finish;
    hide ChainAgrees, LedgerAgrees;
    hide AfterRecoveryVerdict, ObserveFor, Delivered;
    FreshCalls(db, log, mined, k);
    Next(Effect(db, log, Recovering(k, true)), mined, REPLAY);
    if r.status == Projected {
      FinishedStays(Effect(db, log, Finished(k, Success(r.amount, r.hash))), mined, REPLAY - 1);
    } else {
      Next(Effect(db, log, RecoverVerifying(r)), mined, REPLAY - 1);
      TruthIsExact(db, mined, r);
      if ObserveFor(mined, Truth, r) == Valid && r.status != Failed {
        ValidRecoveryConfirms(r);
        ConfirmingEnds(db, log, mined, r, REPLAY - 2);
      } else {
        OtherRecoveryVerdictEnds(db, log, mined, r, ObserveFor(mined, Truth, r), REPLAY - 2);
      }
    }
  }

  /** From any reachable state, a fault-free recovery that demands fresh evidence
      ends projected exactly when `FreshDelivers` holds, whatever the status: it
      never takes a signed row on trust. */
  lemma FreshRecoveryIsExact(events: seq<Event>, pid: nat, k: Key)
    requires pid !in Run(INITIAL, events).procs
    requires k in Run(INITIAL, events).db.rows && Run(INITIAL, events).db.rows[k].hash.Some?
    ensures var s := Run(INITIAL, events);
            var u := FreshlyRecovered(s, pid, k);
            && u.mined == s.mined && pid in u.procs
            && EndedAs(s.db, s.db.rows[k], s.log, FreshDelivers(s.db, s.mined, s.db.rows[k]),
                       Effect(u.db, u.log, u.procs[pid]))
  {
    Reachable(events);
    var s := Run(INITIAL, events);
    hide Run, TablesOk, LogOk, FailuresOk, MinedOk, ProcessOk, OneBroadcaster, MinedLogged;
    hide Advance, Finish, Drive, EndedAs, FreshDelivers;
    SavedRowOk(s.db, k);
    DriveIsFinish(Step(s, Recovery(pid, k, true)), pid, REPLAY);
    FreshEnds(s.db, s.log, s.mined, k);
  }

  // ----- convergence -----

  /** From any state reached without a takeover of the record's claim with
      another amount: hash saved, transfer mined, row not failed. One fault-free
      replay of the record projects it and reports the claimed amount; unless it
      was projected before, the ledger then has exactly the one row of that
      amount for it. What happened to other keys, or which evidence was skipped,
      makes no difference. */
  lemma ReplayConverges(events: seq<Event>, pid: nat, session: Session)
    requires CarefulRun(Watch(KeyOf(session), false), INITIAL, events) && pid !in Run(INITIAL, events).procs
    requires SavedFor(Run(INITIAL, events).db, session)
    requires var s := Run(INITIAL, events);
             var r := s.db.rows[KeyOf(session)];
             r.hash.Some? && Moved(s.mined, r.hash.value) && r.status != Failed
    ensures var s := Run(INITIAL, events);
            var r := s.db.rows[KeyOf(session)];
            var u := Replayed(s, pid, session);
            && u.log == s.log && u.mined == s.mined
            && KeyOf(session) in u.db.rows && u.db.rows[KeyOf(session)].status == Projected
            && (r.status != Projected ==> Delivered(s.db, u.db, r))
            && u.procs[pid] == Finished(KeyOf(session), Success(r.amount, r.hash))
  {
    var s := Run(INITIAL, events);
    CarefulReachable(Watch(KeyOf(session), false), events);
    hide Run, CarefulRun, Replayed, Inv, ProvenOk, CareOk, Delivered;
    ReplayIsExact(events, pid, session);
    CarefulDelivers(s, KeyOf(session));
    SavedKey(s, KeyOf(session));
  }

  lemma SavedKey(s: State, k: Key)
    requires Inv(s) && k in s.db.rows
    ensures KeyOf(s.db.rows[k].session) == k
  {
    hide LeasesOk, HashesApart, ClaimsApart, AwardsOk, LogOk, MinedOk, FailuresOk, MinedLogged;
    hide ProcessOk, OneBroadcaster;
    assert RowOk(k, s.db.rows[k]);
  }

  /** The key's ledger rows agree with its claim. */
  lemma CarefulLedgerAgrees(s: State, k: Key)
    requires Inv(s) && LedgerOk(Watch(k, false), s.db, s.mined)
    requires k in s.db.rows && s.db.rows[k].hash.Some?
    ensures LedgerAgrees(s.db, s.db.rows[k].hash.value, s.db.rows[k].amount)
  {
    hide ClaimsApart, LogOk, FailuresOk, MinedOk, MinedLogged, ProcessOk, OneBroadcaster, ProvenOk;
    var r := s.db.rows[k];
    forall i | 0 <= i < |s.db.awards| && s.db.awards[i].hash == r.hash.value ensures s.db.awards[i].amount == r.amount {
      assert AwardOk(s.db, s.db.awards[i]);
      assert AwardKey(s.db.awards[i]) == k;
    }
  }

  /** A successful transfer of the key is of the claimed amount. */
  lemma MovedIsClaimed(s: State, k: Key)
    requires Inv(s) && LedgerOk(Watch(k, false), s.db, s.mined)
    requires k in s.db.rows && s.db.rows[k].hash.Some? && Moved(s.mined, s.db.rows[k].hash.value)
    ensures ChainAgrees(s.mined, s.db.rows[k].hash.value, s.db.rows[k].amount)
  {
    hide ClaimsApart, AwardsOk, LogOk, FailuresOk, MinedLogged, ProcessOk, OneBroadcaster, ProvenOk, BackedOk;
    var h := s.db.rows[k].hash.value;
    assert IsLeased(s.db, s.mined[h].key, h, s.mined[h].amount, s.mined[h].wallet);
    assert s.mined[h].key == k;
  }

  lemma CarefulDelivers(s: State, k: Key)
    requires Inv(s) && LedgerOk(Watch(k, false), s.db, s.mined)
    requires k in s.db.rows && s.db.rows[k].hash.Some? && Moved(s.mined, s.db.rows[k].hash.value)
    requires s.db.rows[k].status != Failed
    ensures Delivers(s.db, s.mined, s.db.rows[k])
  {
    hide Inv, LedgerAgrees, ChainAgrees, LedgerOk;
    CarefulLedgerAgrees(s, k);
    MovedIsClaimed(s, k);
  }

  /** Once delivered, every further replay reports the same success and changes
      no table, no transfer and no ledger row. */
  lemma ReplayAgainChangesNothing(events: seq<Event>, pid: nat, session: Session)
    requires pid !in Run(INITIAL, events).procs && SavedFor(Run(INITIAL, events).db, session)
    requires var r := Run(INITIAL, events).db.rows[KeyOf(session)]; r.status == Projected && r.hash.Some?
    ensures var s := Run(INITIAL, events);
            var r := s.db.rows[KeyOf(session)];
            Replayed(s, pid, session)
                == s.(procs := s.procs[pid := Finished(KeyOf(session), Success(r.amount, r.hash))])
  {
    var s := Run(INITIAL, events);
    Reachable(events);
    SavedKey(s, KeyOf(session));
    ReplayIsExact(events, pid, session);
    ReplayKeepsOthers(s, pid, session);
  }

  lemma ReplayKeepsOthers(s: State, pid: nat, session: Session)
    requires pid !in s.procs
    ensures var u := Replayed(s, pid, session);
            pid in u.procs && u.procs == s.procs[pid := u.procs[pid]]
  {
    hide Finish;
    DriveIsFinish(Step(s, Replay(pid, session)), pid, REPLAY);
  }

  // ----- where they part -----

  /** A row left in `submitting` with its hash is projected and reported as a
      success by a replay in any run, whatever the chain says. */
  lemma UnprovenReplayAsksNothing(events: seq<Event>, pid: nat, session: Session)
    requires pid !in Run(INITIAL, events).procs && SavedFor(Run(INITIAL, events).db, session)
    requires var t := Run(INITIAL, events).db;
             var r := t.rows[KeyOf(session)];
             Unproven(r) && LedgerAgrees(t, r.hash.value, r.amount)
    ensures var s := Run(INITIAL, events);
            var r := s.db.rows[KeyOf(session)];
            var u := Replayed(s, pid, session);
            && Delivered(s.db, u.db, r) && u.procs[pid] == Finished(KeyOf(session), Success(r.amount, r.hash))
            && SnapAward(r) in u.db.awards
  {
    var s := Run(INITIAL, events);
    Reachable(events);
    SavedKey(s, KeyOf(session));
    ReplayIsExact(events, pid, session);
    DeliveredHasAward(s.db, Replayed(s, pid, session).db, s.db.rows[KeyOf(session)]);
  }

  predicate AllMoved(awards: seq<Award>, mined: map<Hash, Receipt>) {
    forall a :: a in awards ==> Moved(mined, a.hash)
  }

  predicate KeyMoved(awards: seq<Award>, mined: map<Hash, Receipt>, k: Key) {
    forall a :: a in awards && AwardKey(a) == k ==> Moved(mined, a.hash)
  }

  lemma CareIsKeyMoved(s: State, k: Key)
    requires LedgerOk(Watch(k, true), s.db, s.mined)
    ensures KeyMoved(s.db.awards, s.mined, k)
  {
    forall a | a in s.db.awards && AwardKey(a) == k ensures Moved(s.mined, a.hash) {
      var i :| 0 <= i < |s.db.awards| && s.db.awards[i] == a;
    }
  }

  lemma MoreMoved(awards: seq<Award>, a: Award, mined: map<Hash, Receipt>, k: Key)
    requires KeyMoved(awards, mined, k) && AwardKey(a) == k
    ensures KeyMoved(awards + [a], mined, k) <==> Moved(mined, a.hash)
  {
    assert a in awards + [a];
  }

  lemma SnapAwardIs(snap: Row)
    requires snap.hash.Some?
    ensures SnapAward(snap).hash == snap.hash.value && AwardKey(SnapAward(snap)) == KeyOf(snap.session)
  {}

  lemma DeliveredHasAward(t: Tables, u: Tables, r: Row)
    requires Delivered(t, u, r)
    ensures SnapAward(r) in u.awards
  {
    hide SnapAward, WithHash;
    WithHashFinds(u.awards, r.hash.value);
    assert SnapAward(r) in WithHash(u.awards, r.hash.value);
  }

  /** A delivery that is not from an unproven row knows the transfer moved. */
  lemma DeliveryIsProven(s: State, k: Key)
    requires LedgerOk(Watch(k, true), s.db, s.mined) && k in s.db.rows
    requires Delivers(s.db, s.mined, s.db.rows[k]) && !Unproven(s.db.rows[k])
    ensures Moved(s.mined, s.db.rows[k].hash.value)
  {
    hide AmountsOk, BackedOk, LedgerAgrees;
  }

  lemma UnprovenDelivers(s: State, k: Key)
    requires Inv(s) && LedgerOk(Watch(k, true), s.db, s.mined)
    requires k in s.db.rows && Unproven(s.db.rows[k])
    ensures Delivers(s.db, s.mined, s.db.rows[k])
  {
    hide Inv, ProvenOk, LedgerAgrees;
    assert LedgerOk(Watch(k, false), s.db, s.mined) by { hide AmountsOk, BackedOk; LessWatched(s, k); }
    CarefulLedgerAgrees(s, k);
  }

  lemma LessWatched(s: State, k: Key)
    requires LedgerOk(Watch(k, true), s.db, s.mined)
    ensures LedgerOk(Watch(k, false), s.db, s.mined)
  {}

  /** What projecting a saved row does to the backing of its key. */
  lemma EndedBacked(s: State, k: Key, f: Effect)
    requires Inv(s) && LedgerOk(Watch(k, true), s.db, s.mined)
    requires k in s.db.rows && s.db.rows[k].hash.Some? && KeyOf(s.db.rows[k].session) == k
    requires Ended(s.db, s.mined, s.db.rows[k], s.log, f)
    ensures KeyMoved(f.db.awards, s.mined, k) <==> !Unproven(s.db.rows[k]) || Moved(s.mined, s.db.rows[k].hash.value)
  {
    hide Inv, LedgerOk, SnapAward, WithHash, Delivers, KeyMoved, Delivered, Moved;
    var r := s.db.rows[k];
    CareIsKeyMoved(s, k);
    if Unproven(r) {
      UnprovenDelivers(s, k);
    }
    if Delivers(s.db, s.mined, r) && r.status != Projected {
      if !Unproven(r) {
        DeliveryIsProven(s, k);
      }
      SnapAwardIs(r);
      MoreMoved(s.db.awards, SnapAward(r), s.mined, k);
      DeliveredHasAward(s.db, f.db, r);
      DeliveredAwards(s.db, f.db, r);
      KeyMovedHas(f.db.awards, s.mined, k, SnapAward(r));
    }
  }

  lemma DeliveredAwards(t: Tables, u: Tables, r: Row)
    requires Delivered(t, u, r)
    ensures u.awards == t.awards || u.awards == t.awards + [SnapAward(r)]
  {}

  lemma KeyMovedHas(awards: seq<Award>, mined: map<Hash, Receipt>, k: Key, a: Award)
    requires a in awards && AwardKey(a) == k
    ensures KeyMoved(awards, mined, k) ==> Moved(mined, a.hash)
  {}

  /** When a replay keeps the ledger backed, exactly: from any state in which the
      calls for the key were careful, the ledger rows of the key are backed
      afterwards if and only if the row was not left in `submitting` with its
      hash, or its transfer had in fact succeeded. */
  lemma ReplayKeepsBacking(events: seq<Event>, pid: nat, session: Session)
    requires CarefulRun(Watch(KeyOf(session), true), INITIAL, events) && pid !in Run(INITIAL, events).procs
    requires SavedFor(Run(INITIAL, events).db, session) && Run(INITIAL, events).db.rows[KeyOf(session)].hash.Some?
    ensures var s := Run(INITIAL, events);
            var r := s.db.rows[KeyOf(session)];
            var u := Replayed(s, pid, session);
            KeyMoved(u.db.awards, u.mined, KeyOf(session)) <==> !Unproven(r) || Moved(s.mined, r.hash.value)
  {
    var s := Run(INITIAL, events);
    CarefulReachable(Watch(KeyOf(session), true), events);
    hide Run, CarefulRun, Inv, LedgerOk, Replayed, Ended, KeyMoved;
    SavedKey(s, KeyOf(session));
    ReplayExact(s, pid, session);
    var u := Replayed(s, pid, session);
    EndedBacked(s, KeyOf(session), Effect(u.db, u.log, u.procs[pid]));
  }

  /** The same for a recovery that does not demand fresh evidence. */
  lemma RecoveryKeepsBacking(events: seq<Event>, pid: nat, k: Key)
    requires CarefulRun(Watch(k, true), INITIAL, events) && pid !in Run(INITIAL, events).procs
    requires k in Run(INITIAL, events).db.rows && Run(INITIAL, events).db.rows[k].hash.Some?
    ensures var s := Run(INITIAL, events);
            var r := s.db.rows[k];
            var u := Recovered(s, pid, k);
            KeyMoved(u.db.awards, u.mined, k) <==> !Unproven(r) || Moved(s.mined, r.hash.value)
  {
    var s := Run(INITIAL, events);
    CarefulReachable(Watch(k, true), events);
    hide Run, CarefulRun, Inv, LedgerOk, Recovered, Ended, KeyMoved;
    SavedKey(s, k);
    RecoveryExact(s, pid, k);
    var u := Recovered(s, pid, k);
    EndedBacked(s, k, Effect(u.db, u.log, u.procs[pid]));
  }

  /** Other keys' ledger rows stay backed if they were. */
  lemma OthersMoved(s: State, k: Key, f: Effect)
    requires forall l: Key :: LedgerOk(Watch(l, true), s.db, s.mined)
    requires k in s.db.rows && s.db.rows[k].hash.Some? && KeyOf(s.db.rows[k].session) == k
    requires Ended(s.db, s.mined, s.db.rows[k], s.log, f)
    ensures AllMoved(f.db.awards, s.mined) <==> KeyMoved(f.db.awards, s.mined, k)
  {
    var r := s.db.rows[k];
    SnapAwardIs(r);
    hide LedgerOk, Delivers, WithHash, SnapAward;
    forall a | a in f.db.awards && AwardKey(a) != k ensures Moved(s.mined, a.hash) {
      assert a in s.db.awards;
      CareIsKeyMoved(s, AwardKey(a));
    }
  }

  /** Over the whole ledger: where all calls were careful, one more replay of any
      saved record keeps every ledger row backed exactly under that condition. */
  lemma ReplayKeepsLedgerBacked(events: seq<Event>, pid: nat, session: Session)
    requires CarefulForAll(INITIAL, events) && pid !in Run(INITIAL, events).procs
    requires SavedFor(Run(INITIAL, events).db, session) && Run(INITIAL, events).db.rows[KeyOf(session)].hash.Some?
    ensures var s := Run(INITIAL, events);
            var r := s.db.rows[KeyOf(session)];
            var u := Replayed(s, pid, session);
            AllMoved(u.db.awards, u.mined) <==> !Unproven(r) || Moved(s.mined, r.hash.value)
  {
    var s := Run(INITIAL, events);
    hide Run, CarefulRun, Inv, LedgerOk, Replayed, Ended, KeyMoved, AllMoved;
    ReplayKeepsBacking(events, pid, session);
    Reachable(events);
    SavedKey(s, KeyOf(session));
    ReplayExact(s, pid, session);
    forall k: Key ensures LedgerOk(Watch(k, true), s.db, s.mined) {
      CarefulReachable(Watch(k, true), events);
    }
    var u := Replayed(s, pid, session);
    OthersMoved(s, KeyOf(session), Effect(u.db, u.log, u.procs[pid]));
  }

  /** A recovery that does not demand fresh evidence does the same. */
  lemma RecoveryKeepsLedgerBacked(events: seq<Event>, pid: nat, k: Key)
    requires CarefulForAll(INITIAL, events) && pid !in Run(INITIAL, events).procs
    requires k in Run(INITIAL, events).db.rows && Run(INITIAL, events).db.rows[k].hash.Some?
    ensures var s := Run(INITIAL, events);
            var r := s.db.rows[k];
            var u := Recovered(s, pid, k);
            AllMoved(u.db.awards, u.mined) <==> !Unproven(r) || Moved(s.mined, r.hash.value)
  {
    var s := Run(INITIAL, events);
    hide Run, CarefulRun, Inv, LedgerOk, Recovered, Ended, KeyMoved, AllMoved;
    RecoveryKeepsBacking(events, pid, k);
    Reachable(events);
    SavedKey(s, k);
    RecoveryExact(s, pid, k);
    forall l: Key ensures LedgerOk(Watch(l, true), s.db, s.mined) {
      CarefulReachable(Watch(l, true), events);
    }
    var u := Recovered(s, pid, k);
    OthersMoved(s, k, Effect(u.db, u.log, u.procs[pid]));
  }

  // ----- a claim taken over -----

  /** The claiming process acquires, signs and broadcasts; the transfer succeeds;
      the process goes on to its end. No call fails. */
  function Broadcasted(s: State, pid: nat): State { Drive(s, pid, 3) }

  function PaidOut(s: State, pid: nat): State {
    Drive(Step(Broadcasted(s, pid), Mine(|s.log|, true)), pid, 6)
  }

  lemma NoCalls(f: Effect, mined: map<Hash, Receipt>)
    ensures Finish(f, mined, 0) == f
  {}

  lemma ClaimHoldSign(db: Tables, log: seq<Broadcast>, mined: map<Hash, Receipt>, i: Intent)
    requires i.amount > 0 && KeyOf(i.session) !in db.leases
    requires ClaimOutcome(db, i.session, i.amount, i.wallet).Acquired?
    ensures var k := KeyOf(i.session);
            var held := Claimed(db, i.session, i.amount, i.wallet);
            var signed := PreparedTables(held, k, i.amount, i.wallet);
            && Advance(db, log, mined, Claiming(i), Ok) == Effect(held, log, Holding(i))
            && Advance(held, log, mined, Holding(i), Ok) == Effect(signed, log, Broadcasting(i, db.nextHash))
            && Advance(signed, log, mined, Broadcasting(i, db.nextHash), Ok)
                 == Effect(signed, log + [Broadcast(k, db.nextHash, i.amount, i.wallet)],
                           SubmittingLease(i, db.nextHash))
  {
    hide Collides, Record, Recover, ObserveFor, Project, SavedHash;
  }

  lemma UnleasedClaim(s: State, i: Intent)
    requires Inv(s) && ClaimOutcome(s.db, i.session, i.amount, i.wallet).Acquired?
    ensures KeyOf(i.session) !in s.db.leases
  {
    hide HashesApart, ClaimsApart, AwardsOk, FailuresOk, LogOk, MinedOk, MinedLogged, ProcessOk;
    hide OneBroadcaster, Collides;
  }

  lemma ClaimedAndSigned(db: Tables, i: Intent)
    requires ClaimOutcome(db, i.session, i.amount, i.wallet).Acquired? && KeyOf(i.session) !in db.leases
    requires i.amount > 0
    ensures var k := KeyOf(i.session);
            var r := ClaimOutcome(db, i.session, i.amount, i.wallet).row;
            var u := PreparedTables(Claimed(db, i.session, i.amount, i.wallet), k, i.amount, i.wallet);
            && u.awards == db.awards && k in u.rows && u.rows[k].amount == r.amount && u.rows[k].wallet == r.wallet
            && u.rows[k].status == Submitting && u.rows[k].hash == Some(db.nextHash)
  {
    hide Collides;
  }

  lemma BroadcastedState(s: State, pid: nat)
    requires Inv(s) && pid in s.procs && s.procs[pid].Claiming?
    requires var i := s.procs[pid].intent; i.amount > 0 && ClaimOutcome(s.db, i.session, i.amount, i.wallet).Acquired?
    ensures var i := s.procs[pid].intent;
            var k := KeyOf(i.session);
            Broadcasted(s, pid)
              == State(PreparedTables(Claimed(s.db, i.session, i.amount, i.wallet), k, i.amount, i.wallet),
                       s.log + [Broadcast(k, s.db.nextHash, i.amount, i.wallet)], s.mined,
                       s.procs[pid := SubmittingLease(i, s.db.nextHash)])
  {
    var i := s.procs[pid].intent;
    UnleasedClaim(s, i);
    hide Inv, Drive, Finish, Advance, ClaimOutcome, Claimed, PreparedTables;
    var f := Effect(s.db, s.log, s.procs[pid]);
    var held := Effect(Claimed(s.db, i.session, i.amount, i.wallet), s.log, Holding(i));
    var signed := Effect(PreparedTables(held.db, KeyOf(i.session), i.amount, i.wallet), s.log,
                         Broadcasting(i, s.db.nextHash));
    DriveIsFinish(s, pid, 3);
    ClaimHoldSign(s.db, s.log, s.mined, i);
    Next(f, s.mined, 3);
    Next(held, s.mined, 2);
    Next(signed, s.mined, 1);
    NoCalls(Advance(signed.db, signed.log, s.mined, signed.next, Ok), s.mined);
  }

  lemma {:induction false} DriveKeeps(s: State, pid: nat, calls: nat)
    requires Inv(s)
    ensures Inv(Drive(s, pid, calls))
    decreases calls
  {
    hide Inv, Step;
    if calls > 0 && pid in s.procs {
      StepKeeps(s, Act(pid, Fair(s.procs[pid])));
      DriveKeeps(Step(s, Act(pid, Fair(s.procs[pid]))), pid, calls - 1);
    }
  }

  /** A hash not yet given out is neither mined nor in the ledger. */
  lemma FreshHashUnused(s: State)
    requires Inv(s)
    ensures s.db.nextHash !in s.mined && forall i :: 0 <= i < |s.db.awards| ==> s.db.awards[i].hash != s.db.nextHash
  {
    hide RowsOk, HashesApart, ClaimsApart, FailuresOk, LogOk, MinedLogged, ProcessOk, OneBroadcaster;
    forall i | 0 <= i < |s.db.awards| ensures s.db.awards[i].hash != s.db.nextHash {
      assert AwardOk(s.db, s.db.awards[i]);
    }
    forall h | h in s.mined ensures h < s.db.nextHash {
      assert IsLeased(s.db, s.mined[h].key, h, s.mined[h].amount, s.mined[h].wallet);
    }
  }

  /** What a submission that meets no fault leaves. */
  ghost predicate PaysOut(t: Tables, u: Tables, i: Intent, h: Hash) {
    var k := KeyOf(i.session);
    && k in t.rows && k in u.rows && u.rows[k].status == Projected
    && u.rows[k].amount == t.rows[k].amount && u.rows[k].hash == Some(h)
    && WithHash(u.awards, h) == [AwardFor(i.session, i.amount, h, i.wallet)]
    && (u.awards == t.awards || u.awards == t.awards + [AwardFor(i.session, i.amount, h, i.wallet)])
  }

  /** The leased transfer's row after its two hash writes and its confirmation. */
  lemma SubmittedRows(db: Tables, mined: map<Hash, Receipt>, i: Intent, h: Hash)
    requires TablesOk(db) && FailuresOk(db, mined) && LeasedIntent(db, i, h)
    requires db.rows[KeyOf(i.session)].status == Submitting
    ensures var k := KeyOf(i.session);
            var sent := LeaseSubmittedTables(db, k, h);
            && SavedHash(sent, k, h).Some?
            && var u := ConfirmedRow(SavedHash(sent, k, h).value, k);
               && TablesOk(u) && SnapOk(u, LocalRow(i, h, Submitted)) && u.awards == db.awards
               && u.rows[k] == db.rows[k].(status := Confirmed, outcome := ConfirmedOutcome)
  {
    var k := KeyOf(i.session);
    LeasedRow(db, k);
    hide TablesOk, FailuresOk, TablesExtend, Restatus, LeasedIntent;
    var sent := LeaseSubmittedTables(db, k, h);
    LeaseSubmittedKeeps(db, mined, k, h) by { LeaseOfIntent(db, i, h); }
    SentRow(db, i, h);
    SavedWrite(sent, mined, k, h);
    var saved := SavedHash(sent, k, h).value;
    RestatusKeeps(sent, mined, k, saved);
    StatusWrites(saved, mined, k);
    RestatusKeeps(saved, mined, k, ConfirmedRow(saved, k));
    ConfirmedLocal(db, sent, i, h);
  }

  lemma LeaseOfIntent(t: Tables, i: Intent, h: Hash)
    requires LeasedIntent(t, i, h)
    ensures KeyOf(i.session) in t.leases && t.leases[KeyOf(i.session)].hash == h
  {}

  lemma SentRow(db: Tables, i: Intent, h: Hash)
    requires LeasesOk(db) && LeasedIntent(db, i, h) && db.rows[KeyOf(i.session)].status == Submitting
    ensures var k := KeyOf(i.session);
            var sent := LeaseSubmittedTables(db, k, h);
            && k in sent.leases && sent.leases[k].hash == h && sent.awards == db.awards
            && k in sent.rows && sent.rows[k] == db.rows[k].(status := Submitted) && sent.rows[k].hash == Some(h)
  {}

  lemma ConfirmedLocal(db: Tables, sent: Tables, i: Intent, h: Hash)
    requires LeasedIntent(db, i, h)
    requires var k := KeyOf(i.session);
             && k in sent.leases && sent.leases[k].hash == h && sent.awards == db.awards
             && k in sent.rows && sent.rows[k] == db.rows[k].(status := Submitted) && sent.rows[k].hash == Some(h)
    ensures var k := KeyOf(i.session);
            && SavedHash(sent, k, h).Some?
            && var u := ConfirmedRow(SavedHash(sent, k, h).value, k);
               && SnapOk(u, LocalRow(i, h, Submitted)) && u.awards == db.awards
               && k in u.rows && u.rows[k] == db.rows[k].(status := Confirmed, outcome := ConfirmedOutcome)
  {}

  lemma SubmissionCalls(db: Tables, log: seq<Broadcast>, mined: map<Hash, Receipt>, i: Intent, h: Hash)
    requires SavedHash(LeaseSubmittedTables(db, KeyOf(i.session), h), KeyOf(i.session), h).Some?
    requires ChainAgrees(mined, h, i.amount) && mined[h].wallet == i.wallet
    ensures var k := KeyOf(i.session);
            var sent := LeaseSubmittedTables(db, k, h);
            var saved := SavedHash(sent, k, h).value;
            var snap := LocalRow(i, h, Submitted);
            && Advance(db, log, mined, SubmittingLease(i, h), Ok) == Effect(sent, log, SavingHash(i, h))
            && Advance(sent, log, mined, SavingHash(i, h), Ok) == Effect(saved, log, Verifying(snap))
            && Advance(saved, log, mined, Verifying(snap), Chain(Truth)) == Effect(saved, log, Confirming(snap))
            && Advance(saved, log, mined, Confirming(snap), Ok) == Effect(ConfirmedRow(saved, k), log, Recording(snap))
  {
    hide LeaseSubmittedTables, ConfirmedRow, Record, Submit, Recover, ClaimOutcome, Claimed;
  }

  lemma SubmissionPaysOut(db: Tables, log: seq<Broadcast>, mined: map<Hash, Receipt>, i: Intent, h: Hash)
    requires TablesOk(db) && FailuresOk(db, mined) && LeasedIntent(db, i, h)
    requires db.rows[KeyOf(i.session)].status == Submitting
    requires ChainAgrees(mined, h, i.amount) && mined[h].wallet == i.wallet && LedgerAgrees(db, h, i.amount)
    ensures var f := Finish(Effect(db, log, SubmittingLease(i, h)), mined, 6);
            && f.log == log && f.next == Finished(KeyOf(i.session), Success(i.amount, Some(h)))
            && PaysOut(db, f.db, i, h)
  {
    var k := KeyOf(i.session);
    var snap := LocalRow(i, h, Submitted);
    SubmittedRows(db, mined, i, h);
    LeasedHash(db, i, h);
    hide TablesOk, FailuresOk, LeasedIntent, Advance, Finish, LeaseSubmittedTables, SavedHash;
    hide ConfirmedRow, ChainAgrees;
    hide Delivered, PaysOut, WithHash, SnapAward;
    SubmissionReaches(db, log, mined, i, h);
    var u := ConfirmedRow(SavedHash(LeaseSubmittedTables(db, k, h), k, h).value, k);
    RecordingDelivers(u, log, mined, snap, 2);
    DeliveredPaysOut(db, u, Finish(Effect(u, log, Recording(snap)), mined, 2).db, i, h);
  }

  lemma SubmissionReaches(db: Tables, log: seq<Broadcast>, mined: map<Hash, Receipt>, i: Intent, h: Hash)
    requires SavedHash(LeaseSubmittedTables(db, KeyOf(i.session), h), KeyOf(i.session), h).Some?
    requires ChainAgrees(mined, h, i.amount) && mined[h].wallet == i.wallet
    ensures var k := KeyOf(i.session);
            var u := ConfirmedRow(SavedHash(LeaseSubmittedTables(db, k, h), k, h).value, k);
            Finish(Effect(db, log, SubmittingLease(i, h)), mined, 6)
              == Finish(Effect(u, log, Recording(LocalRow(i, h, Submitted))), mined, 2)
  {
    hide Advance, Finish, LeaseSubmittedTables, SavedHash, ConfirmedRow, ChainAgrees;
    SubmissionCalls(db, log, mined, i, h);
    var k := KeyOf(i.session);
    var sent := LeaseSubmittedTables(db, k, h);
    var saved := SavedHash(sent, k, h).value;
    var snap := LocalRow(i, h, Submitted);
    Next(Effect(db, log, SubmittingLease(i, h)), mined, 6);
    Next(Effect(sent, log, SavingHash(i, h)), mined, 5);
    Next(Effect(saved, log, Verifying(snap)), mined, 4);
    Next(Effect(saved, log, Confirming(snap)), mined, 3);
  }

  lemma LeasedHash(t: Tables, i: Intent, h: Hash)
    requires TablesOk(t) && LeasedIntent(t, i, h)
    ensures KeyOf(i.session) in t.rows && t.rows[KeyOf(i.session)].hash == Some(h)
  {
    hide RowsOk, HashesApart, ClaimsApart, AwardsOk;
  }

  lemma DeliveredPaysOut(t: Tables, u: Tables, v: Tables, i: Intent, h: Hash)
    requires var k := KeyOf(i.session);
             && k in t.rows && k in u.rows && u.rows[k].amount == t.rows[k].amount && u.awards == t.awards
             && u.rows[k].status == Confirmed && u.rows[k].hash == Some(h)
             && Delivered(u, v, LocalRow(i, h, Submitted))
    ensures PaysOut(t, v, i, h)
  {
    hide WithHash;
  }

  lemma MinedState(u: State, k: Key, h: Hash, amount: nat, wallet: string, n: nat)
    requires |u.log| == n + 1 && u.log[n] == Broadcast(k, h, amount, wallet) && h !in u.mined
    ensures Step(u, Mine(n, true)) == u.(mined := u.mined[h := Receipt(true, k, amount, wallet)])
  {}

  /** The leased intent of a process that just broadcast. */
  lemma SubmittingIsLeased(s: State, pid: nat)
    requires Inv(s) && pid in s.procs && s.procs[pid].SubmittingLease?
    ensures TablesOk(s.db) && FailuresOk(s.db, s.mined) && LeasedIntent(s.db, s.procs[pid].intent, s.procs[pid].hash)
  {
    hide TablesOk, LogOk, MinedOk, FailuresOk, OneBroadcaster, MinedLogged, LeasedIntent;
    assert ProcessOk(s.db, s.log, s.mined, s.procs[pid]);
  }

  /** The state after the broadcast was mined, and that it is one the submission
      can go on from. */
  lemma BroadcastMined(s: State, pid: nat)
    requires Inv(s) && pid in s.procs && s.procs[pid].Claiming?
    requires var i := s.procs[pid].intent; i.amount > 0 && ClaimOutcome(s.db, i.session, i.amount, i.wallet).Acquired?
    ensures var i := s.procs[pid].intent;
            var k, h := KeyOf(i.session), s.db.nextHash;
            var m := Step(Broadcasted(s, pid), Mine(|s.log|, true));
            && TablesOk(m.db) && FailuresOk(m.db, m.mined) && LeasedIntent(m.db, i, h)
            && m.log == s.log + [Broadcast(k, h, i.amount, i.wallet)]
            && m.mined == s.mined[h := Receipt(true, k, i.amount, i.wallet)]
            && pid in m.procs && m.procs[pid] == SubmittingLease(i, h)
            && m.db == PreparedTables(Claimed(s.db, i.session, i.amount, i.wallet), k, i.amount, i.wallet)
  {
    hide Inv, Step, Drive, PreparedTables, Claimed, ClaimOutcome, TablesOk, FailuresOk, LeasedIntent;
    var i := s.procs[pid].intent;
    BroadcastedState(s, pid);
    DriveKeeps(s, pid, 3);
    FreshHashUnused(s);
    var u := Broadcasted(s, pid);
    MinedState(u, KeyOf(i.session), s.db.nextHash, i.amount, i.wallet, |s.log|);
    StepKeeps(u, Mine(|s.log|, true));
    SubmittingIsLeased(Step(u, Mine(|s.log|, true)), pid);
  }

  /** A process whose transfer is leased and mined, left alone. */
  ghost predicate ReadyToPay(m: State, pid: nat, i: Intent, h: Hash) {
    && TablesOk(m.db) && FailuresOk(m.db, m.mined) && LeasedIntent(m.db, i, h)
    && m.db.rows[KeyOf(i.session)].status == Submitting
    && ChainAgrees(m.mined, h, i.amount) && m.mined[h].wallet == i.wallet && LedgerAgrees(m.db, h, i.amount)
    && pid in m.procs && m.procs[pid] == SubmittingLease(i, h)
  }

  lemma ReadyPays(m: State, pid: nat, i: Intent, h: Hash)
    requires ReadyToPay(m, pid, i, h)
    ensures var u := Drive(m, pid, 6);
            && u.log == m.log && u.mined == m.mined && pid in u.procs
            && u.procs[pid] == Finished(KeyOf(i.session), Success(i.amount, Some(h))) && PaysOut(m.db, u.db, i, h)
  {
    hide Drive, Finish, PaysOut, TablesOk, FailuresOk, LeasedIntent, ChainAgrees, LedgerAgrees;
    SubmissionPaysOut(m.db, m.log, m.mined, i, h);
    DriveIsFinish(m, pid, 6);
  }

  lemma UnusedAgrees(t: Tables, h: Hash, amount: nat)
    requires forall i :: 0 <= i < |t.awards| ==> t.awards[i].hash != h
    ensures LedgerAgrees(t, h, amount)
  {}

  /** The tables right after signing: an open row, and a hash the ledger does
      not know. */
  lemma SignedTables(s: State, i: Intent)
    requires Inv(s) && i.amount > 0 && ClaimOutcome(s.db, i.session, i.amount, i.wallet).Acquired?
    ensures var k := KeyOf(i.session);
            var u := PreparedTables(Claimed(s.db, i.session, i.amount, i.wallet), k, i.amount, i.wallet);
            && k in u.rows && u.rows[k].status == Submitting && LedgerAgrees(u, s.db.nextHash, i.amount)
            && u.awards == s.db.awards
            && u.rows[k].amount == ClaimOutcome(s.db, i.session, i.amount, i.wallet).row.amount
  {
    UnleasedClaim(s, i);
    FreshHashUnused(s);
    hide Inv, LedgerAgrees, Collides;
    ClaimedAndSigned(s.db, i);
    hide PreparedTables, Claimed, ClaimOutcome;
    UnusedAgrees(PreparedTables(Claimed(s.db, i.session, i.amount, i.wallet), KeyOf(i.session), i.amount, i.wallet),
                 s.db.nextHash, i.amount);
  }

  lemma MinedAgrees(mined: map<Hash, Receipt>, h: Hash, k: Key, amount: nat, wallet: string)
    ensures var m := mined[h := Receipt(true, k, amount, wallet)];
            ChainAgrees(m, h, amount) && Moved(m, h) && m[h].wallet == wallet
  {}

  lemma BroadcastIsReady(s: State, pid: nat)
    requires Inv(s) && pid in s.procs && s.procs[pid].Claiming?
    requires var i := s.procs[pid].intent; i.amount > 0 && ClaimOutcome(s.db, i.session, i.amount, i.wallet).Acquired?
    ensures ReadyToPay(Step(Broadcasted(s, pid), Mine(|s.log|, true)), pid, s.procs[pid].intent, s.db.nextHash)
  {
    hide Inv, Step, PreparedTables, Claimed, ClaimOutcome, TablesOk, FailuresOk, LeasedIntent, Broadcasted;
    hide LedgerAgrees, ChainAgrees;
    var i := s.procs[pid].intent;
    SignedTables(s, i);
    BroadcastMined(s, pid);
    MinedAgrees(s.mined, s.db.nextHash, KeyOf(i.session), i.amount, i.wallet);
  }

  lemma PaysOutFields(t: Tables, u: Tables, i: Intent, h: Hash)
    requires PaysOut(t, u, i, h)
    ensures var k := KeyOf(i.session);
            && k in t.rows && k in u.rows && u.rows[k].status == Projected && u.rows[k].amount == t.rows[k].amount
            && WithHash(u.awards, h) == [AwardFor(i.session, i.amount, h, i.wallet)]
            && (u.awards == t.awards || u.awards == t.awards + [AwardFor(i.session, i.amount, h, i.wallet)])
  {
    hide WithHash, AwardFor;
  }

  /** Any reachable state, any process about to claim whose claim is acquired:
      left alone, with its transfer mined, it reports a success and writes a
      ledger row of its own amount, against a row that keeps its own. */
  lemma TakeoverReportsItsOwnAmount(events: seq<Event>, pid: nat)
    requires pid in Run(INITIAL, events).procs && Run(INITIAL, events).procs[pid].Claiming?
    requires var s := Run(INITIAL, events);
             var i := s.procs[pid].intent;
             i.amount > 0 && ClaimOutcome(s.db, i.session, i.amount, i.wallet).Acquired?
    ensures var s := Run(INITIAL, events);
            var i := s.procs[pid].intent;
            var r := ClaimOutcome(s.db, i.session, i.amount, i.wallet).row;
            var k, h := KeyOf(i.session), s.db.nextHash;
            var u := PaidOut(s, pid);
            && u.log == s.log + [Broadcast(k, h, i.amount, i.wallet)] && Moved(u.mined, h)
            && pid in u.procs && u.procs[pid] == Finished(k, Success(i.amount, Some(h)))
            && k in u.db.rows && u.db.rows[k].status == Projected && u.db.rows[k].amount == r.amount
            && WithHash(u.db.awards, h) == [AwardFor(i.session, i.amount, h, i.wallet)]
            && (u.db.awards == s.db.awards || u.db.awards == s.db.awards + [AwardFor(i.session, i.amount, h, i.wallet)])
  {
    Reachable(events);
    var s := Run(INITIAL, events);
    var i := s.procs[pid].intent;
    hide Run, Inv, Step, PreparedTables, Claimed, ClaimOutcome, TablesOk, FailuresOk, LeasedIntent;
    hide Broadcasted, PaidOut;
    hide PaysOut, WithHash, AwardFor;
    hide ReadyToPay, Drive, Moved, LedgerAgrees, ChainAgrees;
    SignedTables(s, i);
    BroadcastMined(s, pid);
    MinedAgrees(s.mined, s.db.nextHash, KeyOf(i.session), i.amount, i.wallet);
    BroadcastIsReady(s, pid);
    var m := Step(Broadcasted(s, pid), Mine(|s.log|, true));
    ReadyPays(m, pid, i, s.db.nextHash);
    PaidOutIs(s, pid);
    PaysOutFields(m.db, PaidOut(s, pid).db, i, s.db.nextHash);
  }

  lemma PaidOutIs(s: State, pid: nat)
    ensures PaidOut(s, pid) == Drive(Step(Broadcasted(s, pid), Mine(|s.log|, true)), pid, 6)
  {
    hide Drive, Step, Broadcasted;
  }

  lemma ZeroCalls(db: Tables, log: seq<Broadcast>, mined: map<Hash, Receipt>, i: Intent)
    requires i.amount == 0 && ClaimOutcome(db, i.session, i.amount, i.wallet).Acquired?
    ensures var k := KeyOf(i.session);
            var held := Claimed(db, i.session, i.amount, i.wallet);
            && Advance(db, log, mined, Claiming(i), Ok) == Effect(held, log, Holding(i))
            && Advance(held, log, mined, Holding(i), Ok) == Effect(held, log, ProjectingZero(k))
            && Advance(held, log, mined, ProjectingZero(k), Ok)
                 == Effect(ProjectedRow(held, k), log, Finished(k, Success(0, None)))
  {
    hide Collides, Record, Recover, ObserveFor, Project, SavedHash, ProjectedRow;
  }

  lemma ZeroEnds(db: Tables, log: seq<Broadcast>, mined: map<Hash, Receipt>, i: Intent, calls: nat)
    requires i.amount == 0 && ClaimOutcome(db, i.session, i.amount, i.wallet).Acquired? && calls >= 3
    ensures var k := KeyOf(i.session);
            Finish(Effect(db, log, Claiming(i)), mined, calls)
              == Effect(ProjectedRow(Claimed(db, i.session, i.amount, i.wallet), k), log, Finished(k, Success(0, None)))
  {
    hide Advance, Finish, ClaimOutcome, Claimed, ProjectedRow;
    var k := KeyOf(i.session);
    var held := Claimed(db, i.session, i.amount, i.wallet);
    ZeroCalls(db, log, mined, i);
    Next(Effect(db, log, Claiming(i)), mined, calls);
    Next(Effect(held, log, Holding(i)), mined, calls - 1);
    Next(Effect(held, log, ProjectingZero(k)), mined, calls - 2);
    FinishedStays(Effect(ProjectedRow(held, k), log, Finished(k, Success(0, None))), mined, calls - 3);
  }

  lemma ZeroRow(db: Tables, i: Intent)
    requires ClaimOutcome(db, i.session, i.amount, i.wallet).Acquired?
    ensures var k := KeyOf(i.session);
            var u := ProjectedRow(Claimed(db, i.session, i.amount, i.wallet), k);
            k in u.rows && u.rows[k].amount == ClaimOutcome(db, i.session, i.amount, i.wallet).row.amount
  {
    hide Collides;
  }

  lemma ZeroPaidOut(s: State, pid: nat)
    requires pid in s.procs && s.procs[pid].Claiming?
    requires var i := s.procs[pid].intent; i.amount == 0 && ClaimOutcome(s.db, i.session, i.amount, i.wallet).Acquired?
    ensures var i := s.procs[pid].intent;
            var u := PaidOut(s, pid);
            && u.db == ProjectedRow(Claimed(s.db, i.session, i.amount, i.wallet), KeyOf(i.session))
            && pid in u.procs && u.procs[pid] == Finished(KeyOf(i.session), Success(0, None))
  {
    hide Finish, Drive, Claimed, ClaimOutcome, ProjectedRow, Advance;
    var i := s.procs[pid].intent;
    DriveIsFinish(s, pid, 3);
    ZeroEnds(s.db, s.log, s.mined, i, 3);
    var u := Broadcasted(s, pid);
    assert Step(u, Mine(|s.log|, true)) == u;
    DriveIsFinish(u, pid, 6);
    FinishedStays(Effect(u.db, u.log, u.procs[pid]), u.mined, 6);
  }

  /** A success carries the amount first claimed, exactly: from any reachable
      state and any acquired claim, zero awards included, the process left alone
      reports the amount of the row if and only if it claims that amount. */
  lemma TakeoverReportsTheClaimIff(events: seq<Event>, pid: nat)
    requires pid in Run(INITIAL, events).procs && Run(INITIAL, events).procs[pid].Claiming?
    requires var s := Run(INITIAL, events);
             var i := s.procs[pid].intent;
             ClaimOutcome(s.db, i.session, i.amount, i.wallet).Acquired?
    ensures var s := Run(INITIAL, events);
            var i := s.procs[pid].intent;
            var r := ClaimOutcome(s.db, i.session, i.amount, i.wallet).row;
            var k := KeyOf(i.session);
            var u := PaidOut(s, pid);
            && pid in u.procs && u.procs[pid].Finished? && u.procs[pid].result.Success? && k in u.db.rows
            && (u.procs[pid].result.amount == u.db.rows[k].amount <==> i.amount == r.amount)
  {
    var s := Run(INITIAL, events);
    var i := s.procs[pid].intent;
    hide Run, PaidOut, ClaimOutcome, Claimed, ProjectedRow, WithHash;
    if i.amount > 0 {
      TakeoverReportsItsOwnAmount(events, pid);
    } else {
      ZeroPaidOut(s, pid);
      ZeroRow(s.db, i);
    }
  }

  // ----- two such runs -----

  /** A process signs the transfer of a claim and dies before broadcasting it. */
  function SignedAndLost(session: Session, amount: nat, wallet: string): seq<Event> {
    [Replay(0, session), Act(0, Ok), Act(0, Priced(amount, wallet)), Act(0, Ok), Act(0, Ok), Crash(0)]
  }

  lemma RunStep(s: State, events: seq<Event>, e: Event)
    ensures Run(s, events + [e]) == Step(Run(s, events), e)
  {
    assert (events + [e])[..|events + [e]| - 1] == events;
  }

  lemma PricedState(session: Session, amount: nat, wallet: string)
    requires amount <= CAP
    ensures Run(INITIAL, [Replay(0, session), Act(0, Ok), Act(0, Priced(amount, wallet))])
              == INITIAL.(procs := map[0 := Claiming(Intent(session, amount, wallet))])
  {
    hide Run;
    EmptyRun();
    var e0, e1, e2 := Replay(0, session), Act(0, Ok), Act(0, Priced(amount, wallet));
    RunStep(INITIAL, [], e0);
    assert [] + [e0] == [e0];
    RunStep(INITIAL, [e0], e1);
    RunStep(INITIAL, [e0, e1], e2);
    assert [e0] + [e1] == [e0, e1] && [e0, e1] + [e2] == [e0, e1, e2];
    assert Run(INITIAL, [e0]) == INITIAL.(procs := map[0 := LookingUp(session)]);
    assert Run(INITIAL, [e0, e1]) == INITIAL.(procs := map[0 := Pricing(session)]);
  }

  lemma EmptyRun()
    ensures Run(INITIAL, []) == INITIAL
  {}

  lemma SignedAndLostState(session: Session, amount: nat, wallet: string)
    requires 0 < amount <= CAP
    ensures var s := Run(INITIAL, SignedAndLost(session, amount, wallet));
            var k := KeyOf(session);
            && s.log == [] && s.mined == map[] && s.procs == map[] && s.db.awards == []
            && k in s.db.rows
            && s.db.rows[k] == Row(session, wallet, amount, Submitting, Some(0), UnknownOutcome, false)
  {
    hide Run, Record, Recover, ObserveFor, Project, SavedHash;
    var events := SignedAndLost(session, amount, wallet);
    PricedState(session, amount, wallet);
    RunStep(INITIAL, events[..3], events[3]);
    RunStep(INITIAL, events[..4], events[4]);
    RunStep(INITIAL, events[..5], events[5]);
    assert events[..3] + [events[3]] == events[..4] && events[..4] + [events[4]] == events[..5]
        && events[..5] + [events[5]] == events;
    assert events[..3] == [Replay(0, session), Act(0, Ok), Act(0, Priced(amount, wallet))];
    var i := Intent(session, amount, wallet);
    assert Run(INITIAL, events[..4]).procs[0] == Holding(i);
  }

  /** A ledger row and a reported success without any broadcast, for every
      session, wallet and payable amount. */
  lemma LedgerRowWithoutTransfer(session: Session, amount: nat, wallet: string)
    requires 0 < amount <= CAP
    ensures var u := Replayed(Run(INITIAL, SignedAndLost(session, amount, wallet)), 1, session);
            && u.log == [] && u.mined == map[]
            && u.db.awards == [AwardFor(session, amount, 0, wallet)]
            && u.procs == map[1 := Finished(KeyOf(session), Success(amount, Some(0)))]
  {
    var events := SignedAndLost(session, amount, wallet);
    SignedAndLostState(session, amount, wallet);
    var s := Run(INITIAL, events);
    ReplayKeepsOthers(s, 1, session);
    hide Run, Replayed, WithHash;
    ReplayIsExact(events, 1, session);
    DeliveredHasAward(s.db, Replayed(s, 1, session).db, s.db.rows[KeyOf(session)]);
    var u := Replayed(s, 1, session);
    assert SnapAward(s.db.rows[KeyOf(session)]) in u.db.awards;
  }

  /** Two processes look the record up before either claims; the policy changes
      between their pricing; the first claims and fails before signing. */
  function StalePrice(session: Session, first: nat, second: nat, wallet: string): seq<Event> {
    [Replay(0, session), Act(0, Ok), Act(0, Priced(first, wallet)),
     Replay(1, session), Act(1, Ok), Act(1, Priced(second, wallet)),
     Act(0, Ok), Act(0, Fails), Act(0, Ok)]
  }

  lemma TwoPriced(session: Session, first: nat, second: nat, wallet: string)
    requires first <= CAP && second <= CAP
    ensures Run(INITIAL, StalePrice(session, first, second, wallet)[..6])
              == INITIAL.(procs := map[0 := Claiming(Intent(session, first, wallet)),
                                       1 := Claiming(Intent(session, second, wallet))])
  {
    hide Run;
    var events := StalePrice(session, first, second, wallet);
    PricedState(session, first, wallet);
    assert events[..3] == [Replay(0, session), Act(0, Ok), Act(0, Priced(first, wallet))];
    RunStep(INITIAL, events[..3], events[3]);
    RunStep(INITIAL, events[..4], events[4]);
    RunStep(INITIAL, events[..5], events[5]);
    assert events[..3] + [events[3]] == events[..4] && events[..4] + [events[4]] == events[..5]
        && events[..5] + [events[5]] == events[..6];
    var s := Run(INITIAL, events[..3]);
    assert Run(INITIAL, events[..5]) == s.(procs := s.procs[1 := Pricing(session)]);
  }

  lemma StalePriceState(session: Session, first: nat, second: nat, wallet: string)
    requires 0 < first <= CAP && second <= CAP
    ensures var s := Run(INITIAL, StalePrice(session, first, second, wallet));
            && s.log == [] && s.db.nextHash == 0 && s.db.awards == []
            && s.db.rows == map[KeyOf(session) := Row(session, wallet, first, Failed, None, NoMovement, true)]
            && 1 in s.procs && s.procs[1] == Claiming(Intent(session, second, wallet))
  {
    hide Run, Record, Recover, ObserveFor, Project, SavedHash;
    var events := StalePrice(session, first, second, wallet);
    TwoPriced(session, first, second, wallet);
    RunStep(INITIAL, events[..6], events[6]);
    RunStep(INITIAL, events[..7], events[7]);
    RunStep(INITIAL, events[..8], events[8]);
    assert events[..6] + [events[6]] == events[..7] && events[..7] + [events[7]] == events[..8]
        && events[..8] + [events[8]] == events;
    var s := Run(INITIAL, events[..6]);
    assert ClaimOutcome(s.db, session, first, wallet) == Acquired(NewRow(session, first, wallet));
    assert Run(INITIAL, events[..7]).procs[0] == Holding(Intent(session, first, wallet));
    assert Run(INITIAL, events[..8]).procs[0] == MarkingPreflight(KeyOf(session));
  }

  /** The second process then broadcasts its own amount, the transfer succeeds,
      and it ends with a success and a ledger row of that amount, against a row
      that says the first: for every two payable amounts, one success of the
      claimed amount only if they are equal. */
  lemma StalePriceIsPaid(session: Session, first: nat, second: nat, wallet: string)
    requires 0 < first <= CAP && 0 < second <= CAP
    ensures var u := PaidOut(Run(INITIAL, StalePrice(session, first, second, wallet)), 1);
            && u.log == [Broadcast(KeyOf(session), 0, second, wallet)] && Moved(u.mined, 0)
            && 1 in u.procs && u.procs[1] == Finished(KeyOf(session), Success(second, Some(0)))
            && KeyOf(session) in u.db.rows && u.db.rows[KeyOf(session)].amount == first
            && u.db.awards == [AwardFor(session, second, 0, wallet)]
  {
    StalePriceState(session, first, second, wallet);
    hide Run, PaidOut, WithHash;
    TakeoverReportsItsOwnAmount(StalePrice(session, first, second, wallet), 1);
    var u := PaidOut(Run(INITIAL, StalePrice(session, first, second, wallet)), 1);
    NoAwards();
    assert u.db.awards != [];
  }

  lemma NoAwards()
    ensures WithHash([], 0) == []
  {}
}

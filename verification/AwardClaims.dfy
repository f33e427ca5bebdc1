/** Claims before anything is signed: who gets one, and what becomes of records
    without a saved transfer. */
module AwardClaims {
  import opened Basics
  import opened OperationKeys
  import opened OperationTables
  import opened AwardProtocol
  import opened AwardSafety
  import opened AwardReplay

  // ----- who gets the claim -----

  /** The record tells of the saved claim: its owner, wallet and details, and its
      physical charging session if the claim has one. */
  predicate SameRecord(r: Row, s: Session, wallet: string) {
    && r.session.uid == s.uid && r.session.details == s.details && r.wallet == wallet
    && (r.session.chargingSession.Some? ==> s.chargingSession == r.session.chargingSession)
  }

  /** Another key holds the same physical charging session of the same provider,
      or the same dashed legacy key. */
  ghost predicate TakenElsewhere(t: Tables, s: Session) {
    exists k :: k in t.rows && k != KeyOf(s)
                && ((s.provider != "" && s.chargingSession.Some? && s.chargingSession.value != ""
                     && t.rows[k].session.provider == s.provider
                     && t.rows[k].session.chargingSession == s.chargingSession)
                    || LegacyKeyOf(t.rows[k].session) == LegacyKeyOf(s))
  }

  /** In every reachable state: a new record gets a new claim unless its session is
      taken elsewhere; the record of a claim that failed unsigned gets it again;
      any other record of a claim is shown it as it is; a different record of the
      key is refused. The amount plays no part. */
  lemma ClaimExactly(events: seq<Event>, s: Session, amount: nat, wallet: string)
    ensures var t := Run(INITIAL, events).db;
            var k := KeyOf(s);
            ClaimOutcome(t, s, amount, wallet)
            == if k !in t.rows then
                 (if TakenElsewhere(t, s) then Refused
                  else Acquired(Row(s, wallet, amount, Submitting, None, UnknownOutcome, false)))
               else if !SameRecord(t.rows[k], s, wallet) then Refused
               else if t.rows[k].status == Failed && t.rows[k].hash == None then
                 Acquired(t.rows[k].(status := Submitting, outcome := UnknownOutcome, preflight := false))
               else Existing(t.rows[k])
  {
    Reachable(events);
    var u := Run(INITIAL, events);
    hide Run, LeasesOk, HashesApart, ClaimsApart, AwardsOk, LogOk, MinedOk, FailuresOk, ProcessOk, OneBroadcaster;
    hide MinedLogged, LegacyKeyOf;
    var k := KeyOf(s);
    if k in u.db.rows {
      assert RowOk(k, u.db.rows[k]);
    } else {
      CollidesIs(u.db, s);
    }
  }

  lemma CollidesIs(t: Tables, s: Session)
    ensures Collides(t.rows, s) <==> TakenElsewhere(t, s)
  {
    hide LegacyKeyOf;
  }

  // ----- the replay of a record without a saved transfer -----

  /** The tables with one row rewritten and nothing else touched. */
  function Rewritten(t: Tables, row: Row): Tables { t.(rows := t.rows[KeyOf(row.session) := row]) }

  /** What one fault-free replay leaves of an unsigned row that it cannot claim. */
  function UnsignedEnd(r: Row): Row {
    if r.amount == 0 && Open(r.status) then r.(status := Projected, outcome := NoMovement) else r
  }

  function UnsignedAnswer(r: Row): Result {
    if r.amount != 0 then Pending else if r.status == Failed then Rejected else Success(0, None)
  }

  lemma ZeroLookup(db: Tables, log: seq<Broadcast>, mined: map<Hash, Receipt>, session: Session)
    requires RowsOk(db) && SavedFor(db, session)
    requires var r := db.rows[KeyOf(session)]; r.hash == None && r.amount == 0
    ensures var k := KeyOf(session);
            var r := db.rows[k];
            && Advance(db, log, mined, LookingUp(session), Ok)
                 == Effect(db, log, if Open(r.status) then ProjectingZero(k) else Finished(k, UnsignedAnswer(r)))
            && Advance(db, log, mined, ProjectingZero(k), Ok)
                 == Effect(ProjectedRow(db, k), log, Finished(k, Success(0, None)))
            && (Open(r.status) ==>
                  ProjectedRow(db, k) == db.(rows := db.rows[k := r.(status := Projected, outcome := NoMovement)]))
            && KeyOf(r.session) == k && (r.status == Failed ==> r.outcome == NoMovement)
  {
    hide RecordMatches;
    var k := KeyOf(session);
    assert RowOk(k, db.rows[k]);
  }

  lemma UnsignedLookup(db: Tables, log: seq<Broadcast>, mined: map<Hash, Receipt>, session: Session)
    requires RowsOk(db) && SavedFor(db, session)
    requires var r := db.rows[KeyOf(session)]; r.hash == None && r.amount > 0 && r.status != Failed
    ensures var k := KeyOf(session);
            var r := db.rows[k];
            var i := Intent(session, r.amount, r.wallet);
            && Advance(db, log, mined, LookingUp(session), Ok) == Effect(db, log, Claiming(i))
            && Advance(db, log, mined, Claiming(i), Ok) == Effect(db, log, Finished(k, Pending))
            && KeyOf(r.session) == k
  {
    hide Collides;
    var k := KeyOf(session);
    assert RowOk(k, db.rows[k]);
  }

  lemma UnsignedCalls(db: Tables, log: seq<Broadcast>, mined: map<Hash, Receipt>, session: Session)
    requires RowsOk(db) && SavedFor(db, session) && db.rows[KeyOf(session)].hash == None
    requires db.rows[KeyOf(session)].amount == 0 || db.rows[KeyOf(session)].status != Failed
    ensures var r := db.rows[KeyOf(session)];
            Finish(Effect(db, log, LookingUp(session)), mined, REPLAY)
              == Effect(Rewritten(db, UnsignedEnd(r)), log, Finished(KeyOf(session), UnsignedAnswer(r)))
  {
    hide Advance, Finish, RowsOk, RecordMatches, ProjectedRow;
    var k := KeyOf(session);
    var r := db.rows[k];
    assert db.rows[k := r] == db.rows;
    var f := Effect(db, log, LookingUp(session));
    Next(f, mined, REPLAY);
    if r.amount == 0 {
      ZeroLookup(db, log, mined, session);
      if Open(r.status) {
        Next(Effect(db, log, ProjectingZero(k)), mined, REPLAY - 1);
        FinishedStays(Effect(ProjectedRow(db, k), log, Finished(k, Success(0, None))), mined, REPLAY - 2);
      } else {
        FinishedStays(Effect(db, log, Finished(k, UnsignedAnswer(r))), mined, REPLAY - 1);
      }
    } else {
      UnsignedLookup(db, log, mined, session);
      Next(Effect(db, log, Claiming(Intent(session, r.amount, r.wallet))), mined, REPLAY - 1);
      FinishedStays(Effect(db, log, Finished(k, Pending)), mined, REPLAY - 2);
    }
  }

  /** Any reachable state and any saved record without a transfer: a zero award is
      completed, an award of something waits for an operator, and nothing else is
      touched, unless the claim failed and can be had again. */
  lemma UnsignedReplay(events: seq<Event>, pid: nat, session: Session)
    requires pid !in Run(INITIAL, events).procs && SavedFor(Run(INITIAL, events).db, session)
    requires var r := Run(INITIAL, events).db.rows[KeyOf(session)];
             r.hash == None && (r.amount == 0 || r.status != Failed)
    ensures var s := Run(INITIAL, events);
            var r := s.db.rows[KeyOf(session)];
            Replayed(s, pid, session)
              == s.(db := Rewritten(s.db, UnsignedEnd(r)),
                    procs := s.procs[pid := Finished(KeyOf(session), UnsignedAnswer(r))])
  {
    Reachable(events);
    var s := Run(INITIAL, events);
    hide Run, LeasesOk, HashesApart, ClaimsApart, AwardsOk, LogOk, MinedOk, FailuresOk, ProcessOk, OneBroadcaster;
    hide MinedLogged, Advance, Finish, Drive;
    DriveIsFinish(Step(s, Replay(pid, session)), pid, REPLAY);
    UnsignedCalls(s.db, s.log, s.mined, session);
    var end := Finished(KeyOf(session), UnsignedAnswer(s.db.rows[KeyOf(session)]));
    assert Step(s, Replay(pid, session)).procs[pid := end] == s.procs[pid := end];
  }

  // ----- a new record -----

  /** A record is replayed up to the claim, priced on the way if it is new. */
  function UpToClaim(pid: nat, session: Session, priced: Option<(nat, string)>): seq<Event> {
    [Replay(pid, session), Act(pid, Ok)]
    + (if priced.Some? then [Act(pid, Priced(priced.value.0, priced.value.1))] else [])
  }

  /** A new record priced above the cap is rejected and leaves nothing behind; any
      other price, the cap included, is claimed. */
  lemma NewRecordIsPriced(events: seq<Event>, pid: nat, session: Session, amount: nat, wallet: string)
    requires pid !in Run(INITIAL, events).procs && KeyOf(session) !in Run(INITIAL, events).db.rows
    ensures var s := Run(INITIAL, events);
            Run(INITIAL, events + UpToClaim(pid, session, Some((amount, wallet))))
              == s.(procs := s.procs[pid := if amount <= 20000 then Claiming(Intent(session, amount, wallet))
                                            else Finished(KeyOf(session), Rejected)])
  {
    var s := Run(INITIAL, events);
    var e0, e1, e2 := Replay(pid, session), Act(pid, Ok), Act(pid, Priced(amount, wallet));
    hide Run;
    RunStep(INITIAL, events, e0);
    RunStep(INITIAL, events + [e0], e1);
    RunStep(INITIAL, events + [e0] + [e1], e2);
    assert events + [e0] + [e1] + [e2] == events + UpToClaim(pid, session, Some((amount, wallet)));
    var a := Step(s, e0);
    var b := Step(a, e1);
    assert b.procs == s.procs[pid := Pricing(session)];
  }

  /** From any reachable state: a new record whose session is not taken elsewhere,
      priced within the cap, is paid when nothing goes wrong, once, at that price,
      to that wallet, and reported so. */
  lemma NewRecordIsPaid(events: seq<Event>, pid: nat, session: Session, amount: nat, wallet: string)
    requires pid !in Run(INITIAL, events).procs && KeyOf(session) !in Run(INITIAL, events).db.rows
    requires !TakenElsewhere(Run(INITIAL, events).db, session) && 0 < amount <= CAP
    ensures var s := Run(INITIAL, events);
            var k, h := KeyOf(session), s.db.nextHash;
            var u := PaidOut(Run(INITIAL, events + UpToClaim(pid, session, Some((amount, wallet)))), pid);
            && u.log == s.log + [Broadcast(k, h, amount, wallet)]
            && pid in u.procs && u.procs[pid] == Finished(k, Success(amount, Some(h)))
            && k in u.db.rows && u.db.rows[k].status == Projected && u.db.rows[k].amount == amount
            && WithHash(u.db.awards, h) == [AwardFor(session, amount, h, wallet)]
  {
    var s := Run(INITIAL, events);
    var more := events + UpToClaim(pid, session, Some((amount, wallet)));
    NewRecordIsPriced(events, pid, session, amount, wallet);
    ClaimExactly(more, session, amount, wallet);
    hide Run, PaidOut, ClaimOutcome, WithHash, AwardFor, TakenElsewhere;
    TakeoverReportsItsOwnAmount(more, pid);
  }

  // ----- a claim that failed before it was signed -----

  /** Nothing was signed: the failure is written and the record is rejected, or,
      when the signer cannot send at all, the row is left unknown for an operator. */
  lemma UnsignedFailure(events: seq<Event>, pid: nat, ch: Choice)
    requires pid in Run(INITIAL, events).procs && Run(INITIAL, events).procs[pid].Holding?
    requires ch == Fails || ch == Unsendable
    requires var s := Run(INITIAL, events);
             var i := s.procs[pid].intent;
             var k := KeyOf(i.session);
             i.amount > 0 && k in s.db.rows && Open(s.db.rows[k].status) && s.db.rows[k].hash == None
    ensures var s := Run(INITIAL, events);
            var k := KeyOf(s.procs[pid].intent.session);
            var r := s.db.rows[k];
            var failed := r.(status := Failed, outcome := NoMovement, preflight := true);
            Run(INITIAL, events + [Act(pid, ch), Act(pid, Ok)])
              == s.(db := s.db.(rows := s.db.rows[k := if ch == Fails then failed else r.(status := Unknown)]),
                    procs := s.procs[pid := Finished(k, if ch == Fails then Rejected else Pending)])
  {
    Reachable(events);
    var s := Run(INITIAL, events);
    var i := s.procs[pid].intent;
    UnsignedHasNoLease(s, KeyOf(i.session));
    hide Run, Inv, Advance, Step;
    FailureCalls(s.db, s.log, s.mined, i, ch);
    RunStep(INITIAL, events, Act(pid, ch));
    RunStep(INITIAL, events + [Act(pid, ch)], Act(pid, Ok));
    assert events + [Act(pid, ch)] + [Act(pid, Ok)] == events + [Act(pid, ch), Act(pid, Ok)];
    TwoActs(s, pid, ch, Ok);
  }

  lemma TwoActs(s: State, pid: nat, a: Choice, b: Choice)
    requires pid in s.procs
    ensures var f := Advance(s.db, s.log, s.mined, s.procs[pid], a);
            var g := Advance(f.db, f.log, s.mined, f.next, b);
            Step(Step(s, Act(pid, a)), Act(pid, b)) == State(g.db, g.log, s.mined, s.procs[pid := g.next])
  {
    hide Advance;
    var f := Advance(s.db, s.log, s.mined, s.procs[pid], a);
    var g := Advance(f.db, f.log, s.mined, f.next, b);
    assert s.procs[pid := f.next][pid := g.next] == s.procs[pid := g.next];
  }

  lemma FailureCalls(db: Tables, log: seq<Broadcast>, mined: map<Hash, Receipt>, i: Intent, ch: Choice)
    requires (ch == Fails || ch == Unsendable) && i.amount > 0
    requires var k := KeyOf(i.session);
             k in db.rows && k !in db.leases && Open(db.rows[k].status) && db.rows[k].hash == None
    ensures var k := KeyOf(i.session);
            var r := db.rows[k];
            var failed := r.(status := Failed, outcome := NoMovement, preflight := true);
            var next := if ch == Fails then MarkingPreflight(k) else MarkingUnknown(k);
            && Advance(db, log, mined, Holding(i), ch) == Effect(db, log, next)
            && Advance(db, log, mined, next, Ok)
                 == Effect(db.(rows := db.rows[k := if ch == Fails then failed else r.(status := Unknown)]), log,
                           Finished(k, if ch == Fails then Rejected else Pending))
  {
    hide Record, Recover, SavedHash, ClaimOutcome, Claimed, Project;
  }

  lemma UnsignedHasNoLease(s: State, k: Key)
    requires Inv(s) && k in s.db.rows && s.db.rows[k].hash == None
    ensures k !in s.db.leases
  {
    hide RowsOk, HashesApart, ClaimsApart, AwardsOk, LogOk, MinedOk, FailuresOk, ProcessOk, OneBroadcaster;
    hide MinedLogged;
  }

  /** The record of such a claim is paid by its next replay, at the claimed amount,
      if nothing goes wrong then. */
  lemma FailedClaimIsPaid(events: seq<Event>, pid: nat, session: Session)
    requires pid !in Run(INITIAL, events).procs && SavedFor(Run(INITIAL, events).db, session)
    requires var r := Run(INITIAL, events).db.rows[KeyOf(session)]; r.status == Failed && r.hash == None && r.amount > 0
    ensures var s := Run(INITIAL, events);
            var k, h, r := KeyOf(session), s.db.nextHash, s.db.rows[KeyOf(session)];
            var u := PaidOut(Run(INITIAL, events + UpToClaim(pid, session, None)), pid);
            && u.log == s.log + [Broadcast(k, h, r.amount, r.wallet)]
            && pid in u.procs && u.procs[pid] == Finished(k, Success(r.amount, Some(h)))
            && k in u.db.rows && u.db.rows[k].status == Projected && u.db.rows[k].amount == r.amount
            && WithHash(u.db.awards, h) == [AwardFor(session, r.amount, h, r.wallet)]
  {
    var s := Run(INITIAL, events);
    var r := s.db.rows[KeyOf(session)];
    var e0, e1 := Replay(pid, session), Act(pid, Ok);
    var more := events + UpToClaim(pid, session, None);
    assert more == events + [e0] + [e1];
    RunStep(INITIAL, events, e0);
    RunStep(INITIAL, events + [e0], e1);
    LookupClaims(s, pid, session);
    ClaimExactly(more, session, r.amount, r.wallet);
    hide Run, PaidOut, ClaimOutcome, WithHash, AwardFor, TakenElsewhere, Step;
    TakeoverReportsItsOwnAmount(more, pid);
  }

  lemma LookupClaims(s: State, pid: nat, session: Session)
    requires pid !in s.procs && SavedFor(s.db, session)
    requires var r := s.db.rows[KeyOf(session)]; r.hash == None && r.amount > 0
    ensures var r := s.db.rows[KeyOf(session)];
            && Step(Step(s, Replay(pid, session)), Act(pid, Ok))
               == s.(procs := s.procs[pid := Claiming(Intent(session, r.amount, r.wallet))])
            && SameRecord(r, session, r.wallet)
  {
    hide Collides, Project;
    assert s.procs[pid := LookingUp(session)][pid := Finished(KeyOf(session), Rejected)]
        == s.procs[pid := Finished(KeyOf(session), Rejected)];
  }
}

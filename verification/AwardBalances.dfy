/** What each owner was awarded in total, against the ledger. */
module AwardBalances {
  import opened Basics
  import opened OperationTables
  import opened AwardProtocol
  import AwardSafety

  /** The ledger rows of one owner, added up. */
  function OwnerCredit(awards: seq<Award>, o: Owner): nat {
    if awards == [] then 0
    else
      var last := awards[|awards| - 1];
      OwnerCredit(awards[..|awards| - 1], o) + (if OwnerOf(last) == o then last.amount else 0)
  }

  /** Every owner's total is the sum of the owner's ledger rows. */
  ghost predicate TotalsOk(t: Tables) {
    forall o: Owner :: TotalAwarded(t.awarded, o) == OwnerCredit(t.awards, o)
  }

  lemma AwardKeepsTotals(t: Tables, a: Award)
    requires TotalsOk(t)
    ensures TotalsOk(WithAward(t, a))
  {
    var u := WithAward(t, a);
    assert u.awards[..|u.awards| - 1] == t.awards;
    forall o: Owner ensures TotalAwarded(u.awarded, o) == OwnerCredit(u.awards, o) {
      assert TotalAwarded(t.awarded, o) == OwnerCredit(t.awards, o);
    }
  }

  /** The ledger and the totals are as they were, or grew by one award. */
  ghost predicate SameOrOneMore(t: Tables, u: Tables) {
    || (u.awards == t.awards && u.awarded == t.awarded)
    || exists a: Award :: u.awards == WithAward(t, a).awards && u.awarded == WithAward(t, a).awarded
  }

  lemma WritesLeaveTotals(t: Tables, k: Key, h: Hash, o: Outcome, amount: nat, wallet: string, s: Session)
    ensures SameOrOneMore(t, UnknownRow(t, k)) && SameOrOneMore(t, ConfirmedRow(t, k))
    ensures SameOrOneMore(t, ProjectionErrorRow(t, k)) && SameOrOneMore(t, ProjectedRow(t, k))
    ensures SameOrOneMore(t, FailedRow(t, k, o)) && SameOrOneMore(t, PreflightFailedRow(t, k))
    ensures SameOrOneMore(t, PreparedTables(t, k, amount, wallet)) && SameOrOneMore(t, Claimed(t, s, amount, wallet))
    ensures SameOrOneMore(t, LeaseSubmittedTables(t, k, h)) && SameOrOneMore(t, LeaseUnknownTables(t, k))
    ensures SavedHash(t, k, h).Some? ==> SameOrOneMore(t, SavedHash(t, k, h).value)
  {
    hide Collides;
  }

  lemma RecordedTotals(t: Tables, a: Award)
    ensures Recorded(t, a).Some? ==> SameOrOneMore(t, Recorded(t, a).value)
  {
    hide WithAward;
  }

  lemma CallTotals(db: Tables, log: seq<Broadcast>, mined: map<Hash, Receipt>, p: Process, ch: Choice)
    ensures SameOrOneMore(db, Advance(db, log, mined, p, ch).db)
  {
    var s := Session("", "", "", None, "");
    hide UnknownRow, ConfirmedRow, ProjectionErrorRow, ProjectedRow, FailedRow, PreflightFailedRow, PreparedTables;
    hide PrepareOutcome, Claimed, ClaimOutcome, LeaseSubmittedTables, LeaseUnknownTables, SavedHash, Recorded;
    hide RecordMatches, Project, AfterVerdict, AfterRecoveryVerdict, ObserveFor, SameOrOneMore;
    Unchanged(db);
    match p
    case Claiming(i) => WritesLeaveTotals(db, KeyOf(i.session), 0, Review, i.amount, i.wallet, i.session);
    case Holding(i) => WritesLeaveTotals(db, KeyOf(i.session), 0, Review, i.amount, i.wallet, i.session);
    case ProjectingZero(k) => WritesLeaveTotals(db, k, 0, Review, 0, "", s);
    case MarkingPreflight(k) => WritesLeaveTotals(db, k, 0, Review, 0, "", s);
    case MarkingUnknown(k) => WritesLeaveTotals(db, k, 0, Review, 0, "", s);
    case SubmittingLease(i, h) => WritesLeaveTotals(db, KeyOf(i.session), h, Review, 0, "", s);
    case DoubtingLease(i, h, _) => WritesLeaveTotals(db, KeyOf(i.session), h, Review, 0, "", s);
    case SavingHash(i, h) => WritesLeaveTotals(db, KeyOf(i.session), h, Review, 0, "", s);
    case Confirming(snap) => WritesLeaveTotals(db, KeyOf(snap.session), 0, Review, 0, "", s);
    case Failing(snap, o) => WritesLeaveTotals(db, KeyOf(snap.session), 0, o, 0, "", s);
    case NotingProjectionError(snap) => WritesLeaveTotals(db, KeyOf(snap.session), 0, Review, 0, "", s);
    case Projecting(snap) => WritesLeaveTotals(db, KeyOf(snap.session), 0, Review, 0, "", s);
    case Recording(snap) =>
      if snap.hash.Some? {
        RecordedTotals(db, AwardFor(snap.session, snap.amount, snap.hash.value, snap.wallet));
      }
    case _ =>
  }

  lemma Unchanged(t: Tables)
    ensures SameOrOneMore(t, t)
  {}

  lemma StepTotals(s: State, e: Event)
    requires TotalsOk(s.db)
    ensures TotalsOk(Step(s, e).db)
  {
    hide Advance, TotalsOk;
    if e.Act? && e.pid in s.procs {
      CallTotals(s.db, s.log, s.mined, s.procs[e.pid], e.choice);
      GrownTotals(s.db, Step(s, e).db);
    }
  }

  lemma GrownTotals(t: Tables, u: Tables)
    requires TotalsOk(t) && SameOrOneMore(t, u)
    ensures TotalsOk(u)
  {
    hide WithAward;
    if u.awards != t.awards || u.awarded != t.awarded {
      var a: Award :| u.awards == WithAward(t, a).awards && u.awarded == WithAward(t, a).awarded;
      AwardKeepsTotals(t, a);
    }
  }

  lemma {:induction false} RunTotals(s: State, events: seq<Event>)
    requires TotalsOk(s.db)
    ensures TotalsOk(Run(s, events).db)
    decreases |events|
  {
    hide TotalsOk, Step;
    if events != [] {
      RunTotals(s, events[..|events| - 1]);
      StepTotals(Run(s, events[..|events| - 1]), events[|events| - 1]);
    }
  }

  /** In every run, whatever fails and is retried, each owner's total is exactly
      the sum of the owner's ledger rows: no award is added twice or lost. */
  lemma TotalsMatchLedger(events: seq<Event>, o: Owner)
    ensures TotalAwarded(Run(INITIAL, events).db.awarded, o) == OwnerCredit(Run(INITIAL, events).db.awards, o)
  {
    assert TotalsOk(INITIAL.db);
    hide Run;
    RunTotals(INITIAL, events);
  }

  /** Recording the same award again changes neither ledger nor total. */
  lemma RecordingTwice(t: Tables, a: Award)
    requires Recorded(t, a).Some?
    ensures Recorded(Recorded(t, a).value, a) == Recorded(t, a)
  {
    hide WithHash, WithDedup;
    if WithHash(t.awards, a.hash) == [] {
      AwardSafety.AppendedHash(t.awards, a);
    }
  }
}

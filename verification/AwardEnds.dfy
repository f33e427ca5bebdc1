/** What each end of a replay or a recovery leaves behind, said of the row and
    the chain alone, and what a lost broadcast reply leads to. */
module AwardEnds {
  import opened Basics
  import opened OperationTables
  import opened AwardProtocol
  import opened AwardSafety
  import opened AwardReplay

  /** The tables with one row rewritten and nothing else touched. */
  ghost predicate Leaves(t: Tables, u: Tables, row: Row) {
    u == t.(rows := t.rows[KeyOf(row.session) := row])
  }

  predicate Paid(mined: map<Hash, Receipt>, r: Row) {
    && r.hash.Some? && r.hash.value in mined && mined[r.hash.value].ok
    && mined[r.hash.value].amount == r.amount && mined[r.hash.value].wallet == r.wallet
  }

  /** What the chain says of a transfer that did not pay the claim. */
  datatype Unpaid = NotMined | Undone | PaidOther

  function WhyUnpaid(mined: map<Hash, Receipt>, h: Hash): Unpaid {
    if h !in mined then NotMined else if !mined[h].ok then Undone else PaidOther
  }

  /** The row after its delivery. */
  function DeliveredRow(r: Row): Row {
    r.(status := Projected, outcome := if r.amount == 0 then NoMovement else ConfirmedOutcome)
  }

  /** Projected, with exactly one ledger row under its hash. */
  ghost predicate EndsDelivered(t: Tables, r: Row, f: Effect)
    requires r.hash.Some?
  {
    && Leaves(t.(awards := f.db.awards, awarded := f.db.awarded), f.db, DeliveredRow(r))
    && WithHash(f.db.awards, r.hash.value) == [SnapAward(r)]
    && (f.db.awards == t.awards || f.db.awards == t.awards + [SnapAward(r)])
    && f.next == Finished(KeyOf(r.session), Success(r.amount, r.hash))
  }

  /** Not recorded, because the ledger has the hash with another amount. */
  ghost predicate EndsUnrecorded(t: Tables, r: Row, outcome: Outcome, f: Effect) {
    Leaves(t, f.db, r.(status := Confirmed, outcome := outcome)) && f.next == Finished(KeyOf(r.session), Pending)
  }

  /** The recording step and all after it. */
  ghost predicate EndsRecording(t: Tables, r: Row, outcome: Outcome, f: Effect)
    requires r.hash.Some?
  {
    if LedgerAgrees(t, r.hash.value, r.amount) then EndsDelivered(t, r, f) else EndsUnrecorded(t, r, outcome, f)
  }

  lemma RecordingTo(db: Tables, log: seq<Broadcast>, mined: map<Hash, Receipt>, snap: Row, calls: nat)
    requires snap.hash.Some? && calls >= 2
    ensures var k := KeyOf(snap.session);
            Finish(Effect(db, log, Recording(snap)), mined, calls)
              == match Recorded(db, SnapAward(snap))
                 case None => Effect(ProjectionErrorRow(db, k), log, Finished(k, Pending))
                 case Some(u) => Effect(ProjectedRow(u, k), log, Finished(k, Success(snap.amount, snap.hash)))
  {
    hide Recorded, SnapAward, Advance, Finish, ProjectedRow, ProjectionErrorRow;
    var k := KeyOf(snap.session);
    RecordCall(db, log, mined, snap);
    Next(Effect(db, log, Recording(snap)), mined, calls);
    match Recorded(db, SnapAward(snap))
    case None =>
      MarkCalls(db, log, mined, snap);
      Next(Effect(db, log, NotingProjectionError(snap)), mined, calls - 1);
      FinishedStays(Effect(ProjectionErrorRow(db, k), log, Finished(k, Pending)), mined, calls - 2);
    case Some(u) =>
      MarkCalls(u, log, mined, snap);
      Next(Effect(u, log, Projecting(snap)), mined, calls - 1);
      FinishedStays(Effect(ProjectedRow(u, k), log, Finished(k, Success(snap.amount, snap.hash))), mined, calls - 2);
  }

  /** `db` is `t` with the row `r` confirmed, or `t` itself. */
  lemma RecordingEnds(t: Tables, db: Tables, log: seq<Broadcast>, mined: map<Hash, Receipt>, r: Row, outcome: Outcome,
                      calls: nat)
    requires TablesOk(db) && SnapOk(db, r) && calls >= 2 && r.amount == db.rows[KeyOf(r.session)].amount
    requires Leaves(t, db, db.rows[KeyOf(r.session)]) && KeyOf(db.rows[KeyOf(r.session)].session) == KeyOf(r.session)
    requires db.rows[KeyOf(r.session)] == r.(status := db.rows[KeyOf(r.session)].status, outcome := outcome)
    requires Open(db.rows[KeyOf(r.session)].status) || db.rows[KeyOf(r.session)].status == Confirmed
    ensures var f := Finish(Effect(db, log, Recording(r)), mined, calls);
            f.log == log && EndsRecording(t, r, outcome, f)
  {
    hide TablesOk, Recorded, SnapAward, Finish, WithHash, LedgerAgrees;
    RecordingTo(db, log, mined, r, calls);
    RecordingExact(db, r);
    SameLedger(t, db, r.hash.value, r.amount);
  }

  lemma SameLedger(t: Tables, u: Tables, h: Hash, amount: nat)
    requires t.awards == u.awards
    ensures LedgerAgrees(t, h, amount) == LedgerAgrees(u, h, amount)
  {}

  /** The chain read of a replay, and all after it. */
  ghost predicate EndsAsked(t: Tables, mined: map<Hash, Receipt>, r: Row, f: Effect)
    requires r.hash.Some?
  {
    var k := KeyOf(r.session);
    if Paid(mined, r) then EndsRecording(t, r, ConfirmedOutcome, f)
    else
      match WhyUnpaid(mined, r.hash.value)
      case NotMined => Leaves(t, f.db, r.(status := Unknown)) && f.next == Finished(k, Pending)
      case Undone =>
        Leaves(t, f.db, r.(status := Failed, outcome := NoMovement)) && f.next == Finished(k, Rejected)
      case PaidOther =>
        Leaves(t, f.db, r.(status := Failed, outcome := Review)) && f.next == Finished(k, Pending)
  }

  /** A replay or a recovery that does not demand fresh evidence. */
  ghost predicate EndsAs(t: Tables, mined: map<Hash, Receipt>, r: Row, f: Effect)
    requires r.hash.Some?
  {
    var k := KeyOf(r.session);
    match r.status
    case Failed => f.db == t && f.next == Finished(k, if r.outcome == NoMovement then Rejected else Pending)
    case Projected => f.db == t && f.next == Finished(k, Success(r.amount, r.hash))
    case Submitted => EndsAsked(t, mined, r, f)
    case Unknown => EndsAsked(t, mined, r, f)
    case Submitting => EndsRecording(t, r, r.outcome, f)
    case Confirmed => EndsRecording(t, r, r.outcome, f)
  }

  lemma AskedEnds(db: Tables, log: seq<Broadcast>, mined: map<Hash, Receipt>, r: Row, calls: nat)
    requires TablesOk(db) && FailuresOk(db, mined) && SavedRow(db, r) && calls >= 4
    requires r.status == Submitted || r.status == Unknown
    ensures var f := Finish(Effect(db, log, Verifying(r)), mined, calls);
            f.log == log && EndsAsked(db, mined, r, f)
  {
    hide TablesOk, FailuresOk, Advance, Finish, EndsRecording;
    VerifyCall(db, log, mined, r);
    Next(Effect(db, log, Verifying(r)), mined, calls);
    if Paid(mined, r) {
      ConfirmedThenRecorded(db, log, mined, r, calls - 1);
    } else {
      UnpaidCalls(db, log, mined, r);
      var g := Advance(db, log, mined, AfterVerdict(r, ObserveFor(mined, Truth, r)), Ok);
      Next(Effect(db, log, AfterVerdict(r, ObserveFor(mined, Truth, r))), mined, calls - 1);
      FinishedStays(g, mined, calls - 2);
    }
  }

  lemma UnpaidCalls(db: Tables, log: seq<Broadcast>, mined: map<Hash, Receipt>, r: Row)
    requires SavedRow(db, r) && (r.status == Submitted || r.status == Unknown) && !Paid(mined, r)
    ensures var p := AfterVerdict(r, ObserveFor(mined, Truth, r));
            var g := Advance(db, log, mined, p, Ok);
            Fair(p) == Ok && g.log == log && g.next.Finished? && EndsAsked(db, mined, r, g)
  {
    hide Record, Submit, Recover, SavedHash, ClaimOutcome, Claimed, EndsRecording;
  }

  lemma ConfirmedThenRecorded(db: Tables, log: seq<Broadcast>, mined: map<Hash, Receipt>, r: Row, calls: nat)
    requires TablesOk(db) && FailuresOk(db, mined) && SavedRow(db, r) && calls >= 3
    requires Open(r.status) || r.status == Confirmed
    ensures var f := Finish(Effect(db, log, Confirming(r)), mined, calls);
            f.log == log && EndsRecording(db, r, ConfirmedOutcome, f)
  {
    hide TablesOk, FailuresOk, Advance, Finish, EndsRecording;
    var u := ConfirmedRow(db, KeyOf(r.session));
    MarkCalls(db, log, mined, r);
    Next(Effect(db, log, Confirming(r)), mined, calls);
    ConfirmedStays(db, mined, r);
    RecordingEnds(db, u, log, mined, r, ConfirmedOutcome, calls - 1);
  }

  lemma ProjectEndsAs(db: Tables, log: seq<Broadcast>, mined: map<Hash, Receipt>, r: Row, calls: nat)
    requires TablesOk(db) && FailuresOk(db, mined) && SavedRow(db, r) && calls >= 4
    ensures var f := Finish(Effect(db, log, Project(r, false, true)), mined, calls);
            f.log == log && EndsAs(db, mined, r, f)
  {
    hide TablesOk, FailuresOk, Advance, Finish, EndsRecording, EndsAsked;
    match r.status
    case Submitted => AskedEnds(db, log, mined, r, calls);
    case Unknown => AskedEnds(db, log, mined, r, calls);
    case Submitting => RecordingEnds(db, db, log, mined, r, r.outcome, calls);
    case Confirmed => RecordingEnds(db, db, log, mined, r, r.outcome, calls);
    case _ => FinishedStays(Effect(db, log, Project(r, false, true)), mined, calls);
  }

  /** From any reachable state and any row with a saved hash: what one fault-free
      replay of its record leaves of the row, what it leaves of everything else,
      and what it answers, for every status of the row and everything the chain
      can say. Not mined is left unknown and pending, mined and reverted fails as
      no movement, another payment fails for review. */
  lemma ReplayEnds(events: seq<Event>, pid: nat, session: Session)
    requires pid !in Run(INITIAL, events).procs && SavedFor(Run(INITIAL, events).db, session)
    requires Run(INITIAL, events).db.rows[KeyOf(session)].hash.Some?
    ensures var s := Run(INITIAL, events);
            var u := Replayed(s, pid, session);
            && u.mined == s.mined && u.log == s.log && pid in u.procs
            && EndsAs(s.db, s.mined, s.db.rows[KeyOf(session)], Effect(u.db, u.log, u.procs[pid]))
  {
    Reachable(events);
    var s := Run(INITIAL, events);
    hide Run, TablesOk, LogOk, FailuresOk, MinedOk, ProcessOk, OneBroadcaster, MinedLogged, Advance;
    hide Finish, Drive, Project, EndsAs;
    var f := Effect(s.db, s.log, LookingUp(session));
    SavedRowOk(s.db, KeyOf(session));
    DriveIsFinish(Step(s, Replay(pid, session)), pid, REPLAY);
    FinishSplit(f, s.mined, 2, 4);
    ReplayReadsRow(s.db, s.log, s.mined, session);
    ProjectEndsAs(s.db, s.log, s.mined, s.db.rows[KeyOf(session)], 4);
  }

  /** The same for a recovery that does not demand fresh evidence. */
  lemma RecoveryEnds(events: seq<Event>, pid: nat, k: Key)
    requires pid !in Run(INITIAL, events).procs
    requires k in Run(INITIAL, events).db.rows && Run(INITIAL, events).db.rows[k].hash.Some?
    ensures var s := Run(INITIAL, events);
            var u := Recovered(s, pid, k);
            && u.mined == s.mined && u.log == s.log && pid in u.procs
            && EndsAs(s.db, s.mined, s.db.rows[k], Effect(u.db, u.log, u.procs[pid]))
  {
    Reachable(events);
    var s := Run(INITIAL, events);
    hide Run, TablesOk, LogOk, FailuresOk, MinedOk, ProcessOk, OneBroadcaster, MinedLogged, Advance;
    hide Finish, Drive, Project, EndsAs;
    var f := Effect(s.db, s.log, Recovering(k, false));
    SavedRowOk(s.db, k);
    DriveIsFinish(Step(s, Recovery(pid, k, false)), pid, REPLAY);
    FinishSplit(f, s.mined, 1, 5);
    RecoveryReadsRow(s.db, s.log, s.mined, k);
    ProjectEndsAs(s.db, s.log, s.mined, s.db.rows[k], 5);
  }

  // ----- recovery with fresh evidence -----

  /** A recovery that demands fresh evidence: nothing is taken on trust, a
      rejected transfer is left for an operator, and a failed row stays as it is. */
  ghost predicate EndsFresh(t: Tables, mined: map<Hash, Receipt>, r: Row, f: Effect)
    requires r.hash.Some?
  {
    var k := KeyOf(r.session);
    if r.status == Projected then f.db == t && f.next == Finished(k, Success(r.amount, r.hash))
    else if r.status == Failed then f.db == t && f.next == Finished(k, Pending)
    else if Paid(mined, r) then EndsRecording(t, r, ConfirmedOutcome, f)
    else
      && f.next == Finished(k, Pending)
      && Leaves(t, f.db, if r.hash.value !in mined && r.status != Confirmed then r.(status := Unknown) else r)
  }

  lemma UnpaidRecovery(db: Tables, log: seq<Broadcast>, mined: map<Hash, Receipt>, r: Row, calls: nat)
    requires FailuresOk(db, mined) && SavedRow(db, r) && r.status != Projected && calls >= 1
    requires r.status == Failed || !Paid(mined, r)
    ensures var f := Finish(Effect(db, log, AfterRecoveryVerdict(r, ObserveFor(mined, Truth, r))), mined, calls);
            f.log == log && EndsFresh(db, mined, r, f)
  {
    hide Finish, Record, Submit, Recover, SavedHash, ClaimOutcome, Claimed, EndsRecording;
    var p := AfterRecoveryVerdict(r, ObserveFor(mined, Truth, r));
    if p.Finished? {
      FinishedStays(Effect(db, log, p), mined, calls);
    } else {
      Next(Effect(db, log, p), mined, calls);
      FinishedStays(Advance(db, log, mined, p, Ok), mined, calls - 1);
    }
  }

  lemma PaidIsValid(mined: map<Hash, Receipt>, r: Row)
    requires Paid(mined, r) && r.status != Failed
    ensures AfterRecoveryVerdict(r, ObserveFor(mined, Truth, r)) == Confirming(r)
  {}

  /** From any reachable state: what one fault-free recovery that demands fresh
      evidence leaves and answers. */
  lemma FreshRecoveryEnds(events: seq<Event>, pid: nat, k: Key)
    requires pid !in Run(INITIAL, events).procs
    requires k in Run(INITIAL, events).db.rows && Run(INITIAL, events).db.rows[k].hash.Some?
    ensures var s := Run(INITIAL, events);
            var u := FreshlyRecovered(s, pid, k);
            && u.mined == s.mined && u.log == s.log && pid in u.procs
            && EndsFresh(s.db, s.mined, s.db.rows[k], Effect(u.db, u.log, u.procs[pid]))
  {
    Reachable(events);
    var s := Run(INITIAL, events);
    hide Run, TablesOk, LogOk, FailuresOk, MinedOk, ProcessOk, OneBroadcaster, MinedLogged, Advance;
    hide Finish, Drive;
    SavedRowOk(s.db, k);
    DriveIsFinish(Step(s, Recovery(pid, k, true)), pid, REPLAY);
    FreshEndsAs(s.db, s.log, s.mined, k);
  }

  lemma FreshEndsAs(db: Tables, log: seq<Broadcast>, mined: map<Hash, Receipt>, k: Key)
    requires TablesOk(db) && FailuresOk(db, mined)
    requires k in db.rows && SavedRow(db, db.rows[k]) && KeyOf(db.rows[k].session) == k
    ensures var f := Finish(Effect(db, log, Recovering(k, true)), mined, REPLAY);
            f.log == log && EndsFresh(db, mined, db.rows[k], f)
  {
    var r := db.rows[k];
    hide TablesOk, FailuresOk, Advance, Finish, EndsRecording, AfterRecoveryVerdict, ObserveFor;
    FreshCalls(db, log, mined, k);
    Next(Effect(db, log, Recovering(k, true)), mined, REPLAY);
    if r.status == Projected {
      FinishedStays(Effect(db, log, Finished(k, Success(r.amount, r.hash))), mined, REPLAY - 1);
    } else {
      Next(Effect(db, log, RecoverVerifying(r)), mined, REPLAY - 1);
      if r.status == Failed || !Paid(mined, r) {
        UnpaidRecovery(db, log, mined, r, REPLAY - 2);
      } else {
        PaidIsValid(mined, r);
        ConfirmedThenRecorded(db, log, mined, r, REPLAY - 2);
      }
    }
  }

  // ----- a lost broadcast reply -----

  /** What the chain read answers when it settles nothing. */
  predicate Unsettled(mined: map<Hash, Receipt>, h: Hash, ch: Choice) {
    match ch
    case Chain(a) => a == StillPending || a == NotFound || a == ReadError || (a == Truth && h !in mined)
    case _ => true
  }

  /** The broadcast ends badly, the doubt is written to lease and row, the chain
      read settles nothing, and the last write ends anyhow. */
  function Doubted(pid: nat, sent: Choice, doubt: Choice, read: Choice, last: Choice): seq<Event> {
    [Act(pid, sent), Act(pid, doubt), Act(pid, read), Act(pid, last)]
  }

  /** The row that a doubt leaves: unknown if the operation was still open. */
  function DoubtedRow(r: Row): Row {
    if r.status == Submitting || r.status == Submitted then r.(status := Unknown) else r
  }

  /** The tables after the doubt is written. */
  ghost predicate Doubts(db: Tables, u: Tables, k: Key) {
    && k in db.rows && k in db.leases
    && u == db.(rows := db.rows[k := DoubtedRow(db.rows[k])],
                leases := db.leases[k := db.leases[k].(status := LeaseUnknown)])
  }

  lemma DoubtWritten(db: Tables, u: Tables, log: seq<Broadcast>, mined: map<Hash, Receipt>, i: Intent, h: Hash,
                     sent: Choice, doubt: Choice)
    requires sent != Ok && (doubt == Ok || doubt == ReplyLost) && Doubts(db, u, KeyOf(i.session))
    ensures var all := if sent == ReplyLost then log + [Broadcast(KeyOf(i.session), h, i.amount, i.wallet)] else log;
            && Advance(db, log, mined, Broadcasting(i, h), sent) == Effect(db, all, DoubtingLease(i, h, true))
            && Advance(db, all, mined, DoubtingLease(i, h, true), doubt)
                 == Effect(u, all, Verifying(LocalRow(i, h, Unknown)))
  {
    hide Record, Submit, Recover, SavedHash, ClaimOutcome, Claimed, Project;
    assert db.rows[KeyOf(i.session) := db.rows[KeyOf(i.session)]] == db.rows;
  }

  lemma DoubtRead(db: Tables, u: Tables, log: seq<Broadcast>, mined: map<Hash, Receipt>, i: Intent, h: Hash,
                  read: Choice, last: Choice)
    requires Unsettled(mined, h, read) && Doubts(db, u, KeyOf(i.session))
    ensures var k := KeyOf(i.session);
            && Advance(u, log, mined, Verifying(LocalRow(i, h, Unknown)), read) == Effect(u, log, MarkingUnknown(k))
            && Advance(u, log, mined, MarkingUnknown(k), last) == Effect(u, log, Finished(k, Pending))
  {
    hide Record, Submit, Recover, SavedHash, ClaimOutcome, Claimed, Project;
    assert u.rows[KeyOf(i.session) := u.rows[KeyOf(i.session)]] == u.rows;
  }

  lemma BroadcastingIsLeased(s: State, pid: nat)
    requires Inv(s) && pid in s.procs && s.procs[pid].Broadcasting?
    ensures var k := KeyOf(s.procs[pid].intent.session);
            && k in s.db.rows && k in s.db.leases && s.db.leases[k].hash == s.procs[pid].hash
            && s.db.rows[k].hash == Some(s.procs[pid].hash) && KeyOf(s.db.rows[k].session) == k
  {
    hide HashesApart, ClaimsApart, AwardsOk, LogOk, MinedOk, FailuresOk, OneBroadcaster, MinedLogged;
    assert ProcessOk(s.db, s.log, s.mined, s.procs[pid]);
    var k := KeyOf(s.procs[pid].intent.session);
    assert RowOk(k, s.db.rows[k]);
  }

  /** Any reachable state, any process about to broadcast, a broadcast that fails
      or loses its reply: if the doubt is written and the chain read settles
      nothing, lease and row are left unknown, the answer is pending, and nothing
      else has changed but the log. */
  lemma LostReplyIsUnknown(events: seq<Event>, pid: nat, sent: Choice, doubt: Choice, read: Choice, last: Choice)
    requires pid in Run(INITIAL, events).procs && Run(INITIAL, events).procs[pid].Broadcasting?
    requires sent != Ok && (doubt == Ok || doubt == ReplyLost)
    requires Unsettled(Run(INITIAL, events).mined, Run(INITIAL, events).procs[pid].hash, read)
    ensures var s := Run(INITIAL, events);
            var i, h := s.procs[pid].intent, s.procs[pid].hash;
            var k := KeyOf(i.session);
            && k in s.db.rows && s.db.rows[k].hash == Some(h) && k in s.db.leases
            && Run(INITIAL, events + Doubted(pid, sent, doubt, read, last))
                 == State(s.db.(rows := s.db.rows[k := DoubtedRow(s.db.rows[k])],
                                leases := s.db.leases[k := s.db.leases[k].(status := LeaseUnknown)]),
                          if sent == ReplyLost then s.log + [Broadcast(k, h, i.amount, i.wallet)] else s.log,
                          s.mined, s.procs[pid := Finished(k, Pending)])
  {
    Reachable(events);
    var s := Run(INITIAL, events);
    hide Run, Inv, Advance, DoubtedRow, Unsettled;
    BroadcastingIsLeased(s, pid);
    var i, h := s.procs[pid].intent, s.procs[pid].hash;
    var k := KeyOf(i.session);
    var u := s.db.(rows := s.db.rows[k := DoubtedRow(s.db.rows[k])],
                   leases := s.db.leases[k := s.db.leases[k].(status := LeaseUnknown)]);
    var all := if sent == ReplyLost then s.log + [Broadcast(k, h, i.amount, i.wallet)] else s.log;
    DoubtWritten(s.db, u, s.log, s.mined, i, h, sent, doubt);
    DoubtRead(s.db, u, all, s.mined, i, h, read, last);
    FourActs(INITIAL, events, pid, sent, doubt, read, last);
    var a := Step(s, Act(pid, sent));
    var b := Step(a, Act(pid, doubt));
    var c := Step(b, Act(pid, read));
    var d := Step(c, Act(pid, last));
    assert d.procs == s.procs[pid := Finished(KeyOf(i.session), Pending)];
  }

  lemma FourActs(s: State, events: seq<Event>, pid: nat, a: Choice, b: Choice, c: Choice, d: Choice)
    ensures Run(s, events + Doubted(pid, a, b, c, d))
              == Step(Step(Step(Step(Run(s, events), Act(pid, a)), Act(pid, b)), Act(pid, c)), Act(pid, d))
  {
    hide Run, Step;
    var more := Doubted(pid, a, b, c, d);
    RunStep(s, events, more[0]);
    RunStep(s, events + more[..1], more[1]);
    RunStep(s, events + more[..2], more[2]);
    RunStep(s, events + more[..3], more[3]);
    assert events + more[..1] == events + [more[0]];
    assert events + more[..1] + [more[1]] == events + more[..2];
    assert events + more[..2] + [more[2]] == events + more[..3];
    assert events + more[..3] + [more[3]] == events + more;
  }

  /** Blocks are mined and processes crash; nobody calls anything. */
  predicate Quiet(events: seq<Event>) { forall e :: e in events ==> e.Mine? || e.Crash? }

  lemma {:induction false} QuietKeepsTables(s: State, events: seq<Event>)
    requires Quiet(events)
    ensures Run(s, events).db == s.db && Run(s, events).log == s.log
    ensures Run(s, events).procs.Keys <= s.procs.Keys
    decreases |events|
  {
    if events != [] {
      QuietKeepsTables(s, events[..|events| - 1]);
      assert events[|events| - 1] in events;
    }
  }

  /** And then: however the chain goes on, one fault-free replay of the record
      delivers the reward exactly when the transfer paid the claim and the ledger
      agrees. The doubt never pays on trust. */
  lemma LostReplyReplays(events: seq<Event>, pid: nat, sent: Choice, doubt: Choice, read: Choice, last: Choice,
                         more: seq<Event>, other: nat, session: Session)
    requires pid in Run(INITIAL, events).procs && Run(INITIAL, events).procs[pid].Broadcasting?
    requires sent != Ok && (doubt == Ok || doubt == ReplyLost)
    requires Unsettled(Run(INITIAL, events).mined, Run(INITIAL, events).procs[pid].hash, read)
    requires var s := Run(INITIAL, events);
             var k := KeyOf(s.procs[pid].intent.session);
             k in s.db.rows && Open(s.db.rows[k].status)
             && KeyOf(session) == k && RecordMatches(s.db.rows[k], session)
    requires Quiet(more) && other !in Run(INITIAL, events).procs
    ensures var k := KeyOf(session);
            var r := Run(INITIAL, events).db.rows[k].(status := Unknown);
            var m := Run(INITIAL, events + Doubted(pid, sent, doubt, read, last) + more);
            var u := Replayed(m, other, session);
            && k in m.db.rows && m.db.rows[k] == r && other in u.procs && u.log == m.log && u.mined == m.mined
            && r.hash.Some? && EndsAsked(m.db, m.mined, r, Effect(u.db, u.log, u.procs[other]))
            && (u.procs[other] == Finished(k, Success(r.amount, r.hash))
                <==> Paid(m.mined, r) && LedgerAgrees(m.db, r.hash.value, r.amount))
  {
    var s := Run(INITIAL, events);
    var after := events + Doubted(pid, sent, doubt, read, last);
    LostReplyIsUnknown(events, pid, sent, doubt, read, last);
    RunConcat(INITIAL, after, more);
    QuietKeepsTables(Run(INITIAL, after), more);
    var m := Run(INITIAL, after + more);
    hide Run, Replayed, Unsettled, Quiet, Paid, LedgerAgrees, WithHash, SnapAward, SamePhysicalSession;
    StillMatches(s.db.rows[KeyOf(session)], session);
    ReplayEnds(after + more, other, session);
  }

  lemma StillMatches(r: Row, session: Session)
    requires RecordMatches(r, session)
    ensures RecordMatches(r.(status := Unknown), session)
  {}

  // ----- a submission whose transfer did not pay -----

  /** What the row becomes when its own submission reads the chain. */
  function UnpaidRow(mined: map<Hash, Receipt>, h: Hash, r: Row): Row {
    if h in mined then r.(status := Failed, outcome := NoMovement) else r.(status := Unknown)
  }

  /** An open row and its lease after the two hash writes. */
  function SentTables(db: Tables, k: Key): Tables
    requires k in db.rows && k in db.leases
  {
    db.(rows := db.rows[k := db.rows[k].(status := Submitted)],
        leases := db.leases[k := db.leases[k].(status := LeaseSubmitted)])
  }

  lemma SentCalls(db: Tables, log: seq<Broadcast>, mined: map<Hash, Receipt>, i: Intent, h: Hash)
    requires KeyOf(i.session) in db.rows && KeyOf(i.session) in db.leases
    requires db.leases[KeyOf(i.session)].hash == h && db.rows[KeyOf(i.session)].hash == Some(h)
    requires Open(db.rows[KeyOf(i.session)].status)
    ensures var sent := SentTables(db, KeyOf(i.session));
            && Advance(db, log, mined, SubmittingLease(i, h), Ok) == Effect(sent, log, SavingHash(i, h))
            && Advance(sent, log, mined, SavingHash(i, h), Ok)
                 == Effect(sent, log, Verifying(LocalRow(i, h, Submitted)))
  {
    hide Record, Submit, Recover, ClaimOutcome, Claimed;
    var k := KeyOf(i.session);
    var sent := SentTables(db, k);
    assert sent.rows[k := sent.rows[k]] == sent.rows;
  }

  lemma UnpaidReadCalls(db: Tables, log: seq<Broadcast>, mined: map<Hash, Receipt>, i: Intent, h: Hash)
    requires KeyOf(i.session) in db.rows && KeyOf(i.session) in db.leases
    requires db.rows[KeyOf(i.session)].hash == Some(h) && (h in mined ==> !mined[h].ok)
    ensures var k := KeyOf(i.session);
            var sent := SentTables(db, k);
            var snap := LocalRow(i, h, Submitted);
            var next := if h in mined then Failing(snap, NoMovement) else MarkingUnknown(k);
            && Advance(sent, log, mined, Verifying(snap), Chain(Truth)) == Effect(sent, log, next)
            && Advance(sent, log, mined, next, Ok)
                 == Effect(sent.(rows := db.rows[k := UnpaidRow(mined, h, db.rows[k])]), log,
                           Finished(k, if h in mined then Rejected else Pending))
  {
    hide Record, Submit, Recover, ClaimOutcome, Claimed, SavedHash;
    var k := KeyOf(i.session);
    var row := UnpaidRow(mined, h, db.rows[k]);
    assert SentTables(db, k).rows[k := row] == db.rows[k := row];
  }

  lemma SubmitterIsLeased(s: State, pid: nat)
    requires Inv(s) && pid in s.procs && s.procs[pid].SubmittingLease?
    ensures var k := KeyOf(s.procs[pid].intent.session);
            && k in s.db.rows && k in s.db.leases && s.db.leases[k].hash == s.procs[pid].hash
            && s.db.rows[k].hash == Some(s.procs[pid].hash)
  {
    hide RowsOk, HashesApart, ClaimsApart, AwardsOk, LogOk, MinedOk, FailuresOk, OneBroadcaster, MinedLogged;
    assert ProcessOk(s.db, s.log, s.mined, s.procs[pid]);
  }

  /** From any reachable state, a process whose broadcast was accepted and whose
      row is open, left alone: a transfer not yet mined leaves the row unknown and
      the answer pending; a reverted one leaves it failed as no movement and is
      rejected. No ledger row is written. */
  lemma SubmissionUnpaid(events: seq<Event>, pid: nat)
    requires pid in Run(INITIAL, events).procs && Run(INITIAL, events).procs[pid].SubmittingLease?
    requires var s := Run(INITIAL, events);
             var i, h := s.procs[pid].intent, s.procs[pid].hash;
             && KeyOf(i.session) in s.db.rows && Open(s.db.rows[KeyOf(i.session)].status)
             && (h in s.mined ==> !s.mined[h].ok)
    ensures var s := Run(INITIAL, events);
            var i, h := s.procs[pid].intent, s.procs[pid].hash;
            var k := KeyOf(i.session);
            && k in s.db.leases
            && Drive(s, pid, 6)
               == State(s.db.(rows := s.db.rows[k := UnpaidRow(s.mined, h, s.db.rows[k])],
                              leases := s.db.leases[k := s.db.leases[k].(status := LeaseSubmitted)]),
                        s.log, s.mined, s.procs[pid := Finished(k, if h in s.mined then Rejected else Pending)])
  {
    Reachable(events);
    var s := Run(INITIAL, events);
    hide Run, Inv, Advance, Finish, Drive, UnpaidRow;
    SubmitterIsLeased(s, pid);
    var i, h := s.procs[pid].intent, s.procs[pid].hash;
    SentCalls(s.db, s.log, s.mined, i, h);
    UnpaidReadCalls(s.db, s.log, s.mined, i, h);
    var a := Advance(s.db, s.log, s.mined, SubmittingLease(i, h), Ok);
    var b := Advance(a.db, a.log, s.mined, a.next, Ok);
    var c := Advance(b.db, b.log, s.mined, b.next, Chain(Truth));
    var d := Advance(c.db, c.log, s.mined, c.next, Ok);
    DriveIsFinish(s, pid, 6);
    Next(Effect(s.db, s.log, s.procs[pid]), s.mined, 6);
    Next(a, s.mined, 5);
    Next(b, s.mined, 4);
    Next(c, s.mined, 3);
    FinishedStays(d, s.mined, 2);
  }
}

/** The three orchestrators as the code writes them, each proved to be the step
    system's process driven by the same sequence of call outcomes. */
module AwardExecutor {
  import opened Basics
  import opened OperationTables
  import opened AwardProtocol
  import opened TokenOperationStore
  import AwardSafety

  /** A process whose calls end as listed. */
  function Play(f: Effect, mined: map<Hash, Receipt>, calls: seq<Choice>): Effect
    decreases |calls|
  {
    if calls == [] then f else Play(Advance(f.db, f.log, mined, f.next, calls[0]), mined, calls[1..])
  }

  lemma PlayAt(f: Effect, mined: map<Hash, Receipt>, calls: seq<Choice>, n: nat)
    requires n < |calls|
    ensures Play(f, mined, calls[n..]) == Play(Advance(f.db, f.log, mined, f.next, calls[n]), mined, calls[n + 1..])
  {
    assert calls[n..][1..] == calls[n + 1..];
  }

  lemma {:induction false} PlayFinished(f: Effect, mined: map<Hash, Receipt>, calls: seq<Choice>)
    requires f.next.Finished?
    ensures Play(f, mined, calls) == f
    decreases |calls|
  {
    if calls != [] {
      PlayFinished(f, mined, calls[1..]);
    }
  }

  /** The events of one process whose calls end as listed. */
  function Acts(pid: nat, calls: seq<Choice>): (r: seq<Event>)
    ensures |r| == |calls|
  {
    if calls == [] then [] else [Act(pid, calls[0])] + Acts(pid, calls[1..])
  }

  /** What an orchestrator does alone is a run of the step system. */
  lemma {:induction false} PlayIsRun(s: State, pid: nat, calls: seq<Choice>)
    requires pid in s.procs
    ensures var f := Play(Effect(s.db, s.log, s.procs[pid]), s.mined, calls);
            Run(s, Acts(pid, calls)) == State(f.db, f.log, s.mined, s.procs[pid := f.next])
    decreases |calls|
  {
    hide Advance;
    if calls == [] {
      assert s.procs[pid := s.procs[pid]] == s.procs;
    } else {
      var u := Step(s, Act(pid, calls[0]));
      var f := Play(Effect(s.db, s.log, s.procs[pid]), s.mined, calls);
      PlayIsRun(u, pid, calls[1..]);
      RunConcat(s, [Act(pid, calls[0])], Acts(pid, calls[1..]));
      assert Run(s, [Act(pid, calls[0])]) == u by {
        assert [Act(pid, calls[0])][..0] == [];
      }
      assert u.procs[pid := f.next] == s.procs[pid := f.next];
    }
  }

  /** So an orchestrator left alone keeps what every run keeps, whatever its
      calls do, and undoes nothing. */
  lemma OrchestratorsAreSafe(s: State, pid: nat, calls: seq<Choice>)
    requires AwardSafety.Inv(s) && pid in s.procs
    ensures var f := Play(Effect(s.db, s.log, s.procs[pid]), s.mined, calls);
            var u := State(f.db, f.log, s.mined, s.procs[pid := f.next]);
            AwardSafety.Inv(u) && AwardSafety.Extends(s, u)
  {
    hide AwardSafety.Inv, AwardSafety.Extends, Play, Run;
    PlayIsRun(s, pid, calls);
    AwardSafety.RunKeeps(s, Acts(pid, calls));
  }

  /** The program point where projection starts when evidence may be at hand. */
  function ProjectWith(snap: Row, demandFresh: bool, verifier: bool, preverified: Option<Evidence>): Process {
    var p := Project(snap, demandFresh, verifier);
    if p.Verifying? && preverified.Some? then AfterVerdict(snap, preverified.value) else p
  }

  // ----- the calls of a projection -----

  function After(ch: Choice, old': Tables, written: Tables): Tables { if TakesEffect(ch) then written else old' }

  lemma VerifyingCall(db: Tables, log: seq<Broadcast>, mined: map<Hash, Receipt>, snap: Row, ch: Choice)
    ensures Advance(db, log, mined, Verifying(snap), ch)
              == Effect(db, log,
                        if ch.Chain? then AfterVerdict(snap, ObserveFor(mined, ch.answer, snap))
                        else MarkingUnknown(KeyOf(snap.session)))
  {
    hide AfterVerdict, ObserveFor;
  }

  lemma UnknownCall(db: Tables, log: seq<Broadcast>, mined: map<Hash, Receipt>, k: Key, ch: Choice)
    ensures Advance(db, log, mined, MarkingUnknown(k), ch)
              == Effect(After(ch, db, UnknownRow(db, k)), log, Finished(k, Pending))
  {
    hide UnknownRow;
  }

  lemma ZeroCall(db: Tables, log: seq<Broadcast>, mined: map<Hash, Receipt>, k: Key, ch: Choice)
    ensures Advance(db, log, mined, ProjectingZero(k), ch)
              == Effect(After(ch, db, ProjectedRow(db, k)), log,
                        Finished(k, if ch == Ok then Success(0, None) else Pending))
  {
    hide ProjectedRow;
  }

  lemma FailingCall(db: Tables, log: seq<Broadcast>, mined: map<Hash, Receipt>, snap: Row, outcome: Outcome, ch: Choice)
    ensures var k := KeyOf(snap.session);
            Advance(db, log, mined, Failing(snap, outcome), ch)
              == Effect(After(ch, db, FailedRow(db, k, outcome)), log,
                        Finished(k, if ch == Ok && outcome == NoMovement then Rejected else Pending))
  {
    hide FailedRow;
  }

  lemma ConfirmingCall(db: Tables, log: seq<Broadcast>, mined: map<Hash, Receipt>, snap: Row, ch: Choice)
    ensures var k := KeyOf(snap.session);
            Advance(db, log, mined, Confirming(snap), ch)
              == Effect(After(ch, db, ConfirmedRow(db, k)), log,
                        if ch == Ok then Recording(snap) else Finished(k, Pending))
  {
    hide ConfirmedRow;
  }

  lemma RecordingCall(db: Tables, log: seq<Broadcast>, mined: map<Hash, Receipt>, snap: Row, ch: Choice)
    requires snap.hash.Some?
    ensures var written := Recorded(db, AwardFor(snap.session, snap.amount, snap.hash.value, snap.wallet));
            Advance(db, log, mined, Recording(snap), ch)
              == Effect(if written.Some? then After(ch, db, written.value) else db, log,
                        if ch == Ok && written.Some? then Projecting(snap) else NotingProjectionError(snap))
  {
    hide Recorded;
  }

  lemma MarkingCalls(db: Tables, log: seq<Broadcast>, mined: map<Hash, Receipt>, snap: Row, ch: Choice)
    ensures var k := KeyOf(snap.session);
            && Advance(db, log, mined, NotingProjectionError(snap), ch)
                 == Effect(After(ch, db, ProjectionErrorRow(db, k)), log, Finished(k, Pending))
            && Advance(db, log, mined, Projecting(snap), ch)
                 == Effect(After(ch, db, ProjectedRow(db, k)), log,
                           Finished(k, if ch == Ok then Success(snap.amount, snap.hash) else Pending))
  {
    hide ProjectedRow, ProjectionErrorRow;
  }

  // ----- the calls of a submission -----

  lemma HoldingCall(db: Tables, log: seq<Broadcast>, mined: map<Hash, Receipt>, i: Intent, ch: Choice)
    ensures var k := KeyOf(i.session);
            var prepared := PrepareOutcome(db, k, i.amount, i.wallet);
            Advance(db, log, mined, Holding(i), ch)
              == if i.amount == 0 then Effect(db, log, ProjectingZero(k))
                 else if ch == Unsendable then Effect(db, log, MarkingUnknown(k))
                 else Effect(After(ch, db, PreparedTables(db, k, i.amount, i.wallet)), log,
                             if ch != Ok || prepared.Unprepared? then MarkingPreflight(k)
                             else if prepared.Fresh? then Broadcasting(i, prepared.hash)
                             else if prepared.lease.status == Prepared then DoubtingLease(i, prepared.lease.hash, false)
                             else SavingHash(i, prepared.lease.hash))
  {}

  lemma PreflightCall(db: Tables, log: seq<Broadcast>, mined: map<Hash, Receipt>, k: Key, ch: Choice)
    ensures Advance(db, log, mined, MarkingPreflight(k), ch)
              == Effect(After(ch, db, PreflightFailedRow(db, k)), log, Finished(k, Rejected))
  {
    hide PreflightFailedRow;
  }

  lemma BroadcastCall(db: Tables, log: seq<Broadcast>, mined: map<Hash, Receipt>, i: Intent, h: Hash, ch: Choice)
    ensures Advance(db, log, mined, Broadcasting(i, h), ch)
              == Effect(db, if TakesEffect(ch) then log + [Broadcast(KeyOf(i.session), h, i.amount, i.wallet)] else log,
                        if ch == Ok then SubmittingLease(i, h) else DoubtingLease(i, h, true))
  {}

  lemma LeaseCall(db: Tables, log: seq<Broadcast>, mined: map<Hash, Receipt>, i: Intent, h: Hash, ch: Choice)
    ensures Advance(db, log, mined, SubmittingLease(i, h), ch)
              == Effect(After(ch, db, LeaseSubmittedTables(db, KeyOf(i.session), h)), log,
                        if ch == Ok then SavingHash(i, h) else DoubtingLease(i, h, true))
  {
    hide LeaseSubmittedTables;
  }

  lemma DoubtCall(db: Tables, log: seq<Broadcast>, mined: map<Hash, Receipt>, i: Intent, h: Hash, reconcile: bool,
                  ch: Choice)
    ensures Advance(db, log, mined, DoubtingLease(i, h, reconcile), ch)
              == Effect(After(ch, db, LeaseUnknownTables(db, KeyOf(i.session))), log,
                        if reconcile then ProjectWith(LocalRow(i, h, Unknown), false, true, None)
                        else MarkingUnknown(KeyOf(i.session)))
  {
    hide LeaseUnknownTables;
  }

  lemma SaveCall(db: Tables, log: seq<Broadcast>, mined: map<Hash, Receipt>, i: Intent, h: Hash, ch: Choice)
    ensures var saved := SavedHash(db, KeyOf(i.session), h);
            Advance(db, log, mined, SavingHash(i, h), ch)
              == Effect(if saved.Some? then After(ch, db, saved.value) else db, log,
                        if ch == Ok && saved.Some? then ProjectWith(LocalRow(i, h, Submitted), false, true, None)
                        else MarkingUnknown(KeyOf(i.session)))
  {
    hide SavedHash;
  }

  /** `projectAwardOperation`. */
  method ProjectAwardOperation(store: Store, net: Network, snap: Row, demandFresh: bool, verifier: bool,
                               preverified: Option<Evidence>, calls: seq<Choice>) returns (result: Result)
    requires |calls| >= 4
    modifies store
    ensures Effect(store.Db(), net.log, Finished(KeyOf(snap.session), result))
              == Play(Effect(old(store.Db()), net.log, ProjectWith(snap, demandFresh, verifier, preverified)),
                      net.mined, calls)
  {
    hide Play, Advance, Recorded, AwardFor, ConfirmedRow, ProjectedRow, FailedRow, UnknownRow;
    hide ProjectionErrorRow, ObserveFor;
    var k := KeyOf(snap.session);
    ghost var start := Effect(store.Db(), net.log, ProjectWith(snap, demandFresh, verifier, preverified));
    assert calls[0..] == calls;
    if snap.status == Failed {
      PlayFinished(start, net.mined, calls);
      return if snap.outcome == NoMovement then Rejected else Pending;
    }
    if snap.status == Projected {
      PlayFinished(start, net.mined, calls);
      return Success(snap.amount, snap.hash);
    }
    if snap.hash == None {
      if snap.amount == 0 {
        PlayAt(start, net.mined, calls, 0);
        ZeroCall(store.Db(), net.log, net.mined, k, calls[0]);
        var ok := store.MarkProjected(k, calls[0]);
        result := if ok then Success(0, None) else Pending;
        PlayFinished(Effect(store.Db(), net.log, Finished(k, result)), net.mined, calls[1..]);
        return;
      }
      PlayFinished(start, net.mined, calls);
      return Pending;
    }
    var n := 0;
    if (snap.status == Submitted || snap.status == Unknown || demandFresh) && verifier {
      var evidence;
      if preverified.Some? {
        evidence := preverified.value;
      } else {
        PlayAt(start, net.mined, calls, n);
        VerifyingCall(store.Db(), net.log, net.mined, snap, calls[n]);
        var read;
        read, evidence := net.Verify(snap, calls[n]);
        n := 1;
        if !read {
          PlayAt(Effect(store.Db(), net.log, MarkingUnknown(k)), net.mined, calls, n);
          UnknownCall(store.Db(), net.log, net.mined, k, calls[n]);
          var _ := store.MarkUnknown(k, calls[n]);
          PlayFinished(Effect(store.Db(), net.log, Finished(k, Pending)), net.mined, calls[n + 1..]);
          return Pending;
        }
      }
      assert Play(start, net.mined, calls)
          == Play(Effect(store.Db(), net.log, AfterVerdict(snap, evidence)), net.mined, calls[n..]);
      PlayAt(Effect(store.Db(), net.log, AfterVerdict(snap, evidence)), net.mined, calls, n);
      if evidence != Valid {
        if evidence == Inconclusive || evidence == Missing {
          UnknownCall(store.Db(), net.log, net.mined, k, calls[n]);
          var _ := store.MarkUnknown(k, calls[n]);
          result := Pending;
        } else {
          var outcome := if evidence == Reverted then NoMovement else Review;
          FailingCall(store.Db(), net.log, net.mined, snap, outcome, calls[n]);
          var ok := store.MarkFailed(k, outcome, calls[n]);
          result := if ok && outcome == NoMovement then Rejected else Pending;
        }
        PlayFinished(Effect(store.Db(), net.log, Finished(k, result)), net.mined, calls[n + 1..]);
        return;
      }
      ConfirmingCall(store.Db(), net.log, net.mined, snap, calls[n]);
      var ok := store.MarkConfirmed(k, calls[n]);
      n := n + 1;
      if !ok {
        PlayFinished(Effect(store.Db(), net.log, Finished(k, Pending)), net.mined, calls[n..]);
        return Pending;
      }
    }
    assert Play(start, net.mined, calls) == Play(Effect(store.Db(), net.log, Recording(snap)), net.mined, calls[n..]);
    result := RecordAndComplete(store, net, snap, calls[n..]);
  }

  /** The ledger write and the last status write of `projectAwardOperation`. */
  method RecordAndComplete(store: Store, net: Network, snap: Row, calls: seq<Choice>) returns (result: Result)
    requires |calls| >= 2 && snap.hash.Some?
    modifies store
    ensures Effect(store.Db(), net.log, Finished(KeyOf(snap.session), result))
              == Play(Effect(old(store.Db()), net.log, Recording(snap)), net.mined, calls)
  {
    hide Play, Advance, Recorded, AwardFor, ProjectedRow, ProjectionErrorRow;
    var k := KeyOf(snap.session);
    assert calls[0..] == calls;
    PlayAt(Effect(store.Db(), net.log, Recording(snap)), net.mined, calls, 0);
    RecordingCall(store.Db(), net.log, net.mined, snap, calls[0]);
    var recorded := store.RecordAward(AwardFor(snap.session, snap.amount, snap.hash.value, snap.wallet), calls[0]);
    MarkingCalls(store.Db(), net.log, net.mined, snap, calls[1]);
    if !recorded {
      PlayAt(Effect(store.Db(), net.log, NotingProjectionError(snap)), net.mined, calls, 1);
      var _ := store.MarkProjectionError(k, calls[1]);
      PlayFinished(Effect(store.Db(), net.log, Finished(k, Pending)), net.mined, calls[2..]);
      return Pending;
    }
    PlayAt(Effect(store.Db(), net.log, Projecting(snap)), net.mined, calls, 1);
    var marked := store.MarkProjected(k, calls[1]);
    result := if marked then Success(snap.amount, snap.hash) else Pending;
    PlayFinished(Effect(store.Db(), net.log, Finished(k, result)), net.mined, calls[2..]);
  }

  /** `recoverAwardOperation`. The stored snapshot is validated (as
      `AdminRecovery.SnapshotValidates` says) and the asset context compared
      before the chain is read; a row that fails either check is left alone. */
  method RecoverAwardOperation(store: Store, net: Network, k: Key, demandFresh: bool, snapshotOk: bool,
                               assetMatches: bool, calls: seq<Choice>)
      returns (result: Result)
    requires |calls| >= 6
    requires forall l :: l in store.rows ==> KeyOf(store.rows[l].session) == l
    modifies store
    ensures snapshotOk && assetMatches ==>
              Effect(store.Db(), net.log, Finished(k, result))
              == Play(Effect(old(store.Db()), net.log, Recovering(k, demandFresh)), net.mined, calls)
    ensures !snapshotOk || !assetMatches ==> store.Db() == old(store.Db())
    ensures !snapshotOk || !assetMatches ==>
              (result.Success? <==>
                && calls[0] == Ok && k in old(store.rows)
                && old(store.rows)[k].status == Projected && old(store.rows)[k].hash.Some?)
  {
    hide Play, Advance, Project, AfterVerdict, UnknownRow, ObserveFor, AfterRecoveryVerdict;
    ghost var start := Effect(store.Db(), net.log, Recovering(k, demandFresh));
    assert calls[0..] == calls;
    PlayAt(start, net.mined, calls, 0);
    RecoveringCall(store.Db(), net.log, net.mined, k, demandFresh, calls[0]);
    var found, row := store.FindByKey(k, calls[0]);
    if !found || row == None {
      PlayFinished(Effect(store.Db(), net.log, Finished(k, Rejected)), net.mined, calls[1..]);
      return Rejected;
    }
    var r := row.value;
    if demandFresh && r.status != Projected && r.hash == None {
      PlayFinished(Effect(store.Db(), net.log, Finished(k, Rejected)), net.mined, calls[1..]);
      return Rejected;
    }
    if r.status == Projected {
      result := if r.hash.Some? then Success(r.amount, r.hash) else Rejected;
      PlayFinished(Effect(store.Db(), net.log, Finished(k, result)), net.mined, calls[1..]);
      return;
    }
    if !snapshotOk {
      return Rejected;
    }
    if !assetMatches {
      return Pending;
    }
    var preverified := None;
    if demandFresh {
      PlayAt(Effect(store.Db(), net.log, RecoverVerifying(r)), net.mined, calls, 1);
      RecoverVerifyingCall(store.Db(), net.log, net.mined, r, calls[1]);
      var read, evidence := net.Verify(r, calls[1]);
      if !read || evidence == Inconclusive {
        PlayAt(Effect(store.Db(), net.log, MarkingUnknown(k)), net.mined, calls, 2);
        UnknownCall(store.Db(), net.log, net.mined, k, calls[2]);
        var _ := store.MarkUnknown(k, calls[2]);
        PlayFinished(Effect(store.Db(), net.log, Finished(k, Pending)), net.mined, calls[3..]);
        return Pending;
      }
      if evidence != Valid {
        PlayFinished(Effect(store.Db(), net.log, Finished(k, Pending)), net.mined, calls[2..]);
        return Pending;
      }
      preverified := Some(evidence);
      result := ProjectAwardOperation(store, net, r, true, true, preverified, calls[2..]);
      return;
    }
    result := ProjectAwardOperation(store, net, r, false, true, preverified, calls[1..]);
  }

  lemma RecoveringCall(db: Tables, log: seq<Broadcast>, mined: map<Hash, Receipt>, k: Key, demandFresh: bool,
                       ch: Choice)
    requires k in db.rows ==> KeyOf(db.rows[k].session) == k
    ensures Advance(db, log, mined, Recovering(k, demandFresh), ch)
              == Effect(db, log,
                        if ch != Ok || k !in db.rows then Finished(k, Rejected)
                        else if db.rows[k].status == Projected then
                          Finished(k, if db.rows[k].hash.Some? then Success(db.rows[k].amount, db.rows[k].hash)
                                   else Rejected)
                        else if !demandFresh then ProjectWith(db.rows[k], false, true, None)
                        else if db.rows[k].hash == None then Finished(k, Rejected) else RecoverVerifying(db.rows[k]))
  {
    hide Project;
  }

  lemma RecoverVerifyingCall(db: Tables, log: seq<Broadcast>, mined: map<Hash, Receipt>, r: Row, ch: Choice)
    requires r.status != Projected && r.hash.Some?
    ensures var k := KeyOf(r.session);
            Advance(db, log, mined, RecoverVerifying(r), ch)
              == Effect(db, log,
                        if !ch.Chain? then MarkingUnknown(k)
                        else match ObserveFor(mined, ch.answer, r)
                             case Inconclusive => MarkingUnknown(k)
                             case Valid => ProjectWith(r, true, true, Some(Valid))
                             case _ => Finished(k, Pending))
  {
    hide ObserveFor;
  }

  /** The submission of an acquired claim, up to the point where its outcome is
      projected or marked unknown. */
  method SubmitAward(store: Store, net: Network, i: Intent, calls: seq<Choice>) returns (result: Result)
    requires |calls| >= 9
    modifies store, net
    ensures Effect(store.Db(), net.log, Finished(KeyOf(i.session), result))
              == Play(Effect(old(store.Db()), old(net.log), Holding(i)), net.mined, calls)
  {
    hide Play, Advance, Project, AfterVerdict, SavedHash, LeaseSubmittedTables, LeaseUnknownTables;
    hide PreparedTables, PrepareOutcome;
    hide UnknownRow, ProjectedRow, PreflightFailedRow;
    var k := KeyOf(i.session);
    assert calls[0..] == calls;
    PlayAt(Effect(store.Db(), net.log, Holding(i)), net.mined, calls, 0);
    HoldingCall(store.Db(), net.log, net.mined, i, calls[0]);
    if i.amount == 0 {
      PlayAt(Effect(store.Db(), net.log, ProjectingZero(k)), net.mined, calls, 1);
      ZeroCall(store.Db(), net.log, net.mined, k, calls[1]);
      var ok := store.MarkProjected(k, calls[1]);
      result := if ok then Success(0, None) else Pending;
      PlayFinished(Effect(store.Db(), net.log, Finished(k, result)), net.mined, calls[2..]);
      return;
    }
    if calls[0] == Unsendable {
      result := LeaveUnknown(store, net, k, calls, 1);
      return;
    }
    var ok, prepared := store.Prepare(k, i.amount, i.wallet, calls[0]);
    if !ok {
      PlayAt(Effect(store.Db(), net.log, MarkingPreflight(k)), net.mined, calls, 1);
      PreflightCall(store.Db(), net.log, net.mined, k, calls[1]);
      var _ := store.MarkPreflightFailed(k, calls[1]);
      PlayFinished(Effect(store.Db(), net.log, Finished(k, Rejected)), net.mined, calls[2..]);
      return Rejected;
    }
    if prepared.Already? {
      if prepared.lease.status == Prepared {
        result := DoubtLease(store, net, i, prepared.lease.hash, false, calls[1..]);
      } else {
        result := SaveAndProject(store, net, i, prepared.lease.hash, calls[1..]);
      }
      return;
    }
    var h := prepared.hash;
    PlayAt(Effect(store.Db(), net.log, Broadcasting(i, h)), net.mined, calls, 1);
    BroadcastCall(store.Db(), net.log, net.mined, i, h, calls[1]);
    ok := net.Send(Broadcast(k, h, i.amount, i.wallet), calls[1]);
    var n := 2;
    if ok {
      PlayAt(Effect(store.Db(), net.log, SubmittingLease(i, h)), net.mined, calls, 2);
      LeaseCall(store.Db(), net.log, net.mined, i, h, calls[2]);
      ok := store.LeaseSubmittedNow(k, h, calls[2]);
      n := 3;
    }
    if !ok {
      result := DoubtLease(store, net, i, h, true, calls[n..]);
    } else {
      result := SaveAndProject(store, net, i, h, calls[n..]);
    }
  }

  /** The broadcast is in doubt: mark the lease, and read the chain once if the
      error carries the saved hash. */
  method DoubtLease(store: Store, net: Network, i: Intent, h: Hash, reconcile: bool, calls: seq<Choice>)
      returns (result: Result)
    requires |calls| >= 5
    modifies store
    ensures Effect(store.Db(), net.log, Finished(KeyOf(i.session), result))
              == Play(Effect(old(store.Db()), net.log, DoubtingLease(i, h, reconcile)), net.mined, calls)
  {
    hide Play, Advance, AfterVerdict, LeaseUnknownTables, UnknownRow;
    var k := KeyOf(i.session);
    assert calls[0..] == calls;
    PlayAt(Effect(store.Db(), net.log, DoubtingLease(i, h, reconcile)), net.mined, calls, 0);
    DoubtCall(store.Db(), net.log, net.mined, i, h, reconcile, calls[0]);
    var _ := store.LeaseUnknownNow(k, calls[0]);
    if reconcile {
      result := ProjectAwardOperation(store, net, LocalRow(i, h, Unknown), false, true, None, calls[1..]);
    } else {
      result := LeaveUnknown(store, net, k, calls, 1);
    }
  }

  method LeaveUnknown(store: Store, net: Network, k: Key, calls: seq<Choice>, n: nat) returns (result: Result)
    requires n < |calls|
    modifies store
    ensures Effect(store.Db(), net.log, Finished(k, result))
              == Play(Effect(old(store.Db()), net.log, MarkingUnknown(k)), net.mined, calls[n..])
  {
    hide Play, Advance, UnknownRow;
    PlayAt(Effect(store.Db(), net.log, MarkingUnknown(k)), net.mined, calls, n);
    UnknownCall(store.Db(), net.log, net.mined, k, calls[n]);
    var _ := store.MarkUnknown(k, calls[n]);
    PlayFinished(Effect(store.Db(), net.log, Finished(k, Pending)), net.mined, calls[n + 1..]);
    result := Pending;
  }

  method SaveAndProject(store: Store, net: Network, i: Intent, h: Hash, calls: seq<Choice>) returns (result: Result)
    requires |calls| >= 5
    modifies store
    ensures Effect(store.Db(), net.log, Finished(KeyOf(i.session), result))
              == Play(Effect(old(store.Db()), net.log, SavingHash(i, h)), net.mined, calls)
  {
    hide Play, Advance, AfterVerdict, SavedHash, UnknownRow;
    var k := KeyOf(i.session);
    assert calls[0..] == calls;
    PlayAt(Effect(store.Db(), net.log, SavingHash(i, h)), net.mined, calls, 0);
    SaveCall(store.Db(), net.log, net.mined, i, h, calls[0]);
    var ok := store.MarkSubmitted(k, h, calls[0]);
    if !ok {
      result := LeaveUnknown(store, net, k, calls, 1);
    } else {
      result := ProjectAwardOperation(store, net, LocalRow(i, h, Submitted), false, true, None, calls[1..]);
    }
  }

  lemma LookingUpCall(db: Tables, log: seq<Broadcast>, mined: map<Hash, Receipt>, s: Session, ch: Choice)
    ensures var k := KeyOf(s);
            Advance(db, log, mined, LookingUp(s), ch)
              == Effect(db, log,
                        if ch != Ok then Finished(k, Rejected)
                        else if k !in db.rows then Pricing(s)
                        else if !RecordMatches(db.rows[k], s) then Finished(k, Rejected)
                        else if db.rows[k].amount == 0 && db.rows[k].hash == None then
                          ProjectWith(db.rows[k], false, false, None)
                        else Claiming(Intent(s, db.rows[k].amount, db.rows[k].wallet)))
  {
    hide RecordMatches, Project;
    var k := KeyOf(s);
    if k in db.rows && db.rows[k].hash == None {
      HashlessAsksNothing(db.rows[k], false, false);
    }
  }

  lemma HashlessAsksNothing(r: Row, demandFresh: bool, verifier: bool)
    requires r.hash == None
    ensures !Project(r, demandFresh, verifier).Verifying?
  {}

  lemma PricingCall(db: Tables, log: seq<Broadcast>, mined: map<Hash, Receipt>, s: Session, ch: Choice)
    ensures Advance(db, log, mined, Pricing(s), ch)
              == Effect(db, log,
                        if ch.Priced? && ch.amount <= CAP then Claiming(Intent(s, ch.amount, ch.wallet))
                        else Finished(KeyOf(s), Rejected))
  {}

  lemma ClaimingCall(db: Tables, log: seq<Broadcast>, mined: map<Hash, Receipt>, i: Intent, ch: Choice)
    ensures var claim := ClaimOutcome(db, i.session, i.amount, i.wallet);
            Advance(db, log, mined, Claiming(i), ch)
              == Effect(After(ch, db, Claimed(db, i.session, i.amount, i.wallet)), log,
                        if ch != Ok || claim.Refused? then Finished(KeyOf(i.session), Rejected)
                        else if claim.Acquired? then Holding(i)
                        else ProjectWith(claim.row, false, true, None))
  {
    hide ClaimOutcome, Project;
  }

  /** `processAwardFromCDR`, from the lookup of the operation key on. */
  method ProcessAwardFromCdr(store: Store, net: Network, s: Session, calls: seq<Choice>) returns (result: Result)
    requires |calls| >= 12
    requires forall l :: l in store.rows ==> KeyOf(store.rows[l].session) == l
    modifies store, net
    ensures Effect(store.Db(), net.log, Finished(KeyOf(s), result))
              == Play(Effect(old(store.Db()), old(net.log), LookingUp(s)), net.mined, calls)
  {
    hide Play, Advance, Project, AfterVerdict, ClaimOutcome, Claimed, RecordMatches;
    var k := KeyOf(s);
    assert calls[0..] == calls;
    PlayAt(Effect(store.Db(), net.log, LookingUp(s)), net.mined, calls, 0);
    LookingUpCall(store.Db(), net.log, net.mined, s, calls[0]);
    var found, row := store.FindByKey(k, calls[0]);
    if !found {
      PlayFinished(Effect(store.Db(), net.log, Finished(k, Rejected)), net.mined, calls[1..]);
      return Rejected;
    }
    var i := Intent(s, 0, "");
    var n := 1;
    if row.Some? {
      var existing := row.value;
      if !RecordMatches(existing, s) {
        PlayFinished(Effect(store.Db(), net.log, Finished(k, Rejected)), net.mined, calls[1..]);
        return Rejected;
      }
      if existing.amount == 0 && existing.hash == None {
        result := ProjectAwardOperation(store, net, existing, false, false, None, calls[1..]);
        return;
      }
      i := Intent(s, existing.amount, existing.wallet);
    } else {
      PlayAt(Effect(store.Db(), net.log, Pricing(s)), net.mined, calls, 1);
      PricingCall(store.Db(), net.log, net.mined, s, calls[1]);
      n := 2;
      if !calls[1].Priced? || calls[1].amount > CAP {
        PlayFinished(Effect(store.Db(), net.log, Finished(k, Rejected)), net.mined, calls[2..]);
        return Rejected;
      }
      i := Intent(s, calls[1].amount, calls[1].wallet);
    }
    result := ClaimAndSubmit(store, net, i, calls[n..]);
  }

  /** The claim of `processAwardFromCDR` and what follows from it. */
  method ClaimAndSubmit(store: Store, net: Network, i: Intent, calls: seq<Choice>) returns (result: Result)
    requires |calls| >= 10
    requires forall l :: l in store.rows ==> KeyOf(store.rows[l].session) == l
    modifies store, net
    ensures Effect(store.Db(), net.log, Finished(KeyOf(i.session), result))
              == Play(Effect(old(store.Db()), old(net.log), Claiming(i)), net.mined, calls)
  {
    hide Play, Advance, Project, AfterVerdict, Collides;
    var k := KeyOf(i.session);
    assert calls[0..] == calls;
    PlayAt(Effect(store.Db(), net.log, Claiming(i)), net.mined, calls, 0);
    ClaimingCall(store.Db(), net.log, net.mined, i, calls[0]);
    var ok, claim := store.Claim(i.session, i.amount, i.wallet, calls[0]);
    if !ok {
      PlayFinished(Effect(store.Db(), net.log, Finished(k, Rejected)), net.mined, calls[1..]);
      return Rejected;
    }
    if claim.Acquired? {
      result := SubmitAward(store, net, i, calls[1..]);
    } else {
      result := ProjectAwardOperation(store, net, claim.row, false, true, None, calls[1..]);
    }
  }
}

/** What a reported success is worth, in every run: a success with a transfer is
    in the ledger, whatever failed, and whoever else worked on the key. */
module AwardAnswers {
  import opened Basics
  import opened OperationTables
  import opened AwardProtocol
  import opened AwardSafety
  import opened AwardReplay

  // ----- the invariant -----

  ghost predicate InLedger(t: Tables, h: Hash) { exists i :: 0 <= i < |t.awards| && t.awards[i].hash == h }

  /** A zero award is never signed and never fails. */
  ghost predicate ZeroOk(t: Tables) {
    forall k :: k in t.rows && t.rows[k].amount == 0 ==> t.rows[k].hash == None && t.rows[k].status != Failed
  }

  ghost predicate ProjectedInLedger(t: Tables) {
    forall k :: k in t.rows && t.rows[k].status == Projected && t.rows[k].hash.Some? ==>
      InLedger(t, t.rows[k].hash.value)
  }

  /** A zero award is projected. */
  predicate ZeroDone(t: Tables, k: Key) { k in t.rows && (t.rows[k].amount == 0 ==> t.rows[k].status == Projected) }

  /** The process may still write the outcome of an unsigned claim. */
  predicate Keeps(p: Process, k: Key) {
    match p
    case Holding(i) => KeyOf(i.session) == k
    case MarkingPreflight(l) => l == k
    case ProjectingZero(l) => l == k
    case _ => false
  }

  predicate Unsigned(t: Tables, k: Key) { k in t.rows && t.rows[k].hash == None }

  ghost predicate AnswerOk(t: Tables, p: Process) {
    && (forall k :: Keeps(p, k) ==> k in t.rows && (Unsigned(t, k) ==> t.rows[k].status != Failed))
    && match p
       case Holding(i) =>
         && (t.rows[KeyOf(i.session)].amount == 0 ==> i.amount == 0)
         && (i.amount == 0 ==> Unsigned(t, KeyOf(i.session)))
       case MarkingPreflight(k) => t.rows[k].amount > 0
       case ProjectingZero(k) => Unsigned(t, k)
       case Projecting(snap) => snap.hash.Some? ==> InLedger(t, snap.hash.value)
       case Finished(_, Success(_, Some(h))) => InLedger(t, h)
       case Finished(k, Success(_, None)) => ZeroDone(t, k)
       case _ => true
  }

  /** An unsigned claim of a payable amount is kept by one process only. */
  ghost predicate Alone(t: Tables, p: Process, q: Process) {
    forall k :: Keeps(p, k) && Keeps(q, k) && Unsigned(t, k) ==> t.rows[k].amount == 0
  }

  ghost predicate AnswersOk(s: State) {
    && ZeroOk(s.db) && ProjectedInLedger(s.db)
    && (forall p :: p in s.procs ==> AnswerOk(s.db, s.procs[p]))
    && (forall p, q :: p in s.procs && q in s.procs && p != q ==> Alone(s.db, s.procs[p], s.procs[q]))
  }

  // ----- what one call does to the rows -----

  predicate Projects(p: Process, k: Key) {
    (p.Projecting? && KeyOf(p.snap.session) == k) || (p.ProjectingZero? && p.key == k)
  }

  /** What became of a row may not be undone: a projected row stays projected, a
      confirmed one is at most projected, and a failed one with a transfer stays
      failed as it is. */
  predicate NotUndone(r: Row, u: Row) {
    match r.status
    case Projected => u.status == Projected
    case Confirmed => u.status == Confirmed || u.status == Projected
    case Failed => r.hash.Some? ==> u.status == Failed && u.outcome == r.outcome
    case _ => true
  }

  /** Only the holder of a payable claim signs, only a preflight failure fails an
      unsigned row, only the last call projects one, only a claim makes one, and
      the ledger grows. */
  ghost predicate RowsMoved(t: Tables, u: Tables, p: Process) {
    && t.awards <= u.awards
    && (forall k :: k in t.rows ==>
          && k in u.rows && u.rows[k].amount == t.rows[k].amount
          && (t.rows[k].hash.Some? ==> u.rows[k].hash == t.rows[k].hash)
          && (t.rows[k].hash == None && u.rows[k].hash.Some? ==>
                p.Holding? && KeyOf(p.intent.session) == k && p.intent.amount > 0)
          && (u.rows[k].status == Failed && u.rows[k].hash == None && t.rows[k].status != Failed ==>
                p.MarkingPreflight? && p.key == k)
          && (u.rows[k].status == Projected && t.rows[k].status != Projected ==> Projects(p, k))
          && (NotUndone(t.rows[k], u.rows[k]) || (p.MarkingPreflight? && p.key == k && t.rows[k].hash == None)))
    && (forall k :: k in u.rows && k !in t.rows ==>
          p.Claiming? && KeyOf(p.intent.session) == k && u.rows[k].status == Submitting
          && u.rows[k].hash == None && u.rows[k].amount == p.intent.amount)
  }

  /** A row whose status alone changes, and not to a failure without a hash. */
  ghost predicate StatusOnly(t: Tables, u: Tables, k: Key, projects: bool) {
    && u.awards == t.awards
    && (u.rows == t.rows
        || (k in t.rows && k in u.rows && u.rows == t.rows[k := u.rows[k]] && u.rows[k].amount == t.rows[k].amount
            && u.rows[k].hash == t.rows[k].hash
            && (u.rows[k].status == Failed && u.rows[k].hash == None ==> t.rows[k].status == Failed)
            && (u.rows[k].status == Projected ==> projects || t.rows[k].status == Projected)
            && NotUndone(t.rows[k], u.rows[k])))
  }

  lemma StatusOnlyMoves(t: Tables, u: Tables, k: Key, p: Process)
    requires StatusOnly(t, u, k, Projects(p, k))
    ensures RowsMoved(t, u, p)
  {
    hide Projects, NotUndone;
    SameIsNotUndoneAny();
  }

  lemma SameIsNotUndoneAny()
    ensures forall r :: NotUndone(r, r)
  {}

  lemma StatusWritesOnly(t: Tables, k: Key, o: Outcome)
    ensures StatusOnly(t, UnknownRow(t, k), k, false) && StatusOnly(t, ConfirmedRow(t, k), k, false)
    ensures StatusOnly(t, ProjectionErrorRow(t, k), k, false) && StatusOnly(t, ProjectedRow(t, k), k, true)
    ensures StatusOnly(t, FailedRow(t, k, o), k, false)
  {
    hide StatusOnly;
    EarlyWritesOnly(t, k);
    LateWritesOnly(t, k, o);
  }

  lemma EarlyWritesOnly(t: Tables, k: Key)
    ensures StatusOnly(t, UnknownRow(t, k), k, false) && StatusOnly(t, ConfirmedRow(t, k), k, false)
  {}

  lemma LateWritesOnly(t: Tables, k: Key, o: Outcome)
    ensures StatusOnly(t, ProjectionErrorRow(t, k), k, false) && StatusOnly(t, ProjectedRow(t, k), k, true)
    ensures StatusOnly(t, FailedRow(t, k, o), k, false)
  {}

  lemma LeaseWritesOnly(t: Tables, k: Key, h: Hash)
    ensures StatusOnly(t, LeaseSubmittedTables(t, k, h), k, false)
    ensures StatusOnly(t, LeaseUnknownTables(t, k), k, false)
  {}

  lemma SavedOnly(t: Tables, k: Key, h: Hash)
    requires RowsOk(t) && LeasesOk(t) && k in t.leases && t.leases[k].hash == h
    ensures SavedHash(t, k, h).Some? && StatusOnly(t, SavedHash(t, k, h).value, k, false)
  {}

  lemma NothingMoves(t: Tables, p: Process)
    ensures RowsMoved(t, t, p)
  {}

  lemma ClaimMoves(t: Tables, i: Intent)
    ensures RowsMoved(t, Claimed(t, i.session, i.amount, i.wallet), Claiming(i))
  {
    hide Collides, SameIntent;
  }

  lemma PrepareMoves(t: Tables, i: Intent)
    requires i.amount > 0
    ensures RowsMoved(t, PreparedTables(t, KeyOf(i.session), i.amount, i.wallet), Holding(i))
  {}

  lemma PreflightMoves(t: Tables, k: Key)
    ensures RowsMoved(t, PreflightFailedRow(t, k), MarkingPreflight(k))
  {}

  lemma RecordMoves(t: Tables, a: Award, p: Process)
    ensures Recorded(t, a).Some? ==> RowsMoved(t, Recorded(t, a).value, p)
  {
    hide WithHash, WithDedup;
  }

  lemma ClaimingMoves(db: Tables, log: seq<Broadcast>, mined: map<Hash, Receipt>, i: Intent, ch: Choice)
    ensures RowsMoved(db, Advance(db, log, mined, Claiming(i), ch).db, Claiming(i))
  {
    hide RowsMoved, Claimed, ClaimOutcome, Project;
    NothingMoves(db, Claiming(i));
    ClaimMoves(db, i);
  }

  lemma HoldingMoves(db: Tables, log: seq<Broadcast>, mined: map<Hash, Receipt>, i: Intent, ch: Choice)
    ensures RowsMoved(db, Advance(db, log, mined, Holding(i), ch).db, Holding(i))
  {
    hide RowsMoved, PreparedTables, PrepareOutcome;
    NothingMoves(db, Holding(i));
    if i.amount > 0 {
      PrepareMoves(db, i);
    }
  }

  lemma RecordingMoves(db: Tables, log: seq<Broadcast>, mined: map<Hash, Receipt>, snap: Row, ch: Choice)
    ensures RowsMoved(db, Advance(db, log, mined, Recording(snap), ch).db, Recording(snap))
  {
    hide RowsMoved, Recorded;
    NothingMoves(db, Recording(snap));
    if snap.hash.Some? {
      RecordMoves(db, AwardFor(snap.session, snap.amount, snap.hash.value, snap.wallet), Recording(snap));
    }
  }

  lemma SavingCall(db: Tables, log: seq<Broadcast>, mined: map<Hash, Receipt>, i: Intent, h: Hash, ch: Choice)
    requires SavedHash(db, KeyOf(i.session), h).Some?
    ensures var u := Advance(db, log, mined, SavingHash(i, h), ch).db;
            u == db || u == SavedHash(db, KeyOf(i.session), h).value
  {
    hide SavedHash, Project;
  }

  lemma SavingMoves(db: Tables, log: seq<Broadcast>, mined: map<Hash, Receipt>, i: Intent, h: Hash, ch: Choice)
    requires RowsOk(db) && LeasesOk(db) && LeasedIntent(db, i, h)
    ensures RowsMoved(db, Advance(db, log, mined, SavingHash(i, h), ch).db, SavingHash(i, h))
  {
    var k := KeyOf(i.session);
    hide RowsMoved, StatusOnly, SavedHash, Advance, RowsOk, LeasesOk;
    SavedOnly(db, k, h);
    SavingCall(db, log, mined, i, h, ch);
    NothingMoves(db, SavingHash(i, h));
    StatusMoves(db, SavedHash(db, k, h).value, k, SavingHash(i, h));
  }

  lemma PreflightCallMoves(db: Tables, log: seq<Broadcast>, mined: map<Hash, Receipt>, k: Key, ch: Choice)
    ensures RowsMoved(db, Advance(db, log, mined, MarkingPreflight(k), ch).db, MarkingPreflight(k))
  {
    hide RowsMoved, PreflightFailedRow;
    NothingMoves(db, MarkingPreflight(k));
    PreflightMoves(db, k);
  }

  lemma MovesRows(db: Tables, log: seq<Broadcast>, mined: map<Hash, Receipt>, p: Process, ch: Choice)
    requires Ready(db, log, mined, p)
    ensures RowsMoved(db, Advance(db, log, mined, p, ch).db, p)
  {
    hide Advance, RowsMoved, HashesApart, ClaimsApart, AwardsOk, FailuresOk, LogOk, MinedOk, RowsOk, LeasesOk;
    match p
    case Claiming(i) => ClaimingMoves(db, log, mined, i, ch);
    case Holding(i) => HoldingMoves(db, log, mined, i, ch);
    case MarkingPreflight(k) => PreflightCallMoves(db, log, mined, k, ch);
    case Recording(snap) => RecordingMoves(db, log, mined, snap, ch);
    case SavingHash(i, h) => SavingMoves(db, log, mined, i, h, ch);
    case _ => OtherMoves(db, log, mined, p, ch);
  }

  predicate WritesStatus(p: Process) {
    !p.Claiming? && !p.Holding? && !p.MarkingPreflight? && !p.Recording? && !p.SavingHash?
  }

  lemma OtherMoves(db: Tables, log: seq<Broadcast>, mined: map<Hash, Receipt>, p: Process, ch: Choice)
    requires WritesStatus(p)
    ensures RowsMoved(db, Advance(db, log, mined, p, ch).db, p)
  {
    hide RowsMoved, StatusOnly, Claimed, ClaimOutcome, Record, Submit, SavedHash, Project, Recover, ObserveFor;
    hide UnknownRow, ConfirmedRow, ProjectionErrorRow, ProjectedRow, FailedRow, LeaseSubmittedTables;
    hide LeaseUnknownTables, PreflightFailedRow;
    NothingMoves(db, p);
    var k := match p
      case ProjectingZero(k) => k
      case MarkingUnknown(k) => k
      case SubmittingLease(i, _) => KeyOf(i.session)
      case DoubtingLease(i, _, _) => KeyOf(i.session)
      case Confirming(snap) => KeyOf(snap.session)
      case Failing(snap, _) => KeyOf(snap.session)
      case NotingProjectionError(snap) => KeyOf(snap.session)
      case Projecting(snap) => KeyOf(snap.session)
      case _ => Key("", "");
    var h := if p.SubmittingLease? then p.hash else 0;
    var o := if p.Failing? then p.outcome else Review;
    StatusWritesOnly(db, k, o);
    LeaseWritesOnly(db, k, h);
    StatusMoves(db, UnknownRow(db, k), k, p);
    StatusMoves(db, ConfirmedRow(db, k), k, p);
    StatusMoves(db, ProjectionErrorRow(db, k), k, p);
    StatusMoves(db, FailedRow(db, k, o), k, p);
    StatusMoves(db, LeaseSubmittedTables(db, k, h), k, p);
    StatusMoves(db, LeaseUnknownTables(db, k), k, p);
    if Projects(p, k) {
      StatusOnlyMoves(db, ProjectedRow(db, k), k, p);
    }
  }

  lemma StatusMoves(t: Tables, u: Tables, k: Key, p: Process)
    requires StatusOnly(t, u, k, false)
    ensures RowsMoved(t, u, p)
  {
    hide Projects;
  }

  // ----- what one call does to the process -----

  /** The key was free to be claimed, or holds a zero award that has not failed. */
  predicate MayKeep(db: Tables, p: Process, k: Key) {
    if k !in db.rows || Reclaimable(db.rows[k]) then p.Claiming?
    else Unsigned(db, k) && db.rows[k].amount == 0 && db.rows[k].status != Failed
  }

  lemma ProjectKeeps(db: Tables, p: Process, l: Key, demandFresh: bool, verifier: bool, k: Key)
    requires RowsOk(db) && l in db.rows && Keeps(Project(db.rows[l], demandFresh, verifier), k)
    ensures MayKeep(db, p, k)
  {
    assert RowOk(l, db.rows[l]);
  }

  lemma ClaimKeepsKey(db: Tables, log: seq<Broadcast>, mined: map<Hash, Receipt>, i: Intent, ch: Choice, k: Key)
    requires RowsOk(db) && Keeps(Advance(db, log, mined, Claiming(i), ch).next, k)
    ensures MayKeep(db, Claiming(i), k)
  {
    hide Collides, SameIntent, RowOk, Project, Claimed;
    var l := KeyOf(i.session);
    match ClaimOutcome(db, i.session, i.amount, i.wallet)
    case Existing(r) => ProjectKeeps(db, Claiming(i), l, false, true, k);
    case _ =>
  }

  /** A process comes to keep a claim by acquiring it, or by reading a zero award. */
  lemma NextKeeps(db: Tables, log: seq<Broadcast>, mined: map<Hash, Receipt>, p: Process, ch: Choice, k: Key)
    requires RowsOk(db) && Keeps(Advance(db, log, mined, p, ch).next, k)
    ensures Keeps(p, k) || MayKeep(db, p, k)
  {
    hide RowsOk, Recorded, SavedHash, PreparedTables, ObserveFor, MayKeep, SameIntent, ClaimOutcome, Claimed;
    match p
    case LookingUp(s) => ProjectKeeps(db, p, KeyOf(s), false, false, k);
    case Claiming(i) => ClaimKeepsKey(db, log, mined, i, ch, k);
    case Recovering(l, _) => ProjectKeeps(db, p, l, false, true, k);
    case _ =>
  }

  // ----- the step -----

  lemma InLedgerGrows(t: Tables, u: Tables, h: Hash)
    requires InLedger(t, h) && t.awards <= u.awards
    ensures InLedger(u, h)
  {
    var i :| 0 <= i < |t.awards| && t.awards[i].hash == h;
    assert u.awards[i].hash == h;
  }

  /** A claim that another process keeps does not fail unsigned. */
  lemma KeptStays(t: Tables, u: Tables, p: Process, q: Process, k: Key)
    requires RowsMoved(t, u, p) && ZeroOk(t) && AnswerOk(t, p) && AnswerOk(t, q) && Alone(t, p, q) && Keeps(q, k)
    ensures k in t.rows && k in u.rows && (Unsigned(u, k) ==> u.rows[k].status != Failed)
  {
    hide InLedger, ProjectedInLedger, Projects;
    if p.MarkingPreflight? && p.key == k {
      assert Keeps(p, k);
    }
  }

  /** Nor is it signed by anybody else while it is of nothing, or while the other
      means to pay nothing. */
  lemma UnsignedStays(t: Tables, u: Tables, p: Process, q: Process, k: Key)
    requires RowsMoved(t, u, p) && AnswerOk(t, p) && Alone(t, p, q) && Keeps(q, k) && Unsigned(t, k)
    ensures Unsigned(u, k)
  {
    hide InLedger, ZeroOk, Projects;
    if p.Holding? && KeyOf(p.intent.session) == k {
      assert Keeps(p, k);
    }
  }

  lemma ZeroStaysDone(t: Tables, u: Tables, p: Process, k: Key)
    requires RowsMoved(t, u, p) && AnswerOk(t, p) && ZeroDone(t, k)
    ensures ZeroDone(u, k)
  {
    hide InLedger, Projects;
  }

  lemma MovedAmounts(t: Tables, u: Tables, p: Process, k: Key)
    requires RowsMoved(t, u, p) && k in t.rows
    ensures k in u.rows && u.rows[k].amount == t.rows[k].amount && t.awards <= u.awards
  {}

  /** What a kept row holds for the process that keeps it. */
  ghost predicate KeptAs(t: Tables, u: Tables, k: Key) {
    && k in t.rows && k in u.rows && (Unsigned(u, k) ==> u.rows[k].status != Failed)
    && u.rows[k].amount == t.rows[k].amount && (Unsigned(t, k) ==> Unsigned(u, k))
  }

  lemma OtherKept(t: Tables, u: Tables, p: Process, q: Process, k: Key)
    requires RowsMoved(t, u, p) && ZeroOk(t) && AnswerOk(t, p) && AnswerOk(t, q) && Alone(t, p, q) && Keeps(q, k)
    ensures KeptAs(t, u, k)
  {
    KeptStays(t, u, p, q, k);
    MovedAmounts(t, u, p, k);
    hide RowsMoved, ZeroOk, AnswerOk, Alone;
    if Unsigned(t, k) {
      UnsignedStays(t, u, p, q, k);
    }
  }

  lemma AnswerCarries(t: Tables, u: Tables, q: Process)
    requires AnswerOk(t, q) && forall k :: Keeps(q, k) ==> KeptAs(t, u, k)
    requires forall h :: InLedger(t, h) ==> InLedger(u, h)
    requires q.Finished? && ZeroDone(t, q.key) ==> ZeroDone(u, q.key)
    ensures AnswerOk(u, q)
  {
    hide InLedger, ZeroDone, Unsigned;
    if Keeper(q).Some? {
      assert Keeps(q, Keeper(q).value);
    }
  }

  function Keeper(p: Process): Option<Key> {
    match p
    case Holding(i) => Some(KeyOf(i.session))
    case MarkingPreflight(k) => Some(k)
    case ProjectingZero(k) => Some(k)
    case _ => None
  }

  /** The other processes keep what they rely on. */
  lemma OtherAnswer(t: Tables, u: Tables, p: Process, q: Process)
    requires RowsMoved(t, u, p) && ZeroOk(t) && AnswerOk(t, p) && AnswerOk(t, q) && Alone(t, p, q)
    ensures AnswerOk(u, q)
  {
    assert t.awards <= u.awards;
    hide RowsMoved, ZeroOk, AnswerOk, Alone, ZeroDone, InLedger, KeptAs;
    forall h | InLedger(t, h) ensures InLedger(u, h) {
      InLedgerGrows(t, u, h);
    }
    forall k | Keeps(q, k) ensures KeptAs(t, u, k) {
      OtherKept(t, u, p, q, k);
    }
    if q.Finished? && ZeroDone(t, q.key) {
      ZeroStaysDone(t, u, p, q.key);
    }
    AnswerCarries(t, u, q);
  }

  lemma OtherAlone(db: Tables, log: seq<Broadcast>, mined: map<Hash, Receipt>, p: Process, ch: Choice, q: Process)
    requires Ready(db, log, mined, p) && AnswerOk(db, q) && Alone(db, p, q)
    ensures var f := Advance(db, log, mined, p, ch); Alone(f.db, f.next, q)
  {
    hide Advance, HashesApart, ClaimsApart, AwardsOk, FailuresOk, LogOk, MinedOk, LeasesOk, RowOk;
    var f := Advance(db, log, mined, p, ch);
    MovesRows(db, log, mined, p, ch);
    forall k | Keeps(f.next, k) && Keeps(q, k) && Unsigned(f.db, k) ensures f.db.rows[k].amount == 0 {
      NextKeeps(db, log, mined, p, ch, k);
    }
  }

  lemma ZeroStays(t: Tables, u: Tables, p: Process)
    requires RowsMoved(t, u, p) && ZeroOk(t) && AnswerOk(t, p)
    ensures forall k :: k in t.rows && u.rows[k].amount == 0 ==> u.rows[k].hash == None && u.rows[k].status != Failed
  {
    forall k | k in t.rows && u.rows[k].amount == 0 ensures u.rows[k].hash == None && u.rows[k].status != Failed {
      assert t.rows[k].amount == 0;
    }
  }

  lemma ZeroTables(t: Tables, u: Tables, p: Process)
    requires RowsMoved(t, u, p) && ZeroOk(t) && AnswerOk(t, p)
    ensures ZeroOk(u)
  {
    ZeroStays(t, u, p);
  }

  /** A zero award that is projected is not signed after that. */
  lemma ZeroNotSigned(t: Tables, u: Tables, p: Process, k: Key)
    requires RowsMoved(t, u, p) && AnswerOk(t, p) && k in t.rows && k in u.rows && t.rows[k].amount == 0
    ensures t.rows[k].hash == u.rows[k].hash
  {
    hide InLedger, Projects;
  }

  lemma NewlyProjected(t: Tables, u: Tables, p: Process, k: Key)
    requires RowsMoved(t, u, p) && LeasesOk(t) && AnswerOk(t, p) && (p.Projecting? ==> SnapOk(t, p.snap))
    requires k in t.rows && k in u.rows && u.rows[k].status == Projected && t.rows[k].status != Projected
    requires u.rows[k].hash.Some?
    ensures InLedger(t, u.rows[k].hash.value)
  {
    hide InLedger;
    assert Projects(p, k);
    assert t.rows[k].hash == u.rows[k].hash;
    hide RowsMoved;
  }

  lemma ProjectedRowPaid(t: Tables, u: Tables, p: Process, k: Key)
    requires RowsMoved(t, u, p) && RowsOk(t) && LeasesOk(t) && ProjectedInLedger(t) && AnswerOk(t, p)
    requires p.Projecting? ==> SnapOk(t, p.snap)
    requires k in u.rows && u.rows[k].status == Projected && u.rows[k].hash.Some?
    ensures InLedger(t, u.rows[k].hash.value)
  {
    assert k in t.rows && RowOk(k, t.rows[k]);
    hide InLedger, RowsOk, LeasesOk, AnswerOk;
    if t.rows[k].status != Projected {
      NewlyProjected(t, u, p, k);
    } else if t.rows[k].amount == 0 {
      ZeroNotSigned(t, u, p, k);
    }
  }

  lemma ProjectedTables(t: Tables, u: Tables, p: Process)
    requires RowsMoved(t, u, p) && RowsOk(t) && LeasesOk(t) && ProjectedInLedger(t) && AnswerOk(t, p)
    requires p.Projecting? ==> SnapOk(t, p.snap)
    ensures ProjectedInLedger(u)
  {
    assert t.awards <= u.awards;
    hide InLedger, RowsOk, LeasesOk, AnswerOk, RowsMoved;
    forall k | k in u.rows && u.rows[k].status == Projected && u.rows[k].hash.Some?
      ensures InLedger(u, u.rows[k].hash.value)
    {
      ProjectedRowPaid(t, u, p, k);
      InLedgerGrows(t, u, u.rows[k].hash.value);
    }
  }

  lemma NewlyRecorded(db: Tables, log: seq<Broadcast>, mined: map<Hash, Receipt>, snap: Row, ch: Choice)
    requires TablesOk(db) && SnapOk(db, snap) && Advance(db, log, mined, Recording(snap), ch).next.Projecting?
    ensures InLedger(Advance(db, log, mined, Recording(snap), ch).db, snap.hash.value)
    ensures Advance(db, log, mined, Recording(snap), ch).next.snap == snap
  {
    hide RowsOk, LeasesOk, HashesApart, ClaimsApart, AwardsOk, Recorded, WithHash;
    RecordingExact(db, snap);
    var u := Recorded(db, SnapAward(snap)).value;
    WithHashFinds(u.awards, snap.hash.value);
  }

  /** What a process answers for from reading a row. */
  lemma ProjectAnswers(t: Tables, l: Key, demandFresh: bool, verifier: bool)
    requires RowsOk(t) && ProjectedInLedger(t) && l in t.rows
    ensures AnswerOk(t, Project(t.rows[l], demandFresh, verifier))
  {
    assert RowOk(l, t.rows[l]);
    hide InLedger;
  }

  lemma ClaimAnswers(db: Tables, log: seq<Broadcast>, mined: map<Hash, Receipt>, i: Intent, ch: Choice)
    requires RowsOk(db) && ProjectedInLedger(db) && ZeroOk(db)
    ensures var f := Advance(db, log, mined, Claiming(i), ch); AnswerOk(f.db, f.next)
  {
    hide Collides, SameIntent, RowOk, Project, InLedger;
    if KeyOf(i.session) in db.rows {
      ProjectAnswers(db, KeyOf(i.session), false, true);
    }
  }

  lemma HoldAnswers(db: Tables, log: seq<Broadcast>, mined: map<Hash, Receipt>, i: Intent, ch: Choice)
    requires AnswerOk(db, Holding(i))
    ensures var f := Advance(db, log, mined, Holding(i), ch); AnswerOk(f.db, f.next)
  {
    hide InLedger;
  }

  lemma QuietAnswers(db: Tables, log: seq<Broadcast>, mined: map<Hash, Receipt>, p: Process, ch: Choice)
    requires AnswerOk(db, p) && !p.LookingUp? && !p.Claiming? && !p.Holding? && !p.Recording? && !p.Recovering?
    requires p.Projecting? ==> p.snap.hash.Some?
    ensures var f := Advance(db, log, mined, p, ch);
            && (f.next.Finished? && f.next.result.Success? && f.next.result.hash.Some? ==>
                  InLedger(db, f.next.result.hash.value))
            && (f.next.Finished? && f.next.result.Success? && f.next.result.hash == None ==> ZeroDone(f.db, f.next.key))
            && (if p.Finished? then f.next == p
                else !f.next.Projecting? && !f.next.Holding? && !f.next.MarkingPreflight? && !f.next.ProjectingZero?)
  {
    hide SavedHash, ObserveFor, InLedger;
  }

  lemma OwnAnswer(db: Tables, log: seq<Broadcast>, mined: map<Hash, Receipt>, p: Process, ch: Choice)
    requires Ready(db, log, mined, p) && AnswerOk(db, p) && ZeroOk(db) && ProjectedInLedger(db)
    ensures var f := Advance(db, log, mined, p, ch); AnswerOk(f.db, f.next)
  {
    hide HashesApart, ClaimsApart, AwardsOk, FailuresOk, LogOk, MinedOk, LeasesOk, RowsOk, InLedger, RowsMoved;
    match p
    case Claiming(i) => ClaimAnswers(db, log, mined, i, ch);
    case Holding(i) => HoldAnswers(db, log, mined, i, ch);
    case LookingUp(_) => ReadAnswers(db, log, mined, p, ch);
    case Recovering(_, _) => ReadAnswers(db, log, mined, p, ch);
    case Recording(snap) => RecordingAnswers(db, log, mined, snap, ch);
    case _ => OtherAnswers(db, log, mined, p, ch);
  }

  lemma ReadAnswers(db: Tables, log: seq<Broadcast>, mined: map<Hash, Receipt>, p: Process, ch: Choice)
    requires RowsOk(db) && ProjectedInLedger(db) && (p.LookingUp? || p.Recovering?)
    ensures var f := Advance(db, log, mined, p, ch); AnswerOk(f.db, f.next)
  {
    hide RowsOk, InLedger, Project, RecordMatches;
    if p.LookingUp? && KeyOf(p.session) in db.rows {
      ProjectAnswers(db, KeyOf(p.session), false, false);
    }
    if p.Recovering? && p.key in db.rows {
      ProjectAnswers(db, p.key, false, true);
      assert RowInLedger(db, p.key);
    }
  }

  ghost predicate RowInLedger(t: Tables, k: Key) {
    k in t.rows && t.rows[k].status == Projected && t.rows[k].hash.Some? ==> InLedger(t, t.rows[k].hash.value)
  }

  lemma RecordingAnswers(db: Tables, log: seq<Broadcast>, mined: map<Hash, Receipt>, snap: Row, ch: Choice)
    requires TablesOk(db) && SnapOk(db, snap)
    ensures var f := Advance(db, log, mined, Recording(snap), ch); AnswerOk(f.db, f.next)
  {
    hide TablesOk, InLedger, Recorded;
    if Advance(db, log, mined, Recording(snap), ch).next.Projecting? {
      NewlyRecorded(db, log, mined, snap, ch);
    }
  }

  lemma OtherAnswers(db: Tables, log: seq<Broadcast>, mined: map<Hash, Receipt>, p: Process, ch: Choice)
    requires Ready(db, log, mined, p) && AnswerOk(db, p)
    requires !p.LookingUp? && !p.Claiming? && !p.Holding? && !p.Recording? && !p.Recovering?
    ensures var f := Advance(db, log, mined, p, ch); AnswerOk(f.db, f.next)
  {
    hide Advance, HashesApart, ClaimsApart, AwardsOk, FailuresOk, LogOk, MinedOk, LeasesOk, RowsOk, InLedger;
    var f := Advance(db, log, mined, p, ch);
    QuietAnswers(db, log, mined, p, ch);
    MovesRows(db, log, mined, p, ch);
    forall h | InLedger(db, h) ensures InLedger(f.db, h) {
      InLedgerGrows(db, f.db, h);
    }
  }

  lemma OthersAlone(t: Tables, u: Tables, p: Process, q: Process, r: Process)
    requires RowsMoved(t, u, p) && AnswerOk(t, q) && AnswerOk(t, r) && Alone(t, q, r)
    ensures Alone(u, q, r)
  {
    hide InLedger;
    forall k | Keeps(q, k) && Keeps(r, k) && Unsigned(u, k) ensures u.rows[k].amount == 0 {
      assert k in t.rows;
    }
  }

  lemma AloneBoth(t: Tables, p: Process, q: Process)
    ensures Alone(t, p, q) == Alone(t, q, p)
  {}

  lemma ActAnswers(s: State, pid: nat, ch: Choice)
    requires Inv(s) && AnswersOk(s) && pid in s.procs
    ensures AnswersOk(Step(s, Act(pid, ch)))
  {
    hide TablesOk, LogOk, MinedOk, FailuresOk, OneBroadcaster, MinedLogged, Advance, RowsMoved, AnswerOk, Alone;
    hide ZeroOk, ProjectedInLedger, ProcessOk;
    var p := s.procs[pid];
    var f := Advance(s.db, s.log, s.mined, p, ch);
    var u := Step(s, Act(pid, ch));
    ReadyHere(s, pid);
    MovesRows(s.db, s.log, s.mined, p, ch);
    OwnAnswer(s.db, s.log, s.mined, p, ch);
    StepTables(s.db, s.log, s.mined, p, ch);
    forall q | q in u.procs ensures AnswerOk(u.db, u.procs[q]) {
      if q != pid {
        OtherAnswer(s.db, f.db, p, s.procs[q]);
      }
    }
    forall q, r | q in u.procs && r in u.procs && q != r ensures Alone(u.db, u.procs[q], u.procs[r]) {
      if q == pid {
        OtherAlone(s.db, s.log, s.mined, p, ch, s.procs[r]);
      } else if r == pid {
        OtherAlone(s.db, s.log, s.mined, p, ch, s.procs[q]);
        AloneBoth(u.db, u.procs[q], u.procs[r]);
      } else {
        OthersAlone(s.db, f.db, p, s.procs[q], s.procs[r]);
      }
    }
  }

  lemma ReadyHere(s: State, pid: nat)
    requires Inv(s) && pid in s.procs
    ensures Ready(s.db, s.log, s.mined, s.procs[pid])
  {
    hide TablesOk, LogOk, MinedOk, FailuresOk, OneBroadcaster, MinedLogged, ProcessOk;
  }

  lemma StepTables(db: Tables, log: seq<Broadcast>, mined: map<Hash, Receipt>, p: Process, ch: Choice)
    requires Ready(db, log, mined, p) && AnswerOk(db, p) && ZeroOk(db) && ProjectedInLedger(db)
    ensures var u := Advance(db, log, mined, p, ch).db; ZeroOk(u) && ProjectedInLedger(u)
  {
    hide Advance, RowsMoved, AnswerOk, ZeroOk, ProjectedInLedger, FailuresOk, LogOk, MinedOk, RowsOk, LeasesOk;
    hide HashesApart, ClaimsApart, AwardsOk;
    MovesRows(db, log, mined, p, ch);
    ZeroTables(db, Advance(db, log, mined, p, ch).db, p);
    ProjectedTables(db, Advance(db, log, mined, p, ch).db, p);
  }

  lemma SpawnAnswers(s: State, e: Event)
    requires AnswersOk(s) && !e.Act?
    ensures AnswersOk(Step(s, e))
  {
    hide ZeroOk, ProjectedInLedger, InLedger;
  }

  lemma {:induction false} AnswersReachable(events: seq<Event>)
    ensures AnswersOk(Run(INITIAL, events))
    decreases |events|
  {
    hide AnswersOk, Inv, Step;
    if events == [] {
      NothingAnswered();
    } else {
      var n := |events| - 1;
      var s := Run(INITIAL, events[..n]);
      AnswersReachable(events[..n]);
      Reachable(events[..n]);
      if events[n].Act? && events[n].pid in s.procs {
        ActAnswers(s, events[n].pid, events[n].choice);
      } else if events[n].Act? {
        NoProcess(s, events[n].pid, events[n].choice);
      } else {
        SpawnAnswers(s, events[n]);
      }
    }
  }

  lemma NothingAnswered()
    ensures AnswersOk(INITIAL)
  {}

  lemma NoProcess(s: State, pid: nat, ch: Choice)
    requires pid !in s.procs
    ensures Step(s, Act(pid, ch)) == s
  {}

  // ----- calls that fail -----

  /** A call that fails changes neither tables nor log. Up to the claim, and where
      nothing was signed, it ends in a rejection; after that the process ends
      pending or goes on to note the doubt. It never ends in a success. */
  lemma FailedCall(db: Tables, log: seq<Broadcast>, mined: map<Hash, Receipt>, p: Process)
    requires !p.Finished?
    ensures var f := Advance(db, log, mined, p, Fails);
            && f.db == db && f.log == log
            && (f.next.Finished? && f.next.result == Rejected
                <==> p.LookingUp? || p.Pricing? || p.Recovering? || p.MarkingPreflight? || p.Claiming?)
            && (f.next.Finished? && f.next.result == Pending
                <==> || p.ProjectingZero? || p.MarkingUnknown? || p.Confirming? || p.Failing? || p.Projecting?
                     || p.NotingProjectionError?)
            && (f.next.Finished? ==> !f.next.result.Success?)
            && (p.Recording? ==> f.next == NotingProjectionError(p.snap))
            && (p.Verifying? || p.RecoverVerifying? ==> f.next == MarkingUnknown(KeyOf(p.snap.session)))
            && (p.SavingHash? ==> f.next == MarkingUnknown(KeyOf(p.intent.session)))
            && (p.Broadcasting? || p.SubmittingLease? ==> f.next == DoubtingLease(p.intent, p.hash, true))
  {
    hide Recorded, SavedHash, ObserveFor, PreparedTables, PrepareOutcome, ClaimOutcome, Claimed, Project;
  }

  /** A lost reply has the effect of a success and the answer of a failure, at
      every point of the protocol. */
  lemma LostReplyIsBoth(db: Tables, log: seq<Broadcast>, mined: map<Hash, Receipt>, p: Process)
    ensures var lost := Advance(db, log, mined, p, ReplyLost);
            && lost.db == Advance(db, log, mined, p, Ok).db && lost.log == Advance(db, log, mined, p, Ok).log
            && lost.next == Advance(db, log, mined, p, Fails).next
  {
    hide Recorded, SavedHash, ObserveFor, PreparedTables, PrepareOutcome, ClaimOutcome, Claimed, Project;
  }

  // ----- the theorems -----

  /** In every run, whatever fails and whoever else works on the key: a process
      that reports a success with a transfer has its ledger row. */
  lemma SuccessIsInLedger(events: seq<Event>, pid: nat)
    requires var s := Run(INITIAL, events);
             && pid in s.procs && s.procs[pid].Finished?
             && s.procs[pid].result.Success? && s.procs[pid].result.hash.Some?
    ensures var s := Run(INITIAL, events);
            exists i :: 0 <= i < |s.db.awards| && s.db.awards[i].hash == s.procs[pid].result.hash.value
  {
    AnswersReachable(events);
    var s := Run(INITIAL, events);
    hide Run;
    assert AnswerOk(s.db, s.procs[pid]);
  }

  lemma StepUndoesNothing(s: State, pid: nat, ch: Choice, k: Key)
    requires Inv(s) && AnswersOk(s) && pid in s.procs && k in s.db.rows
    ensures var u := Step(s, Act(pid, ch)); k in u.db.rows && NotUndone(s.db.rows[k], u.db.rows[k])
  {
    hide TablesOk, LogOk, MinedOk, FailuresOk, OneBroadcaster, MinedLogged, Advance, ProjectedInLedger, InLedger;
    hide ProcessOk, ZeroOk, Alone;
    var p := s.procs[pid];
    ReadyHere(s, pid);
    MovesRows(s.db, s.log, s.mined, p, ch);
    assert AnswerOk(s.db, p);
    if s.db.rows[k].hash == None {
      UnsignedIsOpen(s, k);
    }
  }

  lemma UnsignedIsOpen(s: State, k: Key)
    requires Inv(s) && k in s.db.rows && s.db.rows[k].hash == None
    ensures s.db.rows[k].status != Confirmed && (s.db.rows[k].status == Projected ==> s.db.rows[k].amount == 0)
  {
    hide LeasesOk, HashesApart, ClaimsApart, AwardsOk, LogOk, MinedOk, FailuresOk, ProcessOk, OneBroadcaster;
    hide MinedLogged;
    assert RowOk(k, s.db.rows[k]);
  }

  lemma NotUndoneFurther(r: Row, s: Row, t: Row)
    requires NotUndone(r, s) && NotUndone(s, t) && (r.hash.Some? ==> s.hash == r.hash)
    ensures NotUndone(r, t)
  {}

  /** What became of a row is never undone, in any continuation of any run: not by
      late callbacks, other processes or faults. */
  lemma {:induction false} OutcomesStay(before: seq<Event>, after: seq<Event>, k: Key)
    requires k in Run(INITIAL, before).db.rows
    ensures var u := Run(INITIAL, before + after);
            k in u.db.rows && NotUndone(Run(INITIAL, before).db.rows[k], u.db.rows[k])
    decreases |after|
  {
    hide NotUndone, Inv, AnswersOk, Step;
    if after == [] {
      assert before + after == before;
      SameIsNotUndone(Run(INITIAL, before).db.rows[k]);
    } else {
      var n := |after| - 1;
      var e := after[n];
      OutcomesStay(before, after[..n], k);
      assert before + after == before + after[..n] + [e];
      RunStep(INITIAL, before + after[..n], e);
      var s := Run(INITIAL, before + after[..n]);
      Reachable(before + after[..n]);
      AnswersReachable(before + after[..n]);
      ClaimsAreImmutable(before, after[..n], k);
      EventUndoesNothing(s, e, k);
      NotUndoneFurther(Run(INITIAL, before).db.rows[k], s.db.rows[k], Step(s, e).db.rows[k]);
    }
  }

  lemma SameIsNotUndone(r: Row)
    ensures NotUndone(r, r)
  {}

  lemma EventUndoesNothing(s: State, e: Event, k: Key)
    requires Inv(s) && AnswersOk(s) && k in s.db.rows
    ensures k in Step(s, e).db.rows && NotUndone(s.db.rows[k], Step(s, e).db.rows[k])
  {
    hide NotUndone, Inv, AnswersOk, Advance;
    SameIsNotUndone(s.db.rows[k]);
    if e.Act? && e.pid in s.procs {
      StepUndoesNothing(s, e.pid, e.choice, k);
    }
  }

  /** A process that reports a success without a transfer has completed the award,
      if it is one of nothing. */
  lemma EmptySuccessIsDone(events: seq<Event>, pid: nat)
    requires var s := Run(INITIAL, events);
             && pid in s.procs && s.procs[pid].Finished?
             && s.procs[pid].result.Success? && s.procs[pid].result.hash == None
    ensures var s := Run(INITIAL, events);
            var k := s.procs[pid].key;
            k in s.db.rows && (s.db.rows[k].amount == 0 ==> s.db.rows[k].status == Projected)
  {
    AnswersReachable(events);
    var s := Run(INITIAL, events);
    hide Run;
    assert AnswerOk(s.db, s.procs[pid]);
  }

  /** In every run a projected row with a transfer has its ledger row, and a zero
      award is never signed and never fails. */
  lemma ProjectedIsInLedger(events: seq<Event>, k: Key)
    requires k in Run(INITIAL, events).db.rows
    ensures var s := Run(INITIAL, events);
            var r := s.db.rows[k];
            && (r.status == Projected && r.hash.Some? ==>
                  exists i :: 0 <= i < |s.db.awards| && s.db.awards[i].hash == r.hash.value)
            && (r.amount == 0 ==> r.hash == None && r.status != Failed)
  {
    AnswersReachable(events);
  }
}

/** What every reachable state keeps, in every run whatever the faults and the
    interleaving. */
module AwardSafety {
  import opened Basics
  import opened OperationTables
  import opened AwardProtocol

  // ----- the invariant -----

  /** A row is filed under its own session, and a status that speaks of a
      transfer has its hash. */
  ghost predicate RowOk(k: Key, r: Row) {
    && KeyOf(r.session) == k && r.amount <= CAP
    && (r.status == Submitted || r.status == Confirmed ==> r.hash.Some?)
    && (r.status == Projected && r.hash == None ==> r.amount == 0)
    && (r.status == Failed && r.hash == None ==> r.outcome == NoMovement && r.preflight)
  }

  ghost predicate RowsOk(t: Tables) {
    && (forall k :: k in t.rows ==> RowOk(k, t.rows[k]))
    && (forall k :: k in t.rows && t.rows[k].hash.Some? ==>
          k in t.leases && t.leases[k].hash == t.rows[k].hash.value)
  }

  ghost predicate LeasesOk(t: Tables) {
    && (forall k :: k in t.leases ==>
          && k in t.rows && t.rows[k].hash == Some(t.leases[k].hash)
          && t.leases[k].wallet == t.rows[k].wallet
          && t.leases[k].hash < t.nextHash && t.leases[k].amount <= CAP)
  }

  ghost predicate HashesApart(t: Tables) {
    forall k, l :: k in t.leases && l in t.leases && k != l ==> t.leases[k].hash != t.leases[l].hash
  }

  /** No two claims share a physical charging session or a legacy key. */
  ghost predicate ClaimsApart(t: Tables) {
    forall k, l :: k in t.rows && l in t.rows && k != l ==>
      && !SamePhysicalSession(t.rows[k].session, t.rows[l].session)
      && LegacyKeyOf(t.rows[k].session) != LegacyKeyOf(t.rows[l].session)
  }

  /** A broadcast is the leased transfer of its key, and the only one. */
  ghost predicate LogOk(t: Tables, log: seq<Broadcast>) {
    && (forall i :: 0 <= i < |log| ==> IsLeased(t, log[i].key, log[i].hash, log[i].amount, log[i].wallet))
    && (forall i, j :: 0 <= i < j < |log| ==> log[i].key != log[j].key)
  }

  ghost predicate IsLeased(t: Tables, k: Key, h: Hash, amount: nat, wallet: string) {
    k in t.leases && t.leases[k].hash == h && t.leases[k].amount == amount && t.leases[k].wallet == wallet
  }

  ghost predicate MinedOk(t: Tables, mined: map<Hash, Receipt>) {
    forall h :: h in mined ==> IsLeased(t, mined[h].key, h, mined[h].amount, mined[h].wallet)
  }

  /** Only what was broadcast is mined. */
  ghost predicate MinedLogged(log: seq<Broadcast>, mined: map<Hash, Receipt>) {
    forall h :: h in mined ==> exists i :: 0 <= i < |log| && log[i].hash == h
  }

  /** Failed with no movement and a hash: that transfer was mined and reverted. */
  ghost predicate FailuresOk(t: Tables, mined: map<Hash, Receipt>) {
    forall k :: k in t.rows && t.rows[k].status == Failed && t.rows[k].outcome == NoMovement && t.rows[k].hash.Some? ==>
      t.rows[k].hash.value in mined && !mined[t.rows[k].hash.value].ok
  }

  function AwardKey(a: Award): Key { Key(a.provider, a.session) }

  /** A ledger row belongs to one claim: its hash, owner and keys are the
      claim's, and no claim has two. */
  ghost predicate AwardOk(t: Tables, a: Award) {
    var k := AwardKey(a);
    && k in t.leases && k in t.rows && t.leases[k].hash == a.hash
    && a.provider == t.rows[k].session.provider && a.session == t.rows[k].session.session
    && a.uid == t.rows[k].session.uid && a.wallet == t.rows[k].wallet
    && a.dedup == LegacyKeyOf(t.rows[k].session)
  }

  ghost predicate AwardsOk(t: Tables) {
    && (forall i :: 0 <= i < |t.awards| ==> AwardOk(t, t.awards[i]))
    && (forall i, j :: 0 <= i < j < |t.awards| ==> t.awards[i].hash != t.awards[j].hash)
  }

  ghost predicate TablesOk(t: Tables) {
    RowsOk(t) && LeasesOk(t) && HashesApart(t) && ClaimsApart(t) && AwardsOk(t)
  }

  ghost predicate Unsent(log: seq<Broadcast>, k: Key) {
    forall i :: 0 <= i < |log| ==> log[i].key != k
  }

  ghost predicate SameClaim(r: Row, s: Session, wallet: string) {
    FingerprintOf(r.session, 0, r.wallet) == FingerprintOf(s, 0, wallet)
  }

  /** A process that holds or held the claim of its key. */
  ghost predicate IntentOk(t: Tables, i: Intent) {
    KeyOf(i.session) in t.rows && SameClaim(t.rows[KeyOf(i.session)], i.session, i.wallet) && i.amount <= CAP
  }

  ghost predicate LeasedIntent(t: Tables, i: Intent, h: Hash) {
    IntentOk(t, i) && IsLeased(t, KeyOf(i.session), h, i.amount, i.wallet)
  }

  /** A row image in memory: its claim and hash are those of the durable row. */
  ghost predicate SnapOk(t: Tables, snap: Row) {
    var k := KeyOf(snap.session);
    && k in t.rows && SameClaim(t.rows[k], snap.session, snap.wallet)
    && snap.hash.Some? && k in t.leases && t.leases[k].hash == snap.hash.value
  }

  ghost predicate ProcessOk(t: Tables, log: seq<Broadcast>, mined: map<Hash, Receipt>, p: Process) {
    match p
    case Claiming(i) => i.amount <= CAP
    case Holding(i) => IntentOk(t, i)
    case Broadcasting(i, h) => LeasedIntent(t, i, h) && Unsent(log, KeyOf(i.session))
    case SubmittingLease(i, h) => LeasedIntent(t, i, h)
    case DoubtingLease(i, h, _) => LeasedIntent(t, i, h)
    case SavingHash(i, h) => LeasedIntent(t, i, h)
    case Verifying(snap) => SnapOk(t, snap)
    case Confirming(snap) => SnapOk(t, snap)
    case Failing(snap, outcome) =>
      SnapOk(t, snap) && (outcome == NoMovement ==> snap.hash.value in mined && !mined[snap.hash.value].ok)
    case Recording(snap) => SnapOk(t, snap)
    case NotingProjectionError(snap) => SnapOk(t, snap)
    case Projecting(snap) => SnapOk(t, snap)
    case RecoverVerifying(snap) => SnapOk(t, snap)
    case _ => true
  }

  /** At most one process is about to broadcast for a key. */
  ghost predicate OneBroadcaster(procs: map<nat, Process>) {
    forall p, q :: p in procs && q in procs && p != q && procs[p].Broadcasting? && procs[q].Broadcasting? ==>
      KeyOf(procs[p].intent.session) != KeyOf(procs[q].intent.session)
  }

  ghost predicate Inv(s: State) {
    && TablesOk(s.db) && LogOk(s.db, s.log) && MinedOk(s.db, s.mined) && FailuresOk(s.db, s.mined)
    && (forall p :: p in s.procs ==> ProcessOk(s.db, s.log, s.mined, s.procs[p]))
    && OneBroadcaster(s.procs) && MinedLogged(s.log, s.mined)
  }

  // ----- what no step undoes -----

  /** Claims keep their session, wallet and amount, saved hashes and signed
      transfers stay. */
  ghost predicate TablesExtend(t: Tables, u: Tables) {
    && (forall k :: k in t.rows ==>
          && k in u.rows && u.rows[k].session == t.rows[k].session
          && u.rows[k].wallet == t.rows[k].wallet && u.rows[k].amount == t.rows[k].amount
          && (t.rows[k].hash.Some? ==> u.rows[k].hash == t.rows[k].hash))
    && (forall k :: k in t.leases ==>
          && k in u.leases && u.leases[k].hash == t.leases[k].hash
          && u.leases[k].amount == t.leases[k].amount && u.leases[k].wallet == t.leases[k].wallet)
    && t.awards <= u.awards
  }

  ghost predicate MinedExtend(m: map<Hash, Receipt>, n: map<Hash, Receipt>) {
    forall h :: h in m ==> h in n && n[h] == m[h]
  }

  ghost predicate Extends(s: State, u: State) {
    TablesExtend(s.db, u.db) && s.log <= u.log && MinedExtend(s.mined, u.mined)
  }

  lemma ProcessStable(t: Tables, log: seq<Broadcast>, m: map<Hash, Receipt>,
                      u: Tables, log': seq<Broadcast>, n: map<Hash, Receipt>, p: Process)
    requires ProcessOk(t, log, m, p) && TablesExtend(t, u) && MinedExtend(m, n)
    requires p.Broadcasting? && Unsent(log, KeyOf(p.intent.session)) ==> Unsent(log', KeyOf(p.intent.session))
    ensures ProcessOk(u, log', n, p)
  {}

  // ----- row updates -----

  /** Ledger rows stay matched when claims and transfers stay. */
  lemma AwardsCarry(t: Tables, u: Tables)
    requires AwardsOk(t) && TablesExtend(t, u) && u.awards == t.awards
    ensures AwardsOk(u)
  {
    forall i | 0 <= i < |u.awards| ensures AwardOk(u, u.awards[i]) {
      assert AwardOk(t, t.awards[i]);
    }
  }

  lemma HashesCarry(t: Tables, u: Tables)
    requires HashesApart(t) && TablesExtend(t, u) && u.leases.Keys == t.leases.Keys
    ensures HashesApart(u)
  {}

  lemma ClaimsCarry(t: Tables, u: Tables)
    requires ClaimsApart(t) && TablesExtend(t, u) && u.rows.Keys == t.rows.Keys
    ensures ClaimsApart(u)
  {
    hide SamePhysicalSession, LegacyKeyOf;
    forall a, b | a in u.rows && b in u.rows && a != b
      ensures !SamePhysicalSession(u.rows[a].session, u.rows[b].session)
      ensures LegacyKeyOf(u.rows[a].session) != LegacyKeyOf(u.rows[b].session)
    {
      assert u.rows[a].session == t.rows[a].session && u.rows[b].session == t.rows[b].session;
    }
  }

  lemma LogStable(t: Tables, u: Tables, log: seq<Broadcast>, mined: map<Hash, Receipt>)
    requires TablesExtend(t, u) && LogOk(t, log) && MinedOk(t, mined)
    ensures LogOk(u, log) && MinedOk(u, mined)
  {}

  /** `u` is `t`, or `t` with a new status on row `k` that is allowed there. */
  ghost predicate Restatus(t: Tables, mined: map<Hash, Receipt>, k: Key, u: Tables) {
    u == t ||
    (k in t.rows && k in u.rows && u == WithRow(t, k, u.rows[k]) && RowOk(k, u.rows[k])
     && u.rows[k].session == t.rows[k].session && u.rows[k].wallet == t.rows[k].wallet
     && u.rows[k].amount == t.rows[k].amount && u.rows[k].hash == t.rows[k].hash
     && (u.rows[k].status == Failed && u.rows[k].outcome == NoMovement && u.rows[k].hash.Some? ==>
           u.rows[k].hash.value in mined && !mined[u.rows[k].hash.value].ok))
  }

  /** What every write keeps. */
  ghost predicate Keeps(t: Tables, mined: map<Hash, Receipt>, u: Tables) {
    TablesOk(u) && FailuresOk(u, mined) && TablesExtend(t, u)
  }

  lemma RestatusExtends(t: Tables, mined: map<Hash, Receipt>, k: Key, u: Tables)
    requires Restatus(t, mined, k, u)
    ensures TablesExtend(t, u)
    ensures u.rows.Keys == t.rows.Keys && u.leases == t.leases && u.awards == t.awards
  {
    hide RowOk;
  }

  lemma RestatusRows(t: Tables, mined: map<Hash, Receipt>, k: Key, u: Tables)
    requires RowsOk(t) && Restatus(t, mined, k, u)
    ensures RowsOk(u) && TablesExtend(t, u)
    ensures u.rows.Keys == t.rows.Keys && u.leases.Keys == t.leases.Keys && u.awards == t.awards
  {
    hide RowOk, TablesExtend;
    RestatusExtends(t, mined, k, u);
    forall l | l in u.rows ensures RowOk(l, u.rows[l]) && u.rows[l].hash == t.rows[l].hash {
      if l != k {
        assert u.rows[l] == t.rows[l];
      }
    }
  }

  lemma RestatusLeases(t: Tables, mined: map<Hash, Receipt>, k: Key, u: Tables)
    requires LeasesOk(t) && FailuresOk(t, mined) && Restatus(t, mined, k, u)
    ensures LeasesOk(u) && FailuresOk(u, mined)
  {
    hide RowOk;
    assert LeasesOk(u) by { hide FailuresOk; }
    assert FailuresOk(u, mined) by { hide LeasesOk; }
  }

  lemma RestatusKeeps(t: Tables, mined: map<Hash, Receipt>, k: Key, u: Tables)
    requires TablesOk(t) && FailuresOk(t, mined) && Restatus(t, mined, k, u)
    ensures Keeps(t, mined, u)
  {
    hide RowsOk, LeasesOk, HashesApart, FailuresOk, TablesExtend, ClaimsApart, AwardsOk, Restatus;
    RestatusRows(t, mined, k, u);
    RestatusLeases(t, mined, k, u);
    HashesCarry(t, u);
    ClaimsCarry(t, u);
    AwardsCarry(t, u);
  }

  lemma NothingKeeps(t: Tables, mined: map<Hash, Receipt>)
    requires TablesOk(t) && FailuresOk(t, mined)
    ensures Keeps(t, mined, t)
  {
    hide RowsOk, LeasesOk, HashesApart, FailuresOk, ClaimsApart, AwardsOk;
  }

  lemma UnknownWrite(t: Tables, mined: map<Hash, Receipt>, k: Key)
    requires RowsOk(t)
    ensures Restatus(t, mined, k, UnknownRow(t, k))
  {}

  lemma ConfirmedWrites(t: Tables, mined: map<Hash, Receipt>, k: Key)
    requires RowsOk(t)
    ensures Restatus(t, mined, k, ConfirmedRow(t, k)) && Restatus(t, mined, k, ProjectionErrorRow(t, k))
  {}

  lemma ProjectedWrite(t: Tables, mined: map<Hash, Receipt>, k: Key)
    requires RowsOk(t)
    ensures Restatus(t, mined, k, ProjectedRow(t, k))
  {}

  lemma PreflightWrite(t: Tables, mined: map<Hash, Receipt>, k: Key)
    requires RowsOk(t)
    ensures Restatus(t, mined, k, PreflightFailedRow(t, k))
  {}

  lemma StatusWrites(t: Tables, mined: map<Hash, Receipt>, k: Key)
    requires TablesOk(t)
    ensures Restatus(t, mined, k, UnknownRow(t, k))
    ensures Restatus(t, mined, k, ConfirmedRow(t, k))
    ensures Restatus(t, mined, k, ProjectionErrorRow(t, k))
    ensures Restatus(t, mined, k, ProjectedRow(t, k))
    ensures Restatus(t, mined, k, PreflightFailedRow(t, k))
  {
    hide Restatus, RowsOk, LeasesOk, HashesApart, ClaimsApart, AwardsOk;
    hide UnknownRow, ConfirmedRow, ProjectionErrorRow, ProjectedRow, PreflightFailedRow;
    UnknownWrite(t, mined, k);
    ConfirmedWrites(t, mined, k);
    ProjectedWrite(t, mined, k);
    PreflightWrite(t, mined, k);
  }

  lemma FailedWrite(t: Tables, mined: map<Hash, Receipt>, k: Key, h: Hash, o: Outcome)
    requires TablesOk(t) && k in t.leases && t.leases[k].hash == h
    requires o == NoMovement ==> h in mined && !mined[h].ok
    ensures Restatus(t, mined, k, FailedRow(t, k, o))
  {}

  lemma SavedWrite(t: Tables, mined: map<Hash, Receipt>, k: Key, h: Hash)
    requires TablesOk(t) && k in t.leases && t.leases[k].hash == h
    ensures SavedHash(t, k, h).Some? && Restatus(t, mined, k, SavedHash(t, k, h).value)
  {}

  // ----- claims -----

  lemma NewClaimApart(t: Tables, s: Session, amount: nat, wallet: string)
    requires ClaimsApart(t) && RowsOk(t) && KeyOf(s) !in t.rows && !Collides(t.rows, s)
    ensures ClaimsApart(WithRow(t, KeyOf(s), NewRow(s, amount, wallet)))
  {
    var u := WithRow(t, KeyOf(s), NewRow(s, amount, wallet));
    forall a, b | a in u.rows && b in u.rows && a != b
      ensures !SamePhysicalSession(u.rows[a].session, u.rows[b].session)
      ensures LegacyKeyOf(u.rows[a].session) != LegacyKeyOf(u.rows[b].session)
    {
      var other := if a == KeyOf(s) then b else a;
      assert other in t.rows;
      assert t.rows[other].session == u.rows[other].session;
    }
  }

  lemma NewClaimRows(t: Tables, mined: map<Hash, Receipt>, s: Session, amount: nat, wallet: string)
    requires RowsOk(t) && LeasesOk(t) && FailuresOk(t, mined) && KeyOf(s) !in t.rows && amount <= CAP
    ensures var u := WithRow(t, KeyOf(s), NewRow(s, amount, wallet));
            RowsOk(u) && LeasesOk(u) && FailuresOk(u, mined) && TablesExtend(t, u)
  {
    var u := WithRow(t, KeyOf(s), NewRow(s, amount, wallet));
    assert TablesExtend(t, u) by { hide RowsOk, LeasesOk, FailuresOk; }
    assert FailuresOk(u, mined) by { hide RowsOk, LeasesOk, TablesExtend; }
    assert LeasesOk(u) by { hide RowsOk, FailuresOk, TablesExtend; }
    assert RowsOk(u) by { hide FailuresOk, TablesExtend; }
  }

  lemma NewClaimKeeps(t: Tables, mined: map<Hash, Receipt>, s: Session, amount: nat, wallet: string)
    requires TablesOk(t) && FailuresOk(t, mined) && KeyOf(s) !in t.rows && !Collides(t.rows, s) && amount <= CAP
    ensures Keeps(t, mined, WithRow(t, KeyOf(s), NewRow(s, amount, wallet)))
  {
    var u := WithRow(t, KeyOf(s), NewRow(s, amount, wallet));
    hide RowsOk, LeasesOk, HashesApart, FailuresOk, TablesExtend, ClaimsApart, AwardsOk, Collides;
    NewClaimApart(t, s, amount, wallet);
    NewClaimRows(t, mined, s, amount, wallet);
    HashesCarry(t, u);
    AwardsCarry(t, u);
  }

  lemma ReclaimWrite(t: Tables, mined: map<Hash, Receipt>, k: Key)
    requires RowsOk(t) && k in t.rows && Reclaimable(t.rows[k])
    ensures Restatus(t, mined, k, WithRow(t, k, Reclaimed(t.rows[k])))
  {}

  lemma ReclaimKeeps(t: Tables, mined: map<Hash, Receipt>, s: Session, amount: nat, wallet: string)
    requires TablesOk(t) && FailuresOk(t, mined) && amount <= CAP
    requires KeyOf(s) in t.rows && ClaimOutcome(t, s, amount, wallet).Acquired?
    ensures Keeps(t, mined, Claimed(t, s, amount, wallet))
    ensures IntentOk(Claimed(t, s, amount, wallet), Intent(s, amount, wallet))
  {
    hide LeasesOk, HashesApart, ClaimsApart, AwardsOk, FailuresOk, Restatus, Keeps, RowsOk;
    ReclaimWrite(t, mined, KeyOf(s));
    RestatusKeeps(t, mined, KeyOf(s), WithRow(t, KeyOf(s), Reclaimed(t.rows[KeyOf(s)])));
  }

  lemma ClaimKeeps(t: Tables, mined: map<Hash, Receipt>, s: Session, amount: nat, wallet: string)
    requires TablesOk(t) && FailuresOk(t, mined) && amount <= CAP
    ensures Keeps(t, mined, Claimed(t, s, amount, wallet))
    ensures ClaimOutcome(t, s, amount, wallet).Acquired? ==>
              IntentOk(Claimed(t, s, amount, wallet), Intent(s, amount, wallet))
  {
    hide RowsOk, LeasesOk, HashesApart, ClaimsApart, AwardsOk, FailuresOk, TablesExtend, Collides;
    if ClaimOutcome(t, s, amount, wallet).Acquired? {
      if KeyOf(s) in t.rows {
        ReclaimKeeps(t, mined, s, amount, wallet);
      } else {
        NewClaimKeeps(t, mined, s, amount, wallet);
      }
    } else {
      NothingKeeps(t, mined);
    }
  }

  // ----- signed transfers -----

  lemma PreparedRows(t: Tables, i: Intent)
    requires RowsOk(t) && IntentOk(t, i)
    requires PrepareOutcome(t, KeyOf(i.session), i.amount, i.wallet).Fresh?
    ensures var u := PreparedTables(t, KeyOf(i.session), i.amount, i.wallet);
            && RowsOk(u) && TablesExtend(t, u) && LeasedIntent(u, i, t.nextHash)
            && u.rows.Keys == t.rows.Keys && u.awards == t.awards
  {
    var u := PreparedTables(t, KeyOf(i.session), i.amount, i.wallet);
    assert RowOk(KeyOf(i.session), t.rows[KeyOf(i.session)]);
    assert RowOk(KeyOf(i.session), u.rows[KeyOf(i.session)]);
    hide RowOk;
  }

  lemma PreparedLeases(t: Tables, mined: map<Hash, Receipt>, i: Intent)
    requires LeasesOk(t) && FailuresOk(t, mined) && IntentOk(t, i)
    requires PrepareOutcome(t, KeyOf(i.session), i.amount, i.wallet).Fresh?
    ensures var u := PreparedTables(t, KeyOf(i.session), i.amount, i.wallet);
            LeasesOk(u) && FailuresOk(u, mined)
  {
    var u := PreparedTables(t, KeyOf(i.session), i.amount, i.wallet);
    assert LeasesOk(u) by { hide FailuresOk; }
    assert FailuresOk(u, mined) by { hide LeasesOk; }
  }

  lemma PreparedHashes(t: Tables, i: Intent)
    requires LeasesOk(t) && HashesApart(t)
    requires PrepareOutcome(t, KeyOf(i.session), i.amount, i.wallet).Fresh?
    ensures HashesApart(PreparedTables(t, KeyOf(i.session), i.amount, i.wallet))
  {}

  lemma PrepareKeeps(t: Tables, mined: map<Hash, Receipt>, i: Intent)
    requires TablesOk(t) && FailuresOk(t, mined) && IntentOk(t, i)
    requires PrepareOutcome(t, KeyOf(i.session), i.amount, i.wallet).Fresh?
    ensures Keeps(t, mined, PreparedTables(t, KeyOf(i.session), i.amount, i.wallet))
    ensures LeasedIntent(PreparedTables(t, KeyOf(i.session), i.amount, i.wallet), i, t.nextHash)
  {
    hide RowsOk, LeasesOk, HashesApart, FailuresOk, TablesExtend, ClaimsApart, AwardsOk, LeasedIntent;
    var u := PreparedTables(t, KeyOf(i.session), i.amount, i.wallet);
    PreparedHashes(t, i);
    PreparedRows(t, i);
    PreparedLeases(t, mined, i);
    ClaimsCarry(t, u);
    AwardsCarry(t, u);
  }

  lemma LeaseStatusRows(t: Tables, mined: map<Hash, Receipt>, k: Key, status: LeaseStatus)
    requires RowsOk(t) && LeasesOk(t) && FailuresOk(t, mined) && k in t.leases
    ensures var u := t.(leases := t.leases[k := t.leases[k].(status := status)]);
            RowsOk(u) && LeasesOk(u) && FailuresOk(u, mined) && TablesExtend(t, u)
  {
    hide RowOk;
    var u := t.(leases := t.leases[k := t.leases[k].(status := status)]);
    assert TablesExtend(t, u) by { hide RowsOk, LeasesOk, FailuresOk; }
    assert RowsOk(u) && FailuresOk(u, mined) by { hide LeasesOk, TablesExtend; }
    assert LeasesOk(u) by { hide RowsOk, FailuresOk, TablesExtend; }
  }

  /** A new status on one lease. */
  lemma LeaseStatusKeeps(t: Tables, mined: map<Hash, Receipt>, k: Key, status: LeaseStatus)
    requires TablesOk(t) && FailuresOk(t, mined) && k in t.leases
    ensures Keeps(t, mined, t.(leases := t.leases[k := t.leases[k].(status := status)]))
  {
    hide RowsOk, LeasesOk, FailuresOk, TablesExtend, HashesApart, ClaimsApart, AwardsOk;
    var u := t.(leases := t.leases[k := t.leases[k].(status := status)]);
    LeaseStatusRows(t, mined, k, status);
    ClaimsCarry(t, u);
    HashesCarry(t, u);
    AwardsCarry(t, u);
  }

  lemma TablesExtendTransitive(t: Tables, u: Tables, v: Tables)
    requires TablesExtend(t, u) && TablesExtend(u, v)
    ensures TablesExtend(t, v)
  {}

  lemma LeaseSubmittedKeeps(t: Tables, mined: map<Hash, Receipt>, k: Key, h: Hash)
    requires TablesOk(t) && FailuresOk(t, mined) && k in t.leases && t.leases[k].hash == h
    ensures Keeps(t, mined, LeaseSubmittedTables(t, k, h))
  {
    hide RowsOk, LeasesOk, HashesApart, ClaimsApart, AwardsOk, FailuresOk, TablesExtend, Restatus;
    var u := t.(leases := t.leases[k := t.leases[k].(status := LeaseSubmitted)]);
    LeaseStatusKeeps(t, mined, k, LeaseSubmitted);
    SavedWrite(u, mined, k, h);
    assert LeaseSubmittedTables(t, k, h) == SavedHash(u, k, h).value by { LeasedRow(t, k); }
    RestatusKeeps(u, mined, k, LeaseSubmittedTables(t, k, h));
    TablesExtendTransitive(t, u, LeaseSubmittedTables(t, k, h));
  }

  lemma LeasedRow(t: Tables, k: Key)
    requires LeasesOk(t) && k in t.leases
    ensures k in t.rows && t.rows[k].hash == Some(t.leases[k].hash)
  {}

  lemma LeaseUnknownKeeps(t: Tables, mined: map<Hash, Receipt>, k: Key)
    requires TablesOk(t) && FailuresOk(t, mined) && k in t.leases
    ensures Keeps(t, mined, LeaseUnknownTables(t, k))
  {
    var u := t.(leases := t.leases[k := t.leases[k].(status := LeaseUnknown)]);
    LeaseStatusKeeps(t, mined, k, LeaseUnknown);
    StatusWrites(u, mined, k);
    hide RowsOk, LeasesOk, HashesApart, ClaimsApart, AwardsOk, FailuresOk, TablesExtend;
    RestatusKeeps(u, mined, k, UnknownRow(u, k));
    TablesExtendTransitive(t, u, UnknownRow(u, k));
  }

  // ----- the ledger -----

  lemma {:induction false} WithHashFinds(awards: seq<Award>, h: Hash)
    ensures WithHash(awards, h) == [] <==> forall i :: 0 <= i < |awards| ==> awards[i].hash != h
    ensures forall a :: a in WithHash(awards, h) ==> a in awards && a.hash == h
  {
    if awards != [] {
      WithHashFinds(awards[1..], h);
      assert forall i :: 0 < i < |awards| ==> awards[i] == awards[1..][i - 1];
    }
  }

  lemma {:induction false} AppendedHash(awards: seq<Award>, a: Award)
    requires WithHash(awards, a.hash) == []
    ensures WithHash(awards + [a], a.hash) == [a]
  {
    if awards == [] {
      assert awards + [a] == [a];
    } else {
      AppendedHash(awards[1..], a);
      assert (awards + [a])[1..] == awards[1..] + [a];
    }
  }

  lemma AppendAward(t: Tables, a: Award)
    requires AwardsOk(t) && AwardOk(t, a) && WithHash(t.awards, a.hash) == []
    ensures AwardsOk(WithAward(t, a))
  {
    hide WithHash;
    var u := WithAward(t, a);
    WithHashFinds(t.awards, a.hash);
    forall i | 0 <= i < |u.awards| ensures AwardOk(u, u.awards[i]) {
      assert i < |t.awards| ==> AwardOk(t, t.awards[i]);
      assert AwardOk(t, u.awards[i]);
    }
  }

  lemma RecordKeeps(t: Tables, mined: map<Hash, Receipt>, snap: Row)
    requires TablesOk(t) && FailuresOk(t, mined) && SnapOk(t, snap)
    ensures var a := AwardFor(snap.session, snap.amount, snap.hash.value, snap.wallet);
            Recorded(t, a).Some? ==> Keeps(t, mined, Recorded(t, a).value)
  {
    hide AwardsOk, LeasesOk, HashesApart;
    var a := AwardFor(snap.session, snap.amount, snap.hash.value, snap.wallet);
    if Recorded(t, a).Some? {
      var u := Recorded(t, a).value;
      if u != t {
        assert AwardOk(t, a);
        AppendAward(t, a);
        assert RowsOk(u) && FailuresOk(u, mined) && ClaimsApart(u) && TablesExtend(t, u);
        LeasesIgnoreAwards(t, u);
        HashesCarry(t, u);
      } else {
        NothingKeeps(t, mined);
      }
    }
  }

  lemma LeasesIgnoreAwards(t: Tables, u: Tables)
    requires LeasesOk(t) && u == t.(awards := u.awards, awarded := u.awarded)
    ensures LeasesOk(u)
  {}

  // ----- one awaited call -----

  ghost predicate AdvanceOk(db: Tables, log: seq<Broadcast>, mined: map<Hash, Receipt>, p: Process, f: Effect) {
    && Keeps(db, mined, f.db) && LogOk(f.db, f.log) && MinedOk(f.db, mined)
    && ProcessOk(f.db, f.log, mined, f.next)
    && (f.log == log
        || (p.Broadcasting?
            && f.log == log + [Broadcast(KeyOf(p.intent.session), p.hash, p.intent.amount, p.intent.wallet)]))
    && (f.next.Broadcasting? ==> KeyOf(f.next.intent.session) !in db.leases)
  }

  ghost predicate Ready(db: Tables, log: seq<Broadcast>, mined: map<Hash, Receipt>, p: Process) {
    TablesOk(db) && LogOk(db, log) && MinedOk(db, mined) && FailuresOk(db, mined) && ProcessOk(db, log, mined, p)
  }

  /** A write whose target keeps the tables and whose continuations are fine. */
  lemma WriteOk(db: Tables, written: Tables, log: seq<Broadcast>, mined: map<Hash, Receipt>,
                p: Process, ch: Choice, onOk: Process, onError: Process)
    requires Ready(db, log, mined, p) && Keeps(db, mined, written)
    requires !onOk.Broadcasting? && !onError.Broadcasting?
    requires ProcessOk(written, log, mined, onOk) && ProcessOk(db, log, mined, onError)
    ensures AdvanceOk(db, log, mined, p, Write(db, written, log, ch, onOk, onError))
  {
    hide TablesOk, FailuresOk, LogOk, MinedOk, TablesExtend, ProcessOk;
    NothingKeeps(db, mined);
    LogStable(db, written, log, mined);
    ProcessStable(db, log, mined, written, log, mined, onError);
  }

  lemma StayOk(db: Tables, log: seq<Broadcast>, mined: map<Hash, Receipt>, p: Process, next: Process)
    requires Ready(db, log, mined, p) && ProcessOk(db, log, mined, next) && !next.Broadcasting?
    ensures AdvanceOk(db, log, mined, p, Effect(db, log, next))
  {}

  lemma ClaimingStep(db: Tables, log: seq<Broadcast>, mined: map<Hash, Receipt>, p: Process, ch: Choice)
    requires Ready(db, log, mined, p) && p.Claiming?
    ensures AdvanceOk(db, log, mined, p, Advance(db, log, mined, p, ch))
  {
    hide FailuresOk, LogOk, MinedOk, TablesExtend, ClaimsApart, AwardsOk, LeasesOk, HashesApart, Collides;
    NothingKeeps(db, mined);
    var i := p.intent;
    var k := KeyOf(i.session);
    match ClaimOutcome(db, i.session, i.amount, i.wallet)
    case Refused =>
    case Acquired(r) =>
      ClaimKeeps(db, mined, i.session, i.amount, i.wallet);
      WriteOk(db, Claimed(db, i.session, i.amount, i.wallet), log, mined, p, ch, Holding(i), Finished(k, Rejected));
    case Existing(r) =>
      ReadRowOk(db, log, mined, k, false, true);
  }

  lemma UnleasedUnsent(t: Tables, log: seq<Broadcast>, k: Key)
    requires LogOk(t, log) && k !in t.leases
    ensures Unsent(log, k)
  {}

  lemma HoldingStep(db: Tables, log: seq<Broadcast>, mined: map<Hash, Receipt>, p: Process, ch: Choice)
    requires Ready(db, log, mined, p) && p.Holding?
    ensures AdvanceOk(db, log, mined, p, Advance(db, log, mined, p, ch))
  {
    hide TablesOk, FailuresOk, LogOk, MinedOk, TablesExtend;
    NothingKeeps(db, mined);
    var i := p.intent;
    var k := KeyOf(i.session);
    if i.amount > 0 && ch != Unsendable && PrepareOutcome(db, k, i.amount, i.wallet).Fresh? {
      PrepareKeeps(db, mined, i);
      LogStable(db, PreparedTables(db, k, i.amount, i.wallet), log, mined);
      UnleasedUnsent(db, log, k);
    }
  }

  lemma SubmittingLeaseStep(db: Tables, log: seq<Broadcast>, mined: map<Hash, Receipt>, p: Process, ch: Choice)
    requires Ready(db, log, mined, p) && p.SubmittingLease?
    ensures AdvanceOk(db, log, mined, p, Advance(db, log, mined, p, ch))
  {
    hide TablesOk, FailuresOk, LogOk, MinedOk, TablesExtend, LeaseSubmittedTables;
    var i, h := p.intent, p.hash;
    var u := LeaseSubmittedTables(db, KeyOf(i.session), h);
    LeaseSubmittedKeeps(db, mined, KeyOf(i.session), h);
    ProcessStable(db, log, mined, u, log, mined, SavingHash(i, h));
    WriteOk(db, u, log, mined, p, ch, SavingHash(i, h), DoubtingLease(i, h, true));
  }

  lemma DoubtingLeaseStep(db: Tables, log: seq<Broadcast>, mined: map<Hash, Receipt>, p: Process, ch: Choice)
    requires Ready(db, log, mined, p) && p.DoubtingLease?
    ensures AdvanceOk(db, log, mined, p, Advance(db, log, mined, p, ch))
  {
    hide TablesOk, FailuresOk, LogOk, MinedOk, TablesExtend, LeaseUnknownTables;
    var i, h := p.intent, p.hash;
    var k := KeyOf(i.session);
    var u := LeaseUnknownTables(db, k);
    var next := if p.reconcile then Verifying(LocalRow(i, h, Unknown)) else MarkingUnknown(k);
    LeaseUnknownKeeps(db, mined, k);
    ProcessStable(db, log, mined, u, log, mined, next);
    WriteOk(db, u, log, mined, p, ch, next, next);
  }

  lemma SavingHashStep(db: Tables, log: seq<Broadcast>, mined: map<Hash, Receipt>, p: Process, ch: Choice)
    requires Ready(db, log, mined, p) && p.SavingHash?
    ensures AdvanceOk(db, log, mined, p, Advance(db, log, mined, p, ch))
  {
    hide TablesOk, FailuresOk, LogOk, MinedOk, TablesExtend, SavedHash;
    var i, h := p.intent, p.hash;
    var k := KeyOf(i.session);
    SavedWrite(db, mined, k, h);
    var u := SavedHash(db, k, h).value;
    RestatusKeeps(db, mined, k, u);
    var next := Project(LocalRow(i, h, Submitted), false, true);
    ProcessStable(db, log, mined, u, log, mined, next);
    WriteOk(db, u, log, mined, p, ch, next, MarkingUnknown(k));
  }

  lemma LogAppend(t: Tables, log: seq<Broadcast>, b: Broadcast)
    requires LogOk(t, log) && IsLeased(t, b.key, b.hash, b.amount, b.wallet) && Unsent(log, b.key)
    ensures LogOk(t, log + [b])
  {}

  lemma BroadcastStep(db: Tables, log: seq<Broadcast>, mined: map<Hash, Receipt>, p: Process, ch: Choice)
    requires Ready(db, log, mined, p) && p.Broadcasting?
    ensures AdvanceOk(db, log, mined, p, Advance(db, log, mined, p, ch))
  {
    hide TablesOk, FailuresOk, LogOk, MinedOk, TablesExtend;
    NothingKeeps(db, mined);
    LogAppend(db, log, Broadcast(KeyOf(p.intent.session), p.hash, p.intent.amount, p.intent.wallet));
  }

  /** A write of one row's status. */
  lemma StatusStep(db: Tables, log: seq<Broadcast>, mined: map<Hash, Receipt>, p: Process, ch: Choice,
                   k: Key, u: Tables, onOk: Process, onError: Process)
    requires Ready(db, log, mined, p) && Restatus(db, mined, k, u)
    requires !onOk.Broadcasting? && !onError.Broadcasting?
    requires ProcessOk(db, log, mined, onOk) && ProcessOk(db, log, mined, onError)
    ensures AdvanceOk(db, log, mined, p, Write(db, u, log, ch, onOk, onError))
  {
    hide TablesOk, FailuresOk, LogOk, MinedOk, TablesExtend, ProcessOk, Restatus;
    RestatusKeeps(db, mined, k, u);
    ProcessStable(db, log, mined, u, log, mined, onOk);
    WriteOk(db, u, log, mined, p, ch, onOk, onError);
  }

  lemma RowStep(db: Tables, log: seq<Broadcast>, mined: map<Hash, Receipt>, p: Process, ch: Choice)
    requires Ready(db, log, mined, p)
    requires p.ProjectingZero? || p.MarkingPreflight? || p.MarkingUnknown?
    ensures AdvanceOk(db, log, mined, p, Advance(db, log, mined, p, ch))
  {
    hide TablesOk, FailuresOk, LogOk, MinedOk, TablesExtend, Restatus, UnknownRow, ProjectedRow;
    hide PreflightFailedRow, AdvanceOk;
    var k := p.key;
    StatusWrites(db, mined, k);
    match p
    case ProjectingZero(_) =>
      StatusStep(db, log, mined, p, ch, k, ProjectedRow(db, k), Finished(k, Success(0, None)), Finished(k, Pending));
    case MarkingPreflight(_) =>
      StatusStep(db, log, mined, p, ch, k, PreflightFailedRow(db, k), Finished(k, Rejected), Finished(k, Rejected));
    case MarkingUnknown(_) =>
      StatusStep(db, log, mined, p, ch, k, UnknownRow(db, k), Finished(k, Pending), Finished(k, Pending));
  }

  lemma SnapStep(db: Tables, log: seq<Broadcast>, mined: map<Hash, Receipt>, p: Process, ch: Choice)
    requires Ready(db, log, mined, p) && (p.Confirming? || p.NotingProjectionError? || p.Projecting?)
    ensures AdvanceOk(db, log, mined, p, Advance(db, log, mined, p, ch))
  {
    hide TablesOk, FailuresOk, LogOk, MinedOk, TablesExtend, Restatus, ConfirmedRow;
    hide ProjectionErrorRow, ProjectedRow, AdvanceOk;
    var snap := p.snap;
    var k := KeyOf(snap.session);
    StatusWrites(db, mined, k);
    match p
    case Confirming(_) =>
      StatusStep(db, log, mined, p, ch, k, ConfirmedRow(db, k), Recording(snap), Finished(k, Pending));
    case NotingProjectionError(_) =>
      StatusStep(db, log, mined, p, ch, k, ProjectionErrorRow(db, k), Finished(k, Pending), Finished(k, Pending));
    case Projecting(_) =>
      StatusStep(db, log, mined, p, ch, k, ProjectedRow(db, k), Finished(k, Success(snap.amount, snap.hash)),
                 Finished(k, Pending));
  }

  lemma FailingStep(db: Tables, log: seq<Broadcast>, mined: map<Hash, Receipt>, p: Process, ch: Choice)
    requires Ready(db, log, mined, p) && p.Failing?
    ensures AdvanceOk(db, log, mined, p, Advance(db, log, mined, p, ch))
  {
    hide TablesOk, FailuresOk, LogOk, MinedOk, TablesExtend, Restatus, FailedRow, AdvanceOk;
    var k := KeyOf(p.snap.session);
    FailedWrite(db, mined, k, p.snap.hash.value, p.outcome);
    var verdict := if p.outcome == NoMovement then Rejected else Pending;
    StatusStep(db, log, mined, p, ch, k, FailedRow(db, k, p.outcome), Finished(k, verdict), Finished(k, Pending));
  }

  lemma RecordingStep(db: Tables, log: seq<Broadcast>, mined: map<Hash, Receipt>, p: Process, ch: Choice)
    requires Ready(db, log, mined, p) && p.Recording?
    ensures AdvanceOk(db, log, mined, p, Advance(db, log, mined, p, ch))
  {
    hide TablesOk, FailuresOk, LogOk, MinedOk, TablesExtend, Recorded;
    var snap := p.snap;
    var a := AwardFor(snap.session, snap.amount, snap.hash.value, snap.wallet);
    RecordKeeps(db, mined, snap);
    match Recorded(db, a)
    case None => StayOk(db, log, mined, p, NotingProjectionError(snap));
    case Some(u) =>
      ProcessStable(db, log, mined, u, log, mined, Projecting(snap));
      WriteOk(db, u, log, mined, p, ch, Projecting(snap), NotingProjectionError(snap));
  }

  /** A row just read from the table can be projected from. */
  lemma ReadRowOk(t: Tables, log: seq<Broadcast>, mined: map<Hash, Receipt>, k: Key, demandFresh: bool, verifier: bool)
    requires TablesOk(t) && k in t.rows
    ensures KeyOf(t.rows[k].session) == k && t.rows[k].amount <= CAP && (t.rows[k].hash.Some? ==> SnapOk(t, t.rows[k]))
    ensures ProcessOk(t, log, mined, Project(t.rows[k], demandFresh, verifier))
  {
    hide LeasesOk, HashesApart, ClaimsApart, AwardsOk;
    assert RowOk(k, t.rows[k]);
  }

  lemma ReadStep(db: Tables, log: seq<Broadcast>, mined: map<Hash, Receipt>, p: Process, ch: Choice)
    requires Ready(db, log, mined, p)
    requires p.LookingUp? || p.Pricing? || p.Recovering? || p.Finished?
    ensures AdvanceOk(db, log, mined, p, Advance(db, log, mined, p, ch))
  {
    hide TablesOk, FailuresOk, LogOk, MinedOk, TablesExtend;
    NothingKeeps(db, mined);
    if p.LookingUp? && KeyOf(p.session) in db.rows {
      ReadRowOk(db, log, mined, KeyOf(p.session), false, false);
    }
    if p.Recovering? && p.key in db.rows {
      ReadRowOk(db, log, mined, p.key, false, true);
    }
  }

  lemma VerdictStep(db: Tables, log: seq<Broadcast>, mined: map<Hash, Receipt>, p: Process, ch: Choice)
    requires Ready(db, log, mined, p) && (p.Verifying? || p.RecoverVerifying?)
    ensures AdvanceOk(db, log, mined, p, Advance(db, log, mined, p, ch))
  {
    hide TablesOk, FailuresOk, LogOk, MinedOk, TablesExtend;
    NothingKeeps(db, mined);
  }

  lemma AdvanceKeeps(db: Tables, log: seq<Broadcast>, mined: map<Hash, Receipt>, p: Process, ch: Choice)
    requires Ready(db, log, mined, p)
    ensures AdvanceOk(db, log, mined, p, Advance(db, log, mined, p, ch))
  {
    hide Advance, AdvanceOk, Ready;
    match p
    case Claiming(_) => ClaimingStep(db, log, mined, p, ch);
    case Holding(_) => HoldingStep(db, log, mined, p, ch);
    case Broadcasting(_, _) => BroadcastStep(db, log, mined, p, ch);
    case SubmittingLease(_, _) => SubmittingLeaseStep(db, log, mined, p, ch);
    case DoubtingLease(_, _, _) => DoubtingLeaseStep(db, log, mined, p, ch);
    case SavingHash(_, _) => SavingHashStep(db, log, mined, p, ch);
    case ProjectingZero(_) => RowStep(db, log, mined, p, ch);
    case MarkingPreflight(_) => RowStep(db, log, mined, p, ch);
    case MarkingUnknown(_) => RowStep(db, log, mined, p, ch);
    case Confirming(_) => SnapStep(db, log, mined, p, ch);
    case Failing(_, _) => FailingStep(db, log, mined, p, ch);
    case Recording(_) => RecordingStep(db, log, mined, p, ch);
    case NotingProjectionError(_) => SnapStep(db, log, mined, p, ch);
    case Projecting(_) => SnapStep(db, log, mined, p, ch);
    case Verifying(_) => VerdictStep(db, log, mined, p, ch);
    case RecoverVerifying(_) => VerdictStep(db, log, mined, p, ch);
    case _ => ReadStep(db, log, mined, p, ch);
  }

  // ----- every step, every run -----

  lemma ActKeeps(s: State, pid: nat, ch: Choice)
    requires Inv(s) && pid in s.procs
    ensures Inv(Step(s, Act(pid, ch))) && Extends(s, Step(s, Act(pid, ch)))
  {
    hide TablesOk, FailuresOk, LogOk, MinedOk, TablesExtend, Advance, ProcessOk, MinedLogged;
    var p := s.procs[pid];
    var f := Advance(s.db, s.log, s.mined, p, ch);
    var u := Step(s, Act(pid, ch));
    AdvanceKeeps(s.db, s.log, s.mined, p, ch);
    LoggedStays(s.log, f.log, s.mined);
    forall q | q in u.procs ensures ProcessOk(u.db, u.log, u.mined, u.procs[q]) {
      if q != pid {
        OtherProcess(s, pid, q, f);
      }
    }
    forall q, r | q in u.procs && r in u.procs && q != r && u.procs[q].Broadcasting? && u.procs[r].Broadcasting?
      ensures KeyOf(u.procs[q].intent.session) != KeyOf(u.procs[r].intent.session)
    {
      BroadcasterLeased(s, q);
      BroadcasterLeased(s, r);
    }
  }

  lemma LoggedStays(log: seq<Broadcast>, log': seq<Broadcast>, mined: map<Hash, Receipt>)
    requires MinedLogged(log, mined) && log <= log'
    ensures MinedLogged(log', mined)
  {
    forall h | h in mined ensures exists i :: 0 <= i < |log'| && log'[i].hash == h {
      var i :| 0 <= i < |log| && log[i].hash == h;
      assert log'[i] == log[i];
    }
  }

  lemma BroadcasterLeased(s: State, q: nat)
    requires Inv(s)
    ensures q in s.procs && s.procs[q].Broadcasting? ==> KeyOf(s.procs[q].intent.session) in s.db.leases
  {
    hide TablesOk, FailuresOk, LogOk, MinedOk, OneBroadcaster, MinedLogged;
    if q in s.procs && s.procs[q].Broadcasting? {
      assert ProcessOk(s.db, s.log, s.mined, s.procs[q]);
    }
  }

  /** The step of one process leaves what the others rely on. */
  lemma OtherProcess(s: State, pid: nat, q: nat, f: Effect)
    requires Inv(s) && pid in s.procs && q in s.procs && q != pid
    requires AdvanceOk(s.db, s.log, s.mined, s.procs[pid], f)
    ensures ProcessOk(f.db, f.log, s.mined, s.procs[q])
  {
    hide TablesOk, FailuresOk, LogOk, MinedOk, TablesExtend;
    assert ProcessOk(s.db, s.log, s.mined, s.procs[q]);
    ProcessStable(s.db, s.log, s.mined, f.db, f.log, s.mined, s.procs[q]);
  }

  lemma MinedWrites(s: State, index: nat, ok: bool)
    requires LogOk(s.db, s.log) && MinedOk(s.db, s.mined) && FailuresOk(s.db, s.mined)
    ensures var u := Step(s, Mine(index, ok));
            MinedOk(u.db, u.mined) && FailuresOk(u.db, u.mined) && MinedExtend(s.mined, u.mined)
  {}

  lemma MinedStaysLogged(s: State, index: nat, ok: bool)
    requires MinedLogged(s.log, s.mined)
    ensures MinedLogged(Step(s, Mine(index, ok)).log, Step(s, Mine(index, ok)).mined)
  {}

  lemma MineKeeps(s: State, index: nat, ok: bool)
    requires Inv(s)
    ensures Inv(Step(s, Mine(index, ok))) && Extends(s, Step(s, Mine(index, ok)))
  {
    hide TablesOk, FailuresOk, LogOk, MinedOk, MinedLogged, ProcessOk, OneBroadcaster;
    var u := Step(s, Mine(index, ok));
    MinedWrites(s, index, ok);
    MinedStaysLogged(s, index, ok);
    forall q | q in u.procs ensures ProcessOk(u.db, u.log, u.mined, u.procs[q]) {
      assert ProcessOk(s.db, s.log, s.mined, s.procs[q]);
      ProcessStable(s.db, s.log, s.mined, u.db, u.log, u.mined, u.procs[q]);
    }
  }

  lemma StepKeeps(s: State, e: Event)
    requires Inv(s)
    ensures Inv(Step(s, e)) && Extends(s, Step(s, e))
  {
    match e
    case Act(pid, ch) =>
      if pid in s.procs {
        ActKeeps(s, pid, ch);
      }
    case Mine(i, ok) => MineKeeps(s, i, ok);
    case _ => SpawnOrCrash(s, e);
  }

  lemma SpawnOrCrash(s: State, e: Event)
    requires Inv(s) && (e.Replay? || e.Recovery? || e.Crash?)
    ensures Inv(Step(s, e)) && Extends(s, Step(s, e))
  {
    hide TablesOk, FailuresOk, LogOk, MinedOk;
  }

  lemma ExtendsTransitive(s: State, t: State, u: State)
    requires Extends(s, t) && Extends(t, u)
    ensures Extends(s, u)
  {}

  lemma {:induction false} RunKeeps(s: State, events: seq<Event>)
    requires Inv(s)
    ensures Inv(Run(s, events)) && Extends(s, Run(s, events))
    decreases |events|
  {
    hide Inv, TablesExtend;
    if events == [] {
      assert Extends(s, s) by { NothingExtends(s); }
    } else {
      var n := |events| - 1;
      RunKeeps(s, events[..n]);
      StepKeeps(Run(s, events[..n]), events[n]);
      ExtendsTransitive(s, Run(s, events[..n]), Run(s, events));
    }
  }

  lemma NothingExtends(s: State)
    ensures Extends(s, s)
  {}

  lemma Reachable(events: seq<Event>)
    ensures Inv(Run(INITIAL, events))
  {
    RunKeeps(INITIAL, events);
  }

  // ----- the theorems -----

  /** In every run at most one award transfer is broadcast for an operation key. */
  lemma AtMostOneBroadcastPerKey(events: seq<Event>, i: nat, j: nat)
    requires i < j < |Run(INITIAL, events).log|
    ensures Run(INITIAL, events).log[i].key != Run(INITIAL, events).log[j].key
  {
    Reachable(events);
  }

  /** No transfer above the cap of 200 tokens is broadcast. */
  lemma NoBroadcastAboveCap(events: seq<Event>, i: nat)
    requires i < |Run(INITIAL, events).log|
    ensures Run(INITIAL, events).log[i].amount <= CAP
  {
    Reachable(events);
    hide AwardsOk, HashesApart, ClaimsApart, OneBroadcaster, ProcessOk, FailuresOk, MinedOk;
  }

  /** No claim has two ledger rows. */
  lemma AtMostOneAwardPerKey(events: seq<Event>, i: nat, j: nat)
    requires i < j < |Run(INITIAL, events).db.awards|
    ensures AwardKey(Run(INITIAL, events).db.awards[i]) != AwardKey(Run(INITIAL, events).db.awards[j])
  {
    Reachable(events);
    hide LeasesOk, HashesApart, ClaimsApart, OneBroadcaster, ProcessOk, FailuresOk, MinedOk;
    var t := Run(INITIAL, events).db;
    assert AwardOk(t, t.awards[i]) && AwardOk(t, t.awards[j]);
  }

  /** Nor are two transfers ever broadcast for one physical charging session
      under different record ids, nor for one legacy key. */
  lemma AtMostOneBroadcastPerPhysicalSession(events: seq<Event>, i: nat, j: nat)
    requires i < j < |Run(INITIAL, events).log|
    ensures var s := Run(INITIAL, events);
            && s.log[i].key in s.db.rows && s.log[j].key in s.db.rows
            && !SamePhysicalSession(s.db.rows[s.log[i].key].session, s.db.rows[s.log[j].key].session)
            && LegacyKeyOf(s.db.rows[s.log[i].key].session) != LegacyKeyOf(s.db.rows[s.log[j].key].session)
  {
    Reachable(events);
    hide AwardsOk, HashesApart, OneBroadcaster, ProcessOk, FailuresOk, MinedOk;
  }

  /** Whatever happens after, a claim keeps its session, wallet and amount, a
      saved hash stays, a mined transfer stays mined as it was. */
  lemma ClaimsAreImmutable(before: seq<Event>, after: seq<Event>, k: Key)
    requires k in Run(INITIAL, before).db.rows
    ensures var r := Run(INITIAL, before).db.rows[k];
            var u := Run(INITIAL, before + after);
            && k in u.db.rows && u.db.rows[k].session == r.session && u.db.rows[k].wallet == r.wallet
            && u.db.rows[k].amount == r.amount && (r.hash.Some? ==> u.db.rows[k].hash == r.hash)
            && MinedExtend(Run(INITIAL, before).mined, u.mined)
  {
    Reachable(before);
    RunConcat(INITIAL, before, after);
    RunKeeps(Run(INITIAL, before), after);
  }

  /** A row that stands as failed with `no_movement` has no successful transfer
      behind it: either nothing was ever broadcast for its key, or the
      broadcast was mined and reverted and stays so in every continuation. */
  lemma NoMovementIsFinal(before: seq<Event>, after: seq<Event>, k: Key)
    requires k in Run(INITIAL, before).db.rows
    requires Run(INITIAL, before).db.rows[k].status == Failed
    requires Run(INITIAL, before).db.rows[k].outcome == NoMovement
    ensures var s, u := Run(INITIAL, before), Run(INITIAL, before + after);
            match s.db.rows[k].hash
            case None => Unsent(s.log, k)
            case Some(h) =>
              && h in u.mined && !u.mined[h].ok
              && forall i :: 0 <= i < |u.log| && u.log[i].key == k ==> u.log[i].hash == h
  {
    Reachable(before);
    Reachable(before + after);
    RunConcat(INITIAL, before, after);
    RunKeeps(Run(INITIAL, before), after);
    hide AwardsOk, HashesApart, ClaimsApart, OneBroadcaster, ProcessOk;
  }

  /** Only a process that acquired the claim and signed the transfer broadcasts:
      recovery and replay of a hash-bearing row never reach that point. */
  lemma OnlyTheLeaseHolderBroadcasts(s: State, pid: nat, ch: Choice)
    requires Inv(s) && pid in s.procs && |Step(s, Act(pid, ch)).log| > |s.log|
    ensures s.procs[pid].Broadcasting? && Unsent(s.log, KeyOf(s.procs[pid].intent.session))
    ensures LeasedIntent(s.db, s.procs[pid].intent, s.procs[pid].hash)
  {
    hide TablesOk, FailuresOk, LogOk, MinedOk, OneBroadcaster;
    AdvanceKeeps(s.db, s.log, s.mined, s.procs[pid], ch);
    assert ProcessOk(s.db, s.log, s.mined, s.procs[pid]);
  }

  /** The only way to that point is a claim acquired on a row without a hash:
      no step of any other process arrives there. */
  lemma BroadcastingFromClaim(s: State, pid: nat, ch: Choice)
    requires Inv(s) && pid in s.procs && Step(s, Act(pid, ch)).procs[pid].Broadcasting?
    ensures s.procs[pid].Holding? && ch == Ok
    ensures var k := KeyOf(s.procs[pid].intent.session);
            k in s.db.rows && s.db.rows[k].hash == None && k !in s.db.leases
  {
    hide TablesOk, FailuresOk, LogOk, MinedOk, TablesExtend, OneBroadcaster;
    AdvanceKeeps(s.db, s.log, s.mined, s.procs[pid], ch);
  }
}

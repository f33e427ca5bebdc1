/** The durable store and the network as the award executor sees them: tables
    updated in place, one statement or transaction a call. Every call takes the
    way it ends: it succeeds, fails without effect, or takes effect and fails. */
module TokenOperationStore {
  import opened Basics
  import opened OperationTables
  import opened AwardProtocol

  predicate TakesEffect(ch: Choice) { ch == Ok || ch == ReplyLost }

  class Store {
    var rows: map<Key, Row>
    var leases: map<Key, Lease>
    var awards: seq<Award>
    var awarded: map<Owner, nat>
    var nextHash: Hash

    function Db(): Tables
      reads this
    {
      Tables(rows, leases, awards, awarded, nextHash)
    }

    constructor ()
      ensures Db() == INITIAL.db
    {
      rows, leases, awards, awarded, nextHash := map[], map[], [], map[], 0;
    }

    method FindByKey(k: Key, ch: Choice) returns (ok: bool, row: Option<Row>)
      ensures ok == (ch == Ok)
      ensures ok ==> (row.Some? <==> k in rows) && (k in rows ==> row == Some(rows[k]))
    {
      ok := ch == Ok;
      row := if k in rows then Some(rows[k]) else None;
    }

    /** The claim and its unique indexes, in one transaction. */
    method Claim(s: Session, amount: nat, wallet: string, ch: Choice) returns (ok: bool, claim: ClaimResult)
      modifies this
      ensures ok == (ch == Ok && !claim.Refused?)
      ensures claim == ClaimOutcome(old(Db()), s, amount, wallet)
      ensures Db() == if TakesEffect(ch) then Claimed(old(Db()), s, amount, wallet) else old(Db())
    {
      var k := KeyOf(s);
      if k in rows {
        var existing := rows[k];
        if !SameIntent(existing, s, amount, wallet) {
          claim := Refused;
        } else if existing.status == Failed && existing.hash == None && existing.preflight {
          claim := Acquired(existing.(status := Submitting, outcome := UnknownOutcome, preflight := false));
        } else {
          claim := Existing(existing);
        }
      } else if Collides(rows, s) {
        claim := Refused;
      } else {
        claim := Acquired(NewRow(s, amount, wallet));
      }
      if claim.Acquired? && TakesEffect(ch) {
        rows := rows[k := claim.row];
      }
      ok := ch == Ok && !claim.Refused?;
    }

    method MarkSubmitted(k: Key, h: Hash, ch: Choice) returns (ok: bool)
      modifies this
      ensures ok == (ch == Ok && SavedHash(old(Db()), k, h).Some?)
      ensures Db() == if TakesEffect(ch) && SavedHash(old(Db()), k, h).Some?
                      then SavedHash(old(Db()), k, h).value else old(Db())
    {
      if k !in rows {
        return false;
      }
      var r := rows[k];
      if r.hash.Some? && r.hash.value != h {
        return false;
      }
      if Open(r.status) && TakesEffect(ch) {
        rows := rows[k := r.(hash := Some(h), status := Submitted)];
      }
      ok := ch == Ok;
    }

    method MarkUnknown(k: Key, ch: Choice) returns (ok: bool)
      modifies this
      ensures ok == (ch == Ok)
      ensures Db() == if TakesEffect(ch) then UnknownRow(old(Db()), k) else old(Db())
    {
      if TakesEffect(ch) && k in rows && Open(rows[k].status) {
        rows := rows[k := rows[k].(status := Unknown)];
      }
      ok := ch == Ok;
    }

    method MarkConfirmed(k: Key, ch: Choice) returns (ok: bool)
      modifies this
      ensures ok == (ch == Ok)
      ensures Db() == if TakesEffect(ch) then ConfirmedRow(old(Db()), k) else old(Db())
    {
      if TakesEffect(ch) && k in rows && rows[k].hash.Some? && (Open(rows[k].status) || rows[k].status == Confirmed) {
        rows := rows[k := rows[k].(status := Confirmed, outcome := ConfirmedOutcome)];
      }
      ok := ch == Ok;
    }

    method MarkProjectionError(k: Key, ch: Choice) returns (ok: bool)
      modifies this
      ensures ok == (ch == Ok)
      ensures Db() == if TakesEffect(ch) then ProjectionErrorRow(old(Db()), k) else old(Db())
    {
      if TakesEffect(ch) && k in rows && rows[k].hash.Some? && (Open(rows[k].status) || rows[k].status == Confirmed) {
        rows := rows[k := rows[k].(status := Confirmed)];
      }
      ok := ch == Ok;
    }

    method MarkProjected(k: Key, ch: Choice) returns (ok: bool)
      modifies this
      ensures ok == (ch == Ok)
      ensures Db() == if TakesEffect(ch) then ProjectedRow(old(Db()), k) else old(Db())
    {
      if TakesEffect(ch) && k in rows && rows[k].status != Failed && (rows[k].hash.Some? || rows[k].amount == 0) {
        var outcome := if rows[k].amount == 0 then NoMovement else ConfirmedOutcome;
        rows := rows[k := rows[k].(status := Projected, outcome := outcome)];
      }
      ok := ch == Ok;
    }

    method MarkFailed(k: Key, outcome: Outcome, ch: Choice) returns (ok: bool)
      modifies this
      ensures ok == (ch == Ok)
      ensures Db() == if TakesEffect(ch) then FailedRow(old(Db()), k, outcome) else old(Db())
    {
      if TakesEffect(ch) && k in rows && rows[k].hash.Some? && Open(rows[k].status) {
        rows := rows[k := rows[k].(status := Failed, outcome := outcome)];
      }
      ok := ch == Ok;
    }

    method MarkPreflightFailed(k: Key, ch: Choice) returns (ok: bool)
      modifies this
      ensures ok == (ch == Ok)
      ensures Db() == if TakesEffect(ch) then PreflightFailedRow(old(Db()), k) else old(Db())
    {
      if TakesEffect(ch) && k in rows && rows[k].hash == None {
        rows := rows[k := rows[k].(status := Failed, outcome := NoMovement, preflight := true)];
      }
      ok := ch == Ok;
    }

    /** Signs the transfer and saves its hash, or hands out the lease there is. */
    method Prepare(k: Key, amount: nat, wallet: string, ch: Choice) returns (ok: bool, prepared: PrepareResult)
      modifies this
      ensures prepared == PrepareOutcome(old(Db()), k, amount, wallet)
      ensures ok == (ch == Ok && !prepared.Unprepared?)
      ensures Db() == if TakesEffect(ch) then PreparedTables(old(Db()), k, amount, wallet) else old(Db())
    {
      if k in leases {
        prepared := if leases[k].amount == amount && leases[k].wallet == wallet then Already(leases[k]) else Unprepared;
      } else if k !in rows || !Open(rows[k].status) || rows[k].hash.Some? {
        prepared := Unprepared;
      } else {
        prepared := PrepareResult.Fresh(nextHash);
        if TakesEffect(ch) {
          rows := rows[k := rows[k].(hash := Some(nextHash), status := Submitting)];
          leases := leases[k := Lease(nextHash, amount, wallet, Prepared)];
          nextHash := nextHash + 1;
        }
      }
      ok := ch == Ok && !prepared.Unprepared?;
    }

    method LeaseSubmittedNow(k: Key, h: Hash, ch: Choice) returns (ok: bool)
      modifies this
      ensures ok == (ch == Ok)
      ensures Db() == if TakesEffect(ch) then LeaseSubmittedTables(old(Db()), k, h) else old(Db())
    {
      if TakesEffect(ch) && k in leases && leases[k].hash == h {
        leases := leases[k := leases[k].(status := LeaseSubmitted)];
        if k in rows && Open(rows[k].status) {
          rows := rows[k := rows[k].(status := Submitted)];
        }
      }
      ok := ch == Ok;
    }

    method LeaseUnknownNow(k: Key, ch: Choice) returns (ok: bool)
      modifies this
      ensures ok == (ch == Ok)
      ensures Db() == if TakesEffect(ch) then LeaseUnknownTables(old(Db()), k) else old(Db())
    {
      if TakesEffect(ch) && k in leases {
        leases := leases[k := leases[k].(status := LeaseUnknown)];
        if k in rows && Open(rows[k].status) {
          rows := rows[k := rows[k].(status := Unknown)];
        }
      }
      ok := ch == Ok;
    }

    method RecordAward(a: Award, ch: Choice) returns (ok: bool)
      modifies this
      ensures ok == (ch == Ok && Recorded(old(Db()), a).Some?)
      ensures Db() == if TakesEffect(ch) && Recorded(old(Db()), a).Some?
                      then Recorded(old(Db()), a).value else old(Db())
    {
      var sameHash := WithHash(awards, a.hash);
      if |sameHash| > 1 {
        return false;
      }
      if |sameHash| == 1 {
        return ch == Ok && sameHash[0] == a;
      }
      var sameDedup := WithDedup(awards, a.dedup);
      if sameDedup != [] {
        return ch == Ok && sameDedup[0].(hash := a.hash) == a;
      }
      if TakesEffect(ch) {
        var owner := Owner(a.uid, a.wallet);
        awarded := awarded[owner := TotalAwarded(awarded, owner) + a.amount];
        awards := awards + [a];
      }
      ok := ch == Ok;
    }
  }

  class Network {
    var log: seq<Broadcast>
    const mined: map<Hash, Receipt>

    constructor (mined: map<Hash, Receipt>)
      ensures log == [] && this.mined == mined
    {
      log := [];
      this.mined := mined;
    }

    /** A transfer may be accepted although the call fails. */
    method Send(b: Broadcast, ch: Choice) returns (ok: bool)
      modifies this
      ensures ok == (ch == Ok)
      ensures log == if TakesEffect(ch) then old(log) + [b] else old(log)
    {
      if TakesEffect(ch) {
        log := log + [b];
      }
      ok := ch == Ok;
    }

    method Verify(snap: Row, ch: Choice) returns (ok: bool, evidence: Evidence)
      ensures ok == ch.Chain?
      ensures ok ==> evidence == ObserveFor(mined, ch.answer, snap)
    {
      ok := ch.Chain?;
      evidence := if ok then ObserveFor(mined, ch.answer, snap) else Inconclusive;
    }
  }
}

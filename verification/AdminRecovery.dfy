/** What the administrator is told about recovery, against what fresh-evidence
    recovery does. */
module AdminRecovery {
  import opened Basics
  import opened Numerals
  import Cdr
  import Normaliser
  import RS = RecoverySnapshot
  import OT = OperationTables
  import AP = AwardProtocol
  import AS = AwardSafety
  import AL = AwardLedger
  import AR = AwardReplay
  import AE = AwardExecutor

  /** An operation as the listing and the recovery read it. `image` holds its
      status, movement outcome and amount; the hash column may hold any text. */
  datatype Operation = Operation(
    isAward: bool, image: OT.Row, txHash: Option<string>, snapshot: RS.Stored<RS.StoredSnapshot>,
    columns: RS.Operation, retryable: bool)

  /** `hasCanonicalTransactionHash`. */
  predicate HasCanonicalHash(value: Option<string>) {
    && value.Some?
    && var text := Trim(value.value);
       |text| == 66 && text[0] == '0' && text[1] == 'x' && forall i :: 2 <= i < 66 ==> IsHexDigit(text[i])
  }

  /** `canonicalTransactionHash`. */
  function CanonicalHash(value: Option<string>): Option<string> {
    if HasCanonicalHash(value) then Some(Lower(Trim(value.value))) else None
  }

  /** `hasAwardRecoverySnapshot`: only the shape is looked at. */
  predicate HasSnapshot(op: Operation) { op.snapshot.Object? && op.snapshot.value.rawCDR.Object? }

  datatype Reason =
    | SPEND_RECEIPT_RECOVERY_REQUIRED | CHAIN_HASH_REQUIRED | ALREADY_PROJECTED | DEPENDENCY_RETRY_REQUIRED
    | CHAIN_MOVEMENT_CONFIRMED | FAILED_OPERATION_REVIEW_REQUIRED | AWARD_CDR_SNAPSHOT_REQUIRED
    | MOVEMENT_REVIEW_REQUIRED | CHAIN_EVIDENCE_REQUIRED

  datatype Listing = Listing(eligible: bool, reason: Reason)

  /** `getAdminOperationRecoveryStatus`. */
  function RecoveryStatus(op: Operation): Listing {
    if op.image.status == OT.Projected then
      if !op.isAward then
        (if HasCanonicalHash(op.txHash) then Listing(true, SPEND_RECEIPT_RECOVERY_REQUIRED)
         else Listing(false, CHAIN_HASH_REQUIRED))
      else Listing(HasCanonicalHash(op.txHash), ALREADY_PROJECTED)
    else if op.image.status == OT.Failed then
      if op.image.outcome == OT.NoMovement && op.retryable then Listing(false, DEPENDENCY_RETRY_REQUIRED)
      else if op.image.outcome == OT.ConfirmedOutcome then Listing(false, CHAIN_MOVEMENT_CONFIRMED)
      else Listing(false, FAILED_OPERATION_REVIEW_REQUIRED)
    else if !HasCanonicalHash(op.txHash) then Listing(false, CHAIN_HASH_REQUIRED)
    else if op.isAward && !HasSnapshot(op) then Listing(false, AWARD_CDR_SNAPSHOT_REQUIRED)
    else if op.image.outcome == OT.Review then Listing(false, MOVEMENT_REVIEW_REQUIRED)
    else Listing(true, CHAIN_EVIDENCE_REQUIRED)
  }

  /** Who is listed as eligible: a row with a canonical hash that has not failed
      and is projected already, or is neither under review nor, for an award,
      without its snapshot. */
  lemma EligibleExactly(op: Operation)
    ensures RecoveryStatus(op).eligible
            <==> && HasCanonicalHash(op.txHash) && op.image.status != OT.Failed
                 && (op.image.status == OT.Projected
                     || (op.image.outcome != OT.Review && (op.isAward ==> HasSnapshot(op))))
  {
    hide HasCanonicalHash, HasSnapshot;
  }

  /** Each reason has its own case, and no other. */
  lemma ReasonsExactly(op: Operation)
    ensures var reason := RecoveryStatus(op).reason;
            var hash, failed, done := HasCanonicalHash(op.txHash), op.image.status == OT.Failed,
                op.image.status == OT.Projected;
            var retry := op.image.outcome == OT.NoMovement && op.retryable;
            var open := hash && !failed && !done;
            && (reason == ALREADY_PROJECTED <==> done && op.isAward)
            && (reason == SPEND_RECEIPT_RECOVERY_REQUIRED <==> done && !op.isAward && hash)
            && (reason == CHAIN_HASH_REQUIRED <==> !hash && !failed && !(done && op.isAward))
            && (reason == DEPENDENCY_RETRY_REQUIRED <==> failed && retry)
            && (reason == CHAIN_MOVEMENT_CONFIRMED <==> failed && op.image.outcome == OT.ConfirmedOutcome)
            && (reason == FAILED_OPERATION_REVIEW_REQUIRED
                <==> failed && !retry && op.image.outcome != OT.ConfirmedOutcome)
            && (reason == AWARD_CDR_SNAPSHOT_REQUIRED <==> open && op.isAward && !HasSnapshot(op))
            && (reason == MOVEMENT_REVIEW_REQUIRED
                <==> open && (op.isAward ==> HasSnapshot(op)) && op.image.outcome == OT.Review)
            && (reason == CHAIN_EVIDENCE_REQUIRED <==> !done && RecoveryStatus(op).eligible)
  {
    hide HasCanonicalHash, HasSnapshot;
  }

  /** A row listed for a retry after a failed dependency has moved nothing, in any
      reachable state, and what was sent for it never will. */
  lemma RetryIsSafe(op: Operation, before: seq<AP.Event>, after: seq<AP.Event>, k: OT.Key)
    requires IsRow(op, AP.Run(AP.INITIAL, before).db, k) && RecoveryStatus(op).reason == DEPENDENCY_RETRY_REQUIRED
    ensures var s, u := AP.Run(AP.INITIAL, before), AP.Run(AP.INITIAL, before + after);
            match s.db.rows[k].hash
            case None => AS.Unsent(s.log, k)
            case Some(h) =>
              && h in u.mined && !u.mined[h].ok
              && forall i :: 0 <= i < |u.log| && u.log[i].key == k ==> u.log[i].hash == h
  {
    hide AP.Run, HasCanonicalHash, HasSnapshot;
    AS.NoMovementIsFinal(before, after, k);
  }

  /** The surroundings of one recovery call. */
  datatype World = World(now: int, parsers: Normaliser.Parsers, codec: RS.Codec, assetMatches: bool)

  /** The snapshot is there, validates with its record, and is the one of this key. */
  predicate SnapshotValidates(op: Operation, w: World) {
    var parsed := RS.Parse(op.snapshot, w.codec);
    && parsed.Valid?
    && var found := RS.Validate(op.columns, parsed.snapshot, true, w.now, w.parsers, w.codec);
       && found.Some?
       && OT.Key(found.value.session.providerId, found.value.session.sessionId) == OT.KeyOf(op.image.session)
  }

  /** The checks of `recoverAwardOperation` before it reads the chain, when fresh
      evidence is demanded. */
  predicate Admits(op: Operation, w: World) {
    && op.isAward && CanonicalHash(op.txHash).Some?
    && (op.image.status == OT.Projected || (SnapshotValidates(op, w) && w.assetMatches))
  }

  /** What is admitted and not projected yet is the award that was claimed: its
      snapshot holds a record, and reads as a session of the row's own key, owner
      and fingerprint. */
  lemma AdmittedIsTheRow(op: Operation, w: World)
    requires Admits(op, w) && op.image.status != OT.Projected && RS.SoundCodec(w.codec)
    ensures op.isAward && w.assetMatches && HasCanonicalHash(op.txHash)
    ensures op.snapshot.Object? && op.snapshot.value.rawCDR.Object?
    ensures var read := RS.Deserialise(op.snapshot.value.session, w.codec);
            && read.Some? && read.value.providerId == op.image.session.provider
            && read.value.sessionId == op.image.session.session
            && (op.columns.uid.Some? ==> op.columns.uid.value == read.value.eMAID)
            && op.columns.fingerprint
               == Some(w.codec.hash(RS.IntentOf(read.value, op.columns.wallet, w.codec)))
  {
    ValidSnapshotIsThere(op, w);
    RS.ParsedExactly(op.snapshot.value, w.codec);
    hide RS.Deserialise, RS.Serialise, Normaliser.Strict, RS.IntentOf, HasCanonicalHash, RS.SoundCodec;
    RS.AcceptedBelongs(op.columns, RS.Parse(op.snapshot, w.codec).snapshot, true, w.now, w.parsers, w.codec);
  }

  /** The operation is the row of its key, hash column included. */
  predicate IsRow(op: Operation, t: OT.Tables, k: OT.Key) {
    k in t.rows && t.rows[k] == op.image && (op.image.hash.Some? <==> HasCanonicalHash(op.txHash))
  }

  /** What one fault-free recovery that demands fresh evidence leaves: nothing is
      touched when it is not admitted. */
  function AfterRecovery(op: Operation, w: World, s: AP.State, pid: nat, k: OT.Key): AP.State {
    if Admits(op, w) then AR.FreshlyRecovered(s, pid, k) else s
  }

  /** The recovery turns a row that was not projected into a projected one. */
  predicate NewlyProjects(op: Operation, w: World, s: AP.State, pid: nat, k: OT.Key) {
    && op.image.status != OT.Projected
    && var u := AfterRecovery(op, w, s, pid, k);
       k in u.db.rows && u.db.rows[k].status == OT.Projected
  }

  lemma ValidSnapshotIsThere(op: Operation, w: World)
    requires SnapshotValidates(op, w)
    ensures HasSnapshot(op)
  {
    hide RS.Deserialise, RS.Serialise, Normaliser.Strict;
  }

  /** What newly projects in any reachable state: the recovery is admitted and,
      on a row that has not failed, chain and ledger agree with the claim. */
  lemma ProjectsExactly(op: Operation, w: World, events: seq<AP.Event>, pid: nat, k: OT.Key)
    requires pid !in AP.Run(AP.INITIAL, events).procs && IsRow(op, AP.Run(AP.INITIAL, events).db, k)
    ensures var s := AP.Run(AP.INITIAL, events);
            NewlyProjects(op, w, s, pid, k)
            <==> && Admits(op, w) && op.image.status != OT.Projected && op.image.status != OT.Failed
                 && AR.ChainAgrees(s.mined, op.image.hash.value, op.image.amount)
                 && AR.LedgerAgrees(s.db, op.image.hash.value, op.image.amount)
  {
    hide AP.Run, HasCanonicalHash, SnapshotValidates, AR.FreshlyRecovered, AR.ChainAgrees;
    hide AR.LedgerAgrees, AR.Delivered;
    var s := AP.Run(AP.INITIAL, events);
    AS.Reachable(events);
    AR.SavedKey(s, k);
    if Admits(op, w) {
      AR.FreshRecoveryIsExact(events, pid, k);
    }
  }

  /** A listing that says no is wrong about a newly projected row exactly when
      the saved outcome is `review`; with any other outcome, whatever the
      status, hash and snapshot, a row listed as not eligible is never newly
      projected, in any reachable state. */
  lemma NotEligibleNeverProjects(op: Operation, w: World, events: seq<AP.Event>, pid: nat, k: OT.Key)
    requires pid !in AP.Run(AP.INITIAL, events).procs && IsRow(op, AP.Run(AP.INITIAL, events).db, k)
    requires NewlyProjects(op, w, AP.Run(AP.INITIAL, events), pid, k)
    ensures !RecoveryStatus(op).eligible <==> op.image.outcome == OT.Review
    ensures !RecoveryStatus(op).eligible ==> RecoveryStatus(op).reason == MOVEMENT_REVIEW_REQUIRED
  {
    hide AP.Run, NewlyProjects, IsRow, HasCanonicalHash, SnapshotValidates, HasSnapshot;
    hide AR.ChainAgrees, AR.LedgerAgrees;
    ProjectsExactly(op, w, events, pid, k);
    ValidSnapshotIsThere(op, w);
  }

  /** A process recovering a failed row, up to its end. */
  predicate OnFailedRow(r: OT.Row, k: OT.Key, p: AP.Process) {
    match p
    case Recovering(l, demandFresh) => l == k && demandFresh
    case RecoverVerifying(snap) => snap == r
    case MarkingUnknown(l) => l == k
    case Finished(_, result) => !result.Success?
    case _ => false
  }

  lemma FailedRowCall(f: AP.Effect, mined: map<OT.Hash, AP.Receipt>, k: OT.Key, ch: AP.Choice)
    requires k in f.db.rows && f.db.rows[k].status == OT.Failed && OT.KeyOf(f.db.rows[k].session) == k
    requires OnFailedRow(f.db.rows[k], k, f.next)
    ensures var g := AP.Advance(f.db, f.log, mined, f.next, ch);
            g.db == f.db && g.log == f.log && OnFailedRow(f.db.rows[k], k, g.next)
  {
    hide AP.Record, AP.Submit, AP.ObserveFor, OT.ClaimOutcome, OT.Claimed, OT.SavedHash;
  }

  /** Whatever its calls do, a recovery of a failed row touches nothing and never
      reports a success. */
  lemma {:induction false} FailedRowStays(f: AP.Effect, mined: map<OT.Hash, AP.Receipt>, k: OT.Key,
                                          calls: seq<AP.Choice>)
    requires k in f.db.rows && f.db.rows[k].status == OT.Failed && OT.KeyOf(f.db.rows[k].session) == k
    requires OnFailedRow(f.db.rows[k], k, f.next)
    ensures var g := AE.Play(f, mined, calls);
            g.db == f.db && g.log == f.log && OnFailedRow(f.db.rows[k], k, g.next)
    decreases |calls|
  {
    hide AP.Advance, OnFailedRow;
    if calls != [] {
      FailedRowCall(f, mined, k, calls[0]);
      FailedRowStays(AP.Advance(f.db, f.log, mined, f.next, calls[0]), mined, k, calls[1..]);
    }
  }

  /** What a recovery that demands fresh evidence leaves when its calls end as
      listed: nothing is touched when it is not admitted. */
  function AfterCalls(op: Operation, w: World, s: AP.State, k: OT.Key, calls: seq<AP.Choice>): AP.Effect {
    var start := AP.Effect(s.db, s.log, AP.Recovering(k, true));
    if Admits(op, w) then AE.Play(start, s.mined, calls) else start
  }

  /** What is admitted and not listed, but for the outcome `review`, has failed. */
  lemma UnlistedHasFailed(op: Operation, w: World)
    requires Admits(op, w) && !RecoveryStatus(op).eligible
    requires op.image.outcome != OT.Review && op.image.status != OT.Projected
    ensures op.image.status == OT.Failed
  {
    hide SnapshotValidates, HasCanonicalHash, HasSnapshot;
    ValidSnapshotIsThere(op, w);
  }

  /** The same with every fault: a row not yet projected, listed as not eligible
      and not saved as `review` is left exactly as it is, and no success is
      reported for it, whichever calls fail, lose their reply or read the chain
      wrongly. */
  lemma NotEligibleIsUntouched(op: Operation, w: World, events: seq<AP.Event>, k: OT.Key, calls: seq<AP.Choice>)
    requires IsRow(op, AP.Run(AP.INITIAL, events).db, k)
    requires !RecoveryStatus(op).eligible && op.image.outcome != OT.Review && op.image.status != OT.Projected
    ensures var s := AP.Run(AP.INITIAL, events);
            var f := AfterCalls(op, w, s, k, calls);
            && f.db == s.db && f.log == s.log && f.db.rows[k].status != OT.Projected
            && (f.next.Finished? ==> !f.next.result.Success?)
  {
    hide AP.Run, AS.Inv, AE.Play, Admits, RecoveryStatus, HasCanonicalHash, AP.Advance, OnFailedRow;
    var s := AP.Run(AP.INITIAL, events);
    AS.Reachable(events);
    AR.SavedKey(s, k);
    if Admits(op, w) {
      UnlistedHasFailed(op, w);
      FailedRecovery(s, k, calls);
    }
  }

  lemma FailedRecovery(s: AP.State, k: OT.Key, calls: seq<AP.Choice>)
    requires k in s.db.rows && s.db.rows[k].status == OT.Failed && OT.KeyOf(s.db.rows[k].session) == k
    ensures var f := AE.Play(AP.Effect(s.db, s.log, AP.Recovering(k, true)), s.mined, calls);
            f.db == s.db && f.log == s.log && (f.next.Finished? ==> !f.next.result.Success?)
  {
    hide AE.Play, AP.Advance;
    FailedRowStays(AP.Effect(s.db, s.log, AP.Recovering(k, true)), s.mined, k, calls);
  }

  /** Eligible is not a promise: an eligible award ends projected exactly when its
      snapshot validates, the asset still matches, and chain and ledger agree
      with the claim. */
  lemma EligibleProjectsOnEvidence(op: Operation, w: World, events: seq<AP.Event>, pid: nat, k: OT.Key)
    requires pid !in AP.Run(AP.INITIAL, events).procs && IsRow(op, AP.Run(AP.INITIAL, events).db, k)
    requires op.isAward && RecoveryStatus(op).eligible && op.image.status != OT.Projected
    ensures var s := AP.Run(AP.INITIAL, events);
            NewlyProjects(op, w, s, pid, k)
            <==> && SnapshotValidates(op, w) && w.assetMatches
                 && AR.ChainAgrees(s.mined, op.image.hash.value, op.image.amount)
                 && AR.LedgerAgrees(s.db, op.image.hash.value, op.image.amount)
  {
    hide AP.Run, NewlyProjects, HasCanonicalHash, SnapshotValidates, HasSnapshot, AR.ChainAgrees, AR.LedgerAgrees;
    ProjectsExactly(op, w, events, pid, k);
  }

  /** Where no claim of the key was taken over with another amount the ledger has
      no say: snapshot, asset and a successful transfer suffice. */
  lemma EligibleProjectsWhenMoved(op: Operation, w: World, events: seq<AP.Event>, pid: nat, k: OT.Key)
    requires AL.CarefulRun(AL.Watch(k, false), AP.INITIAL, events)
    requires pid !in AP.Run(AP.INITIAL, events).procs && IsRow(op, AP.Run(AP.INITIAL, events).db, k)
    requires op.isAward && RecoveryStatus(op).eligible && op.image.status != OT.Projected
    ensures var s := AP.Run(AP.INITIAL, events);
            NewlyProjects(op, w, s, pid, k)
            <==> SnapshotValidates(op, w) && w.assetMatches && AL.Moved(s.mined, op.image.hash.value)
  {
    var s := AP.Run(AP.INITIAL, events);
    AL.CarefulReachable(AL.Watch(k, false), events);
    hide AP.Run, AL.CarefulRun, NewlyProjects, HasCanonicalHash, SnapshotValidates, HasSnapshot, AR.LedgerAgrees;
    hide AL.LedgerOk, AS.Inv;
    EligibleProjectsOnEvidence(op, w, events, pid, k);
    AR.CarefulLedgerAgrees(s, k);
    if AL.Moved(s.mined, op.image.hash.value) {
      AR.MovedIsClaimed(s, k);
    }
  }

  /** A recovery of a row already projected changes nothing in the tables and the
      log, and reports the completed award exactly when the row is listed as
      eligible. */
  lemma ProjectedIsCompleteIffEligible(op: Operation, w: World, events: seq<AP.Event>, pid: nat, k: OT.Key)
    requires pid !in AP.Run(AP.INITIAL, events).procs && IsRow(op, AP.Run(AP.INITIAL, events).db, k)
    requires op.isAward && op.image.status == OT.Projected
    ensures var s := AP.Run(AP.INITIAL, events);
            var u := AfterRecovery(op, w, s, pid, k);
            && u.db == s.db && u.log == s.log
            && (pid in u.procs && u.procs[pid] == AP.Finished(k, AP.Success(op.image.amount, op.image.hash))
                <==> RecoveryStatus(op).eligible)
  {
    hide AP.Run, HasCanonicalHash, SnapshotValidates, AR.FreshlyRecovered, AR.ChainAgrees;
    hide AR.LedgerAgrees, AR.Delivered;
    var s := AP.Run(AP.INITIAL, events);
    AS.Reachable(events);
    AR.SavedKey(s, k);
    if Admits(op, w) {
      AR.FreshRecoveryIsExact(events, pid, k);
    }
  }
}

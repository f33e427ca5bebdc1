/** Every process that runs `processAwardFromCDR` or `recoverAwardOperation`,
    as a step system: one step per awaited call, any interleaving, any crash. */
module AwardProtocol {
  import opened Basics
  import opened OperationTables

  /** 200 tokens, in hundredths. */
  const CAP: nat := 20000

  /** A transfer handed to the network. */
  datatype Broadcast = Broadcast(key: Key, hash: Hash, amount: nat, wallet: string)

  /** What the chain did with a transfer. Mined transfers stay mined. */
  datatype Receipt = Receipt(ok: bool, key: Key, amount: nat, wallet: string)

  /** The intent a claiming process carries in memory. */
  datatype Intent = Intent(session: Session, amount: nat, wallet: string)

  datatype Result = Success(amount: nat, hash: Option<Hash>) | Pending | Rejected

  /** What a chain read answers. */
  datatype Answer = Truth | StillPending | NotFound | ReadError | OtherRejection

  datatype Evidence = Valid | Inconclusive | Missing | Reverted | Mismatched

  /** How one awaited call ends. `ReplyLost` takes effect and then fails. */
  datatype Choice =
    | Ok
    | Fails
    | ReplyLost
    | Unsendable
    | Priced(amount: nat, wallet: string)
    | Chain(answer: Answer)

  /** The program point of one process, named after the call it makes next. */
  datatype Process =
    | LookingUp(session: Session)
    | Pricing(session: Session)
    | Claiming(intent: Intent)
    | Holding(intent: Intent)
    | ProjectingZero(key: Key)
    | MarkingPreflight(key: Key)
    | Broadcasting(intent: Intent, hash: Hash)
    | SubmittingLease(intent: Intent, hash: Hash)
    | DoubtingLease(intent: Intent, hash: Hash, reconcile: bool)
    | SavingHash(intent: Intent, hash: Hash)
    | MarkingUnknown(key: Key)
    | Verifying(snap: Row)
    | Confirming(snap: Row)
    | Failing(snap: Row, outcome: Outcome)
    | Recording(snap: Row)
    | NotingProjectionError(snap: Row)
    | Projecting(snap: Row)
    | Recovering(key: Key, demandFresh: bool)
    | RecoverVerifying(snap: Row)
    | Finished(key: Key, result: Result)

  datatype State = State(db: Tables, log: seq<Broadcast>, mined: map<Hash, Receipt>, procs: map<nat, Process>)

  const INITIAL := State(Tables(map[], map[], [], map[], 0), [], map[], map[])

  /** `verifySpendEvidence` for the amount and wallet the caller expects. */
  function Observe(mined: map<Hash, Receipt>, a: Answer, h: Hash, amount: nat, wallet: string): Evidence {
    match a
    case Truth =>
      if h !in mined then Inconclusive
      else if !mined[h].ok then Reverted
      else if mined[h].amount == amount && mined[h].wallet == wallet then Valid
      else Mismatched
    case StillPending => Inconclusive
    case ReadError => Inconclusive
    case NotFound => Missing
    case OtherRejection => Mismatched
  }

  /** The row as `projectAwardOperation` receives it after a submission: built
      from the intent in memory, not read back. */
  function LocalRow(i: Intent, h: Hash, status: Status): Row {
    Row(i.session, i.wallet, i.amount, status, Some(h), UnknownOutcome, false)
  }

  /** The branches of `projectAwardOperation` up to its first awaited call.
      Chain evidence is asked for only in the states `submitted` and `unknown`,
      or when fresh evidence is demanded, and only with a verifier at hand. */
  function Project(snap: Row, demandFresh: bool, verifier: bool): Process {
    var k := KeyOf(snap.session);
    match snap.status
    case Failed => Finished(k, if snap.outcome == NoMovement then Rejected else Pending)
    case Projected => Finished(k, Success(snap.amount, snap.hash))
    case _ =>
      if snap.hash == None then
        if snap.amount == 0 then ProjectingZero(k) else Finished(k, Pending)
      else if (snap.status == Submitted || snap.status == Unknown || demandFresh) && verifier then Verifying(snap)
      else Recording(snap)
  }

  /** What a verdict leads to inside `projectAwardOperation`. */
  function AfterVerdict(snap: Row, e: Evidence): Process {
    match e
    case Valid => Confirming(snap)
    case Inconclusive => MarkingUnknown(KeyOf(snap.session))
    case Missing => MarkingUnknown(KeyOf(snap.session))
    case Reverted => Failing(snap, NoMovement)
    case Mismatched => Failing(snap, Review)
  }

  /** What a verdict leads to in fresh-evidence recovery, before projection. */
  function AfterRecoveryVerdict(snap: Row, e: Evidence): Process {
    var k := KeyOf(snap.session);
    match e
    case Valid => (if snap.status == Failed then Project(snap, true, true) else Confirming(snap))
    case Inconclusive => MarkingUnknown(k)
    case _ => Finished(k, Pending)
  }

  /** The saved row against the record presented again. */
  predicate RecordMatches(r: Row, s: Session) { SameIntent(r, s, r.amount, r.wallet) }

  datatype Effect = Effect(db: Tables, log: seq<Broadcast>, next: Process)

  /** A write that may fail, or take effect and lose its reply. */
  function Write(db: Tables, written: Tables, log: seq<Broadcast>, ch: Choice, onOk: Process,
                 onError: Process): Effect {
    match ch
    case Ok => Effect(written, log, onOk)
    case ReplyLost => Effect(written, log, onError)
    case _ => Effect(db, log, onError)
  }

  /** One awaited call of one process. */
  function Advance(db: Tables, log: seq<Broadcast>, mined: map<Hash, Receipt>, p: Process, ch: Choice): Effect {
    match p
    case LookingUp(s) =>
      var k := KeyOf(s);
      if ch != Ok then Effect(db, log, Finished(k, Rejected))
      else if k !in db.rows then Effect(db, log, Pricing(s))
      else
        var r := db.rows[k];
        if !RecordMatches(r, s) then Effect(db, log, Finished(k, Rejected))
        else if r.amount == 0 && r.hash == None then Effect(db, log, Project(r, false, false))
        else Effect(db, log, Claiming(Intent(s, r.amount, r.wallet)))
    case Pricing(s) =>
      (match ch
       case Priced(amount, wallet) =>
         if amount > CAP then Effect(db, log, Finished(KeyOf(s), Rejected))
         else Effect(db, log, Claiming(Intent(s, amount, wallet)))
       case _ => Effect(db, log, Finished(KeyOf(s), Rejected)))
    case Claiming(i) =>
      var k := KeyOf(i.session);
      (match ClaimOutcome(db, i.session, i.amount, i.wallet)
       case Refused => Effect(db, log, Finished(k, Rejected))
       case Acquired(r) =>
         Write(db, Claimed(db, i.session, i.amount, i.wallet), log, ch, Holding(i), Finished(k, Rejected))
       case Existing(r) =>
         Effect(db, log, if ch == Ok then Project(r, false, true) else Finished(k, Rejected)))
    case Holding(i) => Submit(db, log, i, ch)
    case ProjectingZero(k) =>
      Write(db, ProjectedRow(db, k), log, ch, Finished(k, Success(0, None)), Finished(k, Pending))
    case MarkingPreflight(k) =>
      Write(db, PreflightFailedRow(db, k), log, ch, Finished(k, Rejected), Finished(k, Rejected))
    case Broadcasting(i, h) =>
      var sent := log + [Broadcast(KeyOf(i.session), h, i.amount, i.wallet)];
      (match ch
       case Ok => Effect(db, sent, SubmittingLease(i, h))
       case ReplyLost => Effect(db, sent, DoubtingLease(i, h, true))
       case _ => Effect(db, log, DoubtingLease(i, h, true)))
    case SubmittingLease(i, h) =>
      Write(db, LeaseSubmittedTables(db, KeyOf(i.session), h), log, ch, SavingHash(i, h), DoubtingLease(i, h, true))
    case DoubtingLease(i, h, reconcile) =>
      var next := if reconcile then Verifying(LocalRow(i, h, Unknown)) else MarkingUnknown(KeyOf(i.session));
      Write(db, LeaseUnknownTables(db, KeyOf(i.session)), log, ch, next, next)
    case SavingHash(i, h) =>
      var k := KeyOf(i.session);
      (match SavedHash(db, k, h)
       case None => Effect(db, log, MarkingUnknown(k))
       case Some(saved) =>
         Write(db, saved, log, ch, Project(LocalRow(i, h, Submitted), false, true), MarkingUnknown(k)))
    case MarkingUnknown(k) =>
      Write(db, UnknownRow(db, k), log, ch, Finished(k, Pending), Finished(k, Pending))
    case Verifying(snap) =>
      (match ch
       case Chain(a) => Effect(db, log, AfterVerdict(snap, ObserveFor(mined, a, snap)))
       case _ => Effect(db, log, MarkingUnknown(KeyOf(snap.session))))
    case Confirming(snap) =>
      var k := KeyOf(snap.session);
      Write(db, ConfirmedRow(db, k), log, ch, Recording(snap), Finished(k, Pending))
    case Failing(snap, outcome) =>
      var k := KeyOf(snap.session);
      var verdict := if outcome == NoMovement then Rejected else Pending;
      Write(db, FailedRow(db, k, outcome), log, ch, Finished(k, verdict), Finished(k, Pending))
    case Recording(snap) => Record(db, log, snap, ch)
    case NotingProjectionError(snap) =>
      var k := KeyOf(snap.session);
      Write(db, ProjectionErrorRow(db, k), log, ch, Finished(k, Pending), Finished(k, Pending))
    case Projecting(snap) =>
      var k := KeyOf(snap.session);
      Write(db, ProjectedRow(db, k), log, ch, Finished(k, Success(snap.amount, snap.hash)), Finished(k, Pending))
    case Recovering(k, demandFresh) => Effect(db, log, Recover(db, k, demandFresh, ch))
    case RecoverVerifying(snap) =>
      (match ch
       case Chain(a) => Effect(db, log, AfterRecoveryVerdict(snap, ObserveFor(mined, a, snap)))
       case _ => Effect(db, log, MarkingUnknown(KeyOf(snap.session))))
    case Finished(_, _) => Effect(db, log, p)
  }

  function ObserveFor(mined: map<Hash, Receipt>, a: Answer, snap: Row): Evidence {
    if snap.hash == None then Inconclusive else Observe(mined, a, snap.hash.value, snap.amount, snap.wallet)
  }

  /** The holder of a claim prepares the transfer; the lease decides who may
      broadcast it. (The early return on a changed asset context, which leaves
      the claim as it is, is a crash at this point.) */
  function Submit(db: Tables, log: seq<Broadcast>, i: Intent, ch: Choice): Effect {
    var k := KeyOf(i.session);
    if i.amount == 0 then Effect(db, log, ProjectingZero(k))
    else if ch == Unsendable then Effect(db, log, MarkingUnknown(k))
    else
      var prepared := PreparedTables(db, k, i.amount, i.wallet);
      match PrepareOutcome(db, k, i.amount, i.wallet)
      case Unprepared => Effect(db, log, MarkingPreflight(k))
      case Fresh(h) => Write(db, prepared, log, ch, Broadcasting(i, h), MarkingPreflight(k))
      case Already(lease) =>
        if ch != Ok then Effect(db, log, MarkingPreflight(k))
        else if lease.status == Prepared then Effect(db, log, DoubtingLease(i, lease.hash, false))
        else Effect(db, log, SavingHash(i, lease.hash))
  }

  function Record(db: Tables, log: seq<Broadcast>, snap: Row, ch: Choice): Effect {
    if snap.hash == None then Effect(db, log, NotingProjectionError(snap))
    else
      match Recorded(db, AwardFor(snap.session, snap.amount, snap.hash.value, snap.wallet))
      case None => Effect(db, log, NotingProjectionError(snap))
      case Some(recorded) => Write(db, recorded, log, ch, Projecting(snap), NotingProjectionError(snap))
  }

  function Recover(db: Tables, k: Key, demandFresh: bool, ch: Choice): Process {
    if ch != Ok || k !in db.rows then Finished(k, Rejected)
    else
      var r := db.rows[k];
      if r.status == Projected then
        if r.hash.Some? then Finished(k, Success(r.amount, r.hash)) else Finished(k, Rejected)
      else if demandFresh then
        if r.hash == None then Finished(k, Rejected) else RecoverVerifying(r)
      else Project(r, false, true)
  }

  /** What may happen next, anywhere in the system. */
  datatype Event =
    | Replay(pid: nat, session: Session)
    | Recovery(pid: nat, key: Key, demandFresh: bool)
    | Act(pid: nat, choice: Choice)
    | Crash(pid: nat)
    | Mine(index: nat, ok: bool)

  function Step(s: State, e: Event): State {
    match e
    case Replay(pid, session) => if pid in s.procs then s else s.(procs := s.procs[pid := LookingUp(session)])
    case Recovery(pid, k, demandFresh) =>
      if pid in s.procs then s else s.(procs := s.procs[pid := Recovering(k, demandFresh)])
    case Act(pid, ch) =>
      if pid !in s.procs then s
      else
        var f := Advance(s.db, s.log, s.mined, s.procs[pid], ch);
        State(f.db, f.log, s.mined, s.procs[pid := f.next])
    case Crash(pid) => s.(procs := s.procs - {pid})
    case Mine(i, ok) =>
      if i >= |s.log| || s.log[i].hash in s.mined then s
      else
        var b := s.log[i];
        s.(mined := s.mined[b.hash := Receipt(ok, b.key, b.amount, b.wallet)])
  }

  function Run(s: State, events: seq<Event>): State
    decreases |events|
  {
    if events == [] then s else Step(Run(s, events[..|events| - 1]), events[|events| - 1])
  }

  lemma {:induction false} RunConcat(s: State, a: seq<Event>, b: seq<Event>)
    ensures Run(s, a + b) == Run(Run(s, a), b)
    decreases |b|
  {
    if b == [] {
      assert a + b == a;
    } else {
      var n := |b| - 1;
      assert (a + b)[..|a + b| - 1] == a + b[..n];
      RunConcat(s, a, b[..n]);
    }
  }
}

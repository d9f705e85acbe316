/** The worker protocol of apps/worker/src/verus-worker.ts as a state machine.
    Each worker runs `processNext` step by step; every step is one repository transaction, one node reply or one
    local decision. A schedule is a sequence of moves that interleaves the workers, the clock, crashes and the node. */
module AnchorProtocol {
  import opened Wrappers
  import opened AnchorTables
  import opened Outbox
  import opened VerusJobs

  datatype Config = Config(
    leaseMs: int,
    retry: RetryPolicy,
    guard: JobSpec -> Option<VerusError>)  // approved write targets and the canonical payload check

  ghost predicate ValidConfig(c: Config) {
    c.leaseMs > 0 && c.retry.Valid()
  }

  /** Where a busy worker stands inside `processNext`. */
  datatype Stage =
    | Load                                     // about to load the job
    | Dispatch                                 // about to act on the state of the loaded job
    | Guard                                    // leased preflight: local guards, then the node preflight
    | Search                                   // ambiguous submission: look for readback evidence
    | Update                                   // about to call updateIdentity
    | Await(accepted: bool)                    // updateIdentity is in flight; the node has accepted it or not
    | Record(tx: string)                       // about to commit a transaction id
    | Confirm                                  // about to begin confirmation
    | Inspect                                  // asking the node for confirmations
    | Reorganize                               // about to record a reorg
    | Confirmed(height: int, hash: string)     // about to begin readback
    | ReadBack                                 // asking the node for the identity content
    | Verify                                   // about to record the verified readback
    | Fail(error: VerusError)                  // handleFailure: about to move the job
    | CloseRetryable(reason: ErrorClass)        // about to fail the outbox attempt
    | CloseTerminal(reason: ErrorClass)         // about to fail the outbox event for good
    | CloseDead(reason: ErrorClass)             // about to dead-letter the job

  /** `job` is the worker's own copy; `calling` says that an updateIdentity call of this claim has no committed outcome. */
  datatype Local = Idle | Busy(event: EventId, attempt: nat, job: JobRow, calling: bool, stage: Stage)

  /** What the node or a local guard answers at the stages that wait for an answer. */
  datatype Reply =
    | Nothing
    | NodeError(error: VerusError)
    | PreflightPassed
    | EvidenceFound(tx: string)
    | EvidenceMissing
    | CallReceived(accepted: bool)
    | CallAnswered(tx: string)
    | StillConfirming
    | ReorgSeen
    | ConfirmedAt(height: int, hash: string)
    | ReadbackMatches
    | ReadbackMismatches

  /** Ghost account of the updateIdentity calls of one job.
      `calls` counts all of them and every call is in exactly one of the classes that follow. */
  datatype Tally = Tally(
    calls: nat,
    accepted: nat,            // calls the node may have acted on
    submitted: nat,           // outcome committed: transaction id recorded
    ambiguous: nat,           // outcome committed: ambiguous
    rejected: nat,            // outcome committed: retryable and not ambiguous
    terminal: nat,            // outcome committed: terminal
    lost: nat,                // outcome can never be committed: crash, or the claim was superseded
    open: bool,               // the current claim has a call without committed outcome
    openAccepted: bool,
    clears: nat)              // an unresolved ambiguity flag was overwritten by an unflagged retryable failure

  const NO_CALLS := Tally(0, 0, 0, 0, 0, 0, 0, false, false, 0)

  datatype Global = Global(
    config: Config,
    now: Millis,
    db: Db,
    workers: map<WorkerRef, Local>,
    tallies: map<EventId, Tally>)

  datatype Move =
    | Tick(to: Millis)
    | Enqueue(id: EventId, spec: JobSpec, keyHash: string)
    | Crash(worker: WorkerRef)
    | Take(worker: WorkerRef, pick: EventId)
    | Act(worker: WorkerRef, reply: Reply)

  const CLAIM_OPTIONS := ClaimOptions(Some({ANCHOR_EVENT_TYPE}), true)

  function At(g: Global, w: WorkerRef): Local {
    if w in g.workers then g.workers[w] else Idle
  }

  function TallyOf(g: Global, e: EventId): Tally {
    if e in g.tallies then g.tallies[e] else NO_CALLS
  }

  predicate HeldBy(row: EventRow, w: WorkerRef) {
    row.state == Claimed && row.lease.Some? && row.lease.value.owner == w
  }

  /** The claim this worker is working under is still the latest claim of its event. */
  predicate IsCurrent(g: Global, w: WorkerRef) {
    var me := At(g, w);
    && me.Busy?
    && me.event in g.db.events
    && HeldBy(g.db.events[me.event], w)
    && g.db.events[me.event].attemptCount == me.attempt
  }

  /** Workers change neither the configuration nor the clock, and create no event. */
  ghost predicate SameSetting(g: Global, h: Global) {
    h.config == g.config && h.now == g.now && h.db.events.Keys == g.db.events.Keys
  }

  /** The transaction creates and deletes no event. */
  predicate KeepsEvents(g: Global, outcome: Option<Db>) {
    outcome.Some? ==> outcome.value.events.Keys == g.db.events.Keys
  }

  function WithWorker(g: Global, w: WorkerRef, l: Local): Global {
    g.(workers := g.workers[w := l])
  }

  function WithTally(g: Global, e: EventId, t: Tally): Global {
    g.(tallies := g.tallies[e := t])
  }

  function Lose(t: Tally): Tally {
    if t.open then t.(lost := t.lost + 1, open := false) else t
  }

  /** The worker process stops, or `processNext` rethrows: local state is gone, tables are untouched. */
  function Abandon(g: Global, w: WorkerRef): (h: Global)
    ensures SameSetting(g, h)
  {
    var me := At(g, w);
    var h := WithWorker(g, w, Idle);
    if IsCurrent(g, w) && me.calling then WithTally(h, me.event, Lose(TallyOf(g, me.event))) else h
  }

  /** A transaction of worker `w`: `None` is a repository conflict, which `processNext` rethrows. */
  function Commit(g: Global, w: WorkerRef, outcome: Option<Db>, next: Stage): (h: Global)
    requires At(g, w).Busy?
    ensures KeepsEvents(g, outcome) ==> SameSetting(g, h)
  {
    var me := At(g, w);
    if outcome.None? || me.event !in outcome.value.jobs then Abandon(g, w)
    else WithWorker(g.(db := outcome.value), w, me.(job := outcome.value.jobs[me.event], stage := next))
  }

  function Finish(g: Global, w: WorkerRef, outcome: Option<Db>): (h: Global)
    ensures KeepsEvents(g, outcome) ==> SameSetting(g, h)
  {
    if outcome.None? then Abandon(g, w) else WithWorker(g.(db := outcome.value), w, Idle)
  }

  function Goto(g: Global, w: WorkerRef, next: Stage): Global
    requires At(g, w).Busy?
  {
    WithWorker(g, w, At(g, w).(stage := next))
  }

  function DoTake(g: Global, w: WorkerRef, e: EventId): Global {
    if At(g, w).Idle? && Claimable(g.db.events, e, g.now, CLAIM_OPTIONS) && e in g.db.jobs then
      var db := Claim(g.db, e, w, g.now, g.config.leaseMs);
      var me := Busy(e, db.events[e].attemptCount, db.jobs[e], false, Load);
      WithTally(WithWorker(g.(db := db), w, me), e, Lose(TallyOf(g, e)))
    else g
  }

  function DoLoad(g: Global, w: WorkerRef): (h: Global)
    requires At(g, w).Busy?
    ensures SameSetting(g, h)
  {
    var me := At(g, w);
    Commit(g, w, if MayWriteJob(g.db, me.event, w, g.now) then Some(g.db) else None, Dispatch)
  }

  const INVALID_STATE := VerusError(RpcInvalidResult, false, false)

  function Beat(g: Global, w: WorkerRef): Option<Db>
    requires At(g, w).Busy?
  {
    Heartbeat(g.db, At(g, w).event, w, g.now, g.config.leaseMs)
  }

  /** Heartbeats keep the worker's copy of the job: only the lease row moves. */
  function AfterBeat(g: Global, w: WorkerRef, next: Stage): (h: Global)
    requires At(g, w).Busy?
    ensures SameSetting(g, h)
  {
    var beat := Beat(g, w);
    if beat.None? then Abandon(g, w) else Goto(g.(db := beat.value), w, next)
  }

  function DoDispatch(g: Global, w: WorkerRef): (h: Global)
    requires At(g, w).Busy?
    ensures SameSetting(g, h)
  {
    var me := At(g, w);
    match me.job.state
    case JobPending => Commit(g, w, ClaimJob(g.db, me.event, w, g.now), Dispatch)
    case JobRetryableFailed => Commit(g, w, ClaimJob(g.db, me.event, w, g.now), Dispatch)
    case ReorgPending => Commit(g, w, ClaimJob(g.db, me.event, w, g.now), Dispatch)
    case JobClaimed => Commit(g, w, BeginPreflight(g.db, me.event, w, g.now), Dispatch)
    case Preflight => AfterBeat(g, w, Guard)
    case Submitted => AfterBeat(g, w, Confirm)
    case Confirming => AfterBeat(g, w, Inspect)
    case Readback => AfterBeat(g, w, ReadBack)
    case Verified => Finish(g, w, Succeed(g.db, me.event, w, g.now))
    case JobTerminalFailed => Goto(g, w, Fail(INVALID_STATE))
  }

  function DoGuard(g: Global, w: WorkerRef, reply: Reply): (h: Global)
    requires At(g, w).Busy?
    ensures SameSetting(g, h)
  {
    var me := At(g, w);
    var verdict := g.config.guard(me.job.spec);
    if verdict.Some? then Goto(g, w, Fail(verdict.value))
    else
      match reply
      case NodeError(error) => Goto(g, w, Fail(error))
      case PreflightPassed =>
        if me.job.transactionId.Some? then Goto(g, w, Record(me.job.transactionId.value))
        else if me.job.ambiguous then Goto(g, w, Search)
        else Goto(g, w, Update)
      case _ => g
  }

  const BLOCKED := VerusError(AmbiguousSubmission, true, true)

  function DoSearch(g: Global, w: WorkerRef, reply: Reply): (h: Global)
    requires At(g, w).Busy?
    ensures SameSetting(g, h)
  {
    match reply
    case NodeError(error) => Goto(g, w, Fail(error))
    case EvidenceFound(tx) => Goto(g, w, Record(tx))
    case EvidenceMissing => Goto(g, w, Fail(BLOCKED))
    case _ => g
  }

  /** The update is refused before anything is sent, or updateIdentity reaches the node. A call made under a superseded
      claim is lost at once. */
  function DoUpdate(g: Global, w: WorkerRef, reply: Reply): (h: Global)
    requires At(g, w).Busy?
    ensures SameSetting(g, h)
  {
    var me := At(g, w);
    match reply
    case NodeError(error) => Goto(g, w, Fail(error))
    case CallReceived(accepted) =>
      var t := TallyOf(g, me.event);
      var counted := t.(calls := t.calls + 1, accepted := t.accepted + (if accepted then 1 else 0));
      var h := WithWorker(g, w, me.(calling := true, stage := Await(accepted)));
      if IsCurrent(g, w) then WithTally(h, me.event, counted.(open := true, openAccepted := accepted))
      else WithTally(h, me.event, counted.(lost := t.lost + 1))
    case _ => g
  }

  /** A transaction id is returned, or a plain retryable rejection, only by a node that acted, or did not act. */
  function DoAwait(g: Global, w: WorkerRef, reply: Reply): (h: Global)
    requires At(g, w).Busy? && At(g, w).stage.Await?
    ensures SameSetting(g, h)
  {
    var accepted := At(g, w).stage.accepted;
    match reply
    case CallAnswered(tx) => if accepted then Goto(g, w, Record(tx)) else g
    case NodeError(error) =>
      if error.retryable && !error.ambiguous && accepted then g else Goto(g, w, Fail(error))
    case _ => g
  }

  function SettleSubmitted(t: Tally): Tally {
    if t.open then t.(submitted := t.submitted + 1, open := false) else t
  }

  function DoRecord(g: Global, w: WorkerRef): (h: Global)
    requires At(g, w).Busy? && At(g, w).stage.Record?
    ensures SameSetting(g, h)
  {
    var me := At(g, w);
    var outcome := RecordSubmission(g.db, me.event, w, g.now, me.stage.tx);
    if outcome.None? then Abandon(g, w)
    else
      var h := Commit(WithWorker(g, w, me.(calling := false)), w, outcome, Dispatch);
      WithTally(h, me.event, SettleSubmitted(TallyOf(g, me.event)))
  }

  function DoInspect(g: Global, w: WorkerRef, reply: Reply): (h: Global)
    requires At(g, w).Busy?
    ensures SameSetting(g, h)
  {
    if At(g, w).job.transactionId.None? then Goto(g, w, Fail(INVALID_STATE))
    else
      match reply
      case NodeError(error) => Goto(g, w, Fail(error))
      case StillConfirming => Goto(g, w, Fail(VerusError(ConfirmationPending, true, false)))
      case ReorgSeen => Goto(g, w, Reorganize)
      case ConfirmedAt(height, hash) => Goto(g, w, Confirmed(height, hash))
      case _ => g
  }

  function DoReadBack(g: Global, w: WorkerRef, reply: Reply): (h: Global)
    requires At(g, w).Busy?
    ensures SameSetting(g, h)
  {
    match reply
    case NodeError(error) => Goto(g, w, Fail(error))
    case ReadbackMatches => Goto(g, w, Verify)
    case ReadbackMismatches => Goto(g, w, Fail(VerusError(ReadbackMismatch, false, false)))
    case _ => g
  }

  /** The retryable failure overwrites the flag of a submission whose outcome is still unknown. */
  predicate ClearsAmbiguity(job: JobRow, error: VerusError) {
    job.ambiguous && job.transactionId.None? && !error.ambiguous
  }

  function SettleRetryable(t: Tally, job: JobRow, error: VerusError): Tally {
    var cleared := t.(clears := t.clears + if ClearsAmbiguity(job, error) then 1 else 0);
    if !t.open then cleared
    else if error.ambiguous then cleared.(ambiguous := t.ambiguous + 1, open := false)
    else cleared.(rejected := t.rejected + 1, open := false)
  }

  function SettleTerminal(t: Tally): Tally {
    if t.open then t.(terminal := t.terminal + 1, open := false) else t
  }

  function DoFail(g: Global, w: WorkerRef): (h: Global)
    requires At(g, w).Busy? && At(g, w).stage.Fail?
    ensures SameSetting(g, h)
  {
    var me := At(g, w);
    var error := me.stage.error;
    var t := TallyOf(g, me.event);
    if error.retryable then
      if me.job.state in WORKING_STATES then
        var outcome := RetryableFailure(g.db, me.event, w, g.now, error);
        if outcome.None? then Abandon(g, w)
        else
          var h := Commit(WithWorker(g, w, me.(calling := false)), w, outcome, CloseRetryable(RpcClass(error.code)));
          WithTally(h, me.event, SettleRetryable(t, me.job, error))
      else Goto(g, w, CloseRetryable(RpcClass(error.code)))
    else if me.job.state in WORKING_STATES + {JobRetryableFailed} then
      var outcome := TerminalFailure(g.db, me.event, w, g.now, error);
      if outcome.None? then Abandon(g, w)
      else
        var h := Commit(WithWorker(g, w, me.(calling := false)), w, outcome, CloseTerminal(RpcClass(error.code)));
        WithTally(h, me.event, SettleTerminal(t))
    else Goto(g, w, CloseTerminal(RpcClass(error.code)))
  }

  function DoCloseRetryable(g: Global, w: WorkerRef): (h: Global)
    requires At(g, w).Busy? && At(g, w).stage.CloseRetryable?
    ensures SameSetting(g, h)
  {
    var me := At(g, w);
    var outcome := FailRetryable(g.db, me.event, w, g.now, me.stage.reason, g.config.retry);
    if outcome.None? then Abandon(g, w)
    else if outcome.value.events[me.event].state == DeadLetter then
      Goto(g.(db := outcome.value), w, CloseDead(me.stage.reason))
    else Finish(g, w, outcome)
  }

  function DoAct(g: Global, w: WorkerRef, reply: Reply): (h: Global)
    ensures SameSetting(g, h)
  {
    var me := At(g, w);
    if me.Idle? then g
    else
      match me.stage
      case Load => DoLoad(g, w)
      case Dispatch => DoDispatch(g, w)
      case Guard => DoGuard(g, w, reply)
      case Search => DoSearch(g, w, reply)
      case Update => DoUpdate(g, w, reply)
      case Await(_) => DoAwait(g, w, reply)
      case Record(_) => DoRecord(g, w)
      case Confirm => Commit(g, w, BeginConfirmation(g.db, me.event, w, g.now), Dispatch)
      case Inspect => DoInspect(g, w, reply)
      case Reorganize => Commit(g, w, Reorg(g.db, me.event, w, g.now), CloseRetryable(ReorgDetected))
      case Confirmed(height, hash) => Commit(g, w, BeginReadback(g.db, me.event, w, g.now, height, hash), Dispatch)
      case ReadBack => DoReadBack(g, w, reply)
      case Verify => Commit(g, w, VerifyReadback(g.db, me.event, w, g.now, me.job.spec.manifestDigest), Dispatch)
      case Fail(_) => DoFail(g, w)
      case CloseRetryable(_) => DoCloseRetryable(g, w)
      case CloseTerminal(reason) => Finish(g, w, FailTerminal(g.db, me.event, w, g.now, reason))
      case CloseDead(reason) => Finish(g, w, MarkDeadLetter(g.db, me.event, w, reason))
  }

  function DoEnqueue(g: Global, id: EventId, spec: JobSpec, keyHash: string): Global {
    var outcome := EnqueueAnchor(g.db, id, spec, keyHash, g.now);
    if outcome.None? then g else g.(db := outcome.value)
  }

  /** One move. A move that is not possible in this state changes nothing. */
  function Next(g: Global, m: Move): Global {
    match m
    case Tick(to) => g.(now := if to > g.now then to else g.now)
    case Enqueue(id, spec, keyHash) => DoEnqueue(g, id, spec, keyHash)
    case Crash(w) => Abandon(g, w)
    case Take(w, pick) => DoTake(g, w, pick)
    case Act(w, reply) => DoAct(g, w, reply)
  }

  function Run(g: Global, moves: seq<Move>): Global
    decreases |moves|
  {
    if moves == [] then g else Next(Run(g, moves[..|moves| - 1]), moves[|moves| - 1])
  }

  lemma {:induction false} RunAppend(g: Global, first: seq<Move>, second: seq<Move>)
    ensures Run(g, first + second) == Run(Run(g, first), second)
    decreases |second|
  {
    if second == [] {
      assert first + second == first;
    } else {
      var init := second[..|second| - 1];
      assert (first + second)[..|first + second| - 1] == first + init;
      RunAppend(g, first, init);
    }
  }

  const EMPTY_DB := Db(map[], map[], map[], map[])

  /** The system before any work exists. */
  function Start(config: Config, now: Millis): Global {
    Global(config, now, EMPTY_DB, map[], map[])
  }
}

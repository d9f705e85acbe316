/** What one call of the worker program amounts to in the state machine. */
module AnchorSteps {
  import opened Wrappers
  import opened AnchorTables
  import opened Outbox
  import opened VerusJobs
  import opened AnchorProtocol

  // ---------------------------------------------------------------- other workers stay where they are

  ghost predicate OnlyMoves(g: Global, h: Global, w: WorkerRef) {
    forall v | v != w :: At(h, v) == At(g, v)
  }

  lemma CommitMoves(g: Global, w: WorkerRef, outcome: Option<Db>, next: Stage)
    requires At(g, w).Busy?
    ensures OnlyMoves(g, Commit(g, w, outcome, next), w)
  {
  }

  lemma DispatchMoves(g: Global, w: WorkerRef)
    requires At(g, w).Busy?
    ensures OnlyMoves(g, DoDispatch(g, w), w)
  {
    var me := At(g, w);
    match me.job.state
    case JobPending => CommitMoves(g, w, ClaimJob(g.db, me.event, w, g.now), Dispatch);
    case JobRetryableFailed => CommitMoves(g, w, ClaimJob(g.db, me.event, w, g.now), Dispatch);
    case ReorgPending => CommitMoves(g, w, ClaimJob(g.db, me.event, w, g.now), Dispatch);
    case JobClaimed => CommitMoves(g, w, BeginPreflight(g.db, me.event, w, g.now), Dispatch);
    case _ =>
  }

  lemma AnswerMoves(g: Global, w: WorkerRef, reply: Reply)
    requires At(g, w).Busy?
    requires var s := At(g, w).stage; s.Guard? || s.Search? || s.Update? || s.Await? || s.Inspect? || s.ReadBack?
    ensures OnlyMoves(g, DoAct(g, w, reply), w)
  {
  }

  lemma RecordMoves(g: Global, w: WorkerRef)
    requires At(g, w).Busy? && At(g, w).stage.Record?
    ensures OnlyMoves(g, DoRecord(g, w), w)
  {
  }

  lemma FailMoves(g: Global, w: WorkerRef)
    requires At(g, w).Busy? && At(g, w).stage.Fail?
    ensures OnlyMoves(g, DoFail(g, w), w)
  {
  }

  lemma PlainMoves(g: Global, w: WorkerRef, reply: Reply)
    requires At(g, w).Busy?
    requires var s := At(g, w).stage; s.Load? || s.Confirm? || s.Reorganize? || s.Confirmed? || s.Verify?
    ensures OnlyMoves(g, DoAct(g, w, reply), w)
  {
    var me := At(g, w);
    match me.stage
    case Load => CommitMoves(g, w, if MayWriteJob(g.db, me.event, w, g.now) then Some(g.db) else None, Dispatch);
    case Confirm => CommitMoves(g, w, BeginConfirmation(g.db, me.event, w, g.now), Dispatch);
    case Reorganize => CommitMoves(g, w, Reorg(g.db, me.event, w, g.now), CloseRetryable(ReorgDetected));
    case Confirmed(height, hash) => CommitMoves(g, w, BeginReadback(g.db, me.event, w, g.now, height, hash), Dispatch);
    case Verify =>
      CommitMoves(g, w, VerifyReadback(g.db, me.event, w, g.now, me.job.spec.manifestDigest), Dispatch);
  }

  lemma FinishMoves(g: Global, w: WorkerRef, outcome: Option<Db>)
    ensures OnlyMoves(g, Finish(g, w, outcome), w)
  {
  }

  lemma CloseMoves(g: Global, w: WorkerRef, reply: Reply)
    requires At(g, w).Busy?
    requires var s := At(g, w).stage; s.CloseRetryable? || s.CloseTerminal? || s.CloseDead?
    ensures OnlyMoves(g, DoAct(g, w, reply), w)
  {
    var me := At(g, w);
    match me.stage
    case CloseRetryable(reason) => FinishMoves(g, w, FailRetryable(g.db, me.event, w, g.now, reason, g.config.retry));
    case CloseTerminal(reason) => FinishMoves(g, w, FailTerminal(g.db, me.event, w, g.now, reason));
    case CloseDead(reason) => FinishMoves(g, w, MarkDeadLetter(g.db, me.event, w, reason));
  }

  lemma ActMoves(g: Global, w: WorkerRef, reply: Reply)
    ensures OnlyMoves(g, DoAct(g, w, reply), w)
  {
    if At(g, w).Busy? {
      match At(g, w).stage
      case Dispatch => DispatchMoves(g, w);
      case Record(_) => RecordMoves(g, w);
      case Fail(_) => FailMoves(g, w);
      case Guard => AnswerMoves(g, w, reply);
      case Search => AnswerMoves(g, w, reply);
      case Update => AnswerMoves(g, w, reply);
      case Await(_) => AnswerMoves(g, w, reply);
      case Inspect => AnswerMoves(g, w, reply);
      case ReadBack => AnswerMoves(g, w, reply);
      case CloseRetryable(_) => CloseMoves(g, w, reply);
      case CloseTerminal(_) => CloseMoves(g, w, reply);
      case CloseDead(_) => CloseMoves(g, w, reply);
      case _ => PlainMoves(g, w, reply);
    }
  }

  predicate MovesWorker(m: Move, w: WorkerRef) {
    match m
    case Crash(v) => v == w
    case Take(v, _) => v == w
    case Act(v, _) => v == w
    case _ => false
  }

  lemma OthersMove(g: Global, m: Move, w: WorkerRef)
    requires !MovesWorker(m, w)
    ensures At(Next(g, m), w) == At(g, w)
  {
    match m
    case Act(v, reply) => ActMoves(g, v, reply);
    case _ =>
  }

  // ---------------------------------------------------------------- commands on the job

  /** A job transition and the point of `processNext` that follows it. */
  datatype Command = Command(expected: set<JobState>, next: JobState, evidence: Evidence, syncAnchor: bool, after: Stage)

  const CLAIM_JOB := Command(CLAIMABLE_STATES, JobClaimed, NO_EVIDENCE, false, Dispatch)
  const BEGIN_PREFLIGHT := Command({JobClaimed}, Preflight, NO_EVIDENCE, false, Dispatch)
  const BEGIN_CONFIRMATION := Command({Submitted}, Confirming, NO_EVIDENCE, true, Dispatch)
  const REORGANIZE :=
    Command({Confirming, Readback}, ReorgPending, NO_EVIDENCE.(errorClass := Some(ReorgDetected)), true,
            CloseRetryable(ReorgDetected))

  function RecordSubmissionOf(tx: string): Command {
    Command({Preflight}, Submitted, NO_EVIDENCE.(transactionId := Some(tx), ambiguous := Some(false)), true, Dispatch)
  }

  function BeginReadbackAt(height: int, hash: string): Command {
    Command({Confirming}, Readback, NO_EVIDENCE.(blockHeight := Some(height), blockHash := Some(hash)), true, Dispatch)
  }

  function VerifyReadbackOf(digest: string): Command {
    Command({Readback}, Verified, NO_EVIDENCE.(readbackDigest := Some(digest)), true, Dispatch)
  }

  function RetryableFailureOf(error: VerusError): Command {
    Command(WORKING_STATES, JobRetryableFailed,
            NO_EVIDENCE.(errorClass := Some(RpcClass(error.code)), ambiguous := Some(error.ambiguous)), true,
            CloseRetryable(RpcClass(error.code)))
  }

  function TerminalFailureOf(error: VerusError): Command {
    Command(WORKING_STATES + {JobRetryableFailed}, JobTerminalFailed,
            NO_EVIDENCE.(errorClass := Some(RpcClass(error.code)), ambiguous := Some(false)), true,
            CloseTerminal(RpcClass(error.code)))
  }

  /** The command that the program issues at stage `s` with its copy `job`. */
  predicate Issues(s: Stage, job: JobRow, c: Command) {
    match s
    case Dispatch => || (job.state in CLAIMABLE_STATES && c == CLAIM_JOB)
                     || (job.state == JobClaimed && c == BEGIN_PREFLIGHT)
    case Record(tx) => c == RecordSubmissionOf(tx)
    case Confirm => c == BEGIN_CONFIRMATION
    case Reorganize => c == REORGANIZE
    case Confirmed(height, hash) => c == BeginReadbackAt(height, hash)
    case Verify => c == VerifyReadbackOf(job.spec.manifestDigest)
    case Fail(error) =>
      || (error.retryable && job.state in WORKING_STATES && c == RetryableFailureOf(error))
      || (!error.retryable && job.state in WORKING_STATES + {JobRetryableFailed} && c == TerminalFailureOf(error))
    case _ => false
  }

  predicate Stands(g: Global, w: WorkerRef, e: EventId, job: JobRow, s: Stage) {
    At(g, w).Busy? && At(g, w).event == e && At(g, w).job == job && At(g, w).stage == s
  }

  /** The step commits `outcome` and goes on, or drops the worker. */
  predicate Carries(g: Global, h: Global, w: WorkerRef, e: EventId, outcome: Option<Db>, after: Stage) {
    if outcome.None? then h.db == g.db && At(h, w).Idle?
    else h.db == outcome.value && e in h.db.jobs && Stands(h, w, e, h.db.jobs[e], after)
  }

  function Effected(g: Global, w: WorkerRef, e: EventId, c: Command): Option<Db> {
    Transition(g.db, e, w, g.now, c.expected, c.next, c.evidence, c.syncAnchor)
  }

  lemma PlainCommand(g: Global, w: WorkerRef, e: EventId, job: JobRow, s: Stage, c: Command)
    requires Stands(g, w, e, job, s) && Issues(s, job, c) && !s.Record? && !s.Fail?
    ensures DoAct(g, w, Nothing) == Commit(g, w, Effected(g, w, e, c), c.after)
  {
  }

  lemma Committed(g: Global, w: WorkerRef, e: EventId, c: Command)
    requires At(g, w).Busy? && At(g, w).event == e
    ensures Carries(g, Commit(g, w, Effected(g, w, e, c), c.after), w, e, Effected(g, w, e, c), c.after)
  {
  }

  lemma RecordCommand(g: Global, w: WorkerRef, e: EventId, job: JobRow, tx: string)
    requires Stands(g, w, e, job, Record(tx))
    ensures Carries(g, DoAct(g, w, Nothing), w, e, Effected(g, w, e, RecordSubmissionOf(tx)), Dispatch)
  {
  }

  lemma FailCommand(g: Global, w: WorkerRef, e: EventId, job: JobRow, error: VerusError, c: Command)
    requires Stands(g, w, e, job, Fail(error)) && Issues(Fail(error), job, c)
    ensures Carries(g, DoFail(g, w), w, e, Effected(g, w, e, c), c.after)
  {
  }

  lemma CommandStep(g: Global, w: WorkerRef, e: EventId, job: JobRow, s: Stage, c: Command)
    requires Stands(g, w, e, job, s) && Issues(s, job, c)
    ensures Carries(g, Next(g, Act(w, Nothing)), w, e, Effected(g, w, e, c), c.after)
  {
    match s
    case Record(tx) => RecordCommand(g, w, e, job, tx);
    case Fail(error) => FailCommand(g, w, e, job, error, c);
    case _ =>
      PlainCommand(g, w, e, job, s, c);
      Committed(g, w, e, c);
  }

  // ---------------------------------------------------------------- leases, answers and closings

  /** The stage that a heartbeat leads to. */
  function AfterHeartbeat(state: JobState): Stage
    requires state in WORKING_STATES
  {
    match state
    case Preflight => Guard
    case Submitted => Confirm
    case Confirming => Inspect
    case Readback => ReadBack
  }

  lemma BeatStep(g: Global, w: WorkerRef, e: EventId, job: JobRow)
    requires Stands(g, w, e, job, Dispatch) && job.state in WORKING_STATES
    ensures var h, beat := Next(g, Act(w, Nothing)), Heartbeat(g.db, e, w, g.now, g.config.leaseMs);
            if beat.None? then h.db == g.db && At(h, w).Idle?
            else h.db == beat.value && Stands(h, w, e, job, AfterHeartbeat(job.state))
  {
  }

  lemma LoadStep(g: Global, w: WorkerRef, e: EventId, job: JobRow)
    requires Stands(g, w, e, job, Load)
    ensures var h := Next(g, Act(w, Nothing));
            && h.db == g.db
            && (if MayWriteJob(g.db, e, w, g.now) && e in g.db.jobs then Stands(h, w, e, g.db.jobs[e], Dispatch)
                else At(h, w).Idle?)
  {
  }

  predicate Asks(s: Stage) {
    s.Guard? || s.Search? || s.Update? || s.Await? || s.Inspect? || s.ReadBack?
  }

  /** Where an answer leads; `None` if it is no answer to the question of this stage. */
  function Answered(guard: JobSpec -> Option<VerusError>, job: JobRow, s: Stage, reply: Reply): Option<Stage> {
    match s
    case Guard =>
      if guard(job.spec).Some? then Some(Fail(guard(job.spec).value))
      else if reply.NodeError? then Some(Fail(reply.error))
      else if reply.PreflightPassed? then
        Some(if job.transactionId.Some? then Record(job.transactionId.value) else if job.ambiguous then Search else Update)
      else None
    case Search =>
      if reply.NodeError? then Some(Fail(reply.error))
      else if reply.EvidenceFound? then Some(Record(reply.tx))
      else if reply.EvidenceMissing? then Some(Fail(BLOCKED))
      else None
    case Update =>
      if reply.NodeError? then Some(Fail(reply.error))
      else if reply.CallReceived? then Some(Await(reply.accepted))
      else None
    case Await(accepted) =>
      if reply.CallAnswered? && accepted then Some(Record(reply.tx))
      else if reply.NodeError? && !(reply.error.retryable && !reply.error.ambiguous && accepted)
        then Some(Fail(reply.error))
      else None
    case Inspect =>
      if job.transactionId.None? then Some(Fail(INVALID_STATE))
      else if reply.NodeError? then Some(Fail(reply.error))
      else if reply.StillConfirming? then Some(Fail(VerusError(ConfirmationPending, true, false)))
      else if reply.ReorgSeen? then Some(Reorganize)
      else if reply.ConfirmedAt? then Some(Confirmed(reply.height, reply.hash))
      else None
    case ReadBack =>
      if reply.NodeError? then Some(Fail(reply.error))
      else if reply.ReadbackMatches? then Some(Verify)
      else if reply.ReadbackMismatches? then Some(Fail(VerusError(ReadbackMismatch, false, false)))
      else None
    case _ => None
  }

  lemma AnswerStep(g: Global, w: WorkerRef, e: EventId, job: JobRow, s: Stage, reply: Reply)
    requires Stands(g, w, e, job, s) && Asks(s) && Answered(g.config.guard, job, s, reply).Some?
    ensures var h := Next(g, Act(w, reply));
            h.db == g.db && Stands(h, w, e, job, Answered(g.config.guard, job, s, reply).value)
  {
  }

  /** A job that is neither verified nor in progress stops the program with an internal error. */
  lemma InvalidStateStep(g: Global, w: WorkerRef, e: EventId, job: JobRow)
    requires Stands(g, w, e, job, Dispatch) && job.state == JobTerminalFailed
    ensures var h := Next(g, Act(w, Nothing)); h.db == g.db && Stands(h, w, e, job, Fail(INVALID_STATE))
  {
  }

  /** `handleFailure` skips the job when its state is not one it can fail from. */
  lemma SkipJobStep(g: Global, w: WorkerRef, e: EventId, job: JobRow, error: VerusError)
    requires Stands(g, w, e, job, Fail(error))
    requires job.state !in (if error.retryable then WORKING_STATES else WORKING_STATES + {JobRetryableFailed})
    ensures var h, reason := Next(g, Act(w, Nothing)), RpcClass(error.code);
            h.db == g.db && Stands(h, w, e, job, if error.retryable then CloseRetryable(reason) else CloseTerminal(reason))
  {
  }

  lemma SucceedStep(g: Global, w: WorkerRef, e: EventId, job: JobRow)
    requires Stands(g, w, e, job, Dispatch) && job.state == Verified
    ensures var h, outcome := Next(g, Act(w, Nothing)), Succeed(g.db, e, w, g.now);
            At(h, w).Idle? && h.db == (if outcome.Some? then outcome.value else g.db)
  {
  }

  lemma FailTerminalStep(g: Global, w: WorkerRef, e: EventId, job: JobRow, reason: ErrorClass)
    requires Stands(g, w, e, job, CloseTerminal(reason))
    ensures var h, outcome := Next(g, Act(w, Nothing)), FailTerminal(g.db, e, w, g.now, reason);
            At(h, w).Idle? && h.db == (if outcome.Some? then outcome.value else g.db)
  {
  }

  lemma MarkDeadStep(g: Global, w: WorkerRef, e: EventId, job: JobRow, reason: ErrorClass)
    requires Stands(g, w, e, job, CloseDead(reason))
    ensures var h, outcome := Next(g, Act(w, Nothing)), MarkDeadLetter(g.db, e, w, reason);
            At(h, w).Idle? && h.db == (if outcome.Some? then outcome.value else g.db)
  {
  }

  lemma FailRetryableStep(g: Global, w: WorkerRef, e: EventId, job: JobRow, reason: ErrorClass)
    requires Stands(g, w, e, job, CloseRetryable(reason))
    ensures var h, outcome := Next(g, Act(w, Nothing)), FailRetryable(g.db, e, w, g.now, reason, g.config.retry);
            && h.db == (if outcome.Some? then outcome.value else g.db)
            && (if outcome.Some? && e in outcome.value.events && outcome.value.events[e].state == DeadLetter
                then Stands(h, w, e, job, CloseDead(reason)) else At(h, w).Idle?)
  {
  }
}

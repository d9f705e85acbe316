/** packages/db/src/verus-job-repository.ts: the persisted job and its anchor row.
    Every command is one serializable transaction; `None` is a RepositoryConflictError, which rolls back. */
module VerusJobs {
  import opened Wrappers
  import opened AnchorTables
  import opened Outbox

  datatype Evidence = Evidence(
    transactionId: Option<string>,
    blockHeight: Option<int>,
    blockHash: Option<string>,
    readbackDigest: Option<string>,
    ambiguous: Option<bool>,
    errorClass: Option<ErrorClass>)

  const NO_EVIDENCE := Evidence(None, None, None, None, None, None)
  const MAX_SAFE_INTEGER := 0x1F_FFFF_FFFF_FFFF

  predicate IsHex64(s: string) {
    |s| == 64 && forall i | 0 <= i < |s| :: '0' <= s[i] <= '9' || 'a' <= s[i] <= 'f'
  }

  predicate ValidEvidence(ev: Evidence) {
    && (ev.transactionId.Some? ==> IsHex64(ev.transactionId.value))
    && (ev.blockHash.Some? ==> IsHex64(ev.blockHash.value))
    && (ev.readbackDigest.Some? ==> IsHex64(ev.readbackDigest.value))
    && (ev.blockHeight.Some? ==> 0 <= ev.blockHeight.value <= MAX_SAFE_INTEGER)
  }

  function Height(ev: Evidence): Option<nat>
    requires ValidEvidence(ev)
  {
    if ev.blockHeight.Some? then Some(ev.blockHeight.value) else None
  }

  function UpdateJob(job: JobRow, next: JobState, ev: Evidence): JobRow
    requires ValidEvidence(ev)
  {
    job.(state := next,
         transactionId := Coalesce(ev.transactionId, job.transactionId),
         blockHeight := Coalesce(Height(ev), job.blockHeight),
         blockHash := Coalesce(ev.blockHash, job.blockHash),
         readbackDigest := Coalesce(ev.readbackDigest, job.readbackDigest),
         ambiguous := if ev.ambiguous.Some? then ev.ambiguous.value else job.ambiguous,
         lastErrorClass := ev.errorClass,
         version := job.version + 1)
  }

  function UpdateAnchor(anchor: AnchorRow, next: JobState, ev: Evidence): AnchorRow
    requires ValidEvidence(ev)
  {
    if next in {JobClaimed, Preflight} then anchor
    else
      AnchorRow(next,
                Coalesce(ev.transactionId, anchor.transactionId),
                Coalesce(Height(ev), anchor.blockHeight),
                Coalesce(ev.blockHash, anchor.blockHash),
                Coalesce(ev.readbackDigest, anchor.readbackDigest),
                anchor.version + 1)
  }

  /** `requireLease`: the worker holds the live lease of an anchor event. */
  predicate MayWriteJob(db: Db, e: EventId, worker: WorkerRef, now: Millis) {
    OwnsLease(db, e, worker, now) && db.events[e].eventType == ANCHOR_EVENT_TYPE
  }

  function Transition(db: Db, e: EventId, worker: WorkerRef, now: Millis, expected: set<JobState>, next: JobState,
                      ev: Evidence, syncAnchor: bool): (r: Option<Db>)
    ensures r.Some? ==> r.value.events == db.events && r.value.attempts == db.attempts
  {
    if && ValidEvidence(ev)
       && MayWriteJob(db, e, worker, now)
       && e in db.jobs && db.jobs[e].state in expected
       && (syncAnchor ==> e in db.anchors)
    then
      var moved := db.(jobs := db.jobs[e := UpdateJob(db.jobs[e], next, ev)]);
      Some(if syncAnchor then moved.(anchors := moved.anchors[e := UpdateAnchor(db.anchors[e], next, ev)]) else moved)
    else None
  }

  const CLAIMABLE_STATES := {JobPending, JobRetryableFailed, ReorgPending}
  const WORKING_STATES := {Preflight, Submitted, Confirming, Readback}

  function ClaimJob(db: Db, e: EventId, w: WorkerRef, now: Millis): Option<Db> {
    Transition(db, e, w, now, CLAIMABLE_STATES, JobClaimed, NO_EVIDENCE, false)
  }

  function BeginPreflight(db: Db, e: EventId, w: WorkerRef, now: Millis): Option<Db> {
    Transition(db, e, w, now, {JobClaimed}, Preflight, NO_EVIDENCE, false)
  }

  function RecordSubmission(db: Db, e: EventId, w: WorkerRef, now: Millis, tx: string): Option<Db> {
    Transition(db, e, w, now, {Preflight}, Submitted,
               NO_EVIDENCE.(transactionId := Some(tx), ambiguous := Some(false)), true)
  }

  function BeginConfirmation(db: Db, e: EventId, w: WorkerRef, now: Millis): Option<Db> {
    Transition(db, e, w, now, {Submitted}, Confirming, NO_EVIDENCE, true)
  }

  function BeginReadback(db: Db, e: EventId, w: WorkerRef, now: Millis, height: int, hash: string): Option<Db> {
    Transition(db, e, w, now, {Confirming}, Readback,
               NO_EVIDENCE.(blockHeight := Some(height), blockHash := Some(hash)), true)
  }

  function VerifyReadback(db: Db, e: EventId, w: WorkerRef, now: Millis, digest: string): Option<Db> {
    Transition(db, e, w, now, {Readback}, Verified, NO_EVIDENCE.(readbackDigest := Some(digest)), true)
  }

  function RetryableFailure(db: Db, e: EventId, w: WorkerRef, now: Millis, error: VerusError): Option<Db> {
    Transition(db, e, w, now, WORKING_STATES, JobRetryableFailed,
               NO_EVIDENCE.(errorClass := Some(RpcClass(error.code)), ambiguous := Some(error.ambiguous)), true)
  }

  function TerminalFailure(db: Db, e: EventId, w: WorkerRef, now: Millis, error: VerusError): Option<Db> {
    Transition(db, e, w, now, WORKING_STATES + {JobRetryableFailed}, JobTerminalFailed,
               NO_EVIDENCE.(errorClass := Some(RpcClass(error.code)), ambiguous := Some(false)), true)
  }

  function Reorg(db: Db, e: EventId, w: WorkerRef, now: Millis): Option<Db> {
    Transition(db, e, w, now, {Confirming, Readback}, ReorgPending,
               NO_EVIDENCE.(errorClass := Some(ReorgDetected)), true)
  }

  /** The dead letter belongs to the worker whose attempt exhausted the budget. */
  predicate OwnsDeadLetter(db: Db, e: EventId, worker: WorkerRef) {
    && e in db.events && e in db.attempts
    && db.events[e].eventType == ANCHOR_EVENT_TYPE
    && db.events[e].state == DeadLetter
    && exists i | 0 <= i < |db.attempts[e]| ::
         db.attempts[e][i].attempt == db.events[e].attemptCount && db.attempts[e][i].worker == worker
  }

  function MarkDeadLetter(db: Db, e: EventId, worker: WorkerRef, error: ErrorClass): Option<Db> {
    if && OwnsDeadLetter(db, e, worker)
       && e in db.jobs && e in db.anchors
       && db.jobs[e].state in {JobRetryableFailed, ReorgPending}
    then
      var job := db.jobs[e].(state := JobTerminalFailed, lastErrorClass := Some(error), ambiguous := false,
                             version := db.jobs[e].version + 1);
      Some(db.(jobs := db.jobs[e := job],
               anchors := db.anchors[e := UpdateAnchor(db.anchors[e], JobTerminalFailed, NO_EVIDENCE)]))
    else None
  }

  function NewEvent(spec: JobSpec, keyHash: string, now: Millis): EventRow {
    EventRow(ANCHOR_EVENT_TYPE, ANCHOR_AGGREGATE_TYPE, spec.targetIdentity, keyHash, now, Pending, None, 0, now,
             None, None)
  }

  function NewJob(spec: JobSpec): JobRow {
    JobRow(spec, JobPending, None, None, None, None, false, None, 1)
  }

  const NEW_ANCHOR := AnchorRow(JobPending, None, None, None, None, 1)

  /** Replaying an idempotency key changes nothing; reusing it for other work is a conflict. */
  function EnqueueAnchor(db: Db, id: EventId, spec: JobSpec, keyHash: string, now: Millis): Option<Db> {
    if exists x | x in db.events :: db.events[x].keyHash == keyHash then
      if exists x | x in db.events :: && db.events[x].keyHash == keyHash && x in db.jobs
                                      && db.jobs[x].spec.manifestDigest == spec.manifestDigest
                                      && db.jobs[x].spec.targetIdentity == spec.targetIdentity
                                      && db.jobs[x].spec.vdxfKey == spec.vdxfKey
      then Some(db) else None
    else if id in db.events then None
    else
      Some(Db(db.events[id := NewEvent(spec, keyHash, now)], db.attempts[id := []],
              db.jobs[id := NewJob(spec)], db.anchors[id := NEW_ANCHOR]))
  }

  // ------------------------------------------------- what the schema's guards allow

  /** packages/domain/src/verus-job.ts: one named command leads from `a` to `b`. */
  predicate DomainAllows(a: JobState, b: JobState) {
    || (a in CLAIMABLE_STATES && b == JobClaimed)
    || (a == JobClaimed && b == Preflight)
    || (a == Preflight && b == Submitted)
    || (a == Submitted && b == Confirming)
    || (a == Confirming && b == Readback)
    || (a == Readback && b == Verified)
    || (a in WORKING_STATES && b == JobRetryableFailed)
    || (a in WORKING_STATES + {JobRetryableFailed} && b == JobTerminalFailed)
    || (a in {Confirming, Readback} && b == ReorgPending)
  }

  /** The trigger cbc_guard_verus_job_transition. */
  predicate TriggerAllowsJob(a: JobState, b: JobState) {
    || (a in CLAIMABLE_STATES && b == JobClaimed)
    || (a == JobClaimed && b == Preflight)
    || (a == Preflight && b in {Submitted, JobRetryableFailed, JobTerminalFailed})
    || (a == Submitted && b in {Confirming, JobRetryableFailed, JobTerminalFailed})
    || (a == Confirming && b in {Readback, JobRetryableFailed, JobTerminalFailed, ReorgPending})
    || (a == Readback && b in {Verified, JobRetryableFailed, JobTerminalFailed, ReorgPending})
    || (a in {JobRetryableFailed, ReorgPending} && b == JobTerminalFailed)
  }

  /** The trigger cbc_guard_anchor_transition. */
  predicate TriggerAllowsAnchor(a: JobState, b: JobState) {
    || (a in CLAIMABLE_STATES && b in {Submitted, JobRetryableFailed, JobTerminalFailed})
    || (a == Submitted && b in {Confirming, JobRetryableFailed, JobTerminalFailed})
    || (a == Confirming && b in {Readback, JobRetryableFailed, JobTerminalFailed, ReorgPending})
    || (a == Readback && b in {Verified, JobRetryableFailed, JobTerminalFailed, ReorgPending})
    || (a == JobRetryableFailed && b == JobTerminalFailed)
  }

  /** The trigger cbc_guard_outbox_transition. */
  predicate TriggerAllowsEvent(a: OutboxState, b: OutboxState) {
    || a == b
    || (a in {Pending, RetryableFailed} && b == Claimed)
    || (a == Claimed && b in {Succeeded, RetryableFailed, TerminalFailed, DeadLetter})
  }
}

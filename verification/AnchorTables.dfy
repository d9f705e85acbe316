/** The rows of the four tables that the durable anchor protocol reads and writes.
    A serializable transaction is one function from `Db` to `Db`. */
module AnchorTables {
  import opened Wrappers

  type EventId = nat
  type WorkerRef = nat
  type Millis = int

  datatype ErrorCode =
    | RpcUnavailable | RpcTimeout | RpcHttpError | RpcProtocolError | RpcMethodError | RpcInvalidResult
    | AmbiguousSubmission | WrongNetwork | NodeUnsynced | NodeVersionUnsupported | IdentityStateInvalid
    | VdxfIdMismatch | PolicyGateDisabled | PayloadForbidden | PayloadOversize | ConfirmationPending
    | ReadbackMismatch | ReorgDetectedError

  /** A VerusIntegrationError: its code and the two flags that decide what happens next. */
  datatype VerusError = VerusError(code: ErrorCode, retryable: bool, ambiguous: bool)

  /** Values of the error_class columns. */
  datatype ErrorClass = RpcClass(code: ErrorCode) | LeaseExpired | ReorgDetected

  datatype OutboxState = Pending | Claimed | RetryableFailed | Succeeded | TerminalFailed | DeadLetter

  datatype Lease = Lease(owner: WorkerRef, acquiredAt: Millis, expiresAt: Millis)

  datatype EventRow = EventRow(
    eventType: string,
    aggregateType: string,
    aggregateReference: string,
    keyHash: string,
    createdAt: Millis,
    state: OutboxState,
    lease: Option<Lease>,
    attemptCount: nat,
    availableAt: Millis,
    lastErrorClass: Option<ErrorClass>,
    completedAt: Option<Millis>)

  datatype AttemptRow = AttemptRow(
    attempt: nat,
    worker: WorkerRef,
    succeeded: bool,
    errorClass: Option<ErrorClass>,
    startedAt: Millis,
    finishedAt: Millis)

  datatype JobState =
    | JobPending | JobClaimed | Preflight | Submitted | Confirming | Readback | Verified
    | JobRetryableFailed | JobTerminalFailed | ReorgPending

  /** The immutable part of a job: what is to be anchored, where, and under which policy. */
  datatype JobSpec = JobSpec(
    operationType: string,
    subjectReference: string,
    targetIdentity: string,
    vdxfUri: string,
    vdxfKey: string,
    manifestDigest: string,
    manifestPolicyReference: string,
    confirmationRequirement: nat)

  datatype JobRow = JobRow(
    spec: JobSpec,
    state: JobState,
    transactionId: Option<string>,
    blockHeight: Option<nat>,
    blockHash: Option<string>,
    readbackDigest: Option<string>,
    ambiguous: bool,
    lastErrorClass: Option<ErrorClass>,
    version: nat)

  datatype AnchorRow = AnchorRow(
    state: JobState,
    transactionId: Option<string>,
    blockHeight: Option<nat>,
    blockHash: Option<string>,
    readbackDigest: Option<string>,
    version: nat)

  datatype Db = Db(
    events: map<EventId, EventRow>,
    attempts: map<EventId, seq<AttemptRow>>,
    jobs: map<EventId, JobRow>,
    anchors: map<EventId, AnchorRow>)

  const ANCHOR_EVENT_TYPE := "verus.anchor.requested"
  const ANCHOR_AGGREGATE_TYPE := "verus_identity"

  /** Every event has its ledger, its job and its anchor row. */
  ghost predicate Aligned(db: Db) {
    db.events.Keys == db.attempts.Keys == db.jobs.Keys == db.anchors.Keys
  }

  /** The physical tables; every repository object works on one of these. */
  class Database {
    var events: map<EventId, EventRow>
    var attempts: map<EventId, seq<AttemptRow>>
    var jobs: map<EventId, JobRow>
    var anchors: map<EventId, AnchorRow>

    constructor (db: Db)
      ensures Contents() == db
    {
      events, attempts, jobs, anchors := db.events, db.attempts, db.jobs, db.anchors;
    }

    function Contents(): Db
      reads this
    {
      Db(events, attempts, jobs, anchors)
    }
  }
}

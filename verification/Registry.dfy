/** packages/db/src/verification-repository.ts and attestation-repository.ts: one committee's registry of verification
    requests and attestations. Every command is one serializable transaction; a failed one leaves no trace. */
module Registry {
  import opened Wrappers

  type Ref = string
  type Millis = int

  datatype State =
    | Requested | Scheduled | CheckedIn | UnderReview | Approved | Rejected | NeedsMoreInformation | Withdrawn
    | IssuancePending | Issued | Active | Expired | Revoked | Superseded
    | Appealed | AppealUpheld | AppealDenied | AppealRemanded

  /** The named commands on a request, as in packages/domain/src/verification.ts. */
  datatype Verb =
    | ScheduleRequest | CheckInParticipant | BeginReview | ApproveVerification | RejectVerification
    | RequestMoreInformation | WithdrawVerification | RescheduleAfterMoreInformation | RejectAfterMoreInformation
    | WithdrawAfterMoreInformation | RequestIssuance | RecordIssuance | OpenAppeal | UpholdAppeal | DenyAppeal
    | RemandAppeal

  function Source(verb: Verb): State {
    match verb
    case ScheduleRequest => Requested
    case CheckInParticipant => Scheduled
    case BeginReview => CheckedIn
    case ApproveVerification => UnderReview
    case RejectVerification => UnderReview
    case RequestMoreInformation => UnderReview
    case WithdrawVerification => UnderReview
    case RescheduleAfterMoreInformation => NeedsMoreInformation
    case RejectAfterMoreInformation => NeedsMoreInformation
    case WithdrawAfterMoreInformation => NeedsMoreInformation
    case RequestIssuance => Approved
    case RecordIssuance => IssuancePending
    case OpenAppeal => Rejected
    case UpholdAppeal => Appealed
    case DenyAppeal => Appealed
    case RemandAppeal => Appealed
  }

  function Target(verb: Verb): State {
    match verb
    case ScheduleRequest => Scheduled
    case CheckInParticipant => CheckedIn
    case BeginReview => UnderReview
    case ApproveVerification => Approved
    case RejectVerification => Rejected
    case RequestMoreInformation => NeedsMoreInformation
    case WithdrawVerification => Withdrawn
    case RescheduleAfterMoreInformation => Scheduled
    case RejectAfterMoreInformation => Rejected
    case WithdrawAfterMoreInformation => Withdrawn
    case RequestIssuance => IssuancePending
    case RecordIssuance => Issued
    case OpenAppeal => Appealed
    case UpholdAppeal => AppealUpheld
    case DenyAppeal => AppealDenied
    case RemandAppeal => AppealRemanded
  }

  datatype RequestRow = RequestRow(participant: Ref, state: State, version: nat)

  datatype AttestationRow = AttestationRow(
    participant: Ref,
    request: Ref,
    version: nat,
    state: State,
    validFrom: Millis,
    expiresAt: Millis,
    issuanceComplete: bool,
    supersedes: Option<Ref>)

  datatype StatusRow = StatusRow(state: State, effectiveAt: Millis, version: nat)

  datatype Kind = CreateKind | TransitionKind(verb: Verb) | IssueKind | ActivateKind | ExpireKind | RevokeKind | SupersedeKind

  datatype AuditTarget = OnRequest | OnAttestation

  datatype AuditEvent = AuditEvent(kind: Kind, target: AuditTarget, reference: Ref, prior: Option<State>, next: State)

  datatype DomainEvent = DomainEvent(kind: Kind, reference: Ref, version: nat, state: State)

  /** A completed idempotency record: what was asked, and the result that every replay repeats. */
  datatype Record = Record(digest: string, kind: Kind, reference: Ref, version: nat, state: State)

  datatype Tables = Tables(
    participants: set<Ref>,
    requests: map<Ref, RequestRow>,
    attestations: map<Ref, AttestationRow>,
    statuses: map<Ref, StatusRow>,
    revocations: map<Ref, Millis>,
    records: map<string, Record>,
    audit: seq<AuditEvent>,
    outbox: seq<DomainEvent>,
    latest: Millis)      // the latest time at which a command was observed; no query reads it

  datatype Command =
    | CreateRequest(reference: Ref, participant: Ref)
    | Transition(reference: Ref, verb: Verb, expectedVersion: nat)
    | Issue(reference: Ref, request: Ref, validFrom: Millis, expiresAt: Millis, supersedesReference: Option<Ref>)
    | Activate(reference: Ref, expectedVersion: nat, observedAt: Millis)
    | Expire(reference: Ref, expectedVersion: nat, observedAt: Millis)
    | Revoke(reference: Ref, expectedVersion: nat, observedAt: Millis)

  datatype Context = Context(key: string, digest: string)

  datatype Error = IdempotencyConflict | TenantBoundary | RepositoryConflict | InvalidTransition | InvalidValidity

  datatype Result = Done(reference: Ref, state: State, version: nat, replayed: bool) | Failed(error: Error)

  /** A command's effect before its idempotency record is completed. */
  datatype Effect = Changed(db: Tables, state: State, version: nat) | Refused(error: Error)

  function KindOf(c: Command): Kind {
    match c
    case CreateRequest(_, _) => CreateKind
    case Transition(_, verb, _) => TransitionKind(verb)
    case Issue(_, _, _, _, _) => IssueKind
    case Activate(_, _, _) => ActivateKind
    case Expire(_, _, _) => ExpireKind
    case Revoke(_, _, _) => RevokeKind
  }

  function Log(db: Tables, event: AuditEvent, version: nat): Tables {
    db.(audit := db.audit + [event],
        outbox := db.outbox + [DomainEvent(event.kind, event.reference, version, event.next)])
  }

  // ---------------------------------------------------------------- requests

  function Create(db: Tables, reference: Ref, participant: Ref): Effect {
    if participant !in db.participants || reference in db.requests then Refused(RepositoryConflict)
    else
      var created := db.(requests := db.requests[reference := RequestRow(participant, Requested, 1)]);
      Changed(Log(created, AuditEvent(CreateKind, OnRequest, reference, None, Requested), 1), Requested, 1)
  }

  function TransitionRequest(db: Tables, reference: Ref, verb: Verb, expectedVersion: nat): Effect {
    if reference !in db.requests then Refused(TenantBoundary)
    else
      var row := db.requests[reference];
      if row.version != expectedVersion then Refused(RepositoryConflict)
      else if row.state != Source(verb) then Refused(InvalidTransition)
      else
        var next := Target(verb);
        var moved := db.(requests := db.requests[reference := row.(state := next, version := row.version + 1)]);
        Changed(Log(moved, AuditEvent(TransitionKind(verb), OnRequest, reference, Some(row.state), next), row.version + 1),
                next, row.version + 1)
  }

  // ---------------------------------------------------------------- attestations

  const MAX_VALIDITY_MS := 45 * 24 * 60 * 60 * 1_000

  predicate ValidWindow(validFrom: Millis, expiresAt: Millis) {
    validFrom < expiresAt <= validFrom + MAX_VALIDITY_MS
  }

  /** The unique indexes on (participant, version) and on the superseded attestation. */
  predicate IndexesAllow(db: Tables, participant: Ref, version: nat, supersedes: Option<Ref>) {
    forall x | x in db.attestations ::
      && !(db.attestations[x].participant == participant && db.attestations[x].version == version)
      && !(supersedes.Some? && db.attestations[x].supersedes == supersedes)
  }

  function IssueAttestation(db: Tables, reference: Ref, request: Ref, validFrom: Millis, expiresAt: Millis,
                            supersedes: Option<Ref>): Effect {
    if request !in db.requests then Refused(TenantBoundary)
    else
      var q := db.requests[request];
      if q.state != Issued then Refused(RepositoryConflict)
      else if supersedes.Some? && !( && supersedes.value in db.attestations
                                     && db.attestations[supersedes.value].participant == q.participant
                                     && db.attestations[supersedes.value].state == Active)
      then Refused(RepositoryConflict)
      else
        var version := if supersedes.Some? then db.attestations[supersedes.value].version + 1 else 1;
        if !ValidWindow(validFrom, expiresAt) then Refused(InvalidValidity)
        else if reference in db.attestations || !IndexesAllow(db, q.participant, version, supersedes)
        then Refused(RepositoryConflict)
        else
          var row := AttestationRow(q.participant, request, version, Issued, validFrom, expiresAt, false, supersedes);
          var issued := db.(attestations := db.attestations[reference := row],
                            statuses := db.statuses[reference := StatusRow(Issued, validFrom, 1)]);
          Changed(Log(issued, AuditEvent(IssueKind, OnAttestation, reference, None, Issued), version), Issued, 1)
  }

  /** `loadRow`: the attestation joined with its status and its request. */
  predicate Joined(db: Tables, a: Ref) {
    a in db.attestations && a in db.statuses && db.attestations[a].request in db.requests
  }

  function RequestOf(db: Tables, a: Ref): RequestRow
    requires Joined(db, a)
  {
    db.requests[db.attestations[a].request]
  }

  /** `updateAttestationAndRequest`. */
  function Move(db: Tables, a: Ref, next: State, at: Millis, complete: bool): Tables
    requires Joined(db, a)
  {
    var row, status, q := db.attestations[a], db.statuses[a], RequestOf(db, a);
    db.(attestations := db.attestations[a := row.(state := next, issuanceComplete := complete || row.issuanceComplete)],
        statuses := db.statuses[a := StatusRow(next, at, status.version + 1)],
        requests := db.requests[row.request := q.(state := next, version := q.version + 1)],
        latest := if at > db.latest then at else db.latest)
  }

  function Activation(db: Tables, a: Ref, expectedVersion: nat, at: Millis): Effect {
    if !Joined(db, a) then Refused(TenantBoundary)
    else
      var row := db.attestations[a];
      if db.statuses[a].version != expectedVersion then Refused(RepositoryConflict)
      else if at < row.validFrom || at >= row.expiresAt then Refused(RepositoryConflict)
      else if RequestOf(db, a).state != Issued then Refused(InvalidTransition)
      else
        var moved := Move(db, a, Active, at, true);
        var event := AuditEvent(ActivateKind, OnAttestation, a, Some(row.state), Active);
        if row.supersedes.None? then Changed(Log(moved, event, row.version), Active, db.statuses[a].version + 1)
        else
          var p := row.supersedes.value;
          if !Joined(moved, p) then Refused(TenantBoundary)
          else if RequestOf(moved, p).state != Active then Refused(InvalidTransition)
          else
            var prior := moved.attestations[p];
            var both := Move(moved, p, Superseded, at, false);
            var logged := Log(both, AuditEvent(SupersedeKind, OnAttestation, p, Some(prior.state), Superseded), prior.version);
            Changed(Log(logged, event, row.version), Active, db.statuses[a].version + 1)
  }

  function Expiry(db: Tables, a: Ref, expectedVersion: nat, at: Millis): Effect {
    if !Joined(db, a) then Refused(TenantBoundary)
    else
      var row := db.attestations[a];
      if db.statuses[a].version != expectedVersion || at < row.expiresAt then Refused(RepositoryConflict)
      else if RequestOf(db, a).state != Active then Refused(InvalidTransition)
      else
        var moved := Move(db, a, Expired, at, false);
        Changed(Log(moved, AuditEvent(ExpireKind, OnAttestation, a, Some(row.state), Expired), row.version),
                Expired, db.statuses[a].version + 1)
  }

  function Revocation(db: Tables, a: Ref, expectedVersion: nat, at: Millis): Effect {
    if !Joined(db, a) then Refused(TenantBoundary)
    else
      var row := db.attestations[a];
      if db.statuses[a].version != expectedVersion then Refused(RepositoryConflict)
      else if row.state != Active then Refused(InvalidTransition)
      else if a in db.revocations then Refused(RepositoryConflict)
      else
        var moved := Move(db.(revocations := db.revocations[a := at]), a, Revoked, at, false);
        Changed(Log(moved, AuditEvent(RevokeKind, OnAttestation, a, Some(row.state), Revoked), row.version),
                Revoked, db.statuses[a].version + 1)
  }

  // ---------------------------------------------------------------- commands

  function Apply(db: Tables, c: Command): Effect {
    match c
    case CreateRequest(reference, participant) => Create(db, reference, participant)
    case Transition(reference, verb, version) => TransitionRequest(db, reference, verb, version)
    case Issue(reference, request, from, until, supersedes) =>
      IssueAttestation(db, reference, request, from, until, supersedes)
    case Activate(reference, version, at) => Activation(db, reference, version, at)
    case Expire(reference, version, at) => Expiry(db, reference, version, at)
    case Revoke(reference, version, at) => Revocation(db, reference, version, at)
  }

  /** The row that a replay loads before it overwrites state and version. */
  predicate Loads(db: Tables, c: Command) {
    if c.CreateRequest? || c.Transition? then c.reference in db.requests else Joined(db, c.reference)
  }

  function Replay(db: Tables, c: Command, context: Context): Result
    requires context.key in db.records
  {
    var record := db.records[context.key];
    if record.digest != context.digest || record.kind != KindOf(c) then Failed(IdempotencyConflict)
    else if !Loads(db, c) then Failed(TenantBoundary)
    else if record.reference != c.reference then Failed(IdempotencyConflict)
    else Done(record.reference, record.state, record.version, true)
  }

  function Execute(db: Tables, c: Command, context: Context): (Tables, Result) {
    if context.key in db.records then (db, Replay(db, c, context))
    else
      match Apply(db, c)
      case Refused(error) => (db, Failed(error))
      case Changed(after, state, version) =>
        var record := Record(context.digest, KindOf(c), c.reference, version, state);
        (after.(records := db.records[context.key := record]), Done(c.reference, state, version, false))
  }

  datatype Call = Call(command: Command, context: Context)

  function Run(db: Tables, calls: seq<Call>): Tables
    decreases |calls|
  {
    if calls == [] then db
    else
      var last := calls[|calls| - 1];
      Execute(Run(db, calls[..|calls| - 1]), last.command, last.context).0
  }

  /** The registry before any request exists. */
  function Empty(participants: set<Ref>, now: Millis): Tables {
    Tables(participants, map[], map[], map[], map[], map[], [], [], now)
  }
}

/** The registry's two repositories as classes over the shared tables. Each public method is one transaction: it reads and
    writes rows statement by statement, and rolls back when it fails. */
module RegistryRepositories {
  import opened Wrappers
  import opened Registry

  class Pool {
    var participants: set<Ref>
    var requests: map<Ref, RequestRow>
    var attestations: map<Ref, AttestationRow>
    var statuses: map<Ref, StatusRow>
    var revocations: map<Ref, Millis>
    var records: map<string, Record>
    var audit: seq<AuditEvent>
    var outbox: seq<DomainEvent>
    var latest: Millis

    constructor (db: Tables)
      ensures Contents() == db
    {
      participants, requests, attestations, statuses := db.participants, db.requests, db.attestations, db.statuses;
      revocations, records, audit, outbox, latest := db.revocations, db.records, db.audit, db.outbox, db.latest;
    }

    function Contents(): Tables
      reads this
    {
      Tables(participants, requests, attestations, statuses, revocations, records, audit, outbox, latest)
    }

    method Rollback(before: Tables)
      modifies this
      ensures Contents() == before
    {
      participants, requests, attestations := before.participants, before.requests, before.attestations;
      statuses, revocations, records := before.statuses, before.revocations, before.records;
      audit, outbox, latest := before.audit, before.outbox, before.latest;
    }

    /** `appendAudit` and the domain event that goes with it. */
    method AppendEvent(event: AuditEvent, version: nat)
      modifies this`audit, this`outbox
      ensures Contents() == Log(old(Contents()), event, version)
    {
      audit := audit + [event];
      outbox := outbox + [DomainEvent(event.kind, event.reference, version, event.next)];
    }

    /** The record of a completed command; its started form is visible to nobody else. */
    method CompleteIdempotency(context: Context, kind: Kind, reference: Ref, version: nat, state: State)
      modifies this`records
      ensures Contents() == old(Contents()).(records := old(records)[context.key :=
                Record(context.digest, kind, reference, version, state)])
    {
      records := records[context.key := Record(context.digest, kind, reference, version, state)];
    }

    /** `beginIdempotency` and `replayRecord`: `None` when the command is new. */
    method BeginIdempotency(c: Command, context: Context) returns (replay: Option<Result>)
      ensures replay.None? <==> context.key !in records
      ensures replay.Some? ==> replay.value == Replay(Contents(), c, context)
    {
      if context.key !in records {
        return None;
      }
      var record := records[context.key];
      if record.digest != context.digest || record.kind != KindOf(c) {
        return Some(Failed(IdempotencyConflict));
      }
      var loaded := if c.CreateRequest? || c.Transition? then c.reference in requests
                    else c.reference in attestations && c.reference in statuses && attestations[c.reference].request in requests;
      if !loaded {
        return Some(Failed(TenantBoundary));
      }
      if record.reference != c.reference {
        return Some(Failed(IdempotencyConflict));
      }
      return Some(Done(record.reference, record.state, record.version, true));
    }
  }

  class VerificationRepository {
    const pool: Pool

    constructor (pool: Pool)
      ensures this.pool == pool
    {
      this.pool := pool;
    }

    method CreateRequest(reference: Ref, participant: Ref, context: Context) returns (r: Result)
      modifies pool
      ensures (pool.Contents(), r) == Execute(old(pool.Contents()), Command.CreateRequest(reference, participant), context)
    {
      var replay := pool.BeginIdempotency(Command.CreateRequest(reference, participant), context);
      if replay.Some? {
        return replay.value;
      }
      if participant !in pool.participants || reference in pool.requests {
        return Failed(RepositoryConflict);
      }
      pool.requests := pool.requests[reference := RequestRow(participant, Requested, 1)];
      pool.AppendEvent(AuditEvent(CreateKind, OnRequest, reference, None, Requested), 1);
      pool.CompleteIdempotency(context, CreateKind, reference, 1, Requested);
      return Done(reference, Requested, 1, false);
    }

    method TransitionRequest(reference: Ref, verb: Verb, expectedVersion: nat, context: Context) returns (r: Result)
      modifies pool
      ensures (pool.Contents(), r)
           == Execute(old(pool.Contents()), Transition(reference, verb, expectedVersion), context)
    {
      var replay := pool.BeginIdempotency(Transition(reference, verb, expectedVersion), context);
      if replay.Some? {
        return replay.value;
      }
      if reference !in pool.requests {
        return Failed(TenantBoundary);
      }
      var current := pool.requests[reference];
      if current.version != expectedVersion {
        return Failed(RepositoryConflict);
      }
      if current.state != Source(verb) {
        return Failed(InvalidTransition);
      }
      var next, version := Target(verb), current.version + 1;
      pool.requests := pool.requests[reference := current.(state := next, version := version)];
      pool.AppendEvent(AuditEvent(TransitionKind(verb), OnRequest, reference, Some(current.state), next), version);
      pool.CompleteIdempotency(context, TransitionKind(verb), reference, version, next);
      return Done(reference, next, version, false);
    }
  }

  class AttestationRepository {
    const pool: Pool

    constructor (pool: Pool)
      ensures this.pool == pool
    {
      this.pool := pool;
    }

    method IssueAttestation(reference: Ref, request: Ref, validFrom: Millis, expiresAt: Millis, supersedes: Option<Ref>,
                            context: Context) returns (r: Result)
      modifies pool
      ensures (pool.Contents(), r)
           == Execute(old(pool.Contents()), Issue(reference, request, validFrom, expiresAt, supersedes), context)
    {
      var replay := pool.BeginIdempotency(Issue(reference, request, validFrom, expiresAt, supersedes), context);
      if replay.Some? {
        return replay.value;
      }
      if request !in pool.requests {
        return Failed(TenantBoundary);
      }
      var q := pool.requests[request];
      if q.state != Issued {
        return Failed(RepositoryConflict);
      }
      var version := 1;
      if supersedes.Some? {
        if supersedes.value !in pool.attestations {
          return Failed(RepositoryConflict);
        }
        var prior := pool.attestations[supersedes.value];
        if prior.participant != q.participant || prior.state != Active {
          return Failed(RepositoryConflict);
        }
        version := prior.version + 1;
      }
      if !ValidWindow(validFrom, expiresAt) {
        return Failed(InvalidValidity);
      }
      if reference in pool.attestations || !IndexesAllow(pool.Contents(), q.participant, version, supersedes) {
        return Failed(RepositoryConflict);
      }
      pool.attestations := pool.attestations[reference :=
        AttestationRow(q.participant, request, version, Issued, validFrom, expiresAt, false, supersedes)];
      pool.statuses := pool.statuses[reference := StatusRow(Issued, validFrom, 1)];
      pool.AppendEvent(AuditEvent(IssueKind, OnAttestation, reference, None, Issued), version);
      pool.CompleteIdempotency(context, IssueKind, reference, 1, Issued);
      return Done(reference, Issued, 1, false);
    }

    /** `updateAttestationAndRequest`: three updates, one for each row that carries the state. */
    method UpdateAttestationAndRequest(a: Ref, next: State, at: Millis, complete: bool)
      requires Joined(pool.Contents(), a)
      modifies pool
      ensures pool.Contents() == Move(old(pool.Contents()), a, next, at, complete)
    {
      ghost var after := Move(pool.Contents(), a, next, at, complete);
      var row := pool.attestations[a];
      pool.attestations := pool.attestations[a := row.(state := next, issuanceComplete := complete || row.issuanceComplete)];
      assert pool.attestations == after.attestations;
      pool.statuses := pool.statuses[a := StatusRow(next, at, pool.statuses[a].version + 1)];
      assert pool.statuses == after.statuses;
      var q := pool.requests[row.request];
      pool.requests := pool.requests[row.request := q.(state := next, version := q.version + 1)];
      assert pool.requests == after.requests;
      pool.latest := if at > pool.latest then at else pool.latest;
      assert pool.Contents() == after;
    }

    /** The predecessor of an activated renewal; `false` if it is missing or not active. */
    method SupersedePredecessor(p: Ref, at: Millis) returns (error: Option<Error>)
      modifies pool
      ensures var before := old(pool.Contents());
              if !Joined(before, p) then error == Some(TenantBoundary)
              else if RequestOf(before, p).state != Active then error == Some(InvalidTransition)
              else
                && error.None?
                && pool.Contents()
                == Log(Move(before, p, Superseded, at, false),
                       AuditEvent(SupersedeKind, OnAttestation, p, Some(before.attestations[p].state), Superseded),
                       before.attestations[p].version)
    {
      if !Joined(pool.Contents(), p) {
        return Some(TenantBoundary);
      }
      var prior := pool.attestations[p];
      if pool.requests[prior.request].state != Active {
        return Some(InvalidTransition);
      }
      UpdateAttestationAndRequest(p, Superseded, at, false);
      pool.AppendEvent(AuditEvent(SupersedeKind, OnAttestation, p, Some(prior.state), Superseded), prior.version);
      return None;
    }

    method ActivateAttestation(a: Ref, expectedVersion: nat, at: Millis, context: Context) returns (r: Result)
      modifies pool
      ensures (pool.Contents(), r) == Execute(old(pool.Contents()), Activate(a, expectedVersion, at), context)
    {
      var before := pool.Contents();
      var replay := pool.BeginIdempotency(Activate(a, expectedVersion, at), context);
      if replay.Some? {
        return replay.value;
      }
      if !Joined(pool.Contents(), a) {
        return Failed(TenantBoundary);
      }
      var row, status := pool.attestations[a], pool.statuses[a];
      if status.version != expectedVersion || at < row.validFrom || at >= row.expiresAt {
        return Failed(RepositoryConflict);
      }
      if pool.requests[row.request].state != Issued {
        return Failed(InvalidTransition);
      }
      UpdateAttestationAndRequest(a, Active, at, true);
      if row.supersedes.Some? {
        var error := SupersedePredecessor(row.supersedes.value, at);
        if error.Some? {
          pool.Rollback(before);
          return Failed(error.value);
        }
      }
      pool.AppendEvent(AuditEvent(ActivateKind, OnAttestation, a, Some(row.state), Active), row.version);
      pool.CompleteIdempotency(context, ActivateKind, a, status.version + 1, Active);
      return Done(a, Active, status.version + 1, false);
    }

    method ExpireAttestation(a: Ref, expectedVersion: nat, at: Millis, context: Context) returns (r: Result)
      modifies pool
      ensures (pool.Contents(), r) == Execute(old(pool.Contents()), Expire(a, expectedVersion, at), context)
    {
      var replay := pool.BeginIdempotency(Expire(a, expectedVersion, at), context);
      if replay.Some? {
        return replay.value;
      }
      if !Joined(pool.Contents(), a) {
        return Failed(TenantBoundary);
      }
      var row, status := pool.attestations[a], pool.statuses[a];
      if status.version != expectedVersion || at < row.expiresAt {
        return Failed(RepositoryConflict);
      }
      if pool.requests[row.request].state != Active {
        return Failed(InvalidTransition);
      }
      UpdateAttestationAndRequest(a, Expired, at, false);
      pool.AppendEvent(AuditEvent(ExpireKind, OnAttestation, a, Some(row.state), Expired), row.version);
      pool.CompleteIdempotency(context, ExpireKind, a, status.version + 1, Expired);
      return Done(a, Expired, status.version + 1, false);
    }

    method RevokeAttestation(a: Ref, expectedVersion: nat, at: Millis, context: Context) returns (r: Result)
      modifies pool
      ensures (pool.Contents(), r) == Execute(old(pool.Contents()), Revoke(a, expectedVersion, at), context)
    {
      var replay := pool.BeginIdempotency(Revoke(a, expectedVersion, at), context);
      if replay.Some? {
        return replay.value;
      }
      if !Joined(pool.Contents(), a) {
        return Failed(TenantBoundary);
      }
      var row, status := pool.attestations[a], pool.statuses[a];
      if status.version != expectedVersion {
        return Failed(RepositoryConflict);
      }
      if row.state != Active {
        return Failed(InvalidTransition);
      }
      if a in pool.revocations {
        return Failed(RepositoryConflict);
      }
      pool.revocations := pool.revocations[a := at];
      UpdateAttestationAndRequest(a, Revoked, at, false);
      pool.AppendEvent(AuditEvent(RevokeKind, OnAttestation, a, Some(row.state), Revoked), row.version);
      pool.CompleteIdempotency(context, RevokeKind, a, status.version + 1, Revoked);
      return Done(a, Revoked, status.version + 1, false);
    }
  }
}

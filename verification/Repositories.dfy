/** The two repositories as classes over the shared tables. Every method is one serializable transaction that runs in
    place, statement by statement; its contract equates the tables it leaves with the specification functions. */
module Repositories {
  import opened Wrappers
  import opened AnchorTables
  import opened Outbox
  import opened VerusJobs

  /** A committed transaction, or a RepositoryConflictError that has rolled it back. */
  datatype Outcome<+T> = Done(value: T) | Conflict

  datatype OutboxClaim = OutboxClaim(id: EventId, attempt: nat, createdAt: Millis, leaseExpiresAt: Millis)

  /** ORDER BY available_at, created_at, id. */
  predicate Before(events: map<EventId, EventRow>, a: EventId, b: EventId)
    requires a in events && b in events
  {
    || events[a].availableAt < events[b].availableAt
    || (events[a].availableAt == events[b].availableAt && events[a].createdAt < events[b].createdAt)
    || (events[a].availableAt == events[b].availableAt && events[a].createdAt == events[b].createdAt && a <= b)
  }

  /** The first claimable event in queue order; `locked` rows are held by concurrent transactions and skipped. */
  ghost predicate IsCandidate(events: map<EventId, EventRow>, e: EventId, now: Millis, options: ClaimOptions,
                              locked: set<EventId>) {
    && e !in locked && Claimable(events, e, now, options)
    && forall x | x !in locked && Claimable(events, x, now, options) :: x in events && Before(events, e, x)
  }

  class OutboxRepository {
    const pool: Database

    constructor (pool: Database)
      ensures this.pool == pool
    {
      this.pool := pool;
    }

    method SelectCandidate(observedAt: Millis, options: ClaimOptions, locked: set<EventId>) returns (row: Option<EventId>)
      ensures row.Some? ==> IsCandidate(pool.events, row.value, observedAt, options, locked)
      ensures row.None? ==> forall x | x !in locked :: !Claimable(pool.events, x, observedAt, options)
    {
      row := None;
      var rest := pool.events.Keys;
      while rest != {}
        invariant rest <= pool.events.Keys
        invariant row.Some? ==>
                    && row.value in pool.events.Keys - rest && row.value !in locked
                    && Claimable(pool.events, row.value, observedAt, options)
        invariant forall x | x in pool.events.Keys - rest && x !in locked && Claimable(pool.events, x, observedAt, options) ::
                    row.Some? && Before(pool.events, row.value, x)
        decreases rest
      {
        var x :| x in rest;
        rest := rest - {x};
        if x !in locked && Claimable(pool.events, x, observedAt, options)
           && (row.None? || !Before(pool.events, row.value, x)) {
          row := Some(x);
        }
      }
    }

    method RecordAttempt(e: EventId, worker: WorkerRef, attempt: nat, succeeded: bool, errorClass: Option<ErrorClass>,
                         startedAt: Millis, finishedAt: Millis)
      modifies pool`attempts
      ensures pool.Contents()
           == AppendAttempt(old(pool.Contents()), e, AttemptRow(attempt, worker, succeeded, errorClass, startedAt, finishedAt))
    {
      var ledger := if e in pool.attempts then pool.attempts[e] else [];
      pool.attempts := pool.attempts[e := ledger + [AttemptRow(attempt, worker, succeeded, errorClass, startedAt, finishedAt)]];
    }

    method ClaimNext(worker: WorkerRef, observedAt: Millis, leaseMs: int, options: ClaimOptions, locked: set<EventId>)
      returns (r: Outcome<Option<OutboxClaim>>)
      modifies pool
      ensures r.Conflict? <==> leaseMs <= 0
      ensures r.Conflict? || r.value.None? ==> pool.Contents() == old(pool.Contents())
      ensures r.Done? && r.value.None? ==>
                forall x | x !in locked :: !Claimable(pool.events, x, observedAt, options)
      ensures r.Done? && r.value.Some? ==>
                var e := r.value.value.id;
                && IsCandidate(old(pool.events), e, observedAt, options, locked)
                && pool.Contents() == Claim(old(pool.Contents()), e, worker, observedAt, leaseMs)
                && r.value.value == OutboxClaim(e, pool.events[e].attemptCount, pool.events[e].createdAt, observedAt + leaseMs)
    {
      if leaseMs <= 0 {
        return Conflict;
      }
      var candidate := SelectCandidate(observedAt, options, locked);
      if candidate.None? {
        return Done(None);
      }
      var e := candidate.value;
      var row := pool.events[e];
      if row.state == Claimed {
        RecordAttempt(e, row.lease.value.owner, row.attemptCount, false, Some(LeaseExpired), row.lease.value.acquiredAt,
                      observedAt);
      }
      var leaseExpiresAt := observedAt + leaseMs;
      pool.events := pool.events[e := row.(state := Claimed, lease := Some(Lease(worker, observedAt, leaseExpiresAt)),
                                           attemptCount := row.attemptCount + 1, lastErrorClass := None)];
      return Done(Some(OutboxClaim(e, pool.events[e].attemptCount, row.createdAt, leaseExpiresAt)));
    }

    /** `loadClaim`: the row, if this worker holds it under a live lease. */
    method LoadClaim(e: EventId, worker: WorkerRef, observedAt: Millis) returns (row: Outcome<EventRow>)
      ensures row.Done? <==> OwnsLease(pool.Contents(), e, worker, observedAt)
      ensures row.Done? ==> row.value == pool.events[e]
    {
      if e !in pool.events {
        return Conflict;
      }
      var found := pool.events[e];
      if found.state != Claimed || found.lease.None? || found.lease.value.owner != worker
         || found.lease.value.expiresAt <= observedAt {
        return Conflict;
      }
      return Done(found);
    }

    method Heartbeat(e: EventId, worker: WorkerRef, observedAt: Millis, leaseMs: int) returns (r: Outcome<Millis>)
      modifies pool`events
      ensures var spec := Outbox.Heartbeat(old(pool.Contents()), e, worker, observedAt, leaseMs);
              && (r.Done? <==> spec.Some?)
              && (r.Done? ==> r.value == observedAt + leaseMs)
              && pool.Contents() == (if spec.Some? then spec.value else old(pool.Contents()))
    {
      var row := LoadClaim(e, worker, observedAt);
      if row.Conflict? {
        return Conflict;
      }
      var leaseExpiresAt := observedAt + leaseMs;
      if leaseExpiresAt <= observedAt {
        return Conflict;
      }
      var lease := row.value.lease.value;
      pool.events := pool.events[e := row.value.(lease := Some(lease.(expiresAt := leaseExpiresAt)))];
      return Done(leaseExpiresAt);
    }

    method Succeed(e: EventId, worker: WorkerRef, observedAt: Millis) returns (r: Outcome<()>)
      modifies pool`events, pool`attempts
      ensures var spec := Outbox.Succeed(old(pool.Contents()), e, worker, observedAt);
              && (r.Done? <==> spec.Some?)
              && pool.Contents() == (if spec.Some? then spec.value else old(pool.Contents()))
    {
      var row := LoadClaim(e, worker, observedAt);
      if row.Conflict? {
        return Conflict;
      }
      RecordAttempt(e, worker, row.value.attemptCount, true, None, row.value.lease.value.acquiredAt, observedAt);
      pool.events := pool.events[e := row.value.(state := Succeeded, lease := None, completedAt := Some(observedAt))];
      return Done(());
    }

    method FailRetryable(e: EventId, worker: WorkerRef, observedAt: Millis, errorClass: ErrorClass, retry: RetryPolicy)
      returns (r: Outcome<OutboxState>)
      modifies pool`events, pool`attempts
      ensures var spec := Outbox.FailRetryable(old(pool.Contents()), e, worker, observedAt, errorClass, retry);
              && (r.Done? <==> spec.Some?)
              && pool.Contents() == (if spec.Some? then spec.value else old(pool.Contents()))
      ensures r.Done? ==> e in pool.events && r.value == pool.events[e].state && r.value in {RetryableFailed, DeadLetter}
    {
      if !retry.Valid() {
        return Conflict;
      }
      var loaded := LoadClaim(e, worker, observedAt);
      if loaded.Conflict? {
        return Conflict;
      }
      var row := loaded.value;
      RecordAttempt(e, worker, row.attemptCount, false, Some(errorClass), row.lease.value.acquiredAt, observedAt);
      var exhausted := row.attemptCount >= retry.maxAttempts;
      var state := if exhausted then DeadLetter else RetryableFailed;
      var delay := BackoffDelay(row.attemptCount, retry);
      pool.events := pool.events[e := row.(state := state, availableAt := observedAt + delay, lease := None,
                                           lastErrorClass := Some(errorClass),
                                           completedAt := if exhausted then Some(observedAt) else None)];
      return Done(state);
    }

    method FailTerminal(e: EventId, worker: WorkerRef, observedAt: Millis, errorClass: ErrorClass) returns (r: Outcome<()>)
      modifies pool`events, pool`attempts
      ensures var spec := Outbox.FailTerminal(old(pool.Contents()), e, worker, observedAt, errorClass);
              && (r.Done? <==> spec.Some?)
              && pool.Contents() == (if spec.Some? then spec.value else old(pool.Contents()))
    {
      var row := LoadClaim(e, worker, observedAt);
      if row.Conflict? {
        return Conflict;
      }
      RecordAttempt(e, worker, row.value.attemptCount, false, Some(errorClass), row.value.lease.value.acquiredAt, observedAt);
      pool.events := pool.events[e := row.value.(state := TerminalFailed, lease := None, lastErrorClass := Some(errorClass),
                                                 completedAt := Some(observedAt))];
      return Done(());
    }
  }

  /** Math.min(base * 2 ** Math.max(0, attempt - 1), max). */
  function BackoffDelay(attempt: nat, retry: RetryPolicy): int {
    var exponent := if attempt > 1 then attempt - 1 else 0;
    Min(retry.baseBackoffMs * Pow2(exponent), retry.maxBackoffMs)
  }

  function Min(a: int, b: int): int {
    if a <= b then a else b
  }

  class VerusJobRepository {
    const pool: Database

    constructor (pool: Database)
      ensures this.pool == pool
    {
      this.pool := pool;
    }

    method RequireLease(e: EventId, worker: WorkerRef, observedAt: Millis) returns (ok: bool)
      ensures ok <==> MayWriteJob(pool.Contents(), e, worker, observedAt)
    {
      if e !in pool.events {
        return false;
      }
      var row := pool.events[e];
      return row.eventType == ANCHOR_EVENT_TYPE && row.state == Claimed && row.lease.Some?
          && row.lease.value.owner == worker && row.lease.value.expiresAt > observedAt;
    }

    method LoadForClaim(e: EventId, worker: WorkerRef, observedAt: Millis) returns (r: Outcome<JobRow>)
      ensures r.Done? <==> MayWriteJob(pool.Contents(), e, worker, observedAt) && e in pool.jobs
      ensures r.Done? ==> r.value == pool.jobs[e]
    {
      var held := RequireLease(e, worker, observedAt);
      if !held || e !in pool.jobs {
        return Conflict;
      }
      return Done(pool.jobs[e]);
    }

    /** `transition`, with the evidence written by COALESCE and the ambiguity flag by the error's own value. */
    method Transition(e: EventId, worker: WorkerRef, observedAt: Millis, expected: set<JobState>, next: JobState,
                      ev: Evidence, syncAnchor: bool) returns (r: Outcome<JobRow>)
      modifies pool`jobs, pool`anchors
      ensures var spec := VerusJobs.Transition(old(pool.Contents()), e, worker, observedAt, expected, next, ev, syncAnchor);
              && (r.Done? <==> spec.Some?)
              && pool.Contents() == (if spec.Some? then spec.value else old(pool.Contents()))
      ensures r.Done? ==> e in pool.jobs && r.value == pool.jobs[e] && r.value.state == next
    {
      if !ValidEvidence(ev) {
        return Conflict;
      }
      var held := RequireLease(e, worker, observedAt);
      if !held || e !in pool.jobs {
        return Conflict;
      }
      var before := pool.jobs[e];
      if before.state !in expected || (syncAnchor && e !in pool.anchors) {
        return Conflict;
      }
      var ambiguous := if ev.ambiguous.Some? then ev.ambiguous.value else before.ambiguous;
      pool.jobs := pool.jobs[e := before.(
        state := next,
        transactionId := if ev.transactionId.Some? then ev.transactionId else before.transactionId,
        blockHeight := Coalesce(Height(ev), before.blockHeight),
        blockHash := if ev.blockHash.Some? then ev.blockHash else before.blockHash,
        readbackDigest := if ev.readbackDigest.Some? then ev.readbackDigest else before.readbackDigest,
        ambiguous := ambiguous,
        lastErrorClass := ev.errorClass,
        version := before.version + 1)];
      if syncAnchor {
        TransitionAnchor(e, next, ev);
      }
      return Done(pool.jobs[e]);
    }

    method TransitionAnchor(e: EventId, next: JobState, ev: Evidence)
      requires ValidEvidence(ev) && e in pool.anchors
      modifies pool`anchors
      ensures pool.anchors == old(pool.anchors)[e := UpdateAnchor(old(pool.anchors)[e], next, ev)]
    {
      if next == JobClaimed || next == Preflight {
        return;
      }
      var anchor := pool.anchors[e];
      pool.anchors := pool.anchors[e := anchor.(
        state := next,
        transactionId := if ev.transactionId.Some? then ev.transactionId else anchor.transactionId,
        blockHeight := Coalesce(Height(ev), anchor.blockHeight),
        blockHash := if ev.blockHash.Some? then ev.blockHash else anchor.blockHash,
        readbackDigest := if ev.readbackDigest.Some? then ev.readbackDigest else anchor.readbackDigest,
        version := anchor.version + 1)];
    }

    method MarkDeadLetter(e: EventId, worker: WorkerRef, errorClass: ErrorClass) returns (r: Outcome<JobRow>)
      modifies pool`jobs, pool`anchors
      ensures var spec := VerusJobs.MarkDeadLetter(old(pool.Contents()), e, worker, errorClass);
              && (r.Done? <==> spec.Some?)
              && pool.Contents() == (if spec.Some? then spec.value else old(pool.Contents()))
      ensures r.Done? ==> e in pool.jobs && r.value == pool.jobs[e]
    {
      if e !in pool.events || e !in pool.attempts {
        return Conflict;
      }
      var row := pool.events[e];
      var eligible := row.eventType == ANCHOR_EVENT_TYPE && row.state == DeadLetter;
      var owned := exists k | 0 <= k < |pool.attempts[e]| ::
                     pool.attempts[e][k].attempt == row.attemptCount && pool.attempts[e][k].worker == worker;
      if !eligible || !owned || e !in pool.jobs || e !in pool.anchors {
        return Conflict;
      }
      var before := pool.jobs[e];
      if before.state != JobRetryableFailed && before.state != ReorgPending {
        return Conflict;
      }
      pool.jobs := pool.jobs[e := before.(state := JobTerminalFailed, lastErrorClass := Some(errorClass),
                                          ambiguous := false, version := before.version + 1)];
      TransitionAnchor(e, JobTerminalFailed, NO_EVIDENCE);
      return Done(pool.jobs[e]);
    }

    method EnqueueAnchor(id: EventId, spec: JobSpec, keyHash: string, now: Millis) returns (r: Outcome<()>)
      modifies pool
      ensures var after := VerusJobs.EnqueueAnchor(old(pool.Contents()), id, spec, keyHash, now);
              && (r.Done? <==> after.Some?)
              && pool.Contents() == (if after.Some? then after.value else old(pool.Contents()))
    {
      var same := set x | x in pool.events && pool.events[x].keyHash == keyHash;
      if same != {} {
        var first :| first in same;
        assert first in pool.events && pool.events[first].keyHash == keyHash;
        if exists x | x in same :: && x in pool.jobs
                                   && pool.jobs[x].spec.manifestDigest == spec.manifestDigest
                                   && pool.jobs[x].spec.targetIdentity == spec.targetIdentity
                                   && pool.jobs[x].spec.vdxfKey == spec.vdxfKey {
          return Done(());
        }
        return Conflict;
      }
      assert forall x | x in pool.events :: pool.events[x].keyHash != keyHash by {
        forall x | x in pool.events ensures pool.events[x].keyHash != keyHash {
          assert x !in same;
        }
      }
      if id in pool.events {
        return Conflict;
      }
      pool.events := pool.events[id := NewEvent(spec, keyHash, now)];
      pool.attempts := pool.attempts[id := []];
      pool.jobs := pool.jobs[id := NewJob(spec)];
      pool.anchors := pool.anchors[id := NEW_ANCHOR];
      return Done(());
    }
  }
}

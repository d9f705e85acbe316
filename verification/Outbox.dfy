/** packages/db/src/outbox-repository.ts: leases, attempts and backoff. */
module Outbox {
  import opened Wrappers
  import opened AnchorTables

  datatype RetryPolicy = RetryPolicy(maxAttempts: nat, baseBackoffMs: nat, maxBackoffMs: nat) {
    predicate Valid() {
      1 <= maxAttempts && 1 <= baseBackoffMs <= maxBackoffMs
    }
  }

  datatype ClaimOptions = ClaimOptions(eventTypes: Option<set<string>>, singleWriterByAggregate: bool)

  /** A claim whose deadlines have passed, or a retry whose backoff is over. */
  predicate Ready(row: EventRow, now: Millis) {
    || (row.state in {Pending, RetryableFailed} && row.availableAt <= now)
    || (row.state == Claimed && row.lease.Some? && row.lease.value.expiresAt <= now)
  }

  predicate SameAggregate(a: EventRow, b: EventRow) {
    && a.eventType == b.eventType
    && a.aggregateType == b.aggregateType
    && a.aggregateReference == b.aggregateReference
  }

  /** The row is claimed and its lease has not run out. */
  predicate HasLiveLease(row: EventRow, now: Millis) {
    row.state == Claimed && row.lease.Some? && now < row.lease.value.expiresAt
  }

  predicate Contended(events: map<EventId, EventRow>, e: EventId, now: Millis)
    requires e in events
  {
    exists x | x in events :: x != e && SameAggregate(events[x], events[e]) && HasLiveLease(events[x], now)
  }

  predicate Claimable(events: map<EventId, EventRow>, e: EventId, now: Millis, options: ClaimOptions) {
    && e in events
    && Ready(events[e], now)
    && (options.eventTypes.Some? ==> events[e].eventType in options.eventTypes.value)
    && (options.singleWriterByAggregate ==> !Contended(events, e, now))
  }

  /** `loadClaim`: the row is claimed by this worker under a lease that is still live. */
  predicate OwnsLease(db: Db, e: EventId, worker: WorkerRef, now: Millis) {
    && e in db.events
    && HasLiveLease(db.events[e], now)
    && db.events[e].lease.value.owner == worker
  }

  function AppendAttempt(db: Db, e: EventId, row: AttemptRow): Db {
    db.(attempts := db.attempts[e := (if e in db.attempts then db.attempts[e] else []) + [row]])
  }

  function ClosingAttempt(row: EventRow, worker: WorkerRef, succeeded: bool, error: Option<ErrorClass>,
                          now: Millis): AttemptRow
    requires row.lease.Some?
  {
    AttemptRow(row.attemptCount, worker, succeeded, error, row.lease.value.acquiredAt, now)
  }

  function Claim(db: Db, e: EventId, worker: WorkerRef, now: Millis, leaseMs: int): Db
    requires e in db.events && Ready(db.events[e], now)
  {
    var row := db.events[e];
    var recovered :=
      if row.state == Claimed then
        AppendAttempt(db, e, ClosingAttempt(row, row.lease.value.owner, false, Some(LeaseExpired), now))
      else db;
    var claimed := row.(state := Claimed, lease := Some(Lease(worker, now, now + leaseMs)),
                        attemptCount := row.attemptCount + 1, lastErrorClass := None);
    recovered.(events := recovered.events[e := claimed])
  }

  function Heartbeat(db: Db, e: EventId, worker: WorkerRef, now: Millis, leaseMs: int): (r: Option<Db>)
    ensures r.Some? ==> r.value.events.Keys == db.events.Keys
  {
    if OwnsLease(db, e, worker, now) && leaseMs > 0 then
      var row := db.events[e];
      Some(db.(events := db.events[e := row.(lease := Some(row.lease.value.(expiresAt := now + leaseMs)))]))
    else None
  }

  function Close(row: EventRow, state: OutboxState, error: Option<ErrorClass>, completedAt: Option<Millis>): EventRow {
    row.(state := state, lease := None, lastErrorClass := error, completedAt := completedAt)
  }

  function Succeed(db: Db, e: EventId, worker: WorkerRef, now: Millis): (r: Option<Db>)
    ensures r.Some? ==> r.value.events.Keys == db.events.Keys
  {
    if OwnsLease(db, e, worker, now) then
      var row := db.events[e];
      var logged := AppendAttempt(db, e, ClosingAttempt(row, worker, true, None, now));
      Some(logged.(events := logged.events[e := Close(row, Succeeded, row.lastErrorClass, Some(now))]))
    else None
  }

  function FailRetryable(db: Db, e: EventId, worker: WorkerRef, now: Millis, error: ErrorClass,
                         retry: RetryPolicy): (r: Option<Db>)
    ensures r.Some? ==> r.value.events.Keys == db.events.Keys
  {
    if OwnsLease(db, e, worker, now) && retry.Valid() then
      var row := db.events[e];
      var logged := AppendAttempt(db, e, ClosingAttempt(row, worker, false, Some(error), now));
      var exhausted := row.attemptCount >= retry.maxAttempts;
      var closed := Close(row, if exhausted then DeadLetter else RetryableFailed, Some(error),
                          if exhausted then Some(now) else None);
      Some(logged.(events := logged.events[e := closed.(availableAt := now + Delay(row.attemptCount, retry))]))
    else None
  }

  function FailTerminal(db: Db, e: EventId, worker: WorkerRef, now: Millis, error: ErrorClass): (r: Option<Db>)
    ensures r.Some? ==> r.value.events.Keys == db.events.Keys
  {
    if OwnsLease(db, e, worker, now) then
      var row := db.events[e];
      var logged := AppendAttempt(db, e, ClosingAttempt(row, worker, false, Some(error), now));
      Some(logged.(events := logged.events[e := Close(row, TerminalFailed, Some(error), Some(now))]))
    else None
  }

  // ---------------------------------------------------------------- backoff

  function Pow2(n: nat): (p: nat)
    ensures p >= 1
  {
    if n == 0 then 1 else 2 * Pow2(n - 1)
  }

  function Delay(attempt: nat, retry: RetryPolicy): int {
    var uncapped := retry.baseBackoffMs * Pow2(if attempt == 0 then 0 else attempt - 1);
    if uncapped < retry.maxBackoffMs then uncapped else retry.maxBackoffMs
  }

  lemma {:induction false} Pow2Monotone(m: nat, n: nat)
    requires m <= n
    ensures Pow2(m) <= Pow2(n)
  {
    if m < n {
      Pow2Monotone(m, n - 1);
    }
  }

  /** Delays stay between the base and the cap and never shrink from one attempt to a later one. */
  lemma DelayBoundedAndMonotone(m: nat, n: nat, retry: RetryPolicy)
    requires retry.Valid() && m <= n
    ensures retry.baseBackoffMs <= Delay(m, retry) <= Delay(n, retry) <= retry.maxBackoffMs
  {
    var i, j := if m == 0 then 0 else m - 1, if n == 0 then 0 else n - 1;
    Pow2Monotone(i, j);
    MulMonotone(retry.baseBackoffMs, 1, Pow2(i));
    MulMonotone(retry.baseBackoffMs, Pow2(i), Pow2(j));
  }

  lemma MulMonotone(b: nat, x: nat, y: nat)
    requires x <= y
    ensures b * x <= b * y
  {
    assert b * y == b * x + b * (y - x);
  }

  /** What an event waits in total over its first `n` retryable failures. */
  function TotalDelay(n: nat, retry: RetryPolicy): int {
    if n == 0 then 0 else TotalDelay(n - 1, retry) + Delay(n, retry)
  }

  /** One more uncapped delay extends the geometric sum; one more capped delay adds the cap. */
  lemma DelayStep(n: nat, k: nat, retry: RetryPolicy)
    requires retry.Valid() && 0 < n && k <= n
    requires k > 0 ==> retry.baseBackoffMs * Pow2(k - 1) < retry.maxBackoffMs
    requires k < n ==> retry.baseBackoffMs * Pow2(k) >= retry.maxBackoffMs
    ensures Delay(n, retry) == if k == n then retry.baseBackoffMs * Pow2(n - 1) else retry.maxBackoffMs
  {
    if k < n {
      Pow2Monotone(k, n - 1);
      MulMonotone(retry.baseBackoffMs, Pow2(k), Pow2(n - 1));
    }
  }

  lemma GeometricStep(b: nat, k: nat)
    requires k > 0
    ensures b * (Pow2(k) - 1) == b * (Pow2(k - 1) - 1) + b * Pow2(k - 1)
  {
    var p := Pow2(k - 1);
    assert b * (2 * p - 1) == b * (p - 1) + b * p;
  }

  /** Closed form: `k` doublings below the cap form a geometric sum, the rest wait the cap. */
  lemma {:induction false} TotalDelayClosedForm(n: nat, k: nat, retry: RetryPolicy)
    requires retry.Valid() && k <= n
    requires k > 0 ==> retry.baseBackoffMs * Pow2(k - 1) < retry.maxBackoffMs
    requires k < n ==> retry.baseBackoffMs * Pow2(k) >= retry.maxBackoffMs
    ensures TotalDelay(n, retry) == retry.baseBackoffMs * (Pow2(k) - 1) + (n - k) * retry.maxBackoffMs
  {
    if n > 0 {
      DelayStep(n, k, retry);
      if k == n {
        if k > 1 {
          MulMonotone(retry.baseBackoffMs, Pow2(k - 2), Pow2(k - 1));
        }
        TotalDelayClosedForm(n - 1, k - 1, retry);
        GeometricStep(retry.baseBackoffMs, k);
      } else {
        TotalDelayClosedForm(n - 1, k, retry);
        var m := retry.maxBackoffMs;
        assert (n - k) * m == (n - 1 - k) * m + m;
      }
    }
  }
}

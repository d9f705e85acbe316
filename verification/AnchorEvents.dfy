/** What one move can do to an event row and its ledger, and what follows for claims, leases, backoff and final rows. */
module AnchorEvents {
  import opened Wrappers
  import opened AnchorTables
  import opened Outbox
  import opened VerusJobs
  import opened AnchorProtocol
  import opened AnchorInvariant
  import opened AnchorPreservation
  import opened AnchorEffects
  import opened AnchorTheorems
  import opened AnchorSteps
  import opened AnchorTargets

  // ---------------------------------------------------------------- what a move does to an event

  /** The event as the end of its attempt leaves it, and the attempt's row. */
  predicate Ended(row: EventRow, ledger: seq<AttemptRow>, after: EventRow, longer: seq<AttemptRow>, state: OutboxState,
                  error: Option<ErrorClass>, w: WorkerRef, now: Millis) {
    && row.state == Claimed && row.lease.Some? && row.lease.value.owner == w
    && after.state == state && after.lease.None? && after.attemptCount == row.attemptCount
    && after.completedAt == (if state == RetryableFailed then None else Some(now))
    && after.lastErrorClass == (if state == Succeeded then row.lastErrorClass else error)
    && longer == ledger + [AttemptRow(row.attemptCount, w, state == Succeeded, error, row.lease.value.acquiredAt, now)]
  }

  /** What worker `w` does to the event whose live lease it holds. */
  predicate OwnerChange(g: Global, w: WorkerRef, row: EventRow, ledger: seq<AttemptRow>, after: EventRow,
                        longer: seq<AttemptRow>)
    requires At(g, w).Busy? && row.lease.Some?
  {
    var me, retry := At(g, w), g.config.retry;
    match me.stage
    case Dispatch =>
      if me.job.state == Verified then Ended(row, ledger, after, longer, Succeeded, None, w, g.now)
      else if me.job.state in WORKING_STATES then
        longer == ledger && after == row.(lease := Some(Lease(w, row.lease.value.acquiredAt, g.now + g.config.leaseMs)))
      else after == row && longer == ledger
    case CloseRetryable(reason) =>
      if row.attemptCount >= retry.maxAttempts then Ended(row, ledger, after, longer, DeadLetter, Some(reason), w, g.now)
      else && Ended(row, ledger, after, longer, RetryableFailed, Some(reason), w, g.now)
           && after.availableAt == g.now + Delay(row.attemptCount, retry)
    case CloseTerminal(reason) => Ended(row, ledger, after, longer, TerminalFailed, Some(reason), w, g.now)
    case _ => after == row && longer == ledger
  }

  /** The worker holds the live lease of the event it works on. */
  predicate Owns(g: Global, w: WorkerRef, e: EventId) {
    At(g, w).Busy? && At(g, w).event == e && OwnsLease(g.db, e, w, g.now)
  }

  ghost predicate EventKept(g: Global, h: Global, e: EventId) {
    && e in g.db.events && e in g.db.attempts && e in h.db.events && e in h.db.attempts
    && h.db.events[e] == g.db.events[e] && h.db.attempts[e] == g.db.attempts[e]
  }

  lemma AnswerKeeps(g: Global, w: WorkerRef, reply: Reply, e: EventId)
    requires Aligned(g.db) && e in g.db.events && At(g, w).Busy? && Asks(At(g, w).stage)
    ensures EventKept(g, DoAct(g, w, reply), e)
  {
    assert DoAct(g, w, reply).db == g.db;
  }

  lemma CommitKeeps(g: Global, w: WorkerRef, reply: Reply, e: EventId)
    requires Aligned(g.db) && e in g.db.events && At(g, w).Busy?
    requires var s := At(g, w).stage; s.Load? || s.Record? || s.Confirm? || s.Reorganize? || s.Confirmed? || s.Verify?
    ensures EventKept(g, DoAct(g, w, reply), e)
  {
  }

  lemma FailKeeps(g: Global, w: WorkerRef, reply: Reply, e: EventId)
    requires Aligned(g.db) && e in g.db.events && At(g, w).Busy? && (At(g, w).stage.Fail? || At(g, w).stage.CloseDead?)
    ensures EventKept(g, DoAct(g, w, reply), e)
  {
  }

  lemma JobStepKeeps(g: Global, w: WorkerRef, reply: Reply, e: EventId)
    requires Aligned(g.db) && e in g.db.events && At(g, w).Busy?
    requires var s := At(g, w).stage; !s.Dispatch? && !s.CloseRetryable? && !s.CloseTerminal?
    ensures EventKept(g, DoAct(g, w, reply), e)
  {
    var s := At(g, w).stage;
    if Asks(s) {
      AnswerKeeps(g, w, reply, e);
    } else if s.Fail? || s.CloseDead? {
      FailKeeps(g, w, reply, e);
    } else {
      CommitKeeps(g, w, reply, e);
    }
  }

  ghost predicate OwnerStep(g: Global, h: Global, w: WorkerRef, e: EventId) {
    && At(g, w).Busy? && e in g.db.events && e in g.db.attempts && g.db.events[e].lease.Some?
    && e in h.db.events && e in h.db.attempts
    && OwnerChange(g, w, g.db.events[e], g.db.attempts[e], h.db.events[e], h.db.attempts[e])
  }

  lemma CloseOwned(g: Global, w: WorkerRef, reply: Reply, e: EventId)
    requires Aligned(g.db) && ValidConfig(g.config) && Owns(g, w, e)
    requires At(g, w).stage.CloseRetryable? || At(g, w).stage.CloseTerminal?
    ensures OwnerStep(g, DoAct(g, w, reply), w, e)
  {
  }

  lemma DispatchOwned(g: Global, w: WorkerRef, e: EventId)
    requires Aligned(g.db) && ValidConfig(g.config) && Owns(g, w, e)
    requires At(g, w).stage.Dispatch?
    ensures OwnerStep(g, DoDispatch(g, w), w, e)
  {
    match At(g, w).job.state
    case JobPending => ClaimKeeps(g, w, CLAIMABLE_STATES, JobClaimed, e);
    case JobRetryableFailed => ClaimKeeps(g, w, CLAIMABLE_STATES, JobClaimed, e);
    case ReorgPending => ClaimKeeps(g, w, CLAIMABLE_STATES, JobClaimed, e);
    case JobClaimed => ClaimKeeps(g, w, {JobClaimed}, Preflight, e);
    case _ =>
  }

  lemma ClaimKeeps(g: Global, w: WorkerRef, expected: set<JobState>, next: JobState, e: EventId)
    requires Aligned(g.db) && e in g.db.events && At(g, w).Busy?
    ensures EventKept(g, Commit(g, w, Transition(g.db, At(g, w).event, w, g.now, expected, next, NO_EVIDENCE, false), Dispatch), e)
  {
  }

  /** A worker changes an event and its ledger only under its live lease, and then in the way its stage says. */
  lemma ActOnEvent(g: Global, w: WorkerRef, reply: Reply, e: EventId)
    requires Inv(g) && e in g.db.events
    ensures var h := Next(g, Act(w, reply));
            if Owns(g, w, e) then OwnerStep(g, h, w, e) else EventKept(g, h, e)
  {
    if Owns(g, w, e) {
      if At(g, w).stage.Dispatch? {
        DispatchOwned(g, w, e);
      } else if At(g, w).stage.CloseRetryable? || At(g, w).stage.CloseTerminal? {
        CloseOwned(g, w, reply, e);
      } else {
        JobStepKeeps(g, w, reply, e);
      }
    } else if !Untouched(g, Next(g, Act(w, reply)), e) {
      OnlyLatestClaimWrites(g, w, reply, e);
      JobStepKeeps(g, w, reply, e);
    }
  }

  // ---------------------------------------------------------------- claims

  /** A live lease on another event for the same identity. */
  predicate IdentityBusy(db: Db, e: EventId, now: Millis)
    requires e in db.events && e in db.jobs
  {
    exists x | x in db.events && x in db.jobs :: && x != e && HasLiveLease(db.events[x], now)
                                                 && db.jobs[x].spec.targetIdentity == db.jobs[e].spec.targetIdentity
  }

  lemma ContendedExactly(db: Db, e: EventId, now: Millis)
    requires Aligned(db) && AllFiled(db) && e in db.events
    ensures Contended(db.events, e, now) <==> IdentityBusy(db, e, now)
  {
    assert Filed(db, e);
    forall x | x in db.events
      ensures SameAggregate(db.events[x], db.events[e])
         <==> db.jobs[x].spec.targetIdentity == db.jobs[e].spec.targetIdentity
    {
      assert Filed(db, x);
    }
  }

  /** The event waits for a first claim or a retry whose time has come, or its lease has run out. */
  predicate Due(row: EventRow, now: Millis) {
    match row.state
    case Pending => row.availableAt <= now
    case RetryableFailed => row.availableAt <= now
    case Claimed => row.lease.Some? && row.lease.value.expiresAt <= now
    case _ => false
  }

  /** The move is a claim that goes through. */
  predicate Claims(g: Global, m: Move, e: EventId) {
    && m.Take? && m.pick == e && At(g, m.worker).Idle?
    && e in g.db.events && e in g.db.jobs && Due(g.db.events[e], g.now) && !IdentityBusy(g.db, e, g.now)
  }

  lemma ClaimableExactly(g: Global, e: EventId)
    requires Aligned(g.db) && AllFiled(g.db) && e in g.db.events && EventInv(g, e)
    ensures Claimable(g.db.events, e, g.now, CLAIM_OPTIONS) <==> Due(g.db.events[e], g.now) && !IdentityBusy(g.db, e, g.now)
  {
    ContendedExactly(g.db, e, g.now);
    assert Filed(g.db, e);
  }

  /** The claimer has a lease of the configured length under the next attempt number; an attempt whose lease ran out is
      logged for its owner, as failed by the end of the lease. */
  predicate NewLease(g: Global, h: Global, w: WorkerRef, e: EventId) {
    && e in g.db.events && e in g.db.attempts && e in h.db.events && e in h.db.attempts
    && var row, ledger := g.db.events[e], g.db.attempts[e];
       && h.db.events[e] == row.(state := Claimed, lease := Some(Lease(w, g.now, g.now + g.config.leaseMs)),
                                 attemptCount := row.attemptCount + 1, lastErrorClass := None)
       && h.db.attempts[e] == if row.state == Claimed && row.lease.Some? then
            ledger + [AttemptRow(row.attemptCount, row.lease.value.owner, false, Some(LeaseExpired),
                                 row.lease.value.acquiredAt, g.now)]
          else ledger
  }

  /** The attempt count of the event grows, by one, exactly if the move claims it. */
  predicate ClaimStep(g: Global, h: Global, m: Move, e: EventId) {
    && e in g.db.events && e in h.db.events
    && h.db.events[e].attemptCount == g.db.events[e].attemptCount + (if Claims(g, m, e) then 1 else 0)
    && (Claims(g, m, e) ==> NewLease(g, h, m.worker, e))
  }

  lemma TakeExactly(g: Global, w: WorkerRef, pick: EventId, e: EventId)
    requires Aligned(g.db) && e in g.db.events
    requires Claimable(g.db.events, e, g.now, CLAIM_OPTIONS) <==> Due(g.db.events[e], g.now) && !IdentityBusy(g.db, e, g.now)
    ensures ClaimStep(g, DoTake(g, w, pick), Take(w, pick), e)
  {
  }

  lemma TakeClaims(g: Global, w: WorkerRef, pick: EventId, e: EventId)
    requires Inv(g) && AllFiled(g.db) && e in g.db.events
    ensures ClaimStep(g, Next(g, Take(w, pick)), Take(w, pick), e)
  {
    assert EventInv(g, e);
    ClaimableExactly(g, e);
    TakeExactly(g, w, pick, e);
  }

  lemma ActClaimsNothing(g: Global, w: WorkerRef, reply: Reply, e: EventId)
    requires Inv(g) && e in g.db.events
    ensures ClaimStep(g, Next(g, Act(w, reply)), Act(w, reply), e)
  {
    ActOnEvent(g, w, reply, e);
  }

  lemma MoveClaims(g: Global, m: Move, e: EventId)
    requires Inv(g) && AllFiled(g.db) && e in g.db.events
    ensures ClaimStep(g, Next(g, m), m, e)
  {
    match m
    case Take(w, pick) => TakeClaims(g, w, pick, e);
    case Act(w, reply) => ActClaimsNothing(g, w, reply, e);
    case Crash(_) =>
    case Enqueue(_, _, _) =>
    case Tick(_) =>
  }

  /** Claims of an event, in the state before the move: exactly then the attempt count grows, by one, and the claimer gets
      a lease of the configured length. */
  lemma ClaimedExactly(config: Config, now: Millis, moves: seq<Move>, m: Move, e: EventId)
    requires ValidConfig(config) && e in Run(Start(config, now), moves).db.events
    ensures var g := Run(Start(config, now), moves); g.config == config && ClaimStep(g, Next(g, m), m, e)
  {
    var g := Reached(config, now, moves);
    ConfigStable(Start(config, now), moves);
    AlwaysFiled(config, now, moves);
    MoveClaims(g, m, e);
  }

  // ---------------------------------------------------------------- leases and backoff

  /** Nothing but a move of `w` may touch the event, and no claim is due. */
  predicate Guarded(row: EventRow, now: Millis, w: WorkerRef) {
    || (row.state == Claimed && row.lease.Some? && row.lease.value.owner == w && now < row.lease.value.expiresAt)
    || (row.state == RetryableFailed && now < row.availableAt)
  }

  lemma GuardedFromActs(g: Global, v: WorkerRef, reply: Reply, e: EventId, w: WorkerRef)
    requires Inv(g) && e in g.db.events && Guarded(g.db.events[e], g.now, w)
    requires g.db.events[e].state == Claimed ==> v != w
    ensures EventKept(g, Next(g, Act(v, reply)), e)
  {
    ActOnEvent(g, v, reply, e);
  }

  lemma GuardedStep(g: Global, m: Move, e: EventId, w: WorkerRef)
    requires Inv(g) && e in g.db.events && Guarded(g.db.events[e], g.now, w)
    requires g.db.events[e].state == Claimed ==> !MovesWorker(m, w)
    ensures EventKept(g, Next(g, m), e)
  {
    match m
    case Act(v, reply) => GuardedFromActs(g, v, reply, e, w);
    case Crash(_) =>
    case Enqueue(_, _, _) =>
    case Take(_, _) =>
    case Tick(_) =>
  }

  lemma TimePasses(g: Global, m: Move)
    ensures g.now <= Next(g, m).now
  {
  }

  /** While a lease lasts, only its owner changes the event: no other worker, claim, tick or crash does. While a backoff
      lasts, nobody does. */
  lemma {:induction false} GuardedUntilDue(g: Global, moves: seq<Move>, e: EventId, w: WorkerRef)
    requires Inv(g) && e in g.db.events && Guarded(g.db.events[e], Run(g, moves).now, w)
    requires g.db.events[e].state == Claimed ==> forall i | 0 <= i < |moves| :: !MovesWorker(moves[i], w)
    ensures EventKept(g, Run(g, moves), e) && g.now <= Run(g, moves).now
    decreases |moves|
  {
    if moves != [] {
      var init, last := moves[..|moves| - 1], moves[|moves| - 1];
      TimePasses(Run(g, init), last);
      GuardedUntilDue(g, init, e, w);
      RunKeeps(g, init);
      GuardedStep(Run(g, init), last, e, w);
    }
  }

  /** The move gives the worker a lease: a claim, or a heartbeat. */
  predicate TakesLease(g: Global, m: Move, w: WorkerRef, e: EventId) {
    || (m.Take? && m.worker == w && Claims(g, m, e))
    || (m == Act(w, Nothing) && Owns(g, w, e) && At(g, w).stage.Dispatch? && At(g, w).job.state in WORKING_STATES)
  }

  lemma TakenLease(g: Global, m: Move, w: WorkerRef, e: EventId)
    requires Inv(g) && AllFiled(g.db) && e in g.db.events && TakesLease(g, m, w, e)
    ensures var h := Next(g, m);
            && e in h.db.events && h.db.events[e].state == Claimed && h.db.events[e].lease.Some?
            && h.db.events[e].lease.value.owner == w && h.db.events[e].lease.value.expiresAt == g.now + g.config.leaseMs
  {
    if m.Take? {
      MoveClaims(g, m, e);
    } else {
      ActOnEvent(g, w, Nothing, e);
    }
  }

  /** A worker that has just claimed an event, or sent a heartbeat for it, is its owner for the configured time. */
  lemma LeaseProtects(g: Global, w: WorkerRef, e: EventId, m: Move, moves: seq<Move>)
    requires Inv(g) && AllFiled(g.db) && e in g.db.events && TakesLease(g, m, w, e)
    requires forall i | 0 <= i < |moves| :: !MovesWorker(moves[i], w)
    requires Run(Next(g, m), moves).now < g.now + g.config.leaseMs
    ensures var h := Run(Next(g, m), moves);
            && OwnsLease(h.db, e, w, h.now) && h.db.events[e].lease.value.expiresAt == g.now + g.config.leaseMs
  {
    NextKeeps(g, m);
    TakenLease(g, m, w, e);
    GuardedUntilDue(Next(g, m), moves, e, w);
  }

  /** A retry is never claimed before its backoff is over, whose length is that of the attempt's number. */
  lemma RetryNotBeforeBackoff(g: Global, w: WorkerRef, e: EventId, reason: ErrorClass, moves: seq<Move>)
    requires Inv(g) && Owns(g, w, e) && At(g, w).stage == CloseRetryable(reason)
    requires g.db.events[e].attemptCount < g.config.retry.maxAttempts
    requires Run(Next(g, Act(w, Nothing)), moves).now < g.now + Delay(g.db.events[e].attemptCount, g.config.retry)
    ensures var h := Run(Next(g, Act(w, Nothing)), moves);
            && e in h.db.events && h.db.events[e].state == RetryableFailed
            && h.db.events[e].attemptCount == g.db.events[e].attemptCount
            && h.db.events[e].lastErrorClass == Some(reason)
  {
    NextKeeps(g, Act(w, Nothing));
    ActOnEvent(g, w, Nothing, e);
    GuardedUntilDue(Next(g, Act(w, Nothing)), moves, e, w);
  }

  // ---------------------------------------------------------------- times and errors in the ledger

  /** Attempts are logged one after the other, without overlap in time, each with an error unless it succeeded; a final
      event is completed when its last attempt finished, and repeats its error. */
  predicate Chronicle(row: EventRow, ledger: seq<AttemptRow>, now: Millis) {
    && (forall i | 0 <= i < |ledger| ::
          ledger[i].startedAt <= ledger[i].finishedAt <= now && (ledger[i].errorClass.None? <==> ledger[i].succeeded))
    && (forall i, j | 0 <= i < j < |ledger| :: ledger[i].finishedAt <= ledger[j].startedAt)
    && (row.lease.Some? ==> row.lease.value.acquiredAt <= now && forall i | 0 <= i < |ledger| ::
                              ledger[i].finishedAt <= row.lease.value.acquiredAt)
    && (row.completedAt.Some? <==> Final(row.state))
    && (Final(row.state) ==> ledger != [] && row.completedAt == Some(ledger[|ledger| - 1].finishedAt))
    && (row.state in {RetryableFailed, TerminalFailed, DeadLetter} ==>
          ledger != [] && row.lastErrorClass == ledger[|ledger| - 1].errorClass)
  }

  ghost predicate Chronicled(g: Global, e: EventId) {
    e in g.db.events && e in g.db.attempts && Chronicle(g.db.events[e], g.db.attempts[e], g.now)
  }

  lemma EndChronicles(row: EventRow, ledger: seq<AttemptRow>, after: EventRow, longer: seq<AttemptRow>, state: OutboxState,
                      error: Option<ErrorClass>, w: WorkerRef, now: Millis)
    requires Chronicle(row, ledger, now) && Ended(row, ledger, after, longer, state, error, w, now)
    requires state in {Succeeded, RetryableFailed, TerminalFailed, DeadLetter} && (error.None? <==> state == Succeeded)
    ensures Chronicle(after, longer, now)
  {
  }

  lemma OwnerChronicles(g: Global, w: WorkerRef, row: EventRow, ledger: seq<AttemptRow>, after: EventRow,
                        longer: seq<AttemptRow>)
    requires At(g, w).Busy? && row.state == Claimed && row.lease.Some? && Chronicle(row, ledger, g.now)
    requires OwnerChange(g, w, row, ledger, after, longer)
    ensures Chronicle(after, longer, g.now)
  {
    var me := At(g, w);
    match me.stage
    case Dispatch =>
      if me.job.state == Verified {
        EndChronicles(row, ledger, after, longer, Succeeded, None, w, g.now);
      }
    case CloseRetryable(reason) =>
      var state := if row.attemptCount >= g.config.retry.maxAttempts then DeadLetter else RetryableFailed;
      EndChronicles(row, ledger, after, longer, state, Some(reason), w, g.now);
    case CloseTerminal(reason) => EndChronicles(row, ledger, after, longer, TerminalFailed, Some(reason), w, g.now);
    case _ =>
  }

  lemma ActChronicles(g: Global, w: WorkerRef, reply: Reply, e: EventId)
    requires Inv(g) && e in g.db.events && Chronicled(g, e)
    ensures Chronicled(Next(g, Act(w, reply)), e)
  {
    var h := Next(g, Act(w, reply));
    ActOnEvent(g, w, reply, e);
    if Owns(g, w, e) {
      OwnerChronicles(g, w, g.db.events[e], g.db.attempts[e], h.db.events[e], h.db.attempts[e]);
    }
  }

  lemma TakeChronicles(g: Global, w: WorkerRef, pick: EventId, e: EventId)
    requires Aligned(g.db) && e in g.db.events && Chronicled(g, e)
    requires g.db.events[e].lease.Some? <==> g.db.events[e].state == Claimed
    ensures Chronicled(DoTake(g, w, pick), e)
  {
  }

  lemma NextChronicles(g: Global, m: Move, e: EventId)
    requires Inv(g) && (e in g.db.events ==> Chronicled(g, e)) && e in Next(g, m).db.events
    ensures Chronicled(Next(g, m), e)
  {
    match m
    case Act(w, reply) => ActChronicles(g, w, reply, e);
    case Take(w, pick) =>
      assert EventInv(g, e);
      TakeChronicles(g, w, pick, e);
    case Crash(w) =>
    case Enqueue(_, _, _) =>
    case Tick(_) =>
  }

  lemma {:induction false} AlwaysChronicled(config: Config, now: Millis, moves: seq<Move>, e: EventId)
    requires ValidConfig(config) && e in Run(Start(config, now), moves).db.events
    ensures Chronicled(Run(Start(config, now), moves), e)
    decreases |moves|
  {
    if moves != [] {
      var init := moves[..|moves| - 1];
      var g := Reached(config, now, init);
      if e in g.db.events {
        AlwaysChronicled(config, now, init, e);
      }
      NextChronicles(g, moves[|moves| - 1], e);
    }
  }
}

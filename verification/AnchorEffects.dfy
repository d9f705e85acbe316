/** What one move can do to one event: the few ways a job row and its call account change, and who may change them. */
module AnchorEffects {
  import opened Wrappers
  import opened AnchorTables
  import opened Outbox
  import opened VerusJobs
  import opened AnchorProtocol
  import opened AnchorInvariant
  import opened AnchorPreservation

  // ---------------------------------------------------------------- job rows and accounts

  predicate SameEvidence(job: JobRow, after: JobRow) {
    after.spec == job.spec && after.transactionId == job.transactionId && after.version == job.version + 1
  }

  predicate NoChange(job: JobRow, t: Tally, after: JobRow, u: Tally) {
    after == job && (u == t || u == Lose(t))
  }

  /** A call under the latest claim of an armed job, or a lost call under a superseded one. */
  predicate CallMade(job: JobRow, t: Tally, after: JobRow, u: Tally) {
    && after == job && u.calls == t.calls + 1 && u.clears == t.clears
    && (if u.open == t.open then u.lost == t.lost + 1
        else Armed(job, t) && u.open && u.lost == t.lost)
  }

  predicate PlainChange(job: JobRow, t: Tally, after: JobRow, u: Tally) {
    && SameEvidence(job, after) && after.ambiguous == job.ambiguous && u == t
    && after.lastErrorClass == (if after.state == ReorgPending then Some(ReorgDetected) else None)
    && ( || (job.state in CLAIMABLE_STATES && after.state == JobClaimed)
         || (job.state == JobClaimed && after.state == Preflight)
         || (job.state == Submitted && after.state == Confirming)
         || (job.state == Confirming && after.state == Readback)
         || (job.state == Readback && after.state == Verified)
         || (job.state in {Confirming, Readback} && after.state == ReorgPending))
  }

  predicate SubmissionChange(job: JobRow, t: Tally, after: JobRow, u: Tally) {
    && after.spec == job.spec && after.version == job.version + 1
    && job.state == Preflight && after.state == Submitted
    && after.transactionId.Some? && IsHex64(after.transactionId.value)
    && (job.transactionId.Some? ==> after.transactionId == job.transactionId)
    && !after.ambiguous && after.lastErrorClass.None? && u == SettleSubmitted(t)
  }

  predicate RetryableChange(job: JobRow, t: Tally, after: JobRow, u: Tally) {
    && SameEvidence(job, after)
    && job.state in WORKING_STATES && after.state == JobRetryableFailed && after.lastErrorClass.Some?
    && u == SettleRetryable(t, job, VerusError(AmbiguousSubmission, true, after.ambiguous))
  }

  predicate TerminalChange(job: JobRow, t: Tally, after: JobRow, u: Tally) {
    && SameEvidence(job, after) && !after.ambiguous && after.lastErrorClass.Some?
    && job.state in WORKING_STATES + {JobRetryableFailed} && after.state == JobTerminalFailed
    && u == SettleTerminal(t)
  }

  predicate DeadLetterChange(job: JobRow, t: Tally, after: JobRow, u: Tally) {
    && SameEvidence(job, after) && !after.ambiguous && after.lastErrorClass.Some? && u == t
    && job.state in {JobRetryableFailed, ReorgPending} && after.state == JobTerminalFailed
  }

  predicate JobChange(job: JobRow, t: Tally, after: JobRow, u: Tally) {
    || NoChange(job, t, after, u)
    || CallMade(job, t, after, u)
    || PlainChange(job, t, after, u)
    || SubmissionChange(job, t, after, u)
    || RetryableChange(job, t, after, u)
    || TerminalChange(job, t, after, u)
    || DeadLetterChange(job, t, after, u)
  }

  // ---------------------------------------------------------------- one event under one move

  ghost predicate Untouched(g: Global, h: Global, x: EventId)
    requires Aligned(g.db) && x in g.db.events
  {
    && x in h.db.events && x in h.db.jobs && x in h.db.attempts && x in h.db.anchors
    && h.db.events[x] == g.db.events[x] && h.db.jobs[x] == g.db.jobs[x]
    && h.db.attempts[x] == g.db.attempts[x] && h.db.anchors[x] == g.db.anchors[x]
  }

  /** The event's rows as `h` leaves them. */
  ghost predicate Effect(g: Global, h: Global, x: EventId)
    requires Aligned(g.db) && x in g.db.events
  {
    && x in h.db.events && x in h.db.jobs && x in h.db.attempts && x in h.db.anchors
    && JobChange(g.db.jobs[x], TallyOf(g, x), h.db.jobs[x], TallyOf(h, x))
    && (h.db.jobs[x] == g.db.jobs[x] || h.db.jobs[x].state in {JobClaimed, Preflight} ==>
          h.db.anchors[x] == g.db.anchors[x])
    && (h.db.anchors[x] == g.db.anchors[x] || h.db.anchors[x].version == g.db.anchors[x].version + 1)
    && SameAggregate(g.db.events[x], h.db.events[x])
    && TriggerAllowsEvent(g.db.events[x].state, h.db.events[x].state)
    && g.db.events[x].attemptCount <= h.db.events[x].attemptCount
    && g.db.attempts[x] <= h.db.attempts[x]
  }

  lemma AbandonEffect(g: Global, w: WorkerRef, x: EventId)
    requires Aligned(g.db) && x in g.db.events
    ensures Untouched(g, Abandon(g, w), x) && Effect(g, Abandon(g, w), x)
  {
  }

  lemma CommitEffect(g: Global, w: WorkerRef, expected: set<JobState>, next: JobState, ev: Evidence, sync: bool,
                     stage: Stage, x: EventId)
    requires Aligned(g.db) && x in g.db.events && At(g, w).Busy?
    requires x == At(g, w).event && g.db.jobs[x].state in expected && ValidEvidence(ev) ==>
               PlainChange(g.db.jobs[x], TallyOf(g, x), UpdateJob(g.db.jobs[x], next, ev), TallyOf(g, x))
    requires next in {JobClaimed, Preflight} || sync
    ensures Effect(g, Commit(g, w, Transition(g.db, At(g, w).event, w, g.now, expected, next, ev, sync), stage), x)
  {
    AbandonEffect(g, w, x);
  }

  lemma BeatEffect(g: Global, w: WorkerRef, next: Stage, x: EventId)
    requires Aligned(g.db) && x in g.db.events && At(g, w).Busy?
    ensures Effect(g, AfterBeat(g, w, next), x)
  {
    AbandonEffect(g, w, x);
  }

  lemma SameRowsEffect(g: Global, h: Global, x: EventId)
    requires Aligned(g.db) && x in g.db.events && h.db == g.db && h.tallies == g.tallies
    ensures Effect(g, h, x)
  {
  }

  lemma SucceedEffect(g: Global, w: WorkerRef, x: EventId)
    requires Aligned(g.db) && x in g.db.events && At(g, w).Busy?
    ensures Effect(g, Finish(g, w, Succeed(g.db, At(g, w).event, w, g.now)), x)
  {
    AbandonEffect(g, w, x);
  }

  lemma CloseRetryableEffect(g: Global, w: WorkerRef, x: EventId)
    requires Aligned(g.db) && x in g.db.events && At(g, w).Busy? && At(g, w).stage.CloseRetryable?
    ensures Effect(g, DoCloseRetryable(g, w), x)
  {
    var me := At(g, w);
    var outcome := FailRetryable(g.db, me.event, w, g.now, me.stage.reason, g.config.retry);
    if outcome.None? {
      AbandonEffect(g, w, x);
    } else {
      ClosedRowEffect(g, DoCloseRetryable(g, w), w, x);
    }
  }

  lemma ClosedRowEffect(g: Global, h: Global, w: WorkerRef, x: EventId)
    requires Aligned(g.db) && x in g.db.events && At(g, w).Busy? && At(g, w).stage.CloseRetryable?
    requires FailRetryable(g.db, At(g, w).event, w, g.now, At(g, w).stage.reason, g.config.retry) == Some(h.db)
    requires TallyOf(h, x) == TallyOf(g, x)
    ensures Effect(g, h, x)
  {
  }

  lemma CloseTerminalEffect(g: Global, w: WorkerRef, x: EventId)
    requires Aligned(g.db) && x in g.db.events && At(g, w).Busy? && At(g, w).stage.CloseTerminal?
    ensures Effect(g, Finish(g, w, FailTerminal(g.db, At(g, w).event, w, g.now, At(g, w).stage.reason)), x)
  {
    AbandonEffect(g, w, x);
  }

  lemma DeadEffect(g: Global, w: WorkerRef, x: EventId)
    requires Aligned(g.db) && x in g.db.events && At(g, w).Busy? && At(g, w).stage.CloseDead?
    ensures Effect(g, Finish(g, w, MarkDeadLetter(g.db, At(g, w).event, w, At(g, w).stage.reason)), x)
  {
    AbandonEffect(g, w, x);
  }

  lemma DispatchEffect(g: Global, w: WorkerRef, x: EventId)
    requires Aligned(g.db) && x in g.db.events && At(g, w).Busy?
    ensures Effect(g, DoDispatch(g, w), x)
  {
    match At(g, w).job.state
    case JobPending => CommitEffect(g, w, CLAIMABLE_STATES, JobClaimed, NO_EVIDENCE, false, Dispatch, x);
    case JobRetryableFailed => CommitEffect(g, w, CLAIMABLE_STATES, JobClaimed, NO_EVIDENCE, false, Dispatch, x);
    case ReorgPending => CommitEffect(g, w, CLAIMABLE_STATES, JobClaimed, NO_EVIDENCE, false, Dispatch, x);
    case JobClaimed => CommitEffect(g, w, {JobClaimed}, Preflight, NO_EVIDENCE, false, Dispatch, x);
    case Preflight => BeatEffect(g, w, Guard, x);
    case Submitted => BeatEffect(g, w, Confirm, x);
    case Confirming => BeatEffect(g, w, Inspect, x);
    case Readback => BeatEffect(g, w, ReadBack, x);
    case Verified => SucceedEffect(g, w, x);
    case JobTerminalFailed => SameRowsEffect(g, DoDispatch(g, w), x);
  }

  lemma UpdateEffect(g: Global, w: WorkerRef, reply: Reply, x: EventId)
    requires Inv(g) && x in g.db.events && At(g, w).Busy? && At(g, w).stage.Update?
    ensures Effect(g, DoUpdate(g, w, reply), x)
  {
    if IsCurrent(g, w) {
      Knows(g, w);
    }
  }

  lemma RecordEffect(g: Global, w: WorkerRef, x: EventId)
    requires Inv(g) && x in g.db.events && At(g, w).Busy? && At(g, w).stage.Record?
    ensures Effect(g, DoRecord(g, w), x)
  {
    AbandonEffect(g, w, x);
    if RecordSubmission(g.db, At(g, w).event, w, g.now, At(g, w).stage.tx).Some? {
      LeaseIsCurrent(g, w);
      Knows(g, w);
    }
  }

  lemma RetryableCommit(g: Global, w: WorkerRef)
    requires IsCurrent(g, w) && At(g, w).event in g.db.jobs && g.db.jobs[At(g, w).event] == At(g, w).job
    requires At(g, w).stage.Fail? && At(g, w).stage.error.retryable && At(g, w).job.state in WORKING_STATES
    requires RetryableFailure(g.db, At(g, w).event, w, g.now, At(g, w).stage.error).Some?
    ensures var h, e := DoFail(g, w), At(g, w).event;
            && e in h.db.jobs && RetryableChange(g.db.jobs[e], TallyOf(g, e), h.db.jobs[e], TallyOf(h, e))
  {
  }

  lemma RetryableEffect(g: Global, w: WorkerRef, x: EventId)
    requires Inv(g) && x in g.db.events && At(g, w).Busy? && At(g, w).stage.Fail? && At(g, w).stage.error.retryable
    requires At(g, w).job.state in WORKING_STATES
    ensures Effect(g, DoFail(g, w), x)
  {
    var me := At(g, w);
    if RetryableFailure(g.db, me.event, w, g.now, me.stage.error).None? {
      AbandonEffect(g, w, x);
    } else {
      LeaseIsCurrent(g, w);
      Knows(g, w);
      RetryableCommit(g, w);
      RetryableRows(g, w, x);
    }
  }

  lemma RetryableRows(g: Global, w: WorkerRef, x: EventId)
    requires Aligned(g.db) && x in g.db.events && At(g, w).Busy? && At(g, w).job.state in WORKING_STATES
    requires At(g, w).stage.Fail? && At(g, w).stage.error.retryable
    requires RetryableFailure(g.db, At(g, w).event, w, g.now, At(g, w).stage.error).Some?
    requires x == At(g, w).event ==>
               var h := DoFail(g, w);
               x in h.db.jobs && RetryableChange(g.db.jobs[x], TallyOf(g, x), h.db.jobs[x], TallyOf(h, x))
    ensures Effect(g, DoFail(g, w), x)
  {
  }

  lemma TerminalEffect(g: Global, w: WorkerRef, x: EventId)
    requires Aligned(g.db) && x in g.db.events && At(g, w).Busy?
    requires At(g, w).stage.Fail? && !At(g, w).stage.error.retryable
    ensures Effect(g, DoFail(g, w), x)
  {
    AbandonEffect(g, w, x);
  }

  lemma FailEffect(g: Global, w: WorkerRef, x: EventId)
    requires Inv(g) && x in g.db.events && At(g, w).Busy? && At(g, w).stage.Fail?
    ensures Effect(g, DoFail(g, w), x)
  {
    if !At(g, w).stage.error.retryable {
      TerminalEffect(g, w, x);
    } else if At(g, w).job.state in WORKING_STATES {
      RetryableEffect(g, w, x);
    } else {
      SameRowsEffect(g, DoFail(g, w), x);
    }
  }

  // One lemma for each group of stages, about the move itself.

  /** Node replies move only the worker. */
  lemma AnswerEffect(g: Global, w: WorkerRef, reply: Reply, x: EventId)
    requires Aligned(g.db) && x in g.db.events && At(g, w).Busy?
    requires var s := At(g, w).stage; s.Guard? || s.Search? || s.Await? || s.Inspect? || s.ReadBack?
    ensures Effect(g, DoAct(g, w, reply), x)
  {
    SameRowsEffect(g, DoAct(g, w, reply), x);
  }

  lemma ConfirmEffect(g: Global, w: WorkerRef, reply: Reply, x: EventId)
    requires Aligned(g.db) && x in g.db.events && At(g, w).Busy?
    requires At(g, w).stage.Confirm? || At(g, w).stage.Reorganize?
    ensures Effect(g, DoAct(g, w, reply), x)
  {
    match At(g, w).stage
    case Confirm => CommitEffect(g, w, {Submitted}, Confirming, NO_EVIDENCE, true, Dispatch, x);
    case Reorganize =>
      CommitEffect(g, w, {Confirming, Readback}, ReorgPending, NO_EVIDENCE.(errorClass := Some(ReorgDetected)), true,
                   CloseRetryable(ReorgDetected), x);
  }

  lemma ReadbackEffect(g: Global, w: WorkerRef, reply: Reply, x: EventId)
    requires Aligned(g.db) && x in g.db.events && At(g, w).Busy? && At(g, w).stage.Confirmed?
    ensures Effect(g, DoAct(g, w, reply), x)
  {
    var s := At(g, w).stage;
    CommitEffect(g, w, {Confirming}, Readback,
                 NO_EVIDENCE.(blockHeight := Some(s.height), blockHash := Some(s.hash)), true, Dispatch, x);
  }

  lemma VerifyEffect(g: Global, w: WorkerRef, reply: Reply, x: EventId)
    requires Aligned(g.db) && x in g.db.events && At(g, w).Busy? && At(g, w).stage.Verify?
    ensures Effect(g, DoAct(g, w, reply), x)
  {
    CommitEffect(g, w, {Readback}, Verified,
                 NO_EVIDENCE.(readbackDigest := Some(At(g, w).job.spec.manifestDigest)), true, Dispatch, x);
  }

  lemma LeaseEffect(g: Global, w: WorkerRef, reply: Reply, x: EventId)
    requires Aligned(g.db) && x in g.db.events && At(g, w).Busy? && (At(g, w).stage.Load? || At(g, w).stage.Dispatch?)
    ensures Effect(g, DoAct(g, w, reply), x)
  {
    if At(g, w).stage.Load? {
      AbandonEffect(g, w, x);
    } else {
      DispatchEffect(g, w, x);
    }
  }

  lemma CloseEffect(g: Global, w: WorkerRef, reply: Reply, x: EventId)
    requires Aligned(g.db) && x in g.db.events && At(g, w).Busy?
    requires At(g, w).stage.CloseRetryable? || At(g, w).stage.CloseTerminal?
    ensures Effect(g, DoAct(g, w, reply), x)
  {
    if At(g, w).stage.CloseRetryable? {
      CloseRetryableEffect(g, w, x);
    } else {
      CloseTerminalEffect(g, w, x);
    }
  }

  lemma ActEffect(g: Global, w: WorkerRef, reply: Reply, x: EventId)
    requires Inv(g) && x in g.db.events && At(g, w).Busy?
    ensures Effect(g, DoAct(g, w, reply), x)
  {
    var s := At(g, w).stage;
    if s.Guard? || s.Search? || s.Await? || s.Inspect? || s.ReadBack? {
      AnswerEffect(g, w, reply, x);
    } else if s.Confirm? || s.Reorganize? {
      ConfirmEffect(g, w, reply, x);
    } else if s.Confirmed? {
      ReadbackEffect(g, w, reply, x);
    } else if s.Verify? {
      VerifyEffect(g, w, reply, x);
    } else if s.Load? || s.Dispatch? {
      LeaseEffect(g, w, reply, x);
    } else if s.CloseRetryable? || s.CloseTerminal? {
      CloseEffect(g, w, reply, x);
    } else if s.CloseDead? {
      DeadEffect(g, w, x);
    } else if s.Update? {
      UpdateEffect(g, w, reply, x);
    } else if s.Record? {
      RecordEffect(g, w, x);
    } else {
      FailEffect(g, w, x);
    }
  }

  lemma TakeEffect(g: Global, w: WorkerRef, e: EventId, x: EventId)
    requires Aligned(g.db) && x in g.db.events
    ensures Effect(g, DoTake(g, w, e), x)
  {
  }

  lemma EnqueueEffect(g: Global, id: EventId, spec: JobSpec, keyHash: string, x: EventId)
    requires Aligned(g.db) && x in g.db.events
    ensures Effect(g, DoEnqueue(g, id, spec, keyHash), x)
  {
  }

  /** Every move changes every event in one of the listed ways. */
  lemma NextEffect(g: Global, m: Move, x: EventId)
    requires Inv(g) && x in g.db.events
    ensures Effect(g, Next(g, m), x)
  {
    match m
    case Tick(_) =>
    case Enqueue(id, spec, keyHash) => EnqueueEffect(g, id, spec, keyHash, x);
    case Crash(w) => AbandonEffect(g, w, x);
    case Take(w, pick) => TakeEffect(g, w, pick, x);
    case Act(w, reply) =>
      if At(g, w).Busy? {
        ActEffect(g, w, reply, x);
      } else {
        SameRowsEffect(g, g, x);
      }
  }
}

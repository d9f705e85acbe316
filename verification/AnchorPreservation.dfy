/** Every move of the protocol keeps the invariant; so does every run. */
module AnchorPreservation {
  import opened Wrappers
  import opened AnchorTables
  import opened Outbox
  import opened VerusJobs
  import opened AnchorProtocol
  import opened AnchorInvariant

  /** A row another worker holds, or nobody: `v` has nothing to lose there. */
  lemma NotHolder(g: Global, h: Global, v: WorkerRef, e: EventId)
    requires Aligned(g.db) && Aligned(h.db) && e in g.db.events && e in h.db.events && WorkerInv(g, v)
    requires g.db.events[e].state != DeadLetter
    requires g.db.events[e].attemptCount <= h.db.events[e].attemptCount
    requires !HeldBy(h.db.events[e], v)
    ensures Undisturbed(g, h, v, e)
  {
  }

  /** A step by the holder of the claim: everyone else on the event has lost it already. */
  lemma OwnerStep(g: Global, h: Global, w: WorkerRef, e: EventId)
    requires Inv(g) && Framed(g, h, w, e) && g.db.events[e].state != DeadLetter
    requires g.db.events[e].attemptCount <= h.db.events[e].attemptCount
    requires h.db.events[e].lease.Some? ==> h.db.events[e].lease.value.owner == w
    requires EventInv(h, e) && WorkerInv(h, w)
    ensures Inv(h)
  {
    forall v | v in g.workers && v != w ensures Undisturbed(g, h, v, e) {
      NotHolder(g, h, v, e);
    }
    Frame(g, h, w, e);
  }

  lemma SameRows(g: Global, h: Global, v: WorkerRef, e: EventId)
    requires Aligned(g.db) && h.db == g.db && h.tallies == g.tallies && e in g.db.events && WorkerInv(g, v)
    ensures Undisturbed(g, h, v, e)
  {
  }

  lemma SameEvent(g: Global, h: Global, w: WorkerRef, e: EventId)
    requires Framed(g, h, w, e) && h.db == g.db && h.tallies == g.tallies && EventInv(g, e)
    requires TallyOf(g, e).open && HeldBy(g.db.events[e], w) ==> HasOpenCall(At(h, w), e, g.db.events[e].attemptCount)
    ensures EventInv(h, e)
  {
    var row := g.db.events[e];
    if row.lease.Some? && row.lease.value.owner != w {
      assert At(h, row.lease.value.owner) == At(g, row.lease.value.owner);
    }
  }

  /** A step that leaves the rows of the event and its open call alone. */
  lemma LocalStep(g: Global, h: Global, w: WorkerRef, e: EventId)
    requires Inv(g) && Framed(g, h, w, e) && h.db == g.db && h.tallies == g.tallies
    requires EventInv(h, e) && WorkerInv(h, w)
    ensures Inv(h)
  {
    forall v | v in g.workers && v != w ensures Undisturbed(g, h, v, e) {
      SameRows(g, h, v, e);
    }
    Frame(g, h, w, e);
  }

  lemma GotoWorker(g: Global, w: WorkerRef, next: Stage)
    requires Aligned(g.db) && WorkerInv(g, w) && At(g, w).Busy? && !next.CloseDead?
    requires LocalShape(At(g, w).(stage := next))
    requires IsCurrent(g, w) ==> StageShape(At(g, w).(stage := next), TallyOf(g, At(g, w).event))
    ensures WorkerInv(Goto(g, w, next), w)
  {
  }

  lemma GotoKeeps(g: Global, w: WorkerRef, next: Stage)
    requires Inv(g) && At(g, w).Busy? && !next.CloseDead?
    requires LocalShape(At(g, w).(stage := next))
    requires IsCurrent(g, w) ==> StageShape(At(g, w).(stage := next), TallyOf(g, At(g, w).event))
    ensures Inv(Goto(g, w, next))
  {
    var h, e := Goto(g, w, next), At(g, w).event;
    assert WorkerInv(g, w);
    assert EventInv(g, e);
    GotoWorker(g, w, next);
    SameEvent(g, h, w, e);
    LocalStep(g, h, w, e);
  }

  // ---------------------------------------------------------------- crashes and rethrown conflicts

  lemma AbandonEvent(g: Global, w: WorkerRef, e: EventId)
    requires Aligned(g.db) && At(g, w).Busy? && At(g, w).event == e && e in g.db.events
    requires WorkerInv(g, w) && EventInv(g, e)
    ensures EventInv(Abandon(g, w), e)
  {
    var h, row := Abandon(g, w), g.db.events[e];
    if row.lease.Some? && row.lease.value.owner != w {
      assert At(h, row.lease.value.owner) == At(g, row.lease.value.owner);
    }
  }

  lemma AbandonOther(g: Global, w: WorkerRef, v: WorkerRef, e: EventId)
    requires Aligned(g.db) && At(g, w).Busy? && At(g, w).event == e && e in g.db.events
    requires WorkerInv(g, v) && v != w
    ensures Undisturbed(g, Abandon(g, w), v, e)
  {
  }

  lemma AbandonIdle(g: Global, w: WorkerRef)
    requires Inv(g) && At(g, w).Idle?
    ensures Inv(Abandon(g, w))
  {
    var h := Abandon(g, w);
    assert h == WithWorker(g, w, Idle);
    forall v ensures At(h, v) == At(g, v) {
    }
    forall e | e in h.db.events ensures EventInv(h, e) {
      assert EventInv(g, e);
      assert TallyOf(h, e) == TallyOf(g, e);
    }
    forall v | v in h.workers ensures WorkerInv(h, v) {
      if v in g.workers {
        assert WorkerInv(g, v);
      }
    }
  }

  lemma AbandonKeeps(g: Global, w: WorkerRef)
    requires Inv(g)
    ensures Inv(Abandon(g, w))
  {
    if At(g, w).Idle? {
      AbandonIdle(g, w);
    } else {
      var h, e := Abandon(g, w), At(g, w).event;
      assert WorkerInv(g, w);
      assert EventInv(g, e);
      AbandonEvent(g, w, e);
      forall v | v in g.workers && v != w ensures Undisturbed(g, h, v, e) {
        AbandonOther(g, w, v, e);
      }
      Frame(g, h, w, e);
    }
  }

  // ---------------------------------------------------------------- claiming

  lemma TakenRow(retry: RetryPolicy, db: Db, e: EventId, w: WorkerRef, now: Millis, leaseMs: int, t: Tally)
    requires Aligned(db) && e in db.events && Ready(db.events[e], now)
    requires RowInv(retry, db.events[e], db.jobs[e], db.anchors[e], db.attempts[e], t)
    ensures var after := Claim(db, e, w, now, leaseMs);
            RowInv(retry, after.events[e], after.jobs[e], after.anchors[e], after.attempts[e], Lose(t))
  {
    var row := db.events[e];
    if row.state == Claimed {
      ExpiredLeasesAppend(db.attempts[e], ClosingAttempt(row, row.lease.value.owner, false, Some(LeaseExpired), now));
    }
  }

  /** The claim leaves the job alone; an open call of the claim it replaces is lost. */
  lemma TakenInv(g: Global, w: WorkerRef, e: EventId)
    requires Aligned(g.db) && e in g.db.events && EventInv(g, e) && At(g, w).Idle?
    requires Claimable(g.db.events, e, g.now, CLAIM_OPTIONS)
    ensures var h := DoTake(g, w, e); Aligned(h.db) && EventInv(h, e)
  {
    TakenRow(g.config.retry, g.db, e, w, g.now, g.config.leaseMs, TallyOf(g, e));
  }

  lemma TakenWorker(g: Global, w: WorkerRef, e: EventId)
    requires Aligned(g.db) && g.tallies.Keys <= g.db.events.Keys && e in g.db.events && At(g, w).Idle?
    requires Claimable(g.db.events, e, g.now, CLAIM_OPTIONS)
    ensures var h := DoTake(g, w, e); Framed(g, h, w, e) && WorkerInv(h, w)
  {
  }

  lemma TakeKeeps(g: Global, w: WorkerRef, e: EventId)
    requires Inv(g)
    ensures Inv(DoTake(g, w, e))
  {
    if At(g, w).Idle? && Claimable(g.db.events, e, g.now, CLAIM_OPTIONS) && e in g.db.jobs {
      assert EventInv(g, e);
      TakenInv(g, w, e);
      TakenWorker(g, w, e);
      assert g.db.events[e].state != DeadLetter;
      OwnerStep(g, DoTake(g, w, e), w, e);
    }
  }

  // ---------------------------------------------------------------- job transitions by the holder

  /** The rows of one event after a transition by its holder, and what the holder then knows. */
  ghost predicate Moved(g: Global, h: Global, w: WorkerRef, e: EventId)
    requires Aligned(g.db) && e in g.db.events && At(g, w).Busy?
  {
    && e in h.db.jobs && e in h.db.anchors && e in h.db.events && w in h.workers && h.workers[w].Busy?
    && h.db == g.db.(events := g.db.events[e := h.db.events[e]],
                     jobs := g.db.jobs[e := h.db.jobs[e]], anchors := g.db.anchors[e := h.db.anchors[e]])
    && h.db.events[e] == g.db.events[e].(lease := h.db.events[e].lease)
    && h.db.events[e].lease.Some? && h.db.events[e].lease.value.owner == w
    && h == g.(db := h.db, workers := g.workers[w := h.workers[w]], tallies := h.tallies)
    && (forall x | x in g.db.events && x != e :: TallyOf(h, x) == TallyOf(g, x))
    && h.workers[w] == At(g, w).(job := h.db.jobs[e], calling := h.workers[w].calling, stage := h.workers[w].stage)
  }

  lemma MovedEvent(g: Global, h: Global, w: WorkerRef, e: EventId)
    requires Aligned(g.db) && e in g.db.events && At(g, w).Busy? && At(g, w).event == e
    requires Moved(g, h, w, e) && EventInv(g, e) && WorkerInv(g, w) && HeldBy(g.db.events[e], w)
    requires JobShape(h.db.jobs[e]) && InSync(h.db.anchors[e], h.db.jobs[e])
    requires TallyShape(h.db.jobs[e], TallyOf(h, e))
    requires h.workers[w].calling == TallyOf(h, e).open
    ensures EventInv(h, e)
  {
  }

  lemma TransitionKeeps(g: Global, h: Global, w: WorkerRef)
    requires Inv(g) && At(g, w).Busy? && At(g, w).event in g.db.events
    requires Moved(g, h, w, At(g, w).event) && HeldBy(g.db.events[At(g, w).event], w)
    requires JobShape(h.db.jobs[At(g, w).event]) && InSync(h.db.anchors[At(g, w).event], h.db.jobs[At(g, w).event])
    requires TallyShape(h.db.jobs[At(g, w).event], TallyOf(h, At(g, w).event))
    requires h.workers[w].calling == TallyOf(h, At(g, w).event).open
    requires LocalShape(h.workers[w]) && h.tallies.Keys <= g.db.events.Keys
    requires !h.workers[w].stage.CloseDead? && StageShape(h.workers[w], TallyOf(h, At(g, w).event))
    ensures Inv(h)
  {
    var e := At(g, w).event;
    assert WorkerInv(g, w);
    assert EventInv(g, e);
    MovedEvent(g, h, w, e);
    OwnerStep(g, h, w, e);
  }

  /** Updating job and anchor together keeps them in step. */
  lemma RowsInSync(job: JobRow, anchor: AnchorRow, next: JobState, ev: Evidence, sync: bool)
    requires InSync(anchor, job) && ValidEvidence(ev)
    requires sync ==> next !in {JobClaimed, Preflight}
    requires !sync ==> ev == NO_EVIDENCE && next in {JobClaimed, Preflight} && job.state in CLAIMABLE_STATES + {JobClaimed}
    ensures InSync(if sync then UpdateAnchor(anchor, next, ev) else anchor, UpdateJob(job, next, ev))
  {
  }

  /** What a worker under the latest claim knows of its job. */
  lemma Knows(g: Global, w: WorkerRef)
    requires Inv(g) && IsCurrent(g, w)
    ensures var me := At(g, w);
            && g.db.jobs[me.event] == me.job
            && me.calling == TallyOf(g, me.event).open
            && StageShape(me, TallyOf(g, me.event))
            && JobShape(me.job) && InSync(g.db.anchors[me.event], me.job)
            && TallyShape(me.job, TallyOf(g, me.event))
  {
    assert WorkerInv(g, w);
    assert EventInv(g, At(g, w).event);
  }

  lemma LeaseIsCurrent(g: Global, w: WorkerRef)
    requires Inv(g) && At(g, w).Busy? && OwnsLease(g.db, At(g, w).event, w, g.now)
    ensures IsCurrent(g, w)
  {
    assert WorkerInv(g, w);
  }

  /** The row fits its new state, and the worker its next stage, after a transition that settles no call. */
  predicate Fits(me: Local, t: Tally, next: JobState, ev: Evidence, stage: Stage)
    requires me.Busy? && ValidEvidence(ev)
  {
    var job := UpdateJob(me.job, next, ev);
    && !stage.CloseDead? && !me.calling && JobTerminalFailed !in {me.job.state, next}
    && JobShape(job) && job.ambiguous == me.job.ambiguous
    && StageShape(me.(job := job, stage := stage), t) && LocalShape(me.(job := job, stage := stage))
  }

  lemma CommitMoves(g: Global, w: WorkerRef, expected: set<JobState>, next: JobState, ev: Evidence, sync: bool,
                    stage: Stage)
    requires Aligned(g.db) && IsCurrent(g, w) && ValidEvidence(ev)
    requires Transition(g.db, At(g, w).event, w, g.now, expected, next, ev, sync).Some?
    ensures var e := At(g, w).event;
            var h := Commit(g, w, Transition(g.db, e, w, g.now, expected, next, ev, sync), stage);
            && Moved(g, h, w, e) && h.db.events == g.db.events && h.tallies == g.tallies
            && h.db.jobs[e] == UpdateJob(g.db.jobs[e], next, ev)
            && h.db.anchors[e] == (if sync then UpdateAnchor(g.db.anchors[e], next, ev) else g.db.anchors[e])
            && h.workers[w].calling == At(g, w).calling && h.workers[w].stage == stage
  {
  }

  lemma PlainTransition(g: Global, w: WorkerRef, expected: set<JobState>, next: JobState, ev: Evidence, sync: bool,
                        stage: Stage)
    requires Inv(g) && At(g, w).Busy?
    requires sync ==> next !in {JobClaimed, Preflight}
    requires !sync ==> ev == NO_EVIDENCE && next in {JobClaimed, Preflight} && expected <= CLAIMABLE_STATES + {JobClaimed}
    requires IsCurrent(g, w) && At(g, w).job.state in expected && ValidEvidence(ev) ==>
               Fits(At(g, w), TallyOf(g, At(g, w).event), next, ev, stage)
    ensures Inv(Commit(g, w, Transition(g.db, At(g, w).event, w, g.now, expected, next, ev, sync), stage))
  {
    var me := At(g, w);
    var outcome := Transition(g.db, me.event, w, g.now, expected, next, ev, sync);
    if outcome.None? {
      AbandonKeeps(g, w);
    } else {
      LeaseIsCurrent(g, w);
      Knows(g, w);
      RowsInSync(me.job, g.db.anchors[me.event], next, ev, sync);
      CommitMoves(g, w, expected, next, ev, sync, stage);
      TransitionKeeps(g, Commit(g, w, outcome, stage), w);
    }
  }

  lemma DispatchKeeps(g: Global, w: WorkerRef)
    requires Inv(g) && At(g, w).Busy? && At(g, w).stage.Dispatch?
    ensures Inv(DoDispatch(g, w))
  {
    var me := At(g, w);
    if IsCurrent(g, w) {
      Knows(g, w);
    }
    assert WorkerInv(g, w);
    match me.job.state
    case JobPending => PlainTransition(g, w, CLAIMABLE_STATES, JobClaimed, NO_EVIDENCE, false, Dispatch);
    case JobRetryableFailed => PlainTransition(g, w, CLAIMABLE_STATES, JobClaimed, NO_EVIDENCE, false, Dispatch);
    case ReorgPending => PlainTransition(g, w, CLAIMABLE_STATES, JobClaimed, NO_EVIDENCE, false, Dispatch);
    case JobClaimed => PlainTransition(g, w, {JobClaimed}, Preflight, NO_EVIDENCE, false, Dispatch);
    case Preflight => BeatKeeps(g, w, Guard);
    case Submitted => BeatKeeps(g, w, Confirm);
    case Confirming => BeatKeeps(g, w, Inspect);
    case Readback => BeatKeeps(g, w, ReadBack);
    case Verified => SucceedKeeps(g, w);
    case JobTerminalFailed => GotoKeeps(g, w, Fail(INVALID_STATE));
  }

  lemma BeatKeeps(g: Global, w: WorkerRef, next: Stage)
    requires Inv(g) && At(g, w).Busy? && !At(g, w).calling && !next.CloseDead? && LocalShape(At(g, w).(stage := next))
    requires IsCurrent(g, w) ==> StageShape(At(g, w).(stage := next), TallyOf(g, At(g, w).event))
    ensures Inv(AfterBeat(g, w, next))
  {
    if Beat(g, w).None? {
      AbandonKeeps(g, w);
    } else {
      LeaseIsCurrent(g, w);
      Knows(g, w);
      var h := AfterBeat(g, w, next);
      assert Moved(g, h, w, At(g, w).event);
      TransitionKeeps(g, h, w);
    }
  }

  // ---------------------------------------------------------------- closing the outbox event

  /** The holder closes its claim and is done with the event, or goes on to dead-letter the job. */
  lemma ClosedKeeps(g: Global, h: Global, w: WorkerRef, e: EventId, row: EventRow, attempt: AttemptRow)
    requires Inv(g) && IsCurrent(g, w) && At(g, w).event == e && !At(g, w).calling
    requires w in h.workers
    requires h == g.(db := g.db.(events := g.db.events[e := row],
                                 attempts := g.db.attempts[e := g.db.attempts[e] + [attempt]]),
                     workers := g.workers[w := h.workers[w]])
    requires h.workers[w] == Idle
          || (h.workers[w].Busy? && h.workers[w] == At(g, w).(stage := h.workers[w].stage)
              && h.workers[w].stage.CloseDead? && row.state == DeadLetter)
    requires row == g.db.events[e].(state := row.state, lease := None, lastErrorClass := row.lastErrorClass,
                                    completedAt := row.completedAt, availableAt := row.availableAt)
    requires row.state !in {Pending, Claimed} && Joint(row.state, At(g, w).job.state)
    requires row.state == RetryableFailed ==> row.attemptCount < g.config.retry.maxAttempts
    requires row.state == DeadLetter ==> At(g, w).job.state in {JobRetryableFailed, ReorgPending}
    requires attempt.attempt == row.attemptCount && attempt.worker == w
    requires attempt.succeeded <==> row.state == Succeeded
    ensures Inv(h)
  {
    assert WorkerInv(g, w);
    assert EventInv(g, e);
    ExpiredLeasesAppend(g.db.attempts[e], attempt);
    assert EventInv(h, e);
    assert WorkerInv(h, w);
    OwnerStep(g, h, w, e);
  }

  lemma SucceedKeeps(g: Global, w: WorkerRef)
    requires Inv(g) && At(g, w).Busy? && !At(g, w).calling && At(g, w).job.state == Verified
    ensures Inv(Finish(g, w, Succeed(g.db, At(g, w).event, w, g.now)))
  {
    var me := At(g, w);
    var outcome := Succeed(g.db, me.event, w, g.now);
    if outcome.None? {
      AbandonKeeps(g, w);
    } else {
      LeaseIsCurrent(g, w);
      var row := g.db.events[me.event];
      ClosedKeeps(g, Finish(g, w, outcome), w, me.event, Close(row, Succeeded, row.lastErrorClass, Some(g.now)),
                  ClosingAttempt(row, w, true, None, g.now));
    }
  }

  lemma CloseRetryableKeeps(g: Global, w: WorkerRef)
    requires Inv(g) && At(g, w).Busy? && At(g, w).stage.CloseRetryable?
    ensures Inv(DoCloseRetryable(g, w))
  {
    var me := At(g, w);
    var outcome := FailRetryable(g.db, me.event, w, g.now, me.stage.reason, g.config.retry);
    if outcome.None? {
      AbandonKeeps(g, w);
    } else {
      LeaseIsCurrent(g, w);
      Knows(g, w);
      assert WorkerInv(g, w);
      var row := g.db.events[me.event];
      ClosedKeeps(g, DoCloseRetryable(g, w), w, me.event, outcome.value.events[me.event],
                  ClosingAttempt(row, w, false, Some(me.stage.reason), g.now));
    }
  }

  lemma CloseTerminalKeeps(g: Global, w: WorkerRef)
    requires Inv(g) && At(g, w).Busy? && At(g, w).stage.CloseTerminal?
    ensures Inv(Finish(g, w, FailTerminal(g.db, At(g, w).event, w, g.now, At(g, w).stage.reason)))
  {
    var me := At(g, w);
    var outcome := FailTerminal(g.db, me.event, w, g.now, me.stage.reason);
    if outcome.None? {
      AbandonKeeps(g, w);
    } else {
      LeaseIsCurrent(g, w);
      Knows(g, w);
      assert WorkerInv(g, w);
      ClosedKeeps(g, Finish(g, w, outcome), w, me.event, outcome.value.events[me.event],
                  ClosingAttempt(g.db.events[me.event], w, false, Some(me.stage.reason), g.now));
    }
  }

  /** Dead-lettering: nobody else can be at this stage for the same event. */
  lemma DeadAlone(g: Global, h: Global, w: WorkerRef, v: WorkerRef, e: EventId)
    requires Aligned(g.db) && Aligned(h.db) && e in g.db.events && h.db.events == g.db.events
    requires At(g, w).Busy? && At(g, w).event == e && At(g, w).stage.CloseDead? && v != w
    requires WorkerInv(g, w) && WorkerInv(g, v)
    ensures Undisturbed(g, h, v, e)
  {
  }

  lemma DeadEvent(g: Global, w: WorkerRef, e: EventId)
    requires Aligned(g.db) && e in g.db.events && At(g, w).Busy? && At(g, w).event == e && At(g, w).stage.CloseDead?
    requires EventInv(g, e) && MarkDeadLetter(g.db, e, w, At(g, w).stage.reason).Some?
    ensures EventInv(Finish(g, w, MarkDeadLetter(g.db, e, w, At(g, w).stage.reason)), e)
  {
  }

  lemma CloseDeadKeeps(g: Global, w: WorkerRef)
    requires Inv(g) && At(g, w).Busy? && At(g, w).stage.CloseDead?
    ensures Inv(Finish(g, w, MarkDeadLetter(g.db, At(g, w).event, w, At(g, w).stage.reason)))
  {
    var e := At(g, w).event;
    var outcome := MarkDeadLetter(g.db, e, w, At(g, w).stage.reason);
    if outcome.None? {
      AbandonKeeps(g, w);
    } else {
      var h := Finish(g, w, outcome);
      assert WorkerInv(g, w);
      assert EventInv(g, e);
      DeadEvent(g, w, e);
      forall v | v in g.workers && v != w ensures Undisturbed(g, h, v, e) {
        assert WorkerInv(g, v);
        DeadAlone(g, h, w, v, e);
      }
      Frame(g, h, w, e);
    }
  }

  // ---------------------------------------------------------------- the call and its settlement

  /** A call under the latest claim opens the account; a call under a superseded claim is lost at once. */
  lemma CountedCall(job: JobRow, t: Tally, accepted: bool, current: bool)
    requires TallyShape(job, t)
    requires current ==> Armed(job, t)
    ensures var counted := t.(calls := t.calls + 1, accepted := t.accepted + (if accepted then 1 else 0));
            TallyShape(job, if current then counted.(open := true, openAccepted := accepted)
                            else counted.(lost := t.lost + 1))
  {
  }

  lemma LiveCallKeeps(g: Global, w: WorkerRef, accepted: bool)
    requires Inv(g) && IsCurrent(g, w) && At(g, w).stage.Update?
    ensures Inv(DoUpdate(g, w, CallReceived(accepted)))
  {
    var h, e := DoUpdate(g, w, CallReceived(accepted)), At(g, w).event;
    Knows(g, w);
    CountedCall(g.db.jobs[e], TallyOf(g, e), accepted, true);
    assert Moved(g, h, w, e);
    TransitionKeeps(g, h, w);
  }

  lemma StaleCallEvent(g: Global, h: Global, w: WorkerRef, e: EventId)
    requires Framed(g, h, w, e) && h.db == g.db && EventInv(g, e) && !IsCurrent(g, w) && WorkerInv(g, w)
    requires At(g, w).Busy? && At(g, w).event == e
    requires TallyOf(h, e).open == TallyOf(g, e).open && TallyShape(g.db.jobs[e], TallyOf(h, e))
    ensures EventInv(h, e)
  {
    var row := g.db.events[e];
    if row.lease.Some? && row.lease.value.owner != w {
      assert At(h, row.lease.value.owner) == At(g, row.lease.value.owner);
    }
  }

  lemma StaleCallOther(g: Global, h: Global, v: WorkerRef, e: EventId)
    requires Aligned(g.db) && h.db == g.db && e in g.db.events && WorkerInv(g, v)
    requires TallyOf(h, e).open == TallyOf(g, e).open && TallyOf(h, e).openAccepted == TallyOf(g, e).openAccepted
    ensures Undisturbed(g, h, v, e)
  {
  }

  lemma StaleCallKeeps(g: Global, h: Global, w: WorkerRef, e: EventId)
    requires Inv(g) && Framed(g, h, w, e) && h.db == g.db && !IsCurrent(g, w)
    requires At(g, w).Busy? && At(g, w).event == e
    requires TallyOf(h, e).open == TallyOf(g, e).open && TallyOf(h, e).openAccepted == TallyOf(g, e).openAccepted
    requires TallyShape(g.db.jobs[e], TallyOf(h, e)) && WorkerInv(h, w)
    ensures Inv(h)
  {
    assert EventInv(g, e);
    assert WorkerInv(g, w);
    StaleCallEvent(g, h, w, e);
    forall v | v in g.workers && v != w ensures Undisturbed(g, h, v, e) {
      StaleCallOther(g, h, v, e);
    }
    Frame(g, h, w, e);
  }

  lemma SupersededCallKeeps(g: Global, w: WorkerRef, accepted: bool)
    requires Inv(g) && At(g, w).Busy? && At(g, w).stage.Update? && !IsCurrent(g, w)
    ensures Inv(DoUpdate(g, w, CallReceived(accepted)))
  {
    var e := At(g, w).event;
    assert WorkerInv(g, w);
    assert EventInv(g, e);
    CountedCall(g.db.jobs[e], TallyOf(g, e), accepted, false);
    StaleCallKeeps(g, DoUpdate(g, w, CallReceived(accepted)), w, e);
  }

  lemma UpdateKeeps(g: Global, w: WorkerRef, reply: Reply)
    requires Inv(g) && At(g, w).Busy? && At(g, w).stage.Update?
    ensures Inv(DoUpdate(g, w, reply))
  {
    if reply.CallReceived? {
      if IsCurrent(g, w) {
        LiveCallKeeps(g, w, reply.accepted);
      } else {
        SupersededCallKeeps(g, w, reply.accepted);
      }
    } else if reply.NodeError? {
      assert WorkerInv(g, w);
      if IsCurrent(g, w) {
        Knows(g, w);
      }
      GotoKeeps(g, w, Fail(reply.error));
    }
  }

  lemma SettledSubmission(job: JobRow, t: Tally, tx: string)
    requires TallyShape(job, t) && IsHex64(tx)
    ensures TallyShape(UpdateJob(job, Submitted, NO_EVIDENCE.(transactionId := Some(tx), ambiguous := Some(false))),
                       SettleSubmitted(t))
  {
  }

  /** A transition that settles the worker's open call, if it has one. */
  lemma SettlingKeeps(g: Global, w: WorkerRef, expected: set<JobState>, next: JobState, ev: Evidence, stage: Stage,
                      settled: Tally)
    requires Inv(g) && IsCurrent(g, w) && ValidEvidence(ev) && next !in {JobClaimed, Preflight}
    requires Transition(g.db, At(g, w).event, w, g.now, expected, next, ev, true).Some?
    requires !stage.CloseDead? && !settled.open
    requires JobShape(UpdateJob(At(g, w).job, next, ev)) && TallyShape(UpdateJob(At(g, w).job, next, ev), settled)
    requires StageShape(At(g, w).(job := UpdateJob(At(g, w).job, next, ev), calling := false, stage := stage), settled)
    requires !stage.Guard? && !stage.Search? && !stage.Update?
    ensures var e := At(g, w).event;
            var quiet := WithWorker(g, w, At(g, w).(calling := false));
            Inv(WithTally(Commit(quiet, w, Transition(g.db, e, w, g.now, expected, next, ev, true), stage), e, settled))
  {
    var e := At(g, w).event;
    var quiet := WithWorker(g, w, At(g, w).(calling := false));
    var h := WithTally(Commit(quiet, w, Transition(g.db, e, w, g.now, expected, next, ev, true), stage), e, settled);
    Knows(g, w);
    RowsInSync(At(g, w).job, g.db.anchors[e], next, ev, true);
    CommitMoves(quiet, w, expected, next, ev, true, stage);
    assert Moved(g, h, w, e);
    TransitionKeeps(g, h, w);
  }

  lemma RecordKeeps(g: Global, w: WorkerRef)
    requires Inv(g) && At(g, w).Busy? && At(g, w).stage.Record?
    ensures Inv(DoRecord(g, w))
  {
    var me := At(g, w);
    if RecordSubmission(g.db, me.event, w, g.now, me.stage.tx).None? {
      AbandonKeeps(g, w);
    } else {
      LeaseIsCurrent(g, w);
      Knows(g, w);
      var t := TallyOf(g, me.event);
      SettledSubmission(me.job, t, me.stage.tx);
      SettlingKeeps(g, w, {Preflight}, Submitted,
                    NO_EVIDENCE.(transactionId := Some(me.stage.tx), ambiguous := Some(false)), Dispatch,
                    SettleSubmitted(t));
    }
  }

  lemma SettledRetryable(job: JobRow, t: Tally, error: VerusError)
    requires TallyShape(job, t) && job.state != JobTerminalFailed
    requires t.open ==> job.transactionId.None? && !job.ambiguous
    requires t.open && !error.ambiguous ==> !t.openAccepted
    ensures TallyShape(UpdateJob(job, JobRetryableFailed,
                                 NO_EVIDENCE.(errorClass := Some(RpcClass(error.code)), ambiguous := Some(error.ambiguous))),
                       SettleRetryable(t, job, error))
  {
  }

  lemma SettledTerminal(job: JobRow, t: Tally, error: VerusError)
    requires TallyShape(job, t)
    ensures TallyShape(UpdateJob(job, JobTerminalFailed,
                                 NO_EVIDENCE.(errorClass := Some(RpcClass(error.code)), ambiguous := Some(false))),
                       SettleTerminal(t))
  {
  }

  lemma RetryableFailKeeps(g: Global, w: WorkerRef)
    requires Inv(g) && At(g, w).Busy? && At(g, w).stage.Fail? && At(g, w).stage.error.retryable
    requires At(g, w).job.state in WORKING_STATES
    ensures Inv(DoFail(g, w))
  {
    var me := At(g, w);
    var error := me.stage.error;
    if RetryableFailure(g.db, me.event, w, g.now, error).None? {
      AbandonKeeps(g, w);
    } else {
      LeaseIsCurrent(g, w);
      Knows(g, w);
      var t := TallyOf(g, me.event);
      SettledRetryable(me.job, t, error);
      SettlingKeeps(g, w, WORKING_STATES, JobRetryableFailed,
                    NO_EVIDENCE.(errorClass := Some(RpcClass(error.code)), ambiguous := Some(error.ambiguous)),
                    CloseRetryable(RpcClass(error.code)), SettleRetryable(t, me.job, error));
    }
  }

  lemma TerminalFailKeeps(g: Global, w: WorkerRef)
    requires Inv(g) && At(g, w).Busy? && At(g, w).stage.Fail? && !At(g, w).stage.error.retryable
    requires At(g, w).job.state in WORKING_STATES + {JobRetryableFailed}
    ensures Inv(DoFail(g, w))
  {
    var me := At(g, w);
    var error := me.stage.error;
    if TerminalFailure(g.db, me.event, w, g.now, error).None? {
      AbandonKeeps(g, w);
    } else {
      LeaseIsCurrent(g, w);
      Knows(g, w);
      var t := TallyOf(g, me.event);
      SettledTerminal(me.job, t, error);
      SettlingKeeps(g, w, WORKING_STATES + {JobRetryableFailed}, JobTerminalFailed,
                    NO_EVIDENCE.(errorClass := Some(RpcClass(error.code)), ambiguous := Some(false)),
                    CloseTerminal(RpcClass(error.code)), SettleTerminal(t));
    }
  }

  // ---------------------------------------------------------------- every move, every run

  lemma GuardKeeps(g: Global, w: WorkerRef, reply: Reply)
    requires Inv(g) && At(g, w).Busy? && At(g, w).stage.Guard?
    ensures Inv(DoGuard(g, w, reply))
  {
    assert WorkerInv(g, w);
    if IsCurrent(g, w) {
      Knows(g, w);
    }
    var h := DoGuard(g, w, reply);
    if h != g {
      GotoKeeps(g, w, h.workers[w].stage);
    }
  }

  lemma SearchKeeps(g: Global, w: WorkerRef, reply: Reply)
    requires Inv(g) && At(g, w).Busy? && At(g, w).stage.Search?
    ensures Inv(DoSearch(g, w, reply))
  {
    assert WorkerInv(g, w);
    if IsCurrent(g, w) {
      Knows(g, w);
    }
    var h := DoSearch(g, w, reply);
    if h != g {
      GotoKeeps(g, w, h.workers[w].stage);
    }
  }

  lemma AwaitKeeps(g: Global, w: WorkerRef, reply: Reply)
    requires Inv(g) && At(g, w).Busy? && At(g, w).stage.Await?
    ensures Inv(DoAwait(g, w, reply))
  {
    assert WorkerInv(g, w);
    if IsCurrent(g, w) {
      Knows(g, w);
    }
    var h := DoAwait(g, w, reply);
    if h != g {
      GotoKeeps(g, w, h.workers[w].stage);
    }
  }

  lemma InspectKeeps(g: Global, w: WorkerRef, reply: Reply)
    requires Inv(g) && At(g, w).Busy? && At(g, w).stage.Inspect?
    ensures Inv(DoInspect(g, w, reply))
  {
    assert WorkerInv(g, w);
    if IsCurrent(g, w) {
      Knows(g, w);
    }
    var h := DoInspect(g, w, reply);
    if h != g {
      GotoKeeps(g, w, h.workers[w].stage);
    }
  }

  lemma ReadBackKeeps(g: Global, w: WorkerRef, reply: Reply)
    requires Inv(g) && At(g, w).Busy? && At(g, w).stage.ReadBack?
    ensures Inv(DoReadBack(g, w, reply))
  {
    assert WorkerInv(g, w);
    if IsCurrent(g, w) {
      Knows(g, w);
    }
    var h := DoReadBack(g, w, reply);
    if h != g {
      GotoKeeps(g, w, h.workers[w].stage);
    }
  }

  lemma LoadKeeps(g: Global, w: WorkerRef)
    requires Inv(g) && At(g, w).Busy? && At(g, w).stage.Load?
    ensures Inv(DoLoad(g, w))
  {
    if MayWriteJob(g.db, At(g, w).event, w, g.now) {
      LeaseIsCurrent(g, w);
      Knows(g, w);
      assert WorkerInv(g, w);
      assert DoLoad(g, w) == Goto(g, w, Dispatch);
      GotoKeeps(g, w, Dispatch);
    } else {
      AbandonKeeps(g, w);
    }
  }

  lemma FailKeeps(g: Global, w: WorkerRef)
    requires Inv(g) && At(g, w).Busy? && At(g, w).stage.Fail?
    ensures Inv(DoFail(g, w))
  {
    var me := At(g, w);
    var error := me.stage.error;
    if error.retryable && me.job.state in WORKING_STATES {
      RetryableFailKeeps(g, w);
    } else if !error.retryable && me.job.state in WORKING_STATES + {JobRetryableFailed} {
      TerminalFailKeeps(g, w);
    } else {
      UnmovedFailKeeps(g, w);
    }
  }

  /** `calling` with a job that handleFailure does not move: a worker whose claim is gone. */
  lemma UnmovedFailKeeps(g: Global, w: WorkerRef)
    requires Inv(g) && At(g, w).Busy? && At(g, w).stage.Fail?
    requires if At(g, w).stage.error.retryable then At(g, w).job.state !in WORKING_STATES
             else At(g, w).job.state !in WORKING_STATES + {JobRetryableFailed}
    ensures Inv(DoFail(g, w))
  {
    var me := At(g, w);
    assert WorkerInv(g, w);
    if IsCurrent(g, w) {
      Knows(g, w);
    }
    GotoKeeps(g, w, if me.stage.error.retryable then CloseRetryable(RpcClass(me.stage.error.code))
                    else CloseTerminal(RpcClass(me.stage.error.code)));
  }

  lemma PlainStageKeeps(g: Global, w: WorkerRef, reply: Reply)
    requires Inv(g) && At(g, w).Busy?
    requires var s := At(g, w).stage; s.Confirm? || s.Reorganize? || s.Confirmed? || s.Verify?
    ensures Inv(DoAct(g, w, reply))
  {
    var me := At(g, w);
    if IsCurrent(g, w) {
      Knows(g, w);
    }
    assert WorkerInv(g, w);
    match me.stage
    case Confirm => PlainTransition(g, w, {Submitted}, Confirming, NO_EVIDENCE, true, Dispatch);
    case Reorganize =>
      PlainTransition(g, w, {Confirming, Readback}, ReorgPending, NO_EVIDENCE.(errorClass := Some(ReorgDetected)), true,
                      CloseRetryable(ReorgDetected));
    case Confirmed(height, hash) =>
      PlainTransition(g, w, {Confirming}, Readback,
                      NO_EVIDENCE.(blockHeight := Some(height), blockHash := Some(hash)), true, Dispatch);
    case Verify =>
      PlainTransition(g, w, {Readback}, Verified,
                      NO_EVIDENCE.(readbackDigest := Some(me.job.spec.manifestDigest)), true, Dispatch);
  }

  lemma ActKeeps(g: Global, w: WorkerRef, reply: Reply)
    requires Inv(g)
    ensures Inv(DoAct(g, w, reply))
  {
    var me := At(g, w);
    if me.Busy? {
      match me.stage
      case Load => LoadKeeps(g, w);
      case Dispatch => DispatchKeeps(g, w);
      case Guard => GuardKeeps(g, w, reply);
      case Search => SearchKeeps(g, w, reply);
      case Update => UpdateKeeps(g, w, reply);
      case Await(_) => AwaitKeeps(g, w, reply);
      case Record(_) => RecordKeeps(g, w);
      case Confirm => PlainStageKeeps(g, w, reply);
      case Inspect => InspectKeeps(g, w, reply);
      case Reorganize => PlainStageKeeps(g, w, reply);
      case Confirmed(_, _) => PlainStageKeeps(g, w, reply);
      case ReadBack => ReadBackKeeps(g, w, reply);
      case Verify => PlainStageKeeps(g, w, reply);
      case Fail(_) => FailKeeps(g, w);
      case CloseRetryable(_) => CloseRetryableKeeps(g, w);
      case CloseTerminal(_) => CloseTerminalKeeps(g, w);
      case CloseDead(_) => CloseDeadKeeps(g, w);
    }
  }

  lemma EnqueuedEvent(g: Global, id: EventId, spec: JobSpec, keyHash: string)
    requires ValidConfig(g.config) && Aligned(g.db) && g.tallies.Keys <= g.db.events.Keys && id !in g.db.events
    requires !exists x | x in g.db.events :: g.db.events[x].keyHash == keyHash
    ensures var h := DoEnqueue(g, id, spec, keyHash); Aligned(h.db) && id in h.db.events && EventInv(h, id)
  {
  }

  lemma OldEvent(g: Global, id: EventId, spec: JobSpec, keyHash: string, e: EventId)
    requires Aligned(g.db) && id !in g.db.events && e in g.db.events && EventInv(g, e)
    requires !exists x | x in g.db.events :: g.db.events[x].keyHash == keyHash
    ensures var h := DoEnqueue(g, id, spec, keyHash); Aligned(h.db) && EventInv(h, e)
  {
  }

  lemma EnqueueKeeps(g: Global, id: EventId, spec: JobSpec, keyHash: string)
    requires Inv(g)
    ensures Inv(DoEnqueue(g, id, spec, keyHash))
  {
    var h := DoEnqueue(g, id, spec, keyHash);
    if h != g {
      EnqueuedEvent(g, id, spec, keyHash);
      forall e | e in g.db.events ensures EventInv(h, e) {
        assert EventInv(g, e);
        OldEvent(g, id, spec, keyHash, e);
      }
      forall v | v in h.workers ensures WorkerInv(h, v) {
        assert WorkerInv(g, v);
      }
    }
  }

  lemma TickKeeps(g: Global, to: Millis)
    requires Inv(g)
    ensures Inv(Next(g, Tick(to)))
  {
    var h := Next(g, Tick(to));
    forall e | e in h.db.events ensures EventInv(h, e) {
      assert EventInv(g, e);
    }
    forall v | v in h.workers ensures WorkerInv(h, v) {
      assert WorkerInv(g, v);
    }
  }

  lemma NextKeeps(g: Global, m: Move)
    requires Inv(g)
    ensures Inv(Next(g, m))
  {
    match m
    case Tick(to) => TickKeeps(g, to);
    case Enqueue(id, spec, keyHash) => EnqueueKeeps(g, id, spec, keyHash);
    case Crash(w) => AbandonKeeps(g, w);
    case Take(w, pick) => TakeKeeps(g, w, pick);
    case Act(w, reply) => ActKeeps(g, w, reply);
  }

  lemma {:induction false} RunKeeps(g: Global, moves: seq<Move>)
    requires Inv(g)
    ensures Inv(Run(g, moves))
    decreases |moves|
  {
    if moves != [] {
      RunKeeps(g, moves[..|moves| - 1]);
      NextKeeps(Run(g, moves[..|moves| - 1]), moves[|moves| - 1]);
    }
  }

  lemma StartInv(config: Config, now: Millis)
    requires ValidConfig(config)
    ensures Inv(Start(config, now))
  {
  }

  /** The state after a run from the empty system, with its invariant at one event. */
  lemma Reached(config: Config, now: Millis, moves: seq<Move>) returns (g: Global)
    requires ValidConfig(config)
    ensures g == Run(Start(config, now), moves) && Inv(g)
  {
    StartInv(config, now);
    RunKeeps(Start(config, now), moves);
    g := Run(Start(config, now), moves);
  }
}

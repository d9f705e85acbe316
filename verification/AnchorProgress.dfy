/** No call of a worker under a live claim is refused: whatever state a crash left behind, the next claim can go on. */
module AnchorProgress {
  import opened Wrappers
  import opened AnchorTables
  import opened Outbox
  import opened VerusJobs
  import opened AnchorProtocol
  import opened AnchorInvariant
  import opened AnchorPreservation
  import opened AnchorSteps

  /** The evidence about to be committed is not well formed. */
  predicate Malformed(me: Local)
    requires me.Busy?
  {
    match me.stage
    case Record(tx) => !IsHex64(tx)
    case Confirmed(height, hash) => !(0 <= height <= MAX_SAFE_INTEGER && IsHex64(hash))
    case Verify => !IsHex64(me.job.spec.manifestDigest)
    case _ => false
  }

  /** The step is a repository conflict: the worker gives up and its event stays as it was. */
  predicate Refused(g: Global, h: Global, w: WorkerRef, e: EventId)
    requires e in g.db.events
  {
    At(h, w).Idle? && e in h.db.events && h.db.events[e] == g.db.events[e] && h.db.jobs == g.db.jobs
  }

  /** What the latest claim guarantees its holder. */
  predicate Live(g: Global, w: WorkerRef, e: EventId) {
    && At(g, w).Busy? && At(g, w).event == e
    && g.config.leaseMs > 0 && g.config.retry.Valid()
    && e in g.db.events && e in g.db.jobs && e in g.db.anchors && e in g.db.attempts
    && g.db.events[e].eventType == ANCHOR_EVENT_TYPE
    && OwnsLease(g.db, e, w, g.now)
    && At(g, w).job == g.db.jobs[e] && StageShape(At(g, w), TallyOf(g, e))
  }

  lemma LiveFromInvariant(g: Global, w: WorkerRef)
    requires Inv(g) && At(g, w).Busy? && OwnsLease(g.db, At(g, w).event, w, g.now)
    ensures Live(g, w, At(g, w).event) && !At(g, w).stage.CloseDead?
  {
    assert WorkerInv(g, w);
    assert EventInv(g, At(g, w).event);
  }

  /** A command issued under a live claim is refused exactly for its evidence. */
  lemma CommandServed(g: Global, w: WorkerRef, e: EventId, s: Stage, c: Command)
    requires Live(g, w, e) && Stands(g, w, e, g.db.jobs[e], s) && Issues(s, g.db.jobs[e], c)
    ensures Refused(g, Next(g, Act(w, Nothing)), w, e) <==> Malformed(At(g, w))
  {
    CommandStep(g, w, e, g.db.jobs[e], s, c);
  }

  /** Commands ignore the reply. */
  lemma NoReply(g: Global, w: WorkerRef, reply: Reply)
    requires At(g, w).Busy? && !Asks(At(g, w).stage)
    ensures Next(g, Act(w, reply)) == Next(g, Act(w, Nothing))
  {
  }

  lemma DispatchServed(g: Global, w: WorkerRef, e: EventId)
    requires Live(g, w, e) && At(g, w).stage == Dispatch
    ensures !Refused(g, Next(g, Act(w, Nothing)), w, e)
  {
    var job := g.db.jobs[e];
    if job.state in CLAIMABLE_STATES {
      CommandServed(g, w, e, Dispatch, CLAIM_JOB);
    } else if job.state == JobClaimed {
      CommandServed(g, w, e, Dispatch, BEGIN_PREFLIGHT);
    } else if job.state in WORKING_STATES {
      BeatStep(g, w, e, job);
    } else if job.state == Verified {
      SucceedStep(g, w, e, job);
    } else {
      InvalidStateStep(g, w, e, job);
    }
  }

  lemma FailServed(g: Global, w: WorkerRef, e: EventId, error: VerusError)
    requires Live(g, w, e) && At(g, w).stage == Fail(error)
    ensures !Refused(g, Next(g, Act(w, Nothing)), w, e)
  {
    var job := g.db.jobs[e];
    if error.retryable && job.state in WORKING_STATES {
      CommandServed(g, w, e, Fail(error), RetryableFailureOf(error));
    } else if !error.retryable && job.state in WORKING_STATES + {JobRetryableFailed} {
      CommandServed(g, w, e, Fail(error), TerminalFailureOf(error));
    } else {
      SkipJobStep(g, w, e, job, error);
    }
  }

  lemma CloseServed(g: Global, w: WorkerRef, e: EventId)
    requires Live(g, w, e) && (At(g, w).stage.CloseRetryable? || At(g, w).stage.CloseTerminal?)
    ensures !Refused(g, Next(g, Act(w, Nothing)), w, e)
  {
    match At(g, w).stage
    case CloseRetryable(reason) => FailRetryableStep(g, w, e, g.db.jobs[e], reason);
    case CloseTerminal(reason) => FailTerminalStep(g, w, e, g.db.jobs[e], reason);
  }

  lemma AnswerServed(g: Global, w: WorkerRef, e: EventId, reply: Reply)
    requires Live(g, w, e) && Asks(At(g, w).stage)
    ensures !Refused(g, Next(g, Act(w, reply)), w, e)
  {
  }

  lemma ProgressServed(g: Global, w: WorkerRef, e: EventId)
    requires Live(g, w, e)
    requires var s := At(g, w).stage; s.Load? || s.Record? || s.Confirm? || s.Reorganize? || s.Confirmed? || s.Verify?
    ensures Refused(g, Next(g, Act(w, Nothing)), w, e) <==> Malformed(At(g, w))
  {
    match At(g, w).stage
    case Load => LoadStep(g, w, e, g.db.jobs[e]);
    case Record(tx) => CommandServed(g, w, e, Record(tx), RecordSubmissionOf(tx));
    case Confirm => CommandServed(g, w, e, Confirm, BEGIN_CONFIRMATION);
    case Reorganize => CommandServed(g, w, e, Reorganize, REORGANIZE);
    case Confirmed(height, hash) => CommandServed(g, w, e, Confirmed(height, hash), BeginReadbackAt(height, hash));
    case Verify => CommandServed(g, w, e, Verify, VerifyReadbackOf(g.db.jobs[e].spec.manifestDigest));
  }

  /** Under a live claim, in every reachable state, a call conflicts exactly when its evidence is malformed: no re-run
      after a crash ends in a forbidden transition. */
  lemma LiveClaimServed(g: Global, w: WorkerRef, reply: Reply)
    requires Inv(g) && At(g, w).Busy? && OwnsLease(g.db, At(g, w).event, w, g.now)
    ensures Refused(g, Next(g, Act(w, reply)), w, At(g, w).event) <==> Malformed(At(g, w))
  {
    var e, s := At(g, w).event, At(g, w).stage;
    LiveFromInvariant(g, w);
    if Asks(s) {
      AnswerServed(g, w, e, reply);
    } else {
      NoReply(g, w, reply);
      if s.Dispatch? {
        DispatchServed(g, w, e);
      } else if s.Fail? {
        FailServed(g, w, e, s.error);
      } else if s.CloseRetryable? || s.CloseTerminal? {
        CloseServed(g, w, e);
      } else {
        ProgressServed(g, w, e);
      }
    }
  }

  /** The dead letter of an exhausted attempt is recorded whenever its worker gets to it, however late. */
  lemma DeadLetterServed(g: Global, w: WorkerRef, reply: Reply)
    requires Inv(g) && At(g, w).Busy? && At(g, w).stage.CloseDead?
    ensures var h, e := Next(g, Act(w, reply)), At(g, w).event;
            && At(h, w).Idle? && e in h.db.jobs && h.db.jobs[e].state == JobTerminalFailed
            && e in h.db.anchors && h.db.anchors[e].state == JobTerminalFailed
  {
    var e := At(g, w).event;
    assert WorkerInv(g, w);
    assert EventInv(g, e);
    NoReply(g, w, reply);
    DeadLetterOwned(g.db, e, w, At(g, w).attempt);
    MarkDeadStep(g, w, e, At(g, w).job, At(g, w).stage.reason);
  }

  lemma DeadLetterOwned(db: Db, e: EventId, w: WorkerRef, attempt: nat)
    requires e in db.events && e in db.attempts && db.events[e].eventType == ANCHOR_EVENT_TYPE
    requires db.events[e].state == DeadLetter && LedgerShape(db.events[e], db.attempts[e])
    requires |db.attempts[e]| > 0 && db.attempts[e][|db.attempts[e]| - 1].worker == w
    ensures OwnsDeadLetter(db, e, w)
  {
    var i := |db.attempts[e]| - 1;
    assert db.attempts[e][i].attempt == db.events[e].attemptCount;
  }

  /** A dead letter belongs to exactly one worker, the one whose attempt is the last in the ledger. */
  lemma DeadLetterOwnerExactly(g: Global, e: EventId, w: WorkerRef)
    requires Inv(g) && e in g.db.events
    ensures OwnsDeadLetter(g.db, e, w) <==>
              && g.db.events[e].state == DeadLetter
              && g.db.attempts[e] != [] && g.db.attempts[e][|g.db.attempts[e]| - 1].worker == w
  {
    assert EventInv(g, e);
    if g.db.events[e].state == DeadLetter && g.db.attempts[e] != [] && g.db.attempts[e][|g.db.attempts[e]| - 1].worker == w {
      DeadLetterOwned(g.db, e, w, 0);
    }
  }
}

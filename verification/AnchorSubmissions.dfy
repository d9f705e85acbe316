/** How often updateIdentity can be called for one job: the bound over every run, and exactly when a job whose submission
    is known or ambiguous can be submitted again. */
module AnchorSubmissions {
  import opened Wrappers
  import opened AnchorTables
  import opened Outbox
  import opened VerusJobs
  import opened AnchorProtocol
  import opened AnchorInvariant
  import opened AnchorPreservation
  import opened AnchorEffects
  import opened AnchorTheorems

  /** updateIdentity calls of one job, over every schedule of workers, crashes and node replies. */
  lemma SubmissionBound(config: Config, now: Millis, moves: seq<Move>, e: EventId)
    requires ValidConfig(config)
    ensures var t := TallyOf(Run(Start(config, now), moves), e);
            && t.calls == t.submitted + t.ambiguous + t.rejected + t.terminal + t.lost + (if t.open then 1 else 0)
            && t.calls <= 1 + t.lost + t.rejected + t.clears
            && t.accepted <= 1 + t.lost + t.clears
  {
    var g := Reached(config, now, moves);
    if e in g.db.events {
      assert EventInv(g, e);
    }
  }

  /** A call without committed outcome is a call for a job with neither transaction id nor flag. */
  lemma OpenUnblocked(g: Global, e: EventId)
    requires Inv(g) && e in g.db.events && TallyOf(g, e).open
    ensures g.db.jobs[e].transactionId.None? && !g.db.jobs[e].ambiguous
  {
    assert EventInv(g, e);
    assert WorkerInv(g, g.db.events[e].lease.value.owner);
  }

  /** A live claim is about to commit a retryable failure without the flag, over an unresolved ambiguous submission. */
  predicate Unblocks(g: Global, m: Move, e: EventId) {
    && m.Act? && At(g, m.worker).Busy? && At(g, m.worker).event == e && At(g, m.worker).stage.Fail?
    && At(g, m.worker).stage.error.retryable && !At(g, m.worker).stage.error.ambiguous
    && OwnsLease(g.db, e, m.worker, g.now)
    && e in g.db.jobs && g.db.jobs[e].state in WORKING_STATES
    && g.db.jobs[e].ambiguous && g.db.jobs[e].transactionId.None?
  }

  lemma UnblocksClears(g: Global, m: Move, e: EventId)
    requires Inv(g) && e in g.db.events && Unblocks(g, m, e)
    ensures var h := Next(g, m);
            && e in h.db.jobs && Armed(h.db.jobs[e], TallyOf(h, e)) && TallyOf(h, e).clears == TallyOf(g, e).clears + 1
  {
    if TallyOf(g, e).open {
      OpenUnblocked(g, e);
    }
    assert EventInv(g, e);
    LeaseIsCurrent(g, m.worker);
    Knows(g, m.worker);
  }

  /** Only the commit of a retryable failure leads from a working state to `retryable_failed`. */
  predicate FailsRetryably(g: Global, h: Global, e: EventId) {
    e in g.db.jobs && e in h.db.jobs && g.db.jobs[e].state in WORKING_STATES && h.db.jobs[e].state == JobRetryableFailed
  }

  lemma CommitRetryable(g: Global, w: WorkerRef, expected: set<JobState>, next: JobState, ev: Evidence, sync: bool,
                        stage: Stage, e: EventId)
    requires At(g, w).Busy? && next != JobRetryableFailed
    ensures !FailsRetryably(g, Commit(g, w, Transition(g.db, At(g, w).event, w, g.now, expected, next, ev, sync), stage), e)
  {
  }

  lemma DispatchRetryable(g: Global, w: WorkerRef, e: EventId)
    requires At(g, w).Busy?
    ensures !FailsRetryably(g, DoDispatch(g, w), e)
  {
    match At(g, w).job.state
    case JobPending => CommitRetryable(g, w, CLAIMABLE_STATES, JobClaimed, NO_EVIDENCE, false, Dispatch, e);
    case JobRetryableFailed => CommitRetryable(g, w, CLAIMABLE_STATES, JobClaimed, NO_EVIDENCE, false, Dispatch, e);
    case ReorgPending => CommitRetryable(g, w, CLAIMABLE_STATES, JobClaimed, NO_EVIDENCE, false, Dispatch, e);
    case JobClaimed => CommitRetryable(g, w, {JobClaimed}, Preflight, NO_EVIDENCE, false, Dispatch, e);
    case _ =>
  }

  lemma FailRetryable(g: Global, w: WorkerRef, e: EventId)
    requires At(g, w).Busy? && At(g, w).stage.Fail? && FailsRetryably(g, DoFail(g, w), e)
    ensures At(g, w).event == e && At(g, w).stage.error.retryable
    ensures DoFail(g, w).db.jobs[e].ambiguous == At(g, w).stage.error.ambiguous
  {
  }

  lemma AnswerRetryable(g: Global, w: WorkerRef, reply: Reply, e: EventId)
    requires At(g, w).Busy?
    requires var s := At(g, w).stage; s.Guard? || s.Search? || s.Update? || s.Await? || s.Inspect? || s.ReadBack?
    ensures !FailsRetryably(g, DoAct(g, w, reply), e)
  {
    assert DoAct(g, w, reply).db == g.db;
  }

  lemma ProgressRetryable(g: Global, w: WorkerRef, reply: Reply, e: EventId)
    requires At(g, w).Busy?
    requires var s := At(g, w).stage; s.Load? || s.Record? || s.Confirm? || s.Reorganize? || s.Confirmed? || s.Verify?
    ensures !FailsRetryably(g, DoAct(g, w, reply), e)
  {
  }

  lemma ClosingRetryable(g: Global, w: WorkerRef, reply: Reply, e: EventId)
    requires At(g, w).Busy?
    requires var s := At(g, w).stage; s.CloseRetryable? || s.CloseTerminal? || s.CloseDead?
    ensures !FailsRetryably(g, DoAct(g, w, reply), e)
  {
  }

  lemma RetryableNeedsFail(g: Global, w: WorkerRef, reply: Reply, e: EventId)
    requires At(g, w).Busy? && FailsRetryably(g, Next(g, Act(w, reply)), e)
    ensures At(g, w).stage.Fail? && At(g, w).event == e && At(g, w).stage.error.retryable
    ensures Next(g, Act(w, reply)).db.jobs[e].ambiguous == At(g, w).stage.error.ambiguous
  {
    var s := At(g, w).stage;
    if s.Fail? {
      FailRetryable(g, w, e);
    } else if s.Dispatch? {
      DispatchRetryable(g, w, e);
    } else if s.CloseRetryable? || s.CloseTerminal? || s.CloseDead? {
      ClosingRetryable(g, w, reply, e);
    } else if s.Guard? || s.Search? || s.Update? || s.Await? || s.Inspect? || s.ReadBack? {
      AnswerRetryable(g, w, reply, e);
    } else {
      ProgressRetryable(g, w, reply, e);
    }
  }

  lemma ClearsFail(g: Global, m: Move, e: EventId)
    requires Inv(g) && e in g.db.events && TallyOf(Next(g, m), e).clears != TallyOf(g, e).clears
    ensures FailsRetryably(g, Next(g, m), e) && !Untouched(g, Next(g, m), e)
    ensures g.db.jobs[e].ambiguous && g.db.jobs[e].transactionId.None? && !Next(g, m).db.jobs[e].ambiguous
  {
    NextEffect(g, m, e);
  }

  lemma ClearsUnblock(g: Global, m: Move, e: EventId)
    requires Inv(g) && e in g.db.events && TallyOf(Next(g, m), e).clears != TallyOf(g, e).clears
    ensures Unblocks(g, m, e)
  {
    ClearsFail(g, m, e);
    match m
    case Act(w, reply) =>
      OnlyLatestClaimWrites(g, w, reply, e);
      RetryableNeedsFail(g, w, reply, e);
    case Crash(w) => AbandonEffect(g, w, e);
    case _ =>
  }

  /** Exactly when a move lets a blocked job be submitted again, in terms of the state before it: the move is a retryable
      failure without the flag, committed under a live claim. The account counts it as a clear. */
  lemma UnblockedExactly(g: Global, m: Move, e: EventId)
    requires Inv(g) && e in g.db.events
    requires g.db.jobs[e].ambiguous && g.db.jobs[e].transactionId.None?
    ensures var h := Next(g, m);
            && e in h.db.jobs
            && (Armed(h.db.jobs[e], TallyOf(h, e)) <==> Unblocks(g, m, e))
            && TallyOf(h, e).clears == TallyOf(g, e).clears + (if Unblocks(g, m, e) then 1 else 0)
  {
    if Unblocks(g, m, e) {
      UnblocksClears(g, m, e);
    } else {
      BlockedAtFirst(g, e);
      QuietStep(g, m, e);
    }
  }

  /** No call is open, and the next claim could not make one. */
  predicate Blocked(g: Global, e: EventId) {
    e in g.db.jobs && !Armed(g.db.jobs[e], TallyOf(g, e)) && !TallyOf(g, e).open
  }

  lemma BlockedAtFirst(g: Global, e: EventId)
    requires Inv(g) && e in g.db.events && (g.db.jobs[e].transactionId.Some? || g.db.jobs[e].ambiguous)
    ensures Blocked(g, e)
  {
    if TallyOf(g, e).open {
      OpenUnblocked(g, e);
    }
  }

  lemma QuietChange(job: JobRow, t: Tally, after: JobRow, u: Tally)
    requires JobChange(job, t, after, u) && !Armed(job, t) && !t.open && u.clears == t.clears
    ensures !Armed(after, u) && !u.open && u.calls - t.calls == u.lost - t.lost
  {
  }

  /** A blocked job stays so, and only superseded workers call updateIdentity for it, unless the move clears the flag. */
  lemma QuietStep(g: Global, m: Move, e: EventId)
    requires Inv(g) && e in g.db.events && Blocked(g, e) && !Unblocks(g, m, e)
    ensures var h, t := Next(g, m), TallyOf(g, e);
            var u := TallyOf(h, e);
            Blocked(h, e) && u.clears == t.clears && u.calls - t.calls == u.lost - t.lost
  {
    if TallyOf(Next(g, m), e).clears != TallyOf(g, e).clears {
      ClearsUnblock(g, m, e);
    } else {
      NextEffect(g, m, e);
      QuietChange(g.db.jobs[e], TallyOf(g, e), Next(g, m).db.jobs[e], TallyOf(Next(g, m), e));
    }
  }

  /** No move of the run commits a retryable failure without the flag over an unresolved ambiguous submission. */
  predicate NeverUnblocks(g: Global, moves: seq<Move>, e: EventId) {
    forall i | 0 <= i < |moves| :: !Unblocks(Run(g, moves[..i]), moves[i], e)
  }

  lemma NeverBefore(g: Global, moves: seq<Move>, n: nat, e: EventId)
    requires n <= |moves| && NeverUnblocks(g, moves, e)
    ensures NeverUnblocks(g, moves[..n], e)
  {
    forall i | 0 <= i < n ensures !Unblocks(Run(g, moves[..n][..i]), moves[..n][i], e) {
      assert moves[..n][..i] == moves[..i];
    }
  }

  /** The documentation's promise that known or ambiguous submissions are not resubmitted, with its two exceptions: a
      run with an unblocking move, and calls by workers whose claim was superseded. */
  lemma {:induction false} NoResubmission(g: Global, moves: seq<Move>, e: EventId)
    requires Inv(g) && e in g.db.events
    requires g.db.jobs[e].transactionId.Some? || g.db.jobs[e].ambiguous
    requires NeverUnblocks(g, moves, e)
    ensures var h, t := Run(g, moves), TallyOf(g, e);
            var u := TallyOf(h, e);
            e in h.db.events && Blocked(h, e) && u.clears == t.clears && u.calls - t.calls == u.lost - t.lost
    decreases |moves|
  {
    if moves == [] {
      BlockedAtFirst(g, e);
    } else {
      var init := moves[..|moves| - 1];
      NeverBefore(g, moves, |moves| - 1, e);
      NoResubmission(g, init, e);
      RunKeeps(g, init);
      NextEffect(Run(g, init), moves[|moves| - 1], e);
      QuietStep(Run(g, init), moves[|moves| - 1], e);
    }
  }

  lemma UnblockedAfter(g: Global, moves: seq<Move>, i: nat, e: EventId)
    requires Inv(g) && i < |moves| && Unblocks(Run(g, moves[..i]), moves[i], e)
    ensures !Blocked(Run(g, moves[..i + 1]), e)
  {
    RunKeeps(g, moves[..i]);
    UnblocksClears(Run(g, moves[..i]), moves[i], e);
    assert moves[..i + 1][..i] == moves[..i];
  }

  /** A known or ambiguous submission stays blocked throughout a run if and only if no move of the run unblocks it. */
  lemma BlockedThroughoutExactly(g: Global, moves: seq<Move>, e: EventId)
    requires Inv(g) && e in g.db.events
    requires g.db.jobs[e].transactionId.Some? || g.db.jobs[e].ambiguous
    ensures NeverUnblocks(g, moves, e) <==> forall n | 0 <= n <= |moves| :: Blocked(Run(g, moves[..n]), e)
  {
    if NeverUnblocks(g, moves, e) {
      forall n | 0 <= n <= |moves| ensures Blocked(Run(g, moves[..n]), e) {
        NeverBefore(g, moves, n, e);
        NoResubmission(g, moves[..n], e);
      }
    } else {
      var i :| 0 <= i < |moves| && Unblocks(Run(g, moves[..i]), moves[i], e);
      UnblockedAfter(g, moves, i, e);
    }
  }
}

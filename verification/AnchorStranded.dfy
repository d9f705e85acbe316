/** Dead letters: an unfinished job whose event is dead-lettered is repaired only by the worker already about to do so. */
module AnchorStranded {
  import opened Wrappers
  import opened AnchorTables
  import opened Outbox
  import opened VerusJobs
  import opened AnchorProtocol
  import opened AnchorInvariant
  import opened AnchorPreservation
  import opened AnchorSteps
  import opened AnchorEffects
  import opened AnchorTheorems
  import opened AnchorProgress
  import opened AnchorExamples

  predicate Closing(me: Local, e: EventId) {
    me.Busy? && me.event == e && me.stage.CloseDead?
  }

  ghost predicate Unattended(g: Global, e: EventId) {
    forall w :: !Closing(At(g, w), e)
  }

  lemma CommitNotClosing(g: Global, w: WorkerRef, outcome: Option<Db>, next: Stage, e: EventId)
    requires At(g, w).Busy? && !next.CloseDead?
    ensures !Closing(At(Commit(g, w, outcome, next), w), e)
  {
  }

  lemma DispatchNotClosing(g: Global, w: WorkerRef, e: EventId)
    requires At(g, w).Busy?
    ensures !Closing(At(DoDispatch(g, w), w), e)
  {
    var me := At(g, w);
    match me.job.state
    case JobPending => CommitNotClosing(g, w, ClaimJob(g.db, me.event, w, g.now), Dispatch, e);
    case JobRetryableFailed => CommitNotClosing(g, w, ClaimJob(g.db, me.event, w, g.now), Dispatch, e);
    case ReorgPending => CommitNotClosing(g, w, ClaimJob(g.db, me.event, w, g.now), Dispatch, e);
    case JobClaimed => CommitNotClosing(g, w, BeginPreflight(g.db, me.event, w, g.now), Dispatch, e);
    case _ =>
  }

  lemma FailNotClosing(g: Global, w: WorkerRef, e: EventId)
    requires At(g, w).Busy? && At(g, w).stage.Fail?
    ensures !Closing(At(DoFail(g, w), w), e)
  {
  }

  lemma AnswerNotClosing(g: Global, w: WorkerRef, reply: Reply, e: EventId)
    requires At(g, w).Busy? && Asks(At(g, w).stage)
    ensures !Closing(At(DoAct(g, w, reply), w), e)
  {
  }

  lemma PlainNotClosing(g: Global, w: WorkerRef, reply: Reply, e: EventId)
    requires At(g, w).Busy?
    requires var s := At(g, w).stage; s.Load? || s.Record? || s.Confirm? || s.Reorganize? || s.Confirmed? || s.Verify?
    ensures !Closing(At(DoAct(g, w, reply), w), e)
  {
  }

  lemma ClosedNotClosing(g: Global, w: WorkerRef, reply: Reply, e: EventId)
    requires At(g, w).Busy? && (At(g, w).stage.CloseRetryable? || At(g, w).stage.CloseTerminal? || At(g, w).stage.CloseDead?)
    requires !OwnsLease(g.db, e, w, g.now) && !Closing(At(g, w), e)
    ensures !Closing(At(DoAct(g, w, reply), w), e)
  {
  }

  /** Only a live claim leads to the dead-lettering stage. */
  lemma ClosingNeedsLease(g: Global, w: WorkerRef, reply: Reply, e: EventId)
    requires !OwnsLease(g.db, e, w, g.now) && !Closing(At(g, w), e)
    ensures !Closing(At(Next(g, Act(w, reply)), w), e)
  {
    if At(g, w).Busy? {
      var s := At(g, w).stage;
      if Asks(s) {
        AnswerNotClosing(g, w, reply, e);
      } else if s.Dispatch? {
        DispatchNotClosing(g, w, e);
      } else if s.Fail? {
        FailNotClosing(g, w, e);
      } else if s.CloseRetryable? || s.CloseTerminal? || s.CloseDead? {
        ClosedNotClosing(g, w, reply, e);
      } else {
        PlainNotClosing(g, w, reply, e);
      }
    }
  }

  lemma StillUnattended(g: Global, m: Move, e: EventId)
    requires Aligned(g.db) && e in g.db.events && g.db.events[e].state == DeadLetter && Unattended(g, e)
    ensures Unattended(Next(g, m), e)
  {
    var h := Next(g, m);
    forall w ensures !Closing(At(h, w), e) {
      assert !Closing(At(g, w), e);
      if !MovesWorker(m, w) {
        OthersMove(g, m, w);
      } else if m.Act? {
        ClosingNeedsLease(g, w, m.reply, e);
      }
    }
  }

  lemma PassedOver(g: Global, w: WorkerRef, pick: EventId, e: EventId)
    requires Aligned(g.db) && e in g.db.events && g.db.events[e].state == DeadLetter
    ensures Untouched(g, DoTake(g, w, pick), e)
  {
  }

  lemma StrandedStep(g: Global, m: Move, e: EventId)
    requires Inv(g) && e in g.db.events && g.db.events[e].state == DeadLetter && Unattended(g, e)
    ensures Untouched(g, Next(g, m), e)
  {
    match m
    case Act(w, reply) =>
      assert !Closing(At(g, w), e);
      Inert(g, w, reply, e);
    case Crash(w) => AbandonEffect(g, w, e);
    case Take(w, pick) => PassedOver(g, w, pick, e);
    case _ =>
  }

  /** A dead-lettered event with nobody at its job's dead letter never changes again; if the worker crashed in between,
      the job stays retryable and is never retried. */
  lemma {:induction false} DeadLetterStranded(g: Global, moves: seq<Move>, e: EventId)
    requires Inv(g) && e in g.db.events && g.db.events[e].state == DeadLetter && Unattended(g, e)
    ensures Unattended(Run(g, moves), e) && Untouched(g, Run(g, moves), e)
    decreases |moves|
  {
    if moves != [] {
      var init := moves[..|moves| - 1];
      DeadLetterStranded(g, init, e);
      RunKeeps(g, init);
      StrandedStep(Run(g, init), moves[|moves| - 1], e);
      StillUnattended(Run(g, init), moves[|moves| - 1], e);
    }
  }

  /** Some run from here ends with the event's job failed for good. */
  ghost predicate CanBeClosed(g: Global, e: EventId) {
    exists moves :: var h := Run(g, moves); e in h.db.jobs && h.db.jobs[e].state == JobTerminalFailed
  }

  /** The unfinished job of a dead-lettered event is ever dead-lettered itself if and only if a worker stands before just
      that step: no later claim, retry or restart repairs it. */
  lemma DeadLetterRepairedExactly(g: Global, e: EventId)
    requires Inv(g) && e in g.db.events && g.db.events[e].state == DeadLetter
    requires g.db.jobs[e].state != JobTerminalFailed
    ensures CanBeClosed(g, e) <==> exists w :: Closing(At(g, w), e)
  {
    if w :| Closing(At(g, w), e) {
      var move := Act(w, Nothing);
      DeadLetterServed(g, w, Nothing);
      RunOne(g, move);
      var h := Run(g, [move]);
      assert e in h.db.jobs && h.db.jobs[e].state == JobTerminalFailed;
    }
    if CanBeClosed(g, e) && Unattended(g, e) {
      var moves :| var h := Run(g, moves); e in h.db.jobs && h.db.jobs[e].state == JobTerminalFailed;
      DeadLetterStranded(g, moves, e);
    }
  }

  // ---------------------------------------------------------------- instances

  /** The first failure exhausts the budget. */
  const ONCE := Config(10, RetryPolicy(1, 1, 1), AcceptAll)

  lemma Exhausting(g: Global, w: WorkerRef, e: EventId, j: JobState, reason: ErrorClass)
    requires Standing(g, w, e, CloseRetryable(reason), j, false) && j in {JobRetryableFailed, ReorgPending}
    requires g.config.retry == ONCE.retry && g.db.events[e].attemptCount == 1
    ensures var h := Next(g, Act(w, Nothing));
            && e in h.db.events && h.db.events[e].state == DeadLetter && h.db.jobs == g.db.jobs
            && Closing(At(h, w), e) && h.workers.Keys == g.workers.Keys
  {
  }

  /** Worker 1 has dead-lettered the event after an unsynced node, and stands before the job's dead letter. */
  lemma AtDeadLetter() returns (g: Global, moves: seq<Move>)
    ensures g == Run(Start(ONCE, 0), moves)
    ensures 0 in g.db.events && g.db.events[0].state == DeadLetter && Closing(At(g, 1), 0) && g.workers.Keys == {1}
    ensures 0 in g.db.jobs && g.db.jobs[0].state == JobRetryableFailed
  {
    var start, idle, answer := Start(ONCE, 0), Act(1, Nothing), Act(1, NodeError(UNSYNCED));
    var a, first := AtFirstGuard(ONCE);
    Answering(a, 1, 0, Guard, false, UNSYNCED);
    var b := Next(a, answer);
    FailingJob(b, 1, 0, false, UNSYNCED);
    var c := Next(b, idle);
    Exhausting(c, 1, 0, JobRetryableFailed, RpcClass(NodeUnsynced));
    Then(start, first, answer);
    Then(start, first + [answer], idle);
    Then(start, first + [answer] + [idle], idle);
    g, moves := Next(c, idle), first + [answer] + [idle] + [idle];
  }

  /** A run of ten moves: the worker crashes after the event's dead letter, and no later run takes the job out of
      `retryable_failed`. */
  lemma CrashStrandsJob() returns (moves: seq<Move>)
    ensures var g := Run(Start(ONCE, 0), moves);
            && 0 in g.db.events && g.db.events[0].state == DeadLetter && Unattended(g, 0)
            && 0 in g.db.jobs && g.db.jobs[0].state == JobRetryableFailed
            && forall later :: var h := Run(g, later); 0 in h.db.jobs && h.db.jobs[0].state == JobRetryableFailed
  {
    var start := Start(ONCE, 0);
    var a, before := AtDeadLetter();
    Then(start, before, Crash(1));
    moves := before + [Crash(1)];
    var g := Reached(ONCE, 0, moves);
    assert g.db == a.db && g.workers == map[1 := Idle];
    forall later ensures var h := Run(g, later); 0 in h.db.jobs && h.db.jobs[0].state == JobRetryableFailed {
      DeadLetterStranded(g, later, 0);
    }
  }

  // The reorganized job: submitted, seen in a block, and reorganized away under the only claim it has.

  function Confirmation(w: WorkerRef): seq<Move> {
    [Act(w, Nothing)] + [Act(w, Nothing)]
  }

  lemma Confirming(g: Global, w: WorkerRef, e: EventId)
    requires Standing(g, w, e, Dispatch, Submitted, false)
    ensures var h := Run(g, Confirmation(w));
            && Standing(h, w, e, Dispatch, JobState.Confirming, false) && Keeps(g, h, w, e) && h.config == g.config
  {
    var idle := Act(w, Nothing);
    RunOne(g, idle);
    assert Standing(Next(g, idle), w, e, Confirm, Submitted, false);
    Then(g, [idle], idle);
  }

  function Reorganization(w: WorkerRef): seq<Move> {
    [Act(w, Nothing)] + [Act(w, ReorgSeen)] + [Act(w, Nothing)]
  }

  lemma Inspecting(g: Global, w: WorkerRef, e: EventId)
    requires Standing(g, w, e, Dispatch, JobState.Confirming, false) && g.db.jobs[e].transactionId.Some?
    ensures var h := Next(Next(g, Act(w, Nothing)), Act(w, ReorgSeen));
            && Standing(h, w, e, Reorganize, JobState.Confirming, false) && Keeps(g, h, w, e) && h.config == g.config
  {
    assert Standing(Next(g, Act(w, Nothing)), w, e, Inspect, JobState.Confirming, false);
  }

  lemma RecordingReorg(g: Global, w: WorkerRef, e: EventId)
    requires Standing(g, w, e, Reorganize, JobState.Confirming, false)
    ensures var h := Next(g, Act(w, Nothing));
            && Standing(h, w, e, CloseRetryable(ReorgDetected), ReorgPending, false)
            && Keeps(g, h, w, e) && h.config == g.config
  {
  }

  lemma Reorganizing(g: Global, w: WorkerRef, e: EventId)
    requires Standing(g, w, e, Dispatch, JobState.Confirming, false) && g.db.jobs[e].transactionId.Some?
    ensures var h := Run(g, Reorganization(w));
            && Standing(h, w, e, CloseRetryable(ReorgDetected), ReorgPending, false)
            && Keeps(g, h, w, e) && h.config == g.config
  {
    var idle, seen := Act(w, Nothing), Act(w, ReorgSeen);
    RunOne(g, idle);
    Then(g, [idle], seen);
    Inspecting(g, w, e);
    Then(g, [idle] + [seen], idle);
    RecordingReorg(Next(Next(g, idle), seen), w, e);
  }

  /** The only claim of the only event, held by worker 1. */
  predicate OnlyClaim(g: Global, j: JobState) {
    && Standing(g, 1, 0, Dispatch, j, false) && g.db.jobs[0].transactionId.Some?
    && g.db.events[0].attemptCount == 1 && g.config.retry == ONCE.retry
  }

  lemma SubmittedByFirst(a: Global)
    requires Standing(a, 1, 0, Guard, Preflight, false) && TallyOf(a, 0) == NO_CALLS && a.config.retry == ONCE.retry
    requires a.db.events[0].attemptCount == 1 && a.db.jobs[0].transactionId.None? && !a.db.jobs[0].ambiguous
    ensures var b := Run(a, Submit(1));
            OnlyClaim(Next(Next(b, Act(1, CallAnswered(TX))), Act(1, Nothing)), Submitted)
  {
    Submitting(a, 1, 0);
    var b := Run(a, Submit(1));
    Recording(b, 1, 0);
    ConfigStable(a, Submit(1));
    NextConfig(b, Act(1, CallAnswered(TX)));
    NextConfig(Next(b, Act(1, CallAnswered(TX))), Act(1, Nothing));
  }

  /** Worker 1 has recorded the transaction. */
  lemma AtSubmitted() returns (g: Global, moves: seq<Move>)
    ensures g == Run(Start(ONCE, 0), moves) && OnlyClaim(g, Submitted)
  {
    var start, answer, idle := Start(ONCE, 0), Act(1, CallAnswered(TX)), Act(1, Nothing);
    var a, first := AtFirstGuard(ONCE);
    SubmittedByFirst(a);
    RunAppend(start, first, Submit(1));
    Then(start, first + Submit(1), answer);
    Then(start, first + Submit(1) + [answer], idle);
    g, moves := Next(Next(Run(a, Submit(1)), answer), idle), first + Submit(1) + [answer] + [idle];
  }

  /** The job is reorganized away, and its event dead-lettered. */
  lemma AtReorganizedDeadLetter() returns (g: Global, moves: seq<Move>)
    ensures g == Run(Start(ONCE, 0), moves) && Closing(At(g, 1), 0) && 0 in g.db.jobs && g.db.jobs[0].state == ReorgPending
  {
    var start, idle := Start(ONCE, 0), Act(1, Nothing);
    var a, first := AtSubmitted();
    Confirming(a, 1, 0);
    RunAppend(start, first, Confirmation(1));
    var b := Run(a, Confirmation(1));
    Reorganizing(b, 1, 0);
    RunAppend(start, first + Confirmation(1), Reorganization(1));
    var c := Run(b, Reorganization(1));
    Exhausting(c, 1, 0, ReorgPending, ReorgDetected);
    Then(start, first + Confirmation(1) + Reorganization(1), idle);
    g, moves := Next(c, idle), first + Confirmation(1) + Reorganization(1) + [idle];
  }

  /** The step of a reachable job that the domain's commands do not name: dead-lettering a reorganized one. */
  lemma ReorganizedDeadLetter() returns (moves: seq<Move>, last: Move)
    ensures var g := Run(Start(ONCE, 0), moves); 0 in g.db.jobs && g.db.jobs[0].state == ReorgPending
    ensures var h := Run(Start(ONCE, 0), moves + [last]); 0 in h.db.jobs && h.db.jobs[0].state == JobTerminalFailed
    ensures !DomainAllows(ReorgPending, JobTerminalFailed)
  {
    var g;
    g, moves := AtReorganizedDeadLetter();
    last := Act(1, Nothing);
    var h := Reached(ONCE, 0, moves);
    DeadLetterServed(g, 1, Nothing);
    Then(Start(ONCE, 0), moves, last);
  }
}

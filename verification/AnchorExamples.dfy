/** Concrete runs of the worker protocol: each term of the submission bound is needed. */
module AnchorExamples {
  import opened Wrappers
  import opened AnchorTables
  import opened Outbox
  import opened VerusJobs
  import opened AnchorProtocol
  import opened AnchorTheorems

  /** A retry budget of five claims. */
  const PLENTY := RetryPolicy(5, 1, 1)

  /** The only event is `e`, and its job passes the local guards. */
  predicate Usable(g: Global, e: EventId) {
    && g.config.leaseMs > 0 && g.config.retry.Valid()
    && g.db.events.Keys == {e} && e in g.db.jobs && e in g.db.anchors && e in g.db.attempts
    && g.db.events[e].eventType == ANCHOR_EVENT_TYPE
    && g.config.guard(g.db.jobs[e].spec).None?
  }

  /** The event waits for a claim whose `n` predecessors have failed. */
  predicate Waiting(g: Global, e: EventId, n: nat, ambiguous: bool, t: Tally) {
    && Usable(g, e)
    && g.db.events[e].state in {Pending, RetryableFailed} && g.db.events[e].availableAt <= g.now
    && g.db.events[e].attemptCount == n
    && g.db.jobs[e].state in CLAIMABLE_STATES
    && g.db.jobs[e].transactionId.None? && g.db.jobs[e].ambiguous == ambiguous
    && TallyOf(g, e) == t
  }

  /** Worker `w` stands at stage `s` under a live claim, and its copy of the job is up to date. */
  predicate Standing(g: Global, w: WorkerRef, e: EventId, s: Stage, j: JobState, calling: bool) {
    && Usable(g, e)
    && At(g, w) == Busy(e, g.db.events[e].attemptCount, g.db.jobs[e], calling, s)
    && g.db.jobs[e].state == j
    && OwnsLease(g.db, e, w, g.now)
  }

  /** The step changed nothing that the example runs look at. */
  predicate Keeps(g: Global, h: Global, w: WorkerRef, e: EventId)
    requires Usable(g, e) && Usable(h, e)
  {
    && h.now == g.now && TallyOf(h, e) == TallyOf(g, e) && h.db.jobs.Keys == g.db.jobs.Keys
    && h.db.events[e].attemptCount == g.db.events[e].attemptCount
    && h.db.jobs[e].transactionId == g.db.jobs[e].transactionId && h.db.jobs[e].ambiguous == g.db.jobs[e].ambiguous
    && h.workers == g.workers[w := At(h, w)]
  }

  lemma RunOne(g: Global, m: Move)
    ensures Run(g, [m]) == Next(g, m)
  {
    assert [m][..0] == [];
  }

  lemma Then(g: Global, before: seq<Move>, m: Move)
    ensures Run(g, before + [m]) == Next(Run(g, before), m)
  {
    RunAppend(g, before, [m]);
    RunOne(Run(g, before), m);
  }

  lemma Claiming(g: Global, w: WorkerRef, e: EventId, n: nat, ambiguous: bool, t: Tally)
    requires Waiting(g, e, n, ambiguous, t) && At(g, w).Idle?
    ensures var h := Next(g, Take(w, e));
            && Standing(h, w, e, Load, g.db.jobs[e].state, false)
            && h.now == g.now && h.db.events[e].attemptCount == n + 1
            && h.db.jobs == g.db.jobs && TallyOf(h, e) == Lose(t)
            && h.workers.Keys == g.workers.Keys + {w}
  {
  }

  lemma Loading(g: Global, w: WorkerRef, e: EventId, j: JobState)
    requires Standing(g, w, e, Load, j, false)
    ensures var h := Next(g, Act(w, Nothing)); Standing(h, w, e, Dispatch, j, false) && Keeps(g, h, w, e)
  {
  }

  lemma ClaimingJob(g: Global, w: WorkerRef, e: EventId, j: JobState)
    requires Standing(g, w, e, Dispatch, j, false) && j in CLAIMABLE_STATES
    ensures var h := Next(g, Act(w, Nothing)); Standing(h, w, e, Dispatch, JobClaimed, false) && Keeps(g, h, w, e)
  {
  }

  lemma Preflighting(g: Global, w: WorkerRef, e: EventId)
    requires Standing(g, w, e, Dispatch, JobClaimed, false)
    ensures var h := Next(g, Act(w, Nothing)); Standing(h, w, e, Dispatch, Preflight, false) && Keeps(g, h, w, e)
  {
  }

  lemma Beating(g: Global, w: WorkerRef, e: EventId)
    requires Standing(g, w, e, Dispatch, Preflight, false)
    ensures var h := Next(g, Act(w, Nothing)); Standing(h, w, e, Guard, Preflight, false) && Keeps(g, h, w, e)
  {
  }

  /** An uninterrupted claim up to the node preflight. */
  function ToGuard(w: WorkerRef, e: EventId): seq<Move> {
    [Take(w, e)] + [Act(w, Nothing)] + [Act(w, Nothing)] + [Act(w, Nothing)] + [Act(w, Nothing)]
  }

  lemma ReachGuard(g: Global, w: WorkerRef, e: EventId, n: nat, ambiguous: bool, t: Tally)
    requires Waiting(g, e, n, ambiguous, t) && At(g, w).Idle?
    ensures var h := Run(g, ToGuard(w, e));
            && Standing(h, w, e, Guard, Preflight, false)
            && h.now == g.now && h.db.events[e].attemptCount == n + 1 && h.db.jobs.Keys == g.db.jobs.Keys
            && h.db.jobs[e].transactionId.None? && h.db.jobs[e].ambiguous == ambiguous
            && TallyOf(h, e) == Lose(t) && h.workers.Keys == g.workers.Keys + {w}
  {
    var idle := Act(w, Nothing);
    var run := [Take(w, e)];
    RunOne(g, Take(w, e));
    Claiming(g, w, e, n, ambiguous, t);
    Then(g, run, idle);
    Loading(Run(g, run), w, e, g.db.jobs[e].state);
    run := run + [idle];
    Then(g, run, idle);
    ClaimingJob(Run(g, run), w, e, g.db.jobs[e].state);
    run := run + [idle];
    Then(g, run, idle);
    Preflighting(Run(g, run), w, e);
    run := run + [idle];
    Then(g, run, idle);
    Beating(Run(g, run), w, e);
  }

  /** A passed preflight and an accepted call whose answer is still out. */
  function Submit(w: WorkerRef): seq<Move> {
    [Act(w, PreflightPassed)] + [Act(w, CallReceived(true))]
  }

  lemma Submitting(g: Global, w: WorkerRef, e: EventId)
    requires Standing(g, w, e, Guard, Preflight, false)
    requires g.db.jobs[e].transactionId.None? && !g.db.jobs[e].ambiguous
    ensures var h, t := Run(g, Submit(w)), TallyOf(g, e);
            && Standing(h, w, e, Await(true), Preflight, true)
            && h.now == g.now && h.db == g.db && h.workers == g.workers[w := At(h, w)]
            && TallyOf(h, e) == t.(calls := t.calls + 1, accepted := t.accepted + 1, open := true, openAccepted := true)
  {
    RunOne(g, Act(w, PreflightPassed));
    Then(g, [Act(w, PreflightPassed)], Act(w, CallReceived(true)));
  }

  lemma Answering(g: Global, w: WorkerRef, e: EventId, s: Stage, calling: bool, error: VerusError)
    requires Standing(g, w, e, s, Preflight, calling) && (s == Guard || (s.Await? && error.ambiguous))
    ensures var h := Next(g, Act(w, NodeError(error)));
            Standing(h, w, e, Fail(error), Preflight, calling) && Keeps(g, h, w, e)
  {
  }

  lemma FailingJob(g: Global, w: WorkerRef, e: EventId, calling: bool, error: VerusError)
    requires Standing(g, w, e, Fail(error), Preflight, calling) && error.retryable
    ensures var h := Next(g, Act(w, Nothing));
            && Standing(h, w, e, CloseRetryable(RpcClass(error.code)), JobRetryableFailed, false)
            && h.now == g.now && h.db.events == g.db.events && h.workers.Keys == g.workers.Keys + {w}
            && h.db.jobs[e].transactionId == g.db.jobs[e].transactionId && h.db.jobs[e].ambiguous == error.ambiguous
            && TallyOf(h, e) == SettleRetryable(TallyOf(g, e), g.db.jobs[e], error)
  {
  }

  lemma ClosingEvent(g: Global, w: WorkerRef, e: EventId, reason: ErrorClass)
    requires Standing(g, w, e, CloseRetryable(reason), JobRetryableFailed, false)
    requires g.config.retry == PLENTY && 0 < g.db.events[e].attemptCount < 5
    requires g.db.jobs[e].transactionId.None?
    ensures var h := Next(g, Act(w, Nothing));
            && At(h, w).Idle? && h.now == g.now && h.workers.Keys == g.workers.Keys + {w}
            && Waiting(h.(now := h.now + 1), e, g.db.events[e].attemptCount, g.db.jobs[e].ambiguous, TallyOf(g, e))
  {
    assert Delay(g.db.events[e].attemptCount, PLENTY) == 1;
  }

  /** The two commits that follow an answered error. */
  function CommitFailure(w: WorkerRef): seq<Move> {
    [Act(w, Nothing)] + [Act(w, Nothing)]
  }

  lemma CommittingFailure(g: Global, w: WorkerRef, e: EventId, calling: bool, error: VerusError)
    requires Standing(g, w, e, Fail(error), Preflight, calling) && error.retryable
    requires g.config.retry == PLENTY && 0 < g.db.events[e].attemptCount < 5 && g.db.jobs[e].transactionId.None?
    ensures var h := Run(g, CommitFailure(w));
            && At(h, w).Idle? && h.now == g.now
            && Waiting(h.(now := h.now + 1), e, g.db.events[e].attemptCount, error.ambiguous,
                       SettleRetryable(TallyOf(g, e), g.db.jobs[e], error))
  {
    RunOne(g, Act(w, Nothing));
    FailingJob(g, w, e, calling, error);
    Then(g, [Act(w, Nothing)], Act(w, Nothing));
    ClosingEvent(Next(g, Act(w, Nothing)), w, e, RpcClass(error.code));
  }

  /** An error is answered, the failure is committed, the attempt is closed, and the backoff passes. */
  function FailAndWait(w: WorkerRef, error: VerusError, until: Millis): seq<Move> {
    [Act(w, NodeError(error))] + CommitFailure(w) + [Tick(until)]
  }

  lemma FailingAndWaiting(g: Global, w: WorkerRef, e: EventId, s: Stage, calling: bool, error: VerusError)
    requires Standing(g, w, e, s, Preflight, calling) && (s == Guard || (s.Await? && error.ambiguous)) && error.retryable
    requires g.config.retry == PLENTY && 0 < g.db.events[e].attemptCount < 5 && g.db.jobs[e].transactionId.None?
    ensures var h := Run(g, FailAndWait(w, error, g.now + 1));
            && At(h, w).Idle? && h.now == g.now + 1
            && Waiting(h, e, g.db.events[e].attemptCount, error.ambiguous,
                       SettleRetryable(TallyOf(g, e), g.db.jobs[e], error))
  {
    var answer := Act(w, NodeError(error));
    RunOne(g, answer);
    Answering(g, w, e, s, calling, error);
    var a := Next(g, answer);
    assert SettleRetryable(TallyOf(a, e), a.db.jobs[e], error) == SettleRetryable(TallyOf(g, e), g.db.jobs[e], error);
    CommittingFailure(a, w, e, calling, error);
    RunAppend(g, [answer], CommitFailure(w));
    Then(g, [answer] + CommitFailure(w), Tick(g.now + 1));
  }

  function AcceptAll(spec: JobSpec): Option<VerusError> {
    None
  }

  const CONFIG := Config(10, PLENTY, AcceptAll)
  const SPEC := JobSpec("anchor", "subject", "identity@", "uri", "key", "digest", "policy", 1)

  /** Any configuration that lets the job pass. */
  predicate Lenient(config: Config) {
    config.leaseMs > 0 && config.retry.Valid() && config.guard(SPEC).None?
  }

  /** The system with one fresh job. */
  lemma Enqueued(config: Config) returns (g: Global)
    requires Lenient(config)
    ensures g == Run(Start(config, 0), [Enqueue(0, SPEC, "")])
    ensures Waiting(g, 0, 0, false, NO_CALLS) && g.now == 0 && g.workers == map[] && g.db.jobs.Keys == {0}
  {
    RunOne(Start(config, 0), Enqueue(0, SPEC, ""));
    g := Run(Start(config, 0), [Enqueue(0, SPEC, "")]);
  }

  /** Worker 1 has claimed the fresh job and stands before the node preflight. */
  lemma AtFirstGuard(config: Config) returns (g: Global, moves: seq<Move>)
    requires Lenient(config)
    ensures g == Run(Start(config, 0), moves) && g.config == config && moves == [Enqueue(0, SPEC, "")] + ToGuard(1, 0)
    ensures Standing(g, 1, 0, Guard, Preflight, false) && TallyOf(g, 0) == NO_CALLS
    ensures g.now == 0 && g.db.events[0].attemptCount == 1 && g.workers.Keys == {1}
    ensures g.db.jobs.Keys == {0} && g.db.jobs[0].transactionId.None? && !g.db.jobs[0].ambiguous
  {
    var a := Enqueued(config);
    ReachGuard(a, 1, 0, 0, false, NO_CALLS);
    RunAppend(Start(config, 0), [Enqueue(0, SPEC, "")], ToGuard(1, 0));
    g, moves := Run(a, ToGuard(1, 0)), [Enqueue(0, SPEC, "")] + ToGuard(1, 0);
    ConfigStable(Start(config, 0), moves);
  }

  const TIMED_OUT := VerusError(AmbiguousSubmission, true, true)
  const UNSYNCED := VerusError(NodeUnsynced, true, false)

  function FirstAmbiguous(): seq<Move> {
    [Enqueue(0, SPEC, "")] + ToGuard(1, 0) + Submit(1) + FailAndWait(1, TIMED_OUT, 1)
  }

  lemma AfterAmbiguous() returns (g: Global)
    ensures g == Run(Start(CONFIG, 0), FirstAmbiguous())
    ensures Waiting(g, 0, 1, true, NO_CALLS.(calls := 1, accepted := 1, ambiguous := 1, openAccepted := true))
    ensures At(g, 1).Idle? && g.now == 1
  {
    var start := Start(CONFIG, 0);
    var first: seq<Move>;
    g, first := AtFirstGuard(CONFIG);
    Submitting(g, 1, 0);
    RunAppend(start, [Enqueue(0, SPEC, "")] + ToGuard(1, 0), Submit(1));
    g := Run(g, Submit(1));
    ConfigStable(start, first + Submit(1));
    FailingAndWaiting(g, 1, 0, Await(true), true, TIMED_OUT);
    RunAppend(start, [Enqueue(0, SPEC, "")] + ToGuard(1, 0) + Submit(1), FailAndWait(1, TIMED_OUT, 1));
    g := Run(g, FailAndWait(1, TIMED_OUT, 1));
  }

  /** An unsynced node clears an ambiguity and the identity update is accepted a second time, although no call was
      lost and none was rejected: the documented promise fails, and the bound's `clears` term is needed. */
  lemma ClearedAmbiguityResubmits() returns (moves: seq<Move>)
    ensures var t := TallyOf(Run(Start(CONFIG, 0), moves), 0);
            t.accepted == 2 && t.lost == 0 && t.rejected == 0 && t.clears == 1
  {
    var start := Start(CONFIG, 0);
    var g := AfterAmbiguous();
    var t := TallyOf(g, 0);
    moves := FirstAmbiguous();
    ReachGuard(g, 1, 0, 1, true, t);
    RunAppend(start, moves, ToGuard(1, 0));
    moves, g := moves + ToGuard(1, 0), Run(g, ToGuard(1, 0));
    ConfigStable(start, moves);
    FailingAndWaiting(g, 1, 0, Guard, false, UNSYNCED);
    RunAppend(start, moves, FailAndWait(1, UNSYNCED, 2));
    moves, g := moves + FailAndWait(1, UNSYNCED, 2), Run(g, FailAndWait(1, UNSYNCED, 2));
    t := t.(clears := 1);
    ReachGuard(g, 1, 0, 2, false, t);
    RunAppend(start, moves, ToGuard(1, 0));
    moves, g := moves + ToGuard(1, 0), Run(g, ToGuard(1, 0));
    Submitting(g, 1, 0);
    RunAppend(start, moves, Submit(1));
    moves := moves + Submit(1);
  }

  /** A worker that dies before it records the transaction id leaves no trace, and its lease is taken over. */
  lemma Reclaiming(g: Global, w: WorkerRef, e: EventId)
    requires Standing(g, w, e, Await(true), Preflight, true) && g.db.jobs[e].transactionId.None?
    requires !g.db.jobs[e].ambiguous && TallyOf(g, e).open
    ensures var late := Next(Next(g, Crash(w)), Tick(g.db.events[e].lease.value.expiresAt));
            var h := Next(late, Take(w, e));
            && Standing(h, w, e, Load, Preflight, false)
            && h.db.jobs == g.db.jobs && TallyOf(h, e) == Lose(TallyOf(g, e))
  {
    var late := Next(Next(g, Crash(w)), Tick(g.db.events[e].lease.value.expiresAt));
    assert TallyOf(late, e) == Lose(TallyOf(g, e));
    assert Claimable(late.db.events, e, late.now, CLAIM_OPTIONS);
  }

  /** A crash between the node's acceptance and the commit: two accepted calls with no flag cleared. */
  lemma CrashResubmits() returns (moves: seq<Move>)
    ensures var t := TallyOf(Run(Start(CONFIG, 0), moves), 0);
            t.accepted == 2 && t.lost == 1 && t.rejected == 0 && t.clears == 0
  {
    var start, idle := Start(CONFIG, 0), Act(1, Nothing);
    var g: Global;
    g, moves := AtFirstGuard(CONFIG);
    Submitting(g, 1, 0);
    RunAppend(start, moves, Submit(1));
    moves, g := moves + Submit(1), Run(g, Submit(1));
    var due := g.db.events[0].lease.value.expiresAt;
    Reclaiming(g, 1, 0);
    Then(start, moves, Crash(1));
    Then(start, moves + [Crash(1)], Tick(due));
    Then(start, moves + [Crash(1)] + [Tick(due)], Take(1, 0));
    moves := moves + [Crash(1)] + [Tick(due)] + [Take(1, 0)];
    g := Run(start, moves);
    Loading(g, 1, 0, Preflight);
    Then(start, moves, idle);
    moves, g := moves + [idle], Next(g, idle);
    Beating(g, 1, 0);
    Then(start, moves, idle);
    moves, g := moves + [idle], Next(g, idle);
    Submitting(g, 1, 0);
    RunAppend(start, moves, Submit(1));
    moves := moves + Submit(1);
  }

  const TX := seq(64, _ => 'a')

  /** Worker 1 reaches its call, loses its lease to worker 2, and worker 2 records the transaction. */
  lemma Overtaken(g: Global, e: EventId)
    requires Standing(g, 1, e, Update, Preflight, false) && g.db.jobs[e].transactionId.None? && At(g, 2).Idle?
    requires !TallyOf(g, e).open
    ensures var late := Next(g, Tick(g.db.events[e].lease.value.expiresAt));
            var h := Next(late, Take(2, e));
            && Standing(h, 2, e, Load, Preflight, false) && At(h, 1) == At(g, 1)
            && h.db.jobs == g.db.jobs && TallyOf(h, e) == TallyOf(g, e)
  {
    var late := Next(g, Tick(g.db.events[e].lease.value.expiresAt));
    assert Claimable(late.db.events, e, late.now, CLAIM_OPTIONS);
  }

  lemma Recording(g: Global, w: WorkerRef, e: EventId)
    requires Standing(g, w, e, Await(true), Preflight, true) && TallyOf(g, e).open
    ensures var a := Next(g, Act(w, CallAnswered(TX)));
            var h := Next(a, Act(w, Nothing));
            && Standing(h, w, e, Dispatch, Submitted, false) && h.db.jobs[e].transactionId == Some(TX)
            && h.db.events == g.db.events && (forall v | v != w :: At(h, v) == At(g, v))
            && TallyOf(h, e) == SettleSubmitted(TallyOf(g, e))
  {
    var a := Next(g, Act(w, CallAnswered(TX)));
    assert ValidEvidence(NO_EVIDENCE.(transactionId := Some(TX), ambiguous := Some(false)));
    assert At(a, w).stage == Record(TX);
  }

  lemma LateCall(g: Global, w: WorkerRef, e: EventId)
    requires At(g, w).Busy? && At(g, w).event == e && At(g, w).stage == Update && !IsCurrent(g, w)
    ensures var t := TallyOf(g, e);
            var h := Next(g, Act(w, CallReceived(true)));
            h.db == g.db && TallyOf(h, e) == t.(calls := t.calls + 1, accepted := t.accepted + 1, lost := t.lost + 1)
  {
  }

  /** Worker 1 stands before its call while worker 2 holds the only live claim. */
  predicate Stalled(g: Global) {
    && Standing(g, 2, 0, Load, Preflight, false)
    && At(g, 1).Busy? && At(g, 1).event == 0 && At(g, 1).stage == Update
    && g.db.jobs.Keys == {0} && g.db.jobs[0].transactionId.None? && !g.db.jobs[0].ambiguous
    && TallyOf(g, 0) == NO_CALLS
  }

  lemma Passing(g: Global, w: WorkerRef, e: EventId)
    requires Standing(g, w, e, Guard, Preflight, false)
    requires g.db.jobs[e].transactionId.None? && !g.db.jobs[e].ambiguous
    ensures var h := Next(g, Act(w, PreflightPassed));
            Standing(h, w, e, Update, Preflight, false) && Keeps(g, h, w, e) && h.db == g.db
  {
  }

  /** Worker 1 passes the preflight and stops. */
  lemma Stopping() returns (g: Global, moves: seq<Move>)
    ensures g == Run(Start(CONFIG, 0), moves)
    ensures Standing(g, 1, 0, Update, Preflight, false) && At(g, 2).Idle? && TallyOf(g, 0) == NO_CALLS
    ensures g.db.jobs.Keys == {0} && g.db.jobs[0].transactionId.None? && !g.db.jobs[0].ambiguous
  {
    var start, pass := Start(CONFIG, 0), Act(1, PreflightPassed);
    var a, first := AtFirstGuard(CONFIG);
    Passing(a, 1, 0);
    Then(start, first, pass);
    g, moves := Next(a, pass), first + [pass];
  }

  lemma Stalling() returns (g: Global, moves: seq<Move>)
    ensures g == Run(Start(CONFIG, 0), moves) && Stalled(g)
  {
    var a, before := Stopping();
    var start, due := Start(CONFIG, 0), a.db.events[0].lease.value.expiresAt;
    Overtaken(a, 0);
    Then(start, before, Tick(due));
    Then(start, before + [Tick(due)], Take(2, 0));
    g, moves := Next(Next(a, Tick(due)), Take(2, 0)), before + [Tick(due)] + [Take(2, 0)];
  }

  /** Worker 2 loads the job and passes the node preflight. */
  lemma Catching(g: Global) returns (h: Global, moves: seq<Move>)
    requires Stalled(g)
    ensures h == Run(g, moves) && Standing(h, 2, 0, Guard, Preflight, false)
    ensures At(h, 1) == At(g, 1) && TallyOf(h, 0) == NO_CALLS
    ensures h.db.jobs[0].transactionId.None? && !h.db.jobs[0].ambiguous
  {
    var idle := Act(2, Nothing);
    Loading(g, 2, 0, Preflight);
    RunOne(g, idle);
    h := Next(g, idle);
    Beating(h, 2, 0);
    Then(g, [idle], idle);
    moves, h := [idle] + [idle], Next(h, idle);
  }

  /** Worker 2 submits and records the transaction. */
  lemma Overtaking(g: Global) returns (h: Global, moves: seq<Move>)
    requires Standing(g, 2, 0, Guard, Preflight, false) && TallyOf(g, 0) == NO_CALLS
    requires g.db.jobs[0].transactionId.None? && !g.db.jobs[0].ambiguous
    ensures h == Run(g, moves) && At(h, 1) == At(g, 1) && h.db.events == g.db.events
    ensures 0 in h.db.jobs && h.db.jobs[0].transactionId.Some?
    ensures TallyOf(h, 0) == NO_CALLS.(calls := 1, accepted := 1, submitted := 1, openAccepted := true)
  {
    Submitting(g, 2, 0);
    RunOne(g, Act(2, PreflightPassed));
    Then(g, [Act(2, PreflightPassed)], Act(2, CallReceived(true)));
    h := Run(g, Submit(2));
    Recording(h, 2, 0);
    Then(g, Submit(2), Act(2, CallAnswered(TX)));
    Then(g, Submit(2) + [Act(2, CallAnswered(TX))], Act(2, Nothing));
    h := Next(Next(h, Act(2, CallAnswered(TX))), Act(2, Nothing));
    moves := Submit(2) + [Act(2, CallAnswered(TX))] + [Act(2, Nothing)];
  }

  /** A worker that stalls before its call is not stopped by the loss of its lease: the node accepts a second update
      although the job already has its transaction id and no flag was ever set. */
  lemma StaleWorkerResubmits() returns (moves: seq<Move>, late: Move)
    ensures var g := Run(Start(CONFIG, 0), moves);
            && 0 in g.db.jobs && g.db.jobs[0].transactionId.Some? && TallyOf(g, 0).accepted == 1
    ensures var t := TallyOf(Run(Start(CONFIG, 0), moves + [late]), 0);
            t.accepted == 2 && t.lost == 1 && t.rejected == 0 && t.clears == 0
  {
    var start := Start(CONFIG, 0);
    var a, first := Stalling();
    var b, second := Catching(a);
    var c, third := Overtaking(b);
    RunAppend(start, first, second);
    RunAppend(start, first + second, third);
    moves, late := first + second + third, Act(1, CallReceived(true));
    LateCall(c, 1, 0);
    Then(start, moves, late);
  }
}

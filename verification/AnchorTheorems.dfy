/** What the durable anchor protocol guarantees over every run, and where its documentation promises more. */
module AnchorTheorems {
  import opened Wrappers
  import opened AnchorTables
  import opened Outbox
  import opened VerusJobs
  import opened AnchorProtocol
  import opened AnchorInvariant
  import opened AnchorPreservation
  import opened AnchorEffects

  // ---------------------------------------------------------------- joint state and evidence

  /** Outbox event and job in every reachable state, crashes included. */
  lemma JointStates(config: Config, now: Millis, moves: seq<Move>, e: EventId)
    requires ValidConfig(config)
    requires e in Run(Start(config, now), moves).db.events
    ensures var db := Run(Start(config, now), moves).db;
            && e in db.jobs && e in db.attempts && e in db.anchors
            && var o, j := db.events[e].state, db.jobs[e].state;
               && (o == Pending ==> j == JobPending)
               && (o == RetryableFailed ==> j in {JobRetryableFailed, ReorgPending})
               && (o == Succeeded ==> j == Verified)
               && (o == TerminalFailed ==> j == JobTerminalFailed)
               && (o == DeadLetter ==> j in {JobRetryableFailed, ReorgPending, JobTerminalFailed})
               && (j == Verified ==> o in {Claimed, Succeeded})
  {
    var g := Reached(config, now, moves);
    assert EventInv(g, e);
  }

  /** A verified job carries all its evidence, and the anchor row repeats the job outside its two private states. */
  lemma EvidenceComplete(config: Config, now: Millis, moves: seq<Move>, e: EventId)
    requires ValidConfig(config)
    requires e in Run(Start(config, now), moves).db.events
    ensures var db := Run(Start(config, now), moves).db;
            && e in db.jobs && e in db.anchors
            && var job, anchor := db.jobs[e], db.anchors[e];
               && (job.state == Verified ==>
                     && job.transactionId.Some? && job.blockHeight.Some? && job.blockHash.Some?
                     && job.readbackDigest == Some(job.spec.manifestDigest))
               && (job.state !in {JobClaimed, Preflight} ==> anchor.state == job.state)
               && anchor.transactionId == job.transactionId && anchor.readbackDigest == job.readbackDigest
               && anchor.blockHeight == job.blockHeight && anchor.blockHash == job.blockHash
               && (job.ambiguous ==> job.state in {JobRetryableFailed, JobClaimed, Preflight})
  {
    var g := Reached(config, now, moves);
    assert EventInv(g, e);
  }

  /** A transaction id is written once, whatever happens afterwards, reorganizations and retries included. */
  lemma {:induction false} TransactionIdStable(g: Global, moves: seq<Move>, e: EventId)
    requires Inv(g) && e in g.db.events && g.db.jobs[e].transactionId.Some?
    ensures var h := Run(g, moves); e in h.db.jobs && h.db.jobs[e].transactionId == g.db.jobs[e].transactionId
    ensures var h := Run(g, moves); e in h.db.events && h.db.jobs[e].spec == g.db.jobs[e].spec
    decreases |moves|
  {
    if moves != [] {
      var init := moves[..|moves| - 1];
      TransactionIdStable(g, init, e);
      RunKeeps(g, init);
      NextEffect(Run(g, init), moves[|moves| - 1], e);
    }
  }

  // ---------------------------------------------------------------- the attempt ledger

  predicate HasAttempt(ledger: seq<AttemptRow>, k: int) {
    exists i | 0 <= i < |ledger| :: ledger[i].attempt == k
  }

  /** Attempt rows 1..n exactly once each, or 1..n-1 while the event is claimed; one success row iff it succeeded. */
  ghost predicate Conserved(row: EventRow, ledger: seq<AttemptRow>) {
    var closed := row.attemptCount - (if row.state == Claimed then 1 else 0);
    && (forall k :: HasAttempt(ledger, k) <==> 1 <= k <= closed)
    && (forall i, j | 0 <= i < j < |ledger| :: ledger[i].attempt != ledger[j].attempt)
    && (row.state == Succeeded <==> exists i | 0 <= i < |ledger| :: ledger[i].succeeded)
    && (forall i, j | 0 <= i < j < |ledger| :: !(ledger[i].succeeded && ledger[j].succeeded))
  }

  lemma ShapeConserves(row: EventRow, ledger: seq<AttemptRow>)
    requires LedgerShape(row, ledger)
    ensures Conserved(row, ledger)
  {
    var closed := row.attemptCount - (if row.state == Claimed then 1 else 0);
    forall k ensures HasAttempt(ledger, k) <==> 1 <= k <= closed {
      if 1 <= k <= closed {
        assert ledger[k - 1].attempt == k;
      }
    }
    if row.state == Succeeded {
      assert ledger[|ledger| - 1].succeeded;
    }
  }

  lemma LedgerConserved(config: Config, now: Millis, moves: seq<Move>, e: EventId)
    requires ValidConfig(config)
    requires e in Run(Start(config, now), moves).db.events
    ensures var db := Run(Start(config, now), moves).db;
            e in db.attempts && Conserved(db.events[e], db.attempts[e])
  {
    var g := Reached(config, now, moves);
    assert EventInv(g, e);
    ShapeConserves(g.db.events[e], g.db.attempts[e]);
  }

  /** Every claim beyond the retry budget is paid for by an expired lease. */
  lemma ClaimsBounded(config: Config, now: Millis, moves: seq<Move>, e: EventId)
    requires ValidConfig(config)
    requires e in Run(Start(config, now), moves).db.events
    ensures var db := Run(Start(config, now), moves).db;
            e in db.attempts && db.events[e].attemptCount <= config.retry.maxAttempts + ExpiredLeases(db.attempts[e])
  {
    var g := Reached(config, now, moves);
    assert EventInv(g, e);
    ConfigStable(Start(config, now), moves);
  }

  lemma {:induction false} ConfigStable(g: Global, moves: seq<Move>)
    ensures Run(g, moves).config == g.config
    decreases |moves|
  {
    if moves != [] {
      ConfigStable(g, moves[..|moves| - 1]);
      NextConfig(Run(g, moves[..|moves| - 1]), moves[|moves| - 1]);
    }
  }

  lemma NextConfig(g: Global, m: Move)
    ensures Next(g, m).config == g.config
  {
  }

  // ---------------------------------------------------------------- fencing

  /** The worker may write neither through a live lease nor through its dead letter. */
  predicate Fenced(g: Global, w: WorkerRef, x: EventId) {
    At(g, w).Busy? && At(g, w).event == x ==> !OwnsLease(g.db, x, w, g.now) && !At(g, w).stage.CloseDead?
  }

  lemma TransitionInert(g: Global, w: WorkerRef, expected: set<JobState>, next: JobState, ev: Evidence, sync: bool,
                        stage: Stage, x: EventId)
    requires Aligned(g.db) && x in g.db.events && Fenced(g, w, x) && At(g, w).Busy?
    ensures Untouched(g, Commit(g, w, Transition(g.db, At(g, w).event, w, g.now, expected, next, ev, sync), stage), x)
  {
    AbandonEffect(g, w, x);
  }

  lemma BeatInert(g: Global, w: WorkerRef, next: Stage, x: EventId)
    requires Aligned(g.db) && x in g.db.events && Fenced(g, w, x) && At(g, w).Busy?
    ensures Untouched(g, AfterBeat(g, w, next), x)
  {
    AbandonEffect(g, w, x);
  }

  lemma SucceedInert(g: Global, w: WorkerRef, x: EventId)
    requires Aligned(g.db) && x in g.db.events && Fenced(g, w, x) && At(g, w).Busy?
    ensures Untouched(g, Finish(g, w, Succeed(g.db, At(g, w).event, w, g.now)), x)
  {
    AbandonEffect(g, w, x);
  }

  lemma DispatchInert(g: Global, w: WorkerRef, x: EventId)
    requires Aligned(g.db) && x in g.db.events && Fenced(g, w, x) && At(g, w).Busy?
    ensures Untouched(g, DoDispatch(g, w), x)
  {
    match At(g, w).job.state
    case JobPending => TransitionInert(g, w, CLAIMABLE_STATES, JobClaimed, NO_EVIDENCE, false, Dispatch, x);
    case JobRetryableFailed => TransitionInert(g, w, CLAIMABLE_STATES, JobClaimed, NO_EVIDENCE, false, Dispatch, x);
    case ReorgPending => TransitionInert(g, w, CLAIMABLE_STATES, JobClaimed, NO_EVIDENCE, false, Dispatch, x);
    case JobClaimed => TransitionInert(g, w, {JobClaimed}, Preflight, NO_EVIDENCE, false, Dispatch, x);
    case Preflight => BeatInert(g, w, Guard, x);
    case Submitted => BeatInert(g, w, Confirm, x);
    case Confirming => BeatInert(g, w, Inspect, x);
    case Readback => BeatInert(g, w, ReadBack, x);
    case Verified => SucceedInert(g, w, x);
    case JobTerminalFailed =>
  }

  lemma RetryInert(g: Global, w: WorkerRef, x: EventId)
    requires Aligned(g.db) && x in g.db.events && Fenced(g, w, x) && At(g, w).Busy?
    requires At(g, w).stage.Fail? && At(g, w).stage.error.retryable
    ensures Untouched(g, DoFail(g, w), x)
  {
  }

  lemma FailInert(g: Global, w: WorkerRef, x: EventId)
    requires Aligned(g.db) && x in g.db.events && Fenced(g, w, x) && At(g, w).Busy? && At(g, w).stage.Fail?
    ensures Untouched(g, DoFail(g, w), x)
  {
    if At(g, w).stage.error.retryable {
      RetryInert(g, w, x);
    }
  }

  lemma AskInert(g: Global, w: WorkerRef, reply: Reply, x: EventId)
    requires Aligned(g.db) && x in g.db.events && Fenced(g, w, x) && At(g, w).Busy?
    requires var s := At(g, w).stage; s.Guard? || s.Search? || s.Update? || s.Await? || s.Inspect? || s.ReadBack?
    ensures Untouched(g, DoAct(g, w, reply), x)
  {
    assert DoAct(g, w, reply).db == g.db;
  }

  lemma LeaseInert(g: Global, w: WorkerRef, reply: Reply, x: EventId)
    requires Aligned(g.db) && x in g.db.events && Fenced(g, w, x) && At(g, w).Busy?
    requires var s := At(g, w).stage; s.Load? || s.Dispatch? || s.Fail?
    ensures Untouched(g, DoAct(g, w, reply), x)
  {
    match At(g, w).stage
    case Load =>
    case Dispatch => DispatchInert(g, w, x);
    case Fail(_) => FailInert(g, w, x);
  }

  lemma CommitInert(g: Global, w: WorkerRef, reply: Reply, x: EventId)
    requires Aligned(g.db) && x in g.db.events && Fenced(g, w, x) && At(g, w).Busy?
    requires var s := At(g, w).stage; s.Record? || s.Confirm? || s.Reorganize?
    ensures Untouched(g, DoAct(g, w, reply), x)
  {
  }

  lemma EvidenceInert(g: Global, w: WorkerRef, reply: Reply, x: EventId)
    requires Aligned(g.db) && x in g.db.events && Fenced(g, w, x) && At(g, w).Busy?
    requires var s := At(g, w).stage; s.Confirmed? || s.Verify? || s.CloseDead?
    ensures Untouched(g, DoAct(g, w, reply), x)
  {
  }

  lemma CloseInert(g: Global, w: WorkerRef, reply: Reply, x: EventId)
    requires Aligned(g.db) && x in g.db.events && Fenced(g, w, x) && At(g, w).Busy?
    requires var s := At(g, w).stage; s.CloseRetryable? || s.CloseTerminal?
    ensures Untouched(g, DoAct(g, w, reply), x)
  {
  }

  /** A superseded or expired worker changes no row of the event. */
  lemma Inert(g: Global, w: WorkerRef, reply: Reply, x: EventId)
    requires Aligned(g.db) && x in g.db.events && Fenced(g, w, x)
    ensures Untouched(g, Next(g, Act(w, reply)), x)
  {
    if At(g, w).Busy? {
      var s := At(g, w).stage;
      if s.Guard? || s.Search? || s.Update? || s.Await? || s.Inspect? || s.ReadBack? {
        AskInert(g, w, reply, x);
      } else if s.Load? || s.Dispatch? || s.Fail? {
        LeaseInert(g, w, reply, x);
      } else if s.Record? || s.Confirm? || s.Reorganize? {
        CommitInert(g, w, reply, x);
      } else if s.CloseRetryable? || s.CloseTerminal? {
        CloseInert(g, w, reply, x);
      } else {
        EvidenceInert(g, w, reply, x);
      }
    }
  }

  /** Every committed completion, failure, heartbeat or job transition belongs to the latest claim of the event. */
  lemma OnlyLatestClaimWrites(g: Global, w: WorkerRef, reply: Reply, x: EventId)
    requires Inv(g) && x in g.db.events && !Untouched(g, Next(g, Act(w, reply)), x)
    ensures At(g, w).Busy? && At(g, w).event == x && At(g, w).attempt == g.db.events[x].attemptCount
    ensures OwnsLease(g.db, x, w, g.now) || (At(g, w).stage.CloseDead? && OwnsDeadLetter(g.db, x, w))
  {
    if At(g, w).Busy? && At(g, w).event == x {
      assert WorkerInv(g, w);
      assert EventInv(g, x);
    }
    if Fenced(g, w, x) {
      Inert(g, w, reply, x);
    }
  }

  // ---------------------------------------------------------------- schema guards and the domain's transitions

  lemma AnchorGuarded(job: JobRow, anchor: AnchorRow, after: JobRow, anchorAfter: AnchorRow, t: Tally, u: Tally)
    requires InSync(anchor, job) && InSync(anchorAfter, after) && JobChange(job, t, after, u)
    requires after == job ==> anchorAfter == anchor
    requires after.state in {JobClaimed, Preflight} ==> anchorAfter == anchor
    ensures anchor == anchorAfter || TriggerAllowsAnchor(anchor.state, anchorAfter.state)
  {
  }

  /** No committed step is one that the schema's transition guards would reject, and none but the dead-lettering of a
      reorganized job leaves the transitions named by the domain. */
  lemma GuardsNeverFire(g: Global, m: Move, e: EventId)
    requires Inv(g) && e in g.db.events
    ensures var h := Next(g, m);
            && e in h.db.jobs && e in h.db.events
            && var a, b := g.db.jobs[e], h.db.jobs[e];
               && (b == a || (TriggerAllowsJob(a.state, b.state) && b.version == a.version + 1))
               && (b == a || DomainAllows(a.state, b.state) || (a.state == ReorgPending && b.state == JobTerminalFailed))
               && TriggerAllowsEvent(g.db.events[e].state, h.db.events[e].state)
  {
    NextEffect(g, m, e);
  }

  lemma AnchorGuardNeverFires(g: Global, m: Move, e: EventId)
    requires Inv(g) && e in g.db.events
    ensures var h := Next(g, m);
            && e in h.db.anchors
            && var a, b := g.db.anchors[e], h.db.anchors[e];
               a == b || TriggerAllowsAnchor(a.state, b.state)
  {
    var h := Next(g, m);
    NextEffect(g, m, e);
    NextKeeps(g, m);
    assert EventInv(g, e);
    assert EventInv(h, e);
    AnchorGuarded(g.db.jobs[e], g.db.anchors[e], h.db.jobs[e], h.db.anchors[e], TallyOf(g, e), TallyOf(h, e));
  }

  // ---------------------------------------------------------------- one writer per target identity

  ghost predicate SingleWriter(events: map<EventId, EventRow>, now: Millis) {
    forall a, b | a in events && b in events && a != b && HasLiveLease(events[a], now) && HasLiveLease(events[b], now) ::
      !SameAggregate(events[a], events[b])
  }

  /** A worker's step never brings a lease to life. */
  lemma NoNewLease(g: Global, w: WorkerRef, reply: Reply, x: EventId)
    requires Inv(g) && x in g.db.events
    ensures var h := Next(g, Act(w, reply));
            x in h.db.events && (HasLiveLease(h.db.events[x], g.now) ==> HasLiveLease(g.db.events[x], g.now))
  {
    NextEffect(g, Act(w, reply), x);
    if !Untouched(g, Next(g, Act(w, reply)), x) {
      OnlyLatestClaimWrites(g, w, reply, x);
    }
  }

  lemma TakeAlone(g: Global, w: WorkerRef, e: EventId)
    requires Inv(g) && SingleWriter(g.db.events, g.now)
    ensures SingleWriter(DoTake(g, w, e).db.events, g.now)
  {
    var h := DoTake(g, w, e);
    if h != g {
      forall a, b | && a in h.db.events && b in h.db.events && a != b
                    && HasLiveLease(h.db.events[a], g.now) && HasLiveLease(h.db.events[b], g.now)
        ensures !SameAggregate(h.db.events[a], h.db.events[b])
      {
        assert a != e ==> h.db.events[a] == g.db.events[a];
        assert b != e ==> h.db.events[b] == g.db.events[b];
      }
    }
  }

  lemma ActAlone(g: Global, w: WorkerRef, reply: Reply)
    requires Inv(g) && SingleWriter(g.db.events, g.now)
    ensures SingleWriter(Next(g, Act(w, reply)).db.events, g.now)
  {
    var h := Next(g, Act(w, reply));
    forall a, b | && a in h.db.events && b in h.db.events && a != b
                  && HasLiveLease(h.db.events[a], g.now) && HasLiveLease(h.db.events[b], g.now)
      ensures !SameAggregate(h.db.events[a], h.db.events[b])
    {
      NoNewLease(g, w, reply, a);
      NoNewLease(g, w, reply, b);
      NextEffect(g, Act(w, reply), a);
      NextEffect(g, Act(w, reply), b);
    }
  }

  lemma NextAlone(g: Global, m: Move)
    requires Inv(g) && SingleWriter(g.db.events, g.now)
    ensures SingleWriter(Next(g, m).db.events, Next(g, m).now)
  {
    match m
    case Tick(_) =>
    case Enqueue(_, _, _) =>
    case Crash(_) =>
    case Take(w, pick) => TakeAlone(g, w, pick);
    case Act(w, reply) => ActAlone(g, w, reply);
  }

  /** At every instant of every run, one target identity has at most one live lease. */
  lemma {:induction false} AlwaysSingleWriter(config: Config, now: Millis, moves: seq<Move>)
    requires ValidConfig(config)
    ensures var g := Run(Start(config, now), moves); SingleWriter(g.db.events, g.now)
    decreases |moves|
  {
    if moves != [] {
      var init := moves[..|moves| - 1];
      AlwaysSingleWriter(config, now, init);
      var g := Reached(config, now, init);
      NextAlone(g, moves[|moves| - 1]);
    }
  }

  // ---------------------------------------------------------------- no stuck queue

  /** Every deadline stored in the outbox has passed. */
  predicate DeadlinesPassed(events: map<EventId, EventRow>, now: Millis) {
    forall x | x in events ::
      && events[x].availableAt <= now
      && (events[x].lease.Some? ==> events[x].lease.value.expiresAt <= now)
  }

  predicate Final(o: OutboxState) {
    o in {Succeeded, TerminalFailed, DeadLetter}
  }

  /** Once time has passed every stored deadline, exactly the unfinished events can be claimed. */
  lemma NothingStuck(config: Config, now: Millis, moves: seq<Move>, e: EventId)
    requires ValidConfig(config)
    requires var g := Run(Start(config, now), moves); e in g.db.events && DeadlinesPassed(g.db.events, g.now)
    ensures var g := Run(Start(config, now), moves);
            Claimable(g.db.events, e, g.now, CLAIM_OPTIONS) <==> !Final(g.db.events[e].state)
  {
    var g := Reached(config, now, moves);
    assert EventInv(g, e);
    forall x | x in g.db.events ensures !HasLiveLease(g.db.events[x], g.now) {
    }
  }
}

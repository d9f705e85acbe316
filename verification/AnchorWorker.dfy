/** apps/worker/src/verus-worker.ts: the driver that takes one event from claim to completion or failure.
    Between any two of its calls the other workers, the clock and crashes may do anything that the state machine
    allows; the program is proved to be one of the machine's workers. */
module AnchorWorker {
  import opened Wrappers
  import opened AnchorTables
  import opened Outbox
  import opened VerusJobs
  import opened AnchorProtocol
  import opened AnchorInvariant
  import opened AnchorPreservation
  import opened AnchorSteps
  import opened AnchorProgress
  import opened Repositories

  /** What stands for an answer that does not fit the question. */
  function Usual(s: Stage): Reply {
    match s
    case Guard => PreflightPassed
    case Search => EvidenceMissing
    case Update => CallReceived(true)
    case Await(_) => NodeError(BLOCKED)
    case Inspect => StillConfirming
    case ReadBack => ReadbackMatches
    case _ => Nothing
  }

  function Fitting(guard: JobSpec -> Option<VerusError>, job: JobRow, s: Stage, offered: Reply): Reply {
    if Answered(guard, job, s, offered).Some? then offered else Usual(s)
  }

  /** The worker's next step depends on an answer of the node. */
  predicate Questions(g: Global, w: WorkerRef) {
    var me := At(g, w);
    && me.Busy? && Asks(me.stage)
    && (me.stage.Guard? ==> g.config.guard(me.job.spec).None?)
    && (me.stage.Inspect? ==> me.job.transactionId.Some?)
  }

  /** The move after `n` others: reliable workers do not crash, and the node answers what it answers. */
  predicate Possible(g: Global, n: nat, m: Move, reliable: set<WorkerRef>, node: nat -> Reply) {
    && (m.Crash? ==> m.worker !in reliable)
    && (m.Act? && Questions(g, m.worker) ==>
          var me := At(g, m.worker); m.reply == Fitting(g.config.guard, me.job, me.stage, node(n)))
  }

  /** Every move of the account was possible when it was made. */
  ghost predicate Genuine(origin: Global, history: seq<Move>, reliable: set<WorkerRef>, node: nat -> Reply)
    decreases |history|
  {
    history == [] ||
      var n := |history| - 1;
      Genuine(origin, history[..n], reliable, node) && Possible(Run(origin, history[..n]), n, history[n], reliable, node)
  }

  lemma {:induction false} GenuineAt(origin: Global, history: seq<Move>, reliable: set<WorkerRef>, node: nat -> Reply, i: nat)
    requires Genuine(origin, history, reliable, node) && i < |history|
    ensures Possible(Run(origin, history[..i]), i, history[i], reliable, node)
    decreases |history|
  {
    var n := |history| - 1;
    if i < n {
      GenuineAt(origin, history[..n], reliable, node, i);
      assert history[..n][..i] == history[..i];
    }
  }

  lemma AsksNothing(g: Global, w: WorkerRef, e: EventId, job: JobRow, s: Stage)
    requires Stands(g, w, e, job, s) && !Asks(s)
    ensures At(g, w).Busy? && !Questions(g, w)
  {
  }

  lemma CommandAsksNothing(s: Stage, job: JobRow, c: Command)
    requires Issues(s, job, c)
    ensures !Asks(s)
  {
  }

  /** The shared tables, beside the account of everything that has happened to them. */
  class Cluster {
    const pool: Database
    const reliable: set<WorkerRef>     // the workers that never crash
    const node: nat -> Reply           // what the private node answers after so many moves
    var run: Global
    var count: nat
    ghost const origin: Global
    ghost var history: seq<Move>

    constructor (config: Config, pool: Database, reliable: set<WorkerRef>, node: nat -> Reply)
      requires ValidConfig(config) && pool.Contents() == EMPTY_DB
      ensures Valid() && this.pool == pool && this.reliable == reliable && this.node == node
      ensures run == origin == Start(config, 0)
    {
      this.pool, this.reliable, this.node, count := pool, reliable, node, 0;
      run, origin, history := Start(config, 0), Start(config, 0), [];
    }

    /** `history` explains the current state, from the empty system on: reliable workers have not crashed, and every
        question has been answered by the node. */
    ghost predicate Explained()
      reads this
    {
      && ValidConfig(origin.config) && origin == Start(origin.config, origin.now)
      && run == Run(origin, history) && count == |history| && Genuine(origin, history, reliable, node)
    }

    ghost predicate Valid()
      reads this, pool
    {
      Explained() && run.db == pool.Contents()
    }

    /** From `m` up to `n`, the account has no move of worker `w`. */
    ghost predicate NoMoveOf(m: nat, n: nat, w: WorkerRef)
      reads this
    {
      forall i | m <= i < n && i < |history| :: !MovesWorker(history[i], w)
    }

    /** Worker `w` has just crashed, in its first move since `m`. */
    ghost predicate CrashedAtEnd(m: nat, w: WorkerRef)
      reads this
    {
      m < |history| && history[|history| - 1] == Crash(w) && NoMoveOf(m, |history| - 1, w)
    }

    /** The tables have been changed as move `m` changes them. */
    method Observe(m: Move)
      requires Explained() && Possible(run, count, m, reliable, node) && pool.Contents() == Next(run, m).db
      modifies this
      ensures Valid() && run == Next(old(run), m) && history == old(history) + [m]
    {
      assert (history + [m])[..|history|] == history;
      run, history, count := Next(run, m), history + [m], count + 1;
    }

    /** The worker's own step, which asks nothing: if it drops the worker and changes no table, it was refused. */
    method Settle(w: WorkerRef, ghost since: seq<Move>)
      requires Explained() && At(run, w).Busy? && !Questions(run, w) && since <= history
      requires pool.Contents() == Next(run, Act(w, Nothing)).db
      modifies this
      ensures Valid() && run == Next(old(run), Act(w, Nothing)) && history == old(history) + [Act(w, Nothing)]
      ensures run.config == old(run.config)
      ensures At(run, w).Idle? && run.db == old(run.db) ==> InterruptedSince(origin, history, |since|, w)
    {
      if At(Next(run, Act(w, Nothing)), w).Idle? && Next(run, Act(w, Nothing)).db == run.db {
        ConflictInterrupts(origin, history, |since|, w);
      }
      ConfigKept(run, Act(w, Nothing));
      Observe(Act(w, Nothing));
    }

    /** Something happens elsewhere. */
    method Happen(m: Move)
      requires Valid() && Possible(run, count, m, reliable, node)
      modifies this, pool
      ensures Valid() && run == Next(old(run), m) && history == old(history) + [m]
    {
      var db := Next(run, m).db;
      pool.events, pool.attempts, pool.jobs, pool.anchors := db.events, db.attempts, db.jobs, db.anchors;
      Observe(m);
    }

    /** Any moves of others. */
    method Interleave(w: WorkerRef)
      requires Valid()
      modifies this, pool
      ensures Valid() && old(history) <= history && run.config == old(run.config)
      ensures At(run, w) == old(At(run, w)) && NoMoveOf(|old(history)|, |history|, w)
    {
      var n: int := *;
      while n > 0
        invariant Valid() && old(history) <= history && run.config == old(run.config)
        invariant At(run, w) == old(At(run, w)) && NoMoveOf(|old(history)|, |history|, w)
      {
        n := n - 1;
        var m: Move := *;
        if !MovesWorker(m, w) && Possible(run, count, m, reliable, node) {
          OthersMove(run, m, w);
          ConfigKept(run, m);
          Happen(m);
        }
      }
    }

    /** An `await` of worker `w`: any moves of others, and possibly its own crash. */
    method Await(w: WorkerRef) returns (alive: bool)
      requires Valid()
      modifies this, pool
      ensures Valid() && old(history) <= history && run.config == old(run.config)
      ensures if alive then At(run, w) == old(At(run, w)) && NoMoveOf(|old(history)|, |history|, w)
              else CrashedAtEnd(|old(history)|, w) && At(run, w).Idle?
      ensures !alive ==> InterruptedSince(origin, history, |old(history)|, w)
    {
      Interleave(w);
      alive := *;
      alive := alive || w in reliable;
      if !alive {
        ConfigKept(run, Crash(w));
        LastInterrupts(origin, history, |old(history)|, Crash(w), w);
        Happen(Crash(w));
      }
    }
  }

  /** A step of the worker that is refused, because its lease is lost or its evidence malformed: it changes no table. */
  ghost predicate RefusedStep(g: Global, m: Move, w: WorkerRef) {
    && m.Act? && m.worker == w && At(g, w).Busy? && At(Next(g, m), w).Idle? && Next(g, m).db == g.db
    && (!OwnsLease(g.db, At(g, w).event, w, g.now) || Malformed(At(g, w)))
  }

  /** What alone may end `processNext` with an exception. */
  ghost predicate Interrupts(g: Global, m: Move, w: WorkerRef) {
    m == Crash(w) || RefusedStep(g, m, w)
  }

  ghost predicate InterruptedSince(origin: Global, history: seq<Move>, n: nat, w: WorkerRef) {
    exists i :: n <= i < |history| && Interrupts(Run(origin, history[..i]), history[i], w)
  }

  lemma LastInterrupts(origin: Global, history: seq<Move>, n: nat, m: Move, w: WorkerRef)
    requires n <= |history| && Interrupts(Run(origin, history), m, w)
    ensures InterruptedSince(origin, history + [m], n, w)
  {
    assert (history + [m])[..|history|] == history;
  }

  /** A step that drops the worker and leaves the tables alone is refused; no other rule of the machine does that. */
  lemma ConflictInterrupts(origin: Global, history: seq<Move>, n: nat, w: WorkerRef)
    requires ValidConfig(origin.config) && origin == Start(origin.config, origin.now) && n <= |history|
    requires At(Run(origin, history), w).Busy?
    requires var g := Run(origin, history);
             var h := Next(g, Act(w, Nothing));
             At(h, w).Idle? && h.db == g.db
    ensures InterruptedSince(origin, history + [Act(w, Nothing)], n, w)
  {
    var g := Reached(origin.config, origin.now, history);
    assert WorkerInv(g, w);
    if At(g, w).stage.CloseDead? {
      DeadLetterServed(g, w, Nothing);
    } else if OwnsLease(g.db, At(g, w).event, w, g.now) {
      LiveClaimServed(g, w, Nothing);
    }
    LastInterrupts(origin, history, n, Act(w, Nothing), w);
  }

  /** How `processNext` begins. */
  datatype Opening = Crashed | NothingToClaim | Claims(event: EventId)

  /** After `at` moves the worker crashes before it has claimed anything, or finds nothing to claim, or claims the first
      claimable event that no one else has locked. */
  ghost predicate Opens(origin: Global, history: seq<Move>, at: nat, w: WorkerRef, locked: set<EventId>, opening: Opening) {
    && at <= |history|
    && var g := Run(origin, history[..at]);
       match opening
       case Crashed => at == |history| - 1 && history[at] == Crash(w)
       case NothingToClaim =>
         at == |history| && forall x | x !in locked :: !Claimable(g.db.events, x, g.now, CLAIM_OPTIONS)
       case Claims(e) =>
         at < |history| && history[at] == Take(w, e) && IsCandidate(g.db.events, e, g.now, CLAIM_OPTIONS, locked)
  }

  lemma StillOpens(origin: Global, history: seq<Move>, longer: seq<Move>, at: nat, w: WorkerRef, locked: set<EventId>,
                   opening: Opening)
    requires Opens(origin, history, at, w, locked, opening) && opening.Claims? && history <= longer
    ensures Opens(origin, longer, at, w, locked, opening)
  {
    assert longer[..at] == history[..at];
  }

  lemma ConfigKept(g: Global, m: Move)
    ensures Next(g, m).config == g.config
  {
  }

  lemma TakeStep(g: Global, w: WorkerRef, e: EventId)
    requires Inv(g) && At(g, w).Idle? && Claimable(g.db.events, e, g.now, CLAIM_OPTIONS)
    ensures var h := Next(g, Take(w, e));
            && h.db == Claim(g.db, e, w, g.now, g.config.leaseMs)
            && e in h.db.jobs && Stands(h, w, e, h.db.jobs[e], Load)
  {
  }

  /** Where a passed preflight leads. */
  function AfterPreflight(job: JobRow): Stage {
    if job.transactionId.Some? then Record(job.transactionId.value) else if job.ambiguous then Search else Update
  }

  /** VerusWorkerResult; `Thrown` is a rethrown repository conflict, or a crash. */
  datatype WorkerResult = Paused | IdleQueue | VerifiedJob | RetryableFailedJob | TerminalFailedJob | DeadLetterJob
                        | ReorgPendingJob | Thrown

  /** What a phase of `processNext` ends with. */
  datatype Phase = Stored(job: JobRow) | Raised(error: VerusError) | Gone

  /** The end of `processNext`: what `result` says about the event and the job it worked on. */
  predicate Reports(result: WorkerResult, db: Db, e: EventId) {
    && e in db.events && e in db.jobs
    && var o, j := db.events[e].state, db.jobs[e].state;
       match result
       case VerifiedJob => o == Succeeded && j == Verified
       case RetryableFailedJob => o == RetryableFailed && j == JobRetryableFailed
       case ReorgPendingJob => o == RetryableFailed && j == ReorgPending
       case TerminalFailedJob => o == TerminalFailed && j == JobTerminalFailed
       case DeadLetterJob => o == DeadLetter && j == JobTerminalFailed
       case _ => false
  }

  /** A committed closing finds the job as the worker left it. */
  lemma Unmoved(origin: Global, history: seq<Move>, w: WorkerRef, e: EventId, job: JobRow, s: Stage)
    requires ValidConfig(origin.config) && origin == Start(origin.config, origin.now)
    requires Stands(Run(origin, history), w, e, job, s)
    requires OwnsLease(Run(origin, history).db, e, w, Run(origin, history).now)
    ensures var g := Run(origin, history);
            && e in g.db.jobs && g.db.jobs[e] == job
            && StageShape(At(g, w), TallyOf(g, e))
  {
    var g := Reached(origin.config, origin.now, history);
    assert WorkerInv(g, w);
  }

  class VerusAnchorWorker {
    const me: WorkerRef
    const cluster: Cluster
    const outbox: OutboxRepository
    const jobs: VerusJobRepository
    const writeCapabilityEnabled: bool

    constructor (me: WorkerRef, cluster: Cluster, writeCapabilityEnabled: bool)
      requires cluster.Valid()
      ensures Valid() && this.me == me && this.cluster == cluster
    {
      this.me, this.cluster := me, cluster;
      this.writeCapabilityEnabled := writeCapabilityEnabled;
      outbox := new OutboxRepository(cluster.pool);
      jobs := new VerusJobRepository(cluster.pool);
    }

    ghost predicate Valid()
      reads cluster, cluster.pool
    {
      cluster.Valid() && outbox.pool == cluster.pool && jobs.pool == cluster.pool
    }

    ghost predicate Here(e: EventId, job: JobRow, s: Stage)
      reads cluster
    {
      Stands(cluster.run, me, e, job, s)
    }

    /** The worker has crashed or been refused since the account was `since`. */
    ghost predicate Interrupted(since: seq<Move>)
      reads cluster
    {
      InterruptedSince(cluster.origin, cluster.history, |since|, me)
    }

    ghost predicate Away()
      reads cluster
    {
      At(cluster.run, me).Idle?
    }

    // -------------------------------------------------------------- single calls

    method Load(e: EventId, ghost job: JobRow) returns (r: Outcome<JobRow>)
      requires Valid() && Here(e, job, Stage.Load)
      modifies cluster, cluster.pool
      ensures Valid() && old(cluster.history) <= cluster.history && cluster.run.config == old(cluster.run.config)
      ensures if r.Done? then Here(e, r.value, Dispatch) else Away() && Interrupted(old(cluster.history))
    {
      var alive := cluster.Await(me);
      if !alive {
        return Conflict;
      }
      r := jobs.LoadForClaim(e, me, cluster.run.now);
      LoadStep(cluster.run, me, e, job);
      cluster.Settle(me, old(cluster.history));
    }

    method Issue(e: EventId, job: JobRow, ghost s: Stage, c: Command) returns (r: Outcome<JobRow>)
      requires Valid() && Here(e, job, s) && Issues(s, job, c)
      modifies cluster, cluster.pool
      ensures Valid() && old(cluster.history) <= cluster.history && cluster.run.config == old(cluster.run.config)
      ensures if r.Done? then Here(e, r.value, c.after) && r.value.state == c.next
              else Away() && Interrupted(old(cluster.history))
    {
      var alive := cluster.Await(me);
      if !alive {
        return Conflict;
      }
      r := jobs.Transition(e, me, cluster.run.now, c.expected, c.next, c.evidence, c.syncAnchor);
      CommandStep(cluster.run, me, e, job, s, c);
      CommandAsksNothing(s, job, c);
      AsksNothing(cluster.run, me, e, job, s);
      cluster.Settle(me, old(cluster.history));
    }

    method Heartbeat(e: EventId, job: JobRow) returns (ok: bool)
      requires Valid() && Here(e, job, Dispatch) && job.state in WORKING_STATES
      modifies cluster, cluster.pool
      ensures Valid() && old(cluster.history) <= cluster.history && cluster.run.config == old(cluster.run.config)
      ensures if ok then Here(e, job, AfterHeartbeat(job.state)) else Away() && Interrupted(old(cluster.history))
    {
      ok := cluster.Await(me);
      if !ok {
        return;
      }
      var beat := outbox.Heartbeat(e, me, cluster.run.now, cluster.run.config.leaseMs);
      BeatStep(cluster.run, me, e, job);
      AsksNothing(cluster.run, me, e, job, Dispatch);
      cluster.Settle(me, old(cluster.history));
      ok := beat.Done?;
    }

    method Ask(e: EventId, job: JobRow, s: Stage) returns (alive: bool, reply: Reply)
      requires Valid() && Here(e, job, s) && Questions(cluster.run, me)
      modifies cluster, cluster.pool
      ensures Valid() && old(cluster.history) <= cluster.history && cluster.run.config == old(cluster.run.config)
      ensures if alive then
                var next := Answered(cluster.run.config.guard, job, s, reply);
                next.Some? && Here(e, job, next.value)
              else Away() && Interrupted(old(cluster.history))
    {
      reply := Nothing;
      alive := cluster.Await(me);
      if alive {
        reply := Fitting(cluster.run.config.guard, job, s, cluster.node(cluster.count));
        AnswerStep(cluster.run, me, e, job, s, reply);
        ConfigKept(cluster.run, Act(me, reply));
        cluster.Observe(Act(me, reply));
      }
    }

    // -------------------------------------------------------------- phases

    /** The local guards and the node preflight. */
    method CheckPreflight(e: EventId, job: JobRow) returns (r: Phase)
      requires Valid() && Here(e, job, Guard)
      modifies cluster, cluster.pool
      ensures Valid() && old(cluster.history) <= cluster.history && cluster.run.config == old(cluster.run.config)
      ensures r.Stored? ==> r.job == job && Here(e, job, AfterPreflight(job))
      ensures r.Raised? ==> Here(e, job, Fail(r.error))
      ensures r.Gone? ==> Away() && Interrupted(old(cluster.history))
    {
      var verdict := cluster.run.config.guard(job.spec);
      if verdict.Some? {
        AnswerStep(cluster.run, me, e, job, Guard, Nothing);
        ConfigKept(cluster.run, Act(me, Nothing));
        cluster.Observe(Act(me, Nothing));
        return Raised(verdict.value);
      }
      var alive, reply := Ask(e, job, Guard);
      if !alive {
        return Gone;
      } else if reply.NodeError? {
        return Raised(reply.error);
      }
      return Stored(job);
    }

    /** The transaction id to record: the stored one, one found by readback after an ambiguous submission, or the
        answer to a new identity update. */
    method ObtainTransaction(e: EventId, job: JobRow) returns (r: Phase, transactionId: string)
      requires Valid() && Here(e, job, AfterPreflight(job))
      modifies cluster, cluster.pool
      ensures Valid() && old(cluster.history) <= cluster.history
      ensures r.Stored? ==> r.job == job && Here(e, job, Record(transactionId))
      ensures r.Raised? ==> Here(e, job, Fail(r.error))
      ensures r.Gone? ==> Away() && Interrupted(old(cluster.history))
    {
      if job.transactionId.Some? {
        return Stored(job), job.transactionId.value;
      }
      var alive, reply;
      if job.ambiguous {
        alive, reply := Ask(e, job, Search);
        if reply.EvidenceMissing? && alive {
          return Raised(BLOCKED), "";
        }
      } else {
        alive, reply := Ask(e, job, Update);
        if alive && reply.CallReceived? {
          alive, reply := Ask(e, job, Stage.Await(reply.accepted));
        }
      }
      if !alive {
        return Gone, "";
      } else if reply.NodeError? {
        return Raised(reply.error), "";
      }
      return Stored(job), reply.tx;
    }

    method PreflightAndSubmit(e: EventId, job: JobRow) returns (r: Phase)
      requires Valid() && Here(e, job, Dispatch) && job.state == Preflight
      modifies cluster, cluster.pool
      ensures Valid() && old(cluster.history) <= cluster.history
      ensures r.Stored? ==> Here(e, r.job, Dispatch) && r.job.state == Submitted
      ensures r.Raised? ==> Here(e, job, Fail(r.error))
      ensures r.Gone? ==> Away() && Interrupted(old(cluster.history))
    {
      var beat := Heartbeat(e, job);
      if !beat {
        return Gone;
      }
      r := CheckPreflight(e, job);
      if r.Stored? {
        r := SubmitOnce(e, job);
      }
    }

    /** The transaction id, and the committed submission. */
    method SubmitOnce(e: EventId, job: JobRow) returns (r: Phase)
      requires Valid() && Here(e, job, AfterPreflight(job))
      modifies cluster, cluster.pool
      ensures Valid() && old(cluster.history) <= cluster.history
      ensures r.Stored? ==> Here(e, r.job, Dispatch) && r.job.state == Submitted
      ensures r.Raised? ==> Here(e, job, Fail(r.error))
      ensures r.Gone? ==> Away() && Interrupted(old(cluster.history))
    {
      var transactionId;
      r, transactionId := ObtainTransaction(e, job);
      if !r.Stored? {
        return;
      }
      var recorded := Issue(e, job, Record(transactionId), RecordSubmissionOf(transactionId));
      r := if recorded.Done? then Stored(recorded.value) else Gone;
    }

    method DeadLetterJobOf(e: EventId, job: JobRow, reason: ErrorClass) returns (result: WorkerResult)
      requires Valid() && Here(e, job, CloseDead(reason))
      modifies cluster, cluster.pool
      ensures Valid() && old(cluster.history) <= cluster.history && Away()
      ensures result in {DeadLetterJob, Thrown} && (result == Thrown ==> Interrupted(old(cluster.history)))
      ensures result == DeadLetterJob ==> Reports(result, cluster.run.db, e)
    {
      var alive := cluster.Await(me);
      if !alive {
        return Thrown;
      }
      var dead := jobs.MarkDeadLetter(e, me, reason);
      MarkDeadStep(cluster.run, me, e, job, reason);
      cluster.Settle(me, old(cluster.history));
      return if dead.Done? then DeadLetterJob else Thrown;
    }

    method CloseRetryably(e: EventId, job: JobRow, reason: ErrorClass) returns (closed: Outcome<OutboxState>)
      requires Valid() && Here(e, job, CloseRetryable(reason))
      modifies cluster, cluster.pool
      ensures Valid() && old(cluster.history) <= cluster.history
      ensures if closed.Done? && closed.value == DeadLetter then Here(e, job, CloseDead(reason)) else Away()
      ensures closed.Conflict? ==> Interrupted(old(cluster.history))
      ensures closed.Done? ==>
                && closed.value in {RetryableFailed, DeadLetter}
                && e in cluster.run.db.events && cluster.run.db.events[e].state == closed.value
                && e in cluster.run.db.jobs && cluster.run.db.jobs[e] == job
    {
      var alive := cluster.Await(me);
      if !alive {
        return Conflict;
      }
      closed := outbox.FailRetryable(e, me, cluster.run.now, reason, cluster.run.config.retry);
      FailRetryableStep(cluster.run, me, e, job, reason);
      if closed.Done? {
        Unmoved(cluster.origin, cluster.history, me, e, job, CloseRetryable(reason));
      }
      cluster.Settle(me, old(cluster.history));
    }

    method FailOutboxRetryable(e: EventId, job: JobRow, reason: ErrorClass, nonExhausted: WorkerResult)
      returns (result: WorkerResult)
      requires Valid() && Here(e, job, CloseRetryable(reason)) && nonExhausted in {RetryableFailedJob, ReorgPendingJob}
      modifies cluster, cluster.pool
      ensures Valid() && old(cluster.history) <= cluster.history && Away()
      ensures result in {nonExhausted, DeadLetterJob, Thrown} && (result == Thrown ==> Interrupted(old(cluster.history)))
      ensures result == DeadLetterJob ==> Reports(result, cluster.run.db, e)
      ensures result == nonExhausted ==>
                && e in cluster.run.db.events && cluster.run.db.events[e].state == RetryableFailed
                && e in cluster.run.db.jobs && cluster.run.db.jobs[e] == job
    {
      var closed := CloseRetryably(e, job, reason);
      if closed.Conflict? {
        return Thrown;
      } else if closed.value == DeadLetter {
        result := DeadLetterJobOf(e, job, reason);
      } else {
        result := nonExhausted;
      }
    }

    method CloseTerminally(e: EventId, job: JobRow, reason: ErrorClass) returns (result: WorkerResult)
      requires Valid() && Here(e, job, CloseTerminal(reason))
      modifies cluster, cluster.pool
      ensures Valid() && old(cluster.history) <= cluster.history && Away()
      ensures result in {TerminalFailedJob, Thrown} && (result == Thrown ==> Interrupted(old(cluster.history)))
      ensures result != Thrown ==> Reports(result, cluster.run.db, e)
    {
      var alive := cluster.Await(me);
      if !alive {
        return Thrown;
      }
      var closed := outbox.FailTerminal(e, me, cluster.run.now, reason);
      FailTerminalStep(cluster.run, me, e, job, reason);
      if closed.Done? {
        Unmoved(cluster.origin, cluster.history, me, e, job, CloseTerminal(reason));
      }
      cluster.Settle(me, old(cluster.history));
      if closed.Conflict? {
        return Thrown;
      }
      return TerminalFailedJob;
    }

    /** `handleFailure`'s two job updates: the failed job, unless the update was refused. */
    method FailJob(e: EventId, job: JobRow, error: VerusError, fails: set<JobState>, c: Command) returns (r: Outcome<JobRow>)
      requires Valid() && Here(e, job, Fail(error))
      requires fails == if error.retryable then WORKING_STATES else WORKING_STATES + {JobRetryableFailed}
      requires c == if error.retryable then RetryableFailureOf(error) else TerminalFailureOf(error)
      modifies cluster, cluster.pool
      ensures Valid() && old(cluster.history) <= cluster.history
      ensures r.Done? ==> Here(e, r.value, c.after)
      ensures r.Done? ==> if job.state in fails then r.value.state == c.next else r.value == job
      ensures r.Conflict? ==> Away() && Interrupted(old(cluster.history))
    {
      if job.state in fails {
        r := Issue(e, job, Fail(error), c);
      } else {
        SkipJobStep(cluster.run, me, e, job, error);
        cluster.Observe(Act(me, Nothing));
        r := Done(job);
      }
    }

    method HandleFailure(e: EventId, job: JobRow, error: VerusError) returns (result: WorkerResult)
      requires Valid() && Here(e, job, Fail(error))
      modifies cluster, cluster.pool
      ensures Valid() && old(cluster.history) <= cluster.history && Away()
      ensures result == Thrown ==> Interrupted(old(cluster.history))
      ensures result in (if error.retryable then {RetryableFailedJob, DeadLetterJob, Thrown} else {TerminalFailedJob, Thrown})
      ensures result in {TerminalFailedJob, DeadLetterJob} ==> Reports(result, cluster.run.db, e)
      ensures result == RetryableFailedJob && job.state in WORKING_STATES ==> Reports(result, cluster.run.db, e)
    {
      if error.retryable {
        var failed := FailJob(e, job, error, WORKING_STATES, RetryableFailureOf(error));
        if failed.Conflict? {
          return Thrown;
        }
        result := FailOutboxRetryable(e, failed.value, RpcClass(error.code), RetryableFailedJob);
      } else {
        var failed := FailJob(e, job, error, WORKING_STATES + {JobRetryableFailed}, TerminalFailureOf(error));
        if failed.Conflict? {
          return Thrown;
        }
        result := CloseTerminally(e, failed.value, RpcClass(error.code));
      }
    }

    /** Preflight and confirmation bookkeeping up to a job that has left the claimable states. */
    method Prepare(e: EventId, loaded: JobRow) returns (r: Phase)
      requires Valid() && Here(e, loaded, Dispatch)
      modifies cluster, cluster.pool
      ensures Valid() && old(cluster.history) <= cluster.history && !r.Raised?
      ensures r.Stored? ==> Here(e, r.job, Dispatch) && r.job.state !in CLAIMABLE_STATES + {JobClaimed}
      ensures r.Gone? ==> Away() && Interrupted(old(cluster.history))
    {
      var job := loaded;
      if job.state in {JobPending, JobRetryableFailed, ReorgPending} {
        var claimed := Issue(e, job, Dispatch, CLAIM_JOB);
        if claimed.Conflict? {
          return Gone;
        }
        job := claimed.value;
      }
      if job.state == JobClaimed {
        var begun := Issue(e, job, Dispatch, BEGIN_PREFLIGHT);
        if begun.Conflict? {
          return Gone;
        }
        job := begun.value;
      }
      return Stored(job);
    }

    method Confirm(e: EventId, job: JobRow) returns (r: Phase)
      requires Valid() && Here(e, job, Dispatch) && job.state == Submitted
      modifies cluster, cluster.pool
      ensures Valid() && old(cluster.history) <= cluster.history && !r.Raised?
      ensures r.Stored? ==> Here(e, r.job, Dispatch) && r.job.state == Confirming
      ensures r.Gone? ==> Away() && Interrupted(old(cluster.history))
    {
      var beat := Heartbeat(e, job);
      if !beat {
        return Gone;
      }
      var moved := Issue(e, job, Stage.Confirm, BEGIN_CONFIRMATION);
      r := if moved.Done? then Stored(moved.value) else Gone;
    }

    /** The node's view of the transaction: an error, a reorganization, or a confirmed block. */
    method AskConfirmation(e: EventId, job: JobRow) returns (r: Phase, reply: Reply)
      requires Valid() && Here(e, job, Stage.Inspect)
      modifies cluster, cluster.pool
      ensures Valid() && old(cluster.history) <= cluster.history && cluster.run.config == old(cluster.run.config)
      ensures r.Stored? ==> || (reply.ReorgSeen? && Here(e, job, Reorganize))
                            || (reply.ConfirmedAt? && Here(e, job, Confirmed(reply.height, reply.hash)))
      ensures r.Raised? ==> Here(e, job, Fail(r.error))
      ensures r.Gone? ==> Away() && Interrupted(old(cluster.history))
    {
      reply := Nothing;
      if job.transactionId.None? {
        AnswerStep(cluster.run, me, e, job, Stage.Inspect, Nothing);
        ConfigKept(cluster.run, Act(me, Nothing));
        cluster.Observe(Act(me, Nothing));
        return Raised(INVALID_STATE), reply;
      }
      var alive;
      alive, reply := Ask(e, job, Stage.Inspect);
      if !alive {
        return Gone, reply;
      } else if reply.NodeError? {
        return Raised(reply.error), reply;
      } else if reply.StillConfirming? {
        return Raised(VerusError(ConfirmationPending, true, false)), reply;
      }
      return Stored(job), reply;
    }

    /** A reorganized transaction comes back as a job in `reorg_pending`, ready to close its outbox attempt. */
    method Inspect(e: EventId, job: JobRow) returns (r: Phase)
      requires Valid() && Here(e, job, Dispatch) && job.state == Confirming
      modifies cluster, cluster.pool
      ensures Valid() && old(cluster.history) <= cluster.history
      ensures r.Stored? ==> || (r.job.state == Readback && Here(e, r.job, Dispatch))
                            || (r.job.state == ReorgPending && Here(e, r.job, CloseRetryable(ReorgDetected)))
      ensures r.Raised? ==> Here(e, job, Fail(r.error))
      ensures r.Gone? ==> Away() && Interrupted(old(cluster.history))
    {
      var beat := Heartbeat(e, job);
      if !beat {
        return Gone;
      }
      var reply;
      r, reply := AskConfirmation(e, job);
      if !r.Stored? {
        return;
      }
      r := RecordConfirmation(e, job, reply);
    }

    method RecordConfirmation(e: EventId, job: JobRow, reply: Reply) returns (r: Phase)
      requires Valid()
      requires || (reply.ReorgSeen? && Here(e, job, Reorganize))
               || (reply.ConfirmedAt? && Here(e, job, Confirmed(reply.height, reply.hash)))
      modifies cluster, cluster.pool
      ensures Valid() && old(cluster.history) <= cluster.history && !r.Raised?
      ensures r.Stored? ==> || (r.job.state == Readback && Here(e, r.job, Dispatch))
                            || (r.job.state == ReorgPending && Here(e, r.job, CloseRetryable(ReorgDetected)))
      ensures r.Gone? ==> Away() && Interrupted(old(cluster.history))
    {
      var moved;
      if reply.ReorgSeen? {
        moved := Issue(e, job, Reorganize, REORGANIZE);
      } else {
        moved := Issue(e, job, Confirmed(reply.height, reply.hash), BeginReadbackAt(reply.height, reply.hash));
      }
      r := if moved.Done? then Stored(moved.value) else Gone;
    }

    /** The identity's content: an error, a mismatch, or the exact digest. */
    method AskReadback(e: EventId, job: JobRow) returns (r: Phase)
      requires Valid() && Here(e, job, ReadBack)
      modifies cluster, cluster.pool
      ensures Valid() && old(cluster.history) <= cluster.history
      ensures r.Stored? ==> Here(e, job, Verify)
      ensures r.Raised? ==> Here(e, job, Fail(r.error))
      ensures r.Gone? ==> Away() && Interrupted(old(cluster.history))
    {
      var alive, reply := Ask(e, job, ReadBack);
      if !alive {
        return Gone;
      } else if reply.NodeError? {
        return Raised(reply.error);
      } else if reply.ReadbackMismatches? {
        return Raised(VerusError(ReadbackMismatch, false, false));
      }
      return Stored(job);
    }

    method VerifyContent(e: EventId, job: JobRow) returns (r: Phase)
      requires Valid() && Here(e, job, Dispatch) && job.state == Readback
      modifies cluster, cluster.pool
      ensures Valid() && old(cluster.history) <= cluster.history
      ensures r.Stored? ==> Here(e, r.job, Dispatch) && r.job.state == Verified
      ensures r.Raised? ==> Here(e, job, Fail(r.error))
      ensures r.Gone? ==> Away() && Interrupted(old(cluster.history))
    {
      var beat := Heartbeat(e, job);
      if !beat {
        return Gone;
      }
      r := AskReadback(e, job);
      if !r.Stored? {
        return;
      }
      var verified := Issue(e, job, Verify, VerifyReadbackOf(job.spec.manifestDigest));
      r := if verified.Done? then Stored(verified.value) else Gone;
    }

    method Complete(e: EventId, job: JobRow) returns (result: WorkerResult)
      requires Valid() && Here(e, job, Dispatch) && job.state == Verified
      modifies cluster, cluster.pool
      ensures Valid() && old(cluster.history) <= cluster.history && Away()
      ensures result in {VerifiedJob, Thrown} && (result == Thrown ==> Interrupted(old(cluster.history)))
      ensures result != Thrown ==> Reports(result, cluster.run.db, e)
    {
      var alive := cluster.Await(me);
      if !alive {
        return Thrown;
      }
      var done := outbox.Succeed(e, me, cluster.run.now);
      SucceedStep(cluster.run, me, e, job);
      if done.Done? {
        Unmoved(cluster.origin, cluster.history, me, e, job, Dispatch);
      }
      cluster.Settle(me, old(cluster.history));
      if done.Conflict? {
        return Thrown;
      }
      return VerifiedJob;
    }

    /** Submission and the beginning of confirmation. */
    method SubmitAndConfirm(e: EventId, prepared: JobRow) returns (r: Phase, job: JobRow)
      requires Valid() && Here(e, prepared, Dispatch) && prepared.state !in CLAIMABLE_STATES + {JobClaimed}
      modifies cluster, cluster.pool
      ensures Valid() && old(cluster.history) <= cluster.history
      ensures r.Stored? ==> r.job == job && Here(e, job, Dispatch)
                            && job.state in {Confirming, Readback, Verified, JobTerminalFailed}
      ensures r.Raised? ==> Here(e, job, Fail(r.error)) && job.state in WORKING_STATES
      ensures r.Gone? ==> Away() && Interrupted(old(cluster.history))
    {
      job, r := prepared, Stored(prepared);
      if job.state == Preflight {
        r := PreflightAndSubmit(e, job);
        job := if r.Stored? then r.job else job;
      }
      if r.Stored? && job.state == Submitted {
        r := Confirm(e, job);
        job := if r.Stored? then r.job else job;
      }
    }

    /** Confirmation, and readback if the transaction is confirmed. */
    method ConfirmAndVerify(e: EventId, submitted: JobRow) returns (r: Phase, job: JobRow)
      requires Valid() && Here(e, submitted, Dispatch)
      requires submitted.state in {Confirming, Readback, Verified, JobTerminalFailed}
      modifies cluster, cluster.pool
      ensures Valid() && old(cluster.history) <= cluster.history
      ensures r.Stored? ==> || (job.state in {Verified, JobTerminalFailed} && Here(e, job, Dispatch))
                            || (job.state == ReorgPending && Here(e, job, CloseRetryable(ReorgDetected)))
      ensures r.Raised? ==> Here(e, job, Fail(r.error)) && job.state in WORKING_STATES
      ensures r.Gone? ==> Away() && Interrupted(old(cluster.history))
    {
      job, r := submitted, Stored(submitted);
      if job.state == Confirming {
        r := Inspect(e, job);
        job := if r.Stored? then r.job else job;
      }
      if r.Stored? && job.state == Readback {
        r := VerifyContent(e, job);
        job := if r.Stored? then r.job else job;
      }
    }

    /** What follows the last phase: completion, the end of a reorganized attempt, or `HandleFailure`. */
    method Conclude(e: EventId, r: Phase, job: JobRow) returns (result: WorkerResult)
      requires Valid()
      requires r.Stored? ==> || (job.state in {Verified, JobTerminalFailed} && Here(e, job, Dispatch))
                             || (job.state == ReorgPending && Here(e, job, CloseRetryable(ReorgDetected)))
      requires r.Raised? ==> Here(e, job, Fail(r.error)) && job.state in WORKING_STATES
      requires r.Gone? ==> Away()
      modifies cluster, cluster.pool
      ensures Valid() && old(cluster.history) <= cluster.history && Away()
      ensures result !in {Paused, IdleQueue}
      ensures r.Gone? ==> cluster.history == old(cluster.history)
      ensures result == Thrown ==> r.Gone? || Interrupted(old(cluster.history))
      ensures result != Thrown ==> Reports(result, cluster.run.db, e)
    {
      match r
      case Gone => result := Thrown;
      case Raised(error) => result := HandleFailure(e, job, error);
      case Stored(_) =>
        if job.state == Verified {
          result := Complete(e, job);
        } else if job.state == ReorgPending {
          result := FailOutboxRetryable(e, job, ReorgDetected, ReorgPendingJob);
        } else {
          result := StopInvalid(e, job);
        }
    }

    /** A job that is neither verified nor in progress. */
    method StopInvalid(e: EventId, job: JobRow) returns (result: WorkerResult)
      requires Valid() && Here(e, job, Dispatch) && job.state == JobTerminalFailed
      modifies cluster, cluster.pool
      ensures Valid() && old(cluster.history) <= cluster.history && Away()
      ensures result !in {Paused, IdleQueue}
      ensures result == Thrown ==> Interrupted(old(cluster.history))
      ensures result != Thrown ==> Reports(result, cluster.run.db, e)
    {
      InvalidStateStep(cluster.run, me, e, job);
      cluster.Observe(Act(me, Nothing));
      result := HandleFailure(e, job, INVALID_STATE);
    }

    /** The job states in program order. */
    method Advance(e: EventId, prepared: JobRow) returns (result: WorkerResult)
      requires Valid() && Here(e, prepared, Dispatch) && prepared.state !in CLAIMABLE_STATES + {JobClaimed}
      modifies cluster, cluster.pool
      ensures Valid() && old(cluster.history) <= cluster.history && Away()
      ensures result !in {Paused, IdleQueue}
      ensures result == Thrown ==> Interrupted(old(cluster.history))
      ensures result != Thrown ==> Reports(result, cluster.run.db, e)
    {
      var phase, job := SubmitAndConfirm(e, prepared);
      if phase.Stored? {
        phase, job := ConfirmAndVerify(e, job);
      }
      result := Conclude(e, phase, job);
    }

    method Work(e: EventId, ghost claimed: JobRow) returns (result: WorkerResult)
      requires Valid() && Here(e, claimed, Stage.Load)
      modifies cluster, cluster.pool
      ensures Valid() && old(cluster.history) <= cluster.history && Away()
      ensures result !in {Paused, IdleQueue}
      ensures result == Thrown ==> Interrupted(old(cluster.history))
      ensures result != Thrown ==> Reports(result, cluster.run.db, e)
    {
      var loaded := Load(e, claimed);
      if loaded.Conflict? {
        return Thrown;
      }
      var prepared := Prepare(e, loaded.value);
      if prepared.Gone? {
        return Thrown;
      }
      result := Advance(e, prepared.job);
    }

    /** The worker's first own move: a crash, nothing because there is nothing to claim, or the claim. */
    method ClaimNext(locked: set<EventId>) returns (opening: Opening, ghost at: nat)
      requires Valid() && Away()
      modifies cluster, cluster.pool
      ensures Valid() && old(cluster.history) <= cluster.history
      ensures |old(cluster.history)| <= at && cluster.NoMoveOf(|old(cluster.history)|, at, me)
      ensures Opens(cluster.origin, cluster.history, at, me, locked, opening)
      ensures if opening.Claims? then
                var e := opening.event;
                e in cluster.run.db.jobs && Here(e, cluster.run.db.jobs[e], Stage.Load)
              else Away()
      ensures opening.Crashed? ==> Interrupted(old(cluster.history))
    {
      var alive := cluster.Await(me);
      at := |cluster.history|;
      if !alive {
        at := at - 1;
        return Crashed, at;
      }
      ghost var g := Reached(cluster.origin.config, cluster.origin.now, cluster.history);
      ghost var before := cluster.history;
      assert before[..at] == before;
      var claimed := outbox.ClaimNext(me, cluster.run.now, cluster.run.config.leaseMs, CLAIM_OPTIONS, locked);
      if claimed.value.None? {
        return NothingToClaim, at;
      }
      var e := claimed.value.value.id;
      TakeStep(cluster.run, me, e);
      cluster.Observe(Take(me, e));
      assert cluster.history[..at] == before && cluster.history[at..] == [Take(me, e)];
      opening := Claims(e);
    }

    /** Whatever the others do meanwhile, the run is extended by moves of the machine and the worker ends idle. Its first
        own move, after `at` moves, claims an event whenever there is one. The result names the state in which event and
        job were left; an exception means that the worker crashed or that one of its steps was refused. */
    method ProcessNext(locked: set<EventId>) returns (result: WorkerResult, ghost opening: Opening, ghost at: nat)
      requires Valid() && Away()
      modifies cluster, cluster.pool
      ensures Valid() && Away()
      ensures old(cluster.history) <= cluster.history
      ensures result == Paused <==> !writeCapabilityEnabled
      ensures result == Paused ==> cluster.run == old(cluster.run) && cluster.history == old(cluster.history)
      ensures result != Paused ==>
                && |old(cluster.history)| <= at && cluster.NoMoveOf(|old(cluster.history)|, at, me)
                && Opens(cluster.origin, cluster.history, at, me, locked, opening)
                && (result == IdleQueue <==> opening == NothingToClaim)
      ensures opening == Crashed && result != Paused ==> result == Thrown && me !in cluster.reliable
      ensures result == Thrown ==> Interrupted(old(cluster.history))
      ensures result !in {Paused, IdleQueue, Thrown} ==> opening.Claims? && Reports(result, cluster.run.db, opening.event)
    {
      opening, at := NothingToClaim, 0;
      if !writeCapabilityEnabled {
        return Paused, opening, at;
      }
      var first;
      first, at := ClaimNext(locked);
      opening := first;
      match first
      case Crashed => result := Thrown;
      case NothingToClaim => result := IdleQueue;
      case Claims(e) =>
        ghost var before := cluster.history;
        result := Work(e, cluster.run.db.jobs[e]);
        StillOpens(cluster.origin, before, cluster.history, at, me, locked, opening);
    }
  }
}

/** What every interleaving of workers, crashes, clock ticks and node replies keeps. */
module AnchorInvariant {
  import opened Wrappers
  import opened AnchorTables
  import opened Outbox
  import opened VerusJobs
  import opened AnchorProtocol

  // ---------------------------------------------------------------- per event

  /** The joint state of an outbox event and its job. */
  predicate Joint(o: OutboxState, j: JobState) {
    match o
    case Pending => j == JobPending
    case Claimed => true
    case RetryableFailed => j in {JobRetryableFailed, ReorgPending}
    case Succeeded => j == Verified
    case TerminalFailed => j == JobTerminalFailed
    case DeadLetter => j in {JobRetryableFailed, ReorgPending, JobTerminalFailed}
  }

  /** Evidence that a job state stands for. */
  predicate JobShape(job: JobRow) {
    && (job.state in {Submitted, Confirming, Readback, Verified, ReorgPending} ==> job.transactionId.Some?)
    && (job.state in {Readback, Verified} ==> job.blockHeight.Some? && job.blockHash.Some?)
    && (job.state == Verified ==> job.readbackDigest == Some(job.spec.manifestDigest))
    && (job.ambiguous ==> job.state in {JobRetryableFailed, JobClaimed, Preflight})
    && (job.state == JobPending ==> job == NewJob(job.spec))
  }

  /** The anchor row repeats the job's evidence, and its state outside the two unsynchronized states. */
  predicate InSync(anchor: AnchorRow, job: JobRow) {
    && anchor.transactionId == job.transactionId
    && anchor.blockHeight == job.blockHeight
    && anchor.blockHash == job.blockHash
    && anchor.readbackDigest == job.readbackDigest
    && (if job.state in {JobClaimed, Preflight} then anchor.state in CLAIMABLE_STATES else anchor.state == job.state)
  }

  /** One ledger row for each closed attempt, in order; success only as the last row of a succeeded event. */
  predicate LedgerShape(row: EventRow, ledger: seq<AttemptRow>) {
    && |ledger| + (if row.state == Claimed then 1 else 0) == row.attemptCount
    && (forall i | 0 <= i < |ledger| :: ledger[i].attempt == i + 1)
    && (forall i | 0 <= i < |ledger| :: ledger[i].succeeded <==> row.state == Succeeded && i == |ledger| - 1)
    && (row.state == Succeeded ==> |ledger| > 0)
  }

  function ExpiredLeases(ledger: seq<AttemptRow>): nat {
    if ledger == [] then 0
    else
      var last := ledger[|ledger| - 1];
      ExpiredLeases(ledger[..|ledger| - 1]) + (if last.errorClass == Some(LeaseExpired) then 1 else 0)
  }

  lemma ExpiredLeasesAppend(ledger: seq<AttemptRow>, row: AttemptRow)
    ensures ExpiredLeases(ledger + [row])
         == ExpiredLeases(ledger) + (if row.errorClass == Some(LeaseExpired) then 1 else 0)
  {
    assert (ledger + [row])[..|ledger|] == ledger;
  }

  /** Claims are paid for by the retry budget or by an expired lease. */
  predicate WithinBudget(row: EventRow, ledger: seq<AttemptRow>, retry: RetryPolicy) {
    && row.attemptCount <= retry.maxAttempts + ExpiredLeases(ledger)
    && (row.state in {Pending, RetryableFailed} ==> row.attemptCount < retry.maxAttempts)
  }

  function B(b: bool): nat {
    if b then 1 else 0
  }

  /** A later claim of this job would call updateIdentity. */
  predicate Armed(job: JobRow, t: Tally) {
    job.transactionId.None? && !job.ambiguous && job.state != JobTerminalFailed && !t.open
  }

  predicate TallyShape(job: JobRow, t: Tally) {
    && t.calls == t.submitted + t.ambiguous + t.rejected + t.terminal + t.lost + B(t.open)
    && t.submitted + t.ambiguous + t.terminal + B(t.open) + B(Armed(job, t)) <= 1 + t.clears
    && t.accepted + t.rejected + B(t.open && !t.openAccepted) <= t.calls
  }

  predicate RowInv(retry: RetryPolicy, row: EventRow, job: JobRow, anchor: AnchorRow, ledger: seq<AttemptRow>, t: Tally) {
    && row.eventType == ANCHOR_EVENT_TYPE
    && (row.lease.Some? <==> row.state == Claimed)
    && Joint(row.state, job.state)
    && JobShape(job)
    && InSync(anchor, job)
    && LedgerShape(row, ledger)
    && WithinBudget(row, ledger, retry)
    && TallyShape(job, t)
    && (t.open ==> row.state == Claimed)
  }

  ghost predicate EventInv(g: Global, e: EventId)
    requires Aligned(g.db) && e in g.db.events
  {
    var row, t := g.db.events[e], TallyOf(g, e);
    && RowInv(g.config.retry, row, g.db.jobs[e], g.db.anchors[e], g.db.attempts[e], t)
    && (t.open && row.lease.Some? ==> HasOpenCall(At(g, row.lease.value.owner), e, row.attemptCount))
  }

  predicate HasOpenCall(me: Local, e: EventId, attempt: nat) {
    me.Busy? && me.event == e && me.attempt == attempt && me.calling
  }

  // ---------------------------------------------------------------- per worker

  /** What a worker under the latest claim knows about the job at each stage. */
  predicate StageShape(me: Local, t: Tally)
    requires me.Busy?
  {
    var s := me.job.state;
    && (me.calling ==> s == Preflight && me.job.transactionId.None? && !me.job.ambiguous)
    && match me.stage
       case Load => true
       case Dispatch => true
       case Guard => s == Preflight
       case Search => s == Preflight && me.job.transactionId.None? && me.job.ambiguous
       case Update => s == Preflight && me.job.transactionId.None? && !me.job.ambiguous && !me.calling
       case Await(accepted) => me.calling && t.openAccepted == accepted
       case Record(tx) => s == Preflight && (me.job.transactionId.Some? ==> me.job.transactionId.value == tx)
       case Confirm => s == Submitted
       case Inspect => s == Confirming
       case Reorganize => s == Confirming
       case Confirmed(_, _) => s == Confirming
       case ReadBack => s == Readback
       case Verify => s == Readback
       case Fail(error) =>
         && (s in {Preflight, Confirming, Readback} || (s == JobTerminalFailed && !error.retryable))
         && (me.calling && error.retryable && !error.ambiguous ==> !t.openAccepted)
       case CloseRetryable(_) => s in {JobRetryableFailed, ReorgPending}
       case CloseTerminal(_) => s == JobTerminalFailed
       case CloseDead(_) => true
  }

  /** The dead letter is still this worker's: nobody else has touched the event since it was exhausted. */
  predicate DeadLetterShape(w: WorkerRef, me: Local, row: EventRow, job: JobRow, ledger: seq<AttemptRow>)
    requires me.Busy?
  {
    && row.state == DeadLetter
    && row.attemptCount == me.attempt
    && |ledger| > 0 && ledger[|ledger| - 1].worker == w
    && job == me.job
    && me.job.state in {JobRetryableFailed, ReorgPending}
  }

  /** What a worker knows even after it has lost its claim. */
  predicate LocalShape(me: Local)
    requires me.Busy?
  {
    && (me.calling ==> (me.stage.Await? || me.stage.Record? || me.stage.Fail?) && me.job.state == Preflight)
    && (me.stage.Guard? || me.stage.Search? || me.stage.Update? ==> me.job.state == Preflight)
  }

  /** What holds of a worker given the current rows of the event it works on. */
  predicate WorkerRow(w: WorkerRef, me: Local, row: EventRow, job: JobRow, ledger: seq<AttemptRow>, t: Tally)
    requires me.Busy?
  {
    && me.attempt <= row.attemptCount
    && (HeldBy(row, w) ==> row.attemptCount == me.attempt && job == me.job && me.calling == t.open && StageShape(me, t))
    && LocalShape(me)
    && (me.stage.CloseDead? ==> DeadLetterShape(w, me, row, job, ledger))
  }

  ghost predicate WorkerInv(g: Global, w: WorkerRef)
    requires Aligned(g.db)
  {
    var me := At(g, w);
    me.Busy? ==>
      && me.event in g.db.events
      && WorkerRow(w, me, g.db.events[me.event], g.db.jobs[me.event], g.db.attempts[me.event], TallyOf(g, me.event))
  }

  ghost predicate Inv(g: Global) {
    && ValidConfig(g.config)
    && Aligned(g.db) && g.tallies.Keys <= g.db.events.Keys
    && (forall e {:trigger EventInv(g, e)} | e in g.db.events :: EventInv(g, e))
    && (forall w {:trigger WorkerInv(g, w)} | w in g.workers :: WorkerInv(g, w))
  }

  // ---------------------------------------------------------------- framing

  ghost predicate OnlyEvent(g: Global, h: Global, e: EventId)
    requires Aligned(g.db) && Aligned(h.db)
  {
    && g.db.events.Keys == h.db.events.Keys
    && forall x | x in g.db.events && x != e ::
         && g.db.events[x] == h.db.events[x]
         && g.db.jobs[x] == h.db.jobs[x]
         && g.db.attempts[x] == h.db.attempts[x]
         && g.db.anchors[x] == h.db.anchors[x]
         && TallyOf(g, x) == TallyOf(h, x)
  }

  ghost predicate Framed(g: Global, h: Global, w: WorkerRef, e: EventId) {
    && Aligned(g.db) && Aligned(h.db) && h.config == g.config && h.tallies.Keys <= h.db.events.Keys
    && (At(g, w).Busy? ==> At(g, w).event == e)
    && e in g.db.events && OnlyEvent(g, h, e)
    && w in h.workers && h.workers == g.workers[w := h.workers[w]]
  }

  /** `WorkerRow` of every other worker on the event survives the step. */
  ghost predicate Undisturbed(g: Global, h: Global, v: WorkerRef, e: EventId)
    requires Aligned(g.db) && Aligned(h.db) && e in g.db.events && e in h.db.events
  {
    var me := At(g, v);
    me.Busy? && me.event == e ==> WorkerRow(v, me, h.db.events[e], h.db.jobs[e], h.db.attempts[e], TallyOf(h, e))
  }

  lemma FrameEvent(g: Global, h: Global, w: WorkerRef, e: EventId, x: EventId)
    requires Framed(g, h, w, e) && x in g.db.events && x != e && EventInv(g, x)
    ensures EventInv(h, x)
  {
    var row := h.db.events[x];
    if TallyOf(h, x).open && row.lease.Some? {
      assert At(h, row.lease.value.owner) == At(g, row.lease.value.owner);
    }
  }

  lemma FrameWorker(g: Global, h: Global, w: WorkerRef, e: EventId, v: WorkerRef)
    requires Framed(g, h, w, e) && v in g.workers && v != w && WorkerInv(g, v) && Undisturbed(g, h, v, e)
    ensures WorkerInv(h, v)
  {
    assert At(h, v) == At(g, v);
  }

  /** A step of worker `w` that touches no event but `e` keeps the invariant if it keeps it at `w` and at `e`. */
  lemma Frame(g: Global, h: Global, w: WorkerRef, e: EventId)
    requires Inv(g) && Framed(g, h, w, e)
    requires EventInv(h, e) && WorkerInv(h, w)
    requires forall v | v in g.workers && v != w :: Undisturbed(g, h, v, e)
    ensures Inv(h)
  {
    forall x | x in h.db.events && x != e ensures EventInv(h, x) {
      FrameEvent(g, h, w, e, x);
    }
    forall v | v in h.workers && v != w ensures WorkerInv(h, v) {
      FrameWorker(g, h, w, e, v);
    }
  }
}

/** Where an undisturbed worker leads an event: to verification from every state, and to the right failure from every answer
    of the node. */
module AnchorOutcomes {
  import opened Wrappers
  import opened AnchorTables
  import opened Outbox
  import opened VerusJobs
  import opened AnchorProtocol
  import opened AnchorInvariant
  import opened AnchorPreservation
  import opened AnchorEffects
  import opened AnchorTheorems
  import opened AnchorSteps
  import opened AnchorProgress
  import opened AnchorTargets
  import opened AnchorEvents

  /** Worker `w` stands at stage `s` under a live lease, with an up-to-date copy of the job. */
  ghost predicate Poised(g: Global, w: WorkerRef, e: EventId, s: Stage) {
    && Inv(g) && e in g.db.events && e in g.db.jobs && e in g.db.anchors && e in g.db.attempts
    && OwnsLease(g.db, e, w, g.now) && Stands(g, w, e, g.db.jobs[e], s)
  }

  /** Neither the clock nor the configuration has moved, nor the attempt, nor the job's specification. */
  ghost predicate SameFrame(g: Global, h: Global, e: EventId) {
    && h.now == g.now && h.config == g.config && e in g.db.jobs && e in h.db.jobs
    && h.db.jobs[e].spec == g.db.jobs[e].spec
    && e in g.db.events && e in h.db.events && h.db.events[e].attemptCount == g.db.events[e].attemptCount
  }

  /** The worker stands at a later stage with the same job. */
  ghost predicate Moved(g: Global, h: Global, w: WorkerRef, e: EventId, s: Stage) {
    Poised(h, w, e, s) && SameFrame(g, h, e) && h.db.jobs[e] == g.db.jobs[e]
  }

  lemma MovedTwice(g: Global, b: Global, h: Global, w: WorkerRef, e: EventId, s: Stage, t: Stage)
    requires Moved(g, b, w, e, s) && Moved(b, h, w, e, t)
    ensures Moved(g, h, w, e, t)
  {
  }

  // ---------------------------------------------------------------- single steps

  lemma LeaseStays(g: Global, w: WorkerRef, e: EventId, s: Stage, reply: Reply)
    requires Poised(g, w, e, s) && !s.CloseRetryable? && !s.CloseTerminal?
    requires s.Dispatch? ==> g.db.jobs[e].state != Verified
    ensures var h := Next(g, Act(w, reply));
            && Inv(h) && e in h.db.events && OwnsLease(h.db, e, w, h.now)
            && h.db.events[e].attemptCount == g.db.events[e].attemptCount
            && e in h.db.jobs && e in h.db.anchors && e in h.db.attempts && h.config == g.config && h.now == g.now
  {
    NextKeeps(g, Act(w, reply));
    ActOnEvent(g, w, reply, e);
  }

  lemma WritableJob(g: Global, w: WorkerRef, e: EventId, s: Stage)
    requires Poised(g, w, e, s)
    ensures MayWriteJob(g.db, e, w, g.now)
  {
    assert EventInv(g, e);
  }

  lemma Commanded(g: Global, w: WorkerRef, e: EventId, s: Stage, c: Command)
    requires Poised(g, w, e, s) && Issues(s, g.db.jobs[e], c) && ValidEvidence(c.evidence)
    requires g.db.jobs[e].state in c.expected
    ensures var h := Next(g, Act(w, Nothing));
            && Poised(h, w, e, c.after) && SameFrame(g, h, e)
            && h.db.jobs[e] == UpdateJob(g.db.jobs[e], c.next, c.evidence)
  {
    LeaseStays(g, w, e, s, Nothing);
    WritableJob(g, w, e, s);
    CommandStep(g, w, e, g.db.jobs[e], s, c);
  }

  lemma Beaten(g: Global, w: WorkerRef, e: EventId)
    requires Poised(g, w, e, Dispatch) && g.db.jobs[e].state in WORKING_STATES
    ensures Moved(g, Next(g, Act(w, Nothing)), w, e, AfterHeartbeat(g.db.jobs[e].state))
  {
    LeaseStays(g, w, e, Dispatch, Nothing);
    BeatStep(g, w, e, g.db.jobs[e]);
  }

  lemma Answering(g: Global, w: WorkerRef, e: EventId, s: Stage, reply: Reply, next: Stage)
    requires Poised(g, w, e, s) && Asks(s) && Answered(g.config.guard, g.db.jobs[e], s, reply) == Some(next)
    ensures Moved(g, Next(g, Act(w, reply)), w, e, next)
  {
    LeaseStays(g, w, e, s, reply);
    AnswerStep(g, w, e, g.db.jobs[e], s, reply);
  }

  // ---------------------------------------------------------------- sequences of steps

  lemma Prefixed(g: Global, m: Move, moves: seq<Move>)
    ensures Run(g, [m] + moves) == Run(Next(g, m), moves)
  {
    RunAppend(g, [m], moves);
    assert [m][..0] == [];
  }

  /** What the node answers on the way to verification. */
  datatype Answers = Answers(tx: string, height: nat, hash: string)

  predicate Plausible(a: Answers) {
    IsHex64(a.tx) && a.height <= 0x1F_FFFF_FFFF_FFFF && IsHex64(a.hash)
  }

  /** The job can still be verified. */
  predicate Verifiable(g: Global, e: EventId) {
    && e in g.db.jobs && g.db.jobs[e].state != JobTerminalFailed
    && g.config.guard(g.db.jobs[e].spec).None? && IsHex64(g.db.jobs[e].spec.manifestDigest)
  }

  /** Event and job after the last step. */
  predicate Completed(g: Global, h: Global, e: EventId) {
    && e in h.db.events && e in h.db.jobs && e in g.db.jobs
    && h.db.events[e].state == Succeeded && h.db.jobs[e].state == Verified
    && h.db.jobs[e].spec == g.db.jobs[e].spec && h.db.jobs[e].readbackDigest == Some(g.db.jobs[e].spec.manifestDigest)
    && h.now == g.now
  }

  /** The job was submitted before, or it now has the transaction of the answers; the same for the block. */
  predicate Follows(before: JobRow, after: JobRow, a: Answers) {
    && after.transactionId == (if before.transactionId.Some? then before.transactionId else Some(a.tx))
    && (if before.state in {Readback, Verified} then
          after.blockHeight == before.blockHeight && after.blockHash == before.blockHash
        else after.blockHeight == Some(a.height) && after.blockHash == Some(a.hash))
  }

  /** Only moves of one worker. */
  predicate Alone(w: WorkerRef, moves: seq<Move>) {
    forall m | m in moves :: MovesWorker(m, w)
  }

  lemma Succeeding(g: Global, w: WorkerRef, e: EventId)
    requires Poised(g, w, e, Dispatch) && g.db.jobs[e].state == Verified
    ensures Completed(g, Next(g, Act(w, Nothing)), e) && Next(g, Act(w, Nothing)).db.jobs[e] == g.db.jobs[e]
  {
    ActOnEvent(g, w, Nothing, e);
    SucceedStep(g, w, e, g.db.jobs[e]);
    assert EventInv(g, e);
  }

  /** What is left to do, by state. */
  function Rank(s: JobState): nat {
    match s
    case JobClaimed => 5
    case Preflight => 4
    case Submitted => 3
    case Confirming => 2
    case Readback => 1
    case Verified => 0
    case _ => 6
  }

  /** The job is one state further. */
  predicate JobFurther(before: JobRow, after: JobRow, a: Answers) {
    && Rank(after.state) < Rank(before.state) && after.state != JobTerminalFailed
    && (before.transactionId.Some? ==> after.transactionId == before.transactionId)
    && (before.transactionId.None? ==> after.transactionId in {None, Some(a.tx)})
    && (before.state == Confirming ==> after.blockHeight == Some(a.height) && after.blockHash == Some(a.hash))
    && (before.state == Readback ==> after.blockHeight == before.blockHeight && after.blockHash == before.blockHash)
    && (before.state !in {Confirming, Readback} ==> after.state !in {Readback, Verified})
  }

  /** The worker is back at the point where the job's state decides. */
  ghost predicate OneFurther(g: Global, h: Global, w: WorkerRef, e: EventId, a: Answers) {
    && Poised(h, w, e, Dispatch) && SameFrame(g, h, e) && e in g.db.jobs
    && JobFurther(g.db.jobs[e], h.db.jobs[e], a)
  }

  /** A heartbeat and a question with its answer. */
  lemma BeatAndAsk(g: Global, w: WorkerRef, e: EventId, reply: Reply, next: Stage)
    requires Poised(g, w, e, Dispatch) && g.db.jobs[e].state in {Confirming, Readback}
    requires Answered(g.config.guard, g.db.jobs[e], AfterHeartbeat(g.db.jobs[e].state), reply) == Some(next)
    ensures Moved(g, Run(g, [Act(w, Nothing)] + [Act(w, reply)]), w, e, next)
  {
    var idle := Act(w, Nothing);
    Beaten(g, w, e);
    var b := Next(g, idle);
    Answering(b, w, e, AfterHeartbeat(g.db.jobs[e].state), reply, next);
    RunTwo(g, idle, Act(w, reply));
    MovedTwice(g, b, Next(b, Act(w, reply)), w, e, AfterHeartbeat(g.db.jobs[e].state), next);
  }

  lemma SubmissionFurther(job: JobRow, tx: string, a: Answers)
    requires job.state == Preflight && IsHex64(tx) && tx == if job.transactionId.Some? then job.transactionId.value else a.tx
    ensures var c := RecordSubmissionOf(tx);
            && Issues(Record(tx), job, c) && ValidEvidence(c.evidence) && job.state in c.expected && c.after == Dispatch
            && JobFurther(job, UpdateJob(job, c.next, c.evidence), a)
  {
  }

  lemma ConfirmationFurther(job: JobRow, a: Answers)
    requires job.state == Submitted
    ensures var c := BEGIN_CONFIRMATION;
            && Issues(Confirm, job, c) && ValidEvidence(c.evidence) && job.state in c.expected && c.after == Dispatch
            && JobFurther(job, UpdateJob(job, c.next, c.evidence), a)
  {
  }

  lemma ReadbackFurther(job: JobRow, a: Answers)
    requires job.state == Confirming && Plausible(a)
    ensures var c := BeginReadbackAt(a.height, a.hash);
            && Issues(Confirmed(a.height, a.hash), job, c) && ValidEvidence(c.evidence) && job.state in c.expected
            && c.after == Dispatch && JobFurther(job, UpdateJob(job, c.next, c.evidence), a)
  {
  }

  lemma VerifiedFurther(job: JobRow, a: Answers)
    requires job.state == Readback && IsHex64(job.spec.manifestDigest)
    ensures var c := VerifyReadbackOf(job.spec.manifestDigest);
            && Issues(Verify, job, c) && ValidEvidence(c.evidence) && job.state in c.expected && c.after == Dispatch
            && JobFurther(job, UpdateJob(job, c.next, c.evidence), a)
  {
  }

  /** The command that follows leads one state further. */
  lemma FurtherBy(g: Global, b: Global, w: WorkerRef, e: EventId, s: Stage, c: Command, a: Answers)
    requires Moved(g, b, w, e, s) && Issues(s, g.db.jobs[e], c) && ValidEvidence(c.evidence) && c.after == Dispatch
    requires g.db.jobs[e].state in c.expected && JobFurther(g.db.jobs[e], UpdateJob(g.db.jobs[e], c.next, c.evidence), a)
    ensures OneFurther(g, Next(b, Act(w, Nothing)), w, e, a)
  {
    Commanded(b, w, e, s, c);
  }

  lemma Beginning(g: Global, w: WorkerRef, e: EventId, a: Answers) returns (moves: seq<Move>)
    requires Poised(g, w, e, Dispatch) && g.db.jobs[e].state in CLAIMABLE_STATES + {JobClaimed}
    ensures Alone(w, moves) && OneFurther(g, Run(g, moves), w, e, a)
  {
    Commanded(g, w, e, Dispatch, if g.db.jobs[e].state == JobClaimed then BEGIN_PREFLIGHT else CLAIM_JOB);
    moves := [Act(w, Nothing)];
    assert moves[..0] == [];
  }

  /** Two answers, one after the other. */
  lemma AskTwice(g: Global, w: WorkerRef, e: EventId, s: Stage, first: Reply, t: Stage, second: Reply, u: Stage)
    requires Poised(g, w, e, s) && Asks(s) && Asks(t)
    requires Answered(g.config.guard, g.db.jobs[e], s, first) == Some(t)
    requires Answered(g.config.guard, g.db.jobs[e], t, second) == Some(u)
    ensures Moved(g, Run(g, [Act(w, first)] + [Act(w, second)]), w, e, u)
  {
    var b := Next(g, Act(w, first));
    Answering(g, w, e, s, first, t);
    Answering(b, w, e, t, second, u);
    MovedTwice(g, b, Next(b, Act(w, second)), w, e, t, u);
    RunTwo(g, Act(w, first), Act(w, second));
  }

  /** The stored transaction id, the evidence of an earlier call, or the answer to a new one. */
  lemma Obtaining(g: Global, w: WorkerRef, e: EventId, a: Answers) returns (moves: seq<Move>)
    requires Poised(g, w, e, Guard) && Verifiable(g, e) && g.db.jobs[e].state == Preflight
    ensures Alone(w, moves)
    ensures var tx := g.db.jobs[e].transactionId;
            Moved(g, Run(g, moves), w, e, Record(if tx.Some? then tx.value else a.tx))
  {
    var job, passed := g.db.jobs[e], Act(w, PreflightPassed);
    if job.transactionId.Some? {
      Answering(g, w, e, Guard, PreflightPassed, Record(job.transactionId.value));
      moves := [passed];
      assert moves[..0] == [];
    } else if job.ambiguous {
      AskTwice(g, w, e, Guard, PreflightPassed, Search, EvidenceFound(a.tx), Record(a.tx));
      moves := [passed] + [Act(w, EvidenceFound(a.tx))];
    } else {
      moves := NewCall(g, w, e, a);
    }
  }

  lemma NewCall(g: Global, w: WorkerRef, e: EventId, a: Answers) returns (moves: seq<Move>)
    requires Poised(g, w, e, Guard) && Verifiable(g, e) && g.db.jobs[e].transactionId.None? && !g.db.jobs[e].ambiguous
    ensures Alone(w, moves) && Moved(g, Run(g, moves), w, e, Record(a.tx))
  {
    var passed, called, answered := Act(w, PreflightPassed), Act(w, CallReceived(true)), Act(w, CallAnswered(a.tx));
    var b := Next(g, passed);
    Answering(g, w, e, Guard, PreflightPassed, Update);
    AskTwice(b, w, e, Update, CallReceived(true), Await(true), CallAnswered(a.tx), Record(a.tx));
    moves := [passed] + ([called] + [answered]);
    Prefixed(g, passed, [called] + [answered]);
    MovedTwice(g, b, Run(g, moves), w, e, Update, Record(a.tx));
  }

  lemma RunTwo(g: Global, m: Move, n: Move)
    ensures Run(g, [m] + [n]) == Next(Next(g, m), n)
  {
    Prefixed(g, m, [n]);
    assert [n][..0] == [];
  }

  lemma Submitting(g: Global, w: WorkerRef, e: EventId, a: Answers) returns (moves: seq<Move>)
    requires Poised(g, w, e, Dispatch) && Verifiable(g, e) && g.db.jobs[e].state == Preflight && Plausible(a)
    requires g.db.jobs[e].transactionId.Some? ==> IsHex64(g.db.jobs[e].transactionId.value)
    ensures Alone(w, moves) && OneFurther(g, Run(g, moves), w, e, a)
  {
    var job, idle := g.db.jobs[e], Act(w, Nothing);
    var tx := if job.transactionId.Some? then job.transactionId.value else a.tx;
    var obtaining := BeatAndObtain(g, w, e, a);
    SubmissionFurther(job, tx, a);
    FurtherBy(g, Run(g, obtaining), w, e, Record(tx), RecordSubmissionOf(tx), a);
    moves := obtaining + [idle];
    RunLast(g, obtaining, idle);
  }

  lemma BeatAndObtain(g: Global, w: WorkerRef, e: EventId, a: Answers) returns (moves: seq<Move>)
    requires Poised(g, w, e, Dispatch) && Verifiable(g, e) && g.db.jobs[e].state == Preflight
    ensures Alone(w, moves)
    ensures var tx := g.db.jobs[e].transactionId;
            Moved(g, Run(g, moves), w, e, Record(if tx.Some? then tx.value else a.tx))
  {
    var idle, tx := Act(w, Nothing), g.db.jobs[e].transactionId;
    Beaten(g, w, e);
    var b := Next(g, idle);
    var obtaining := Obtaining(b, w, e, a);
    MovedTwice(g, b, Run(b, obtaining), w, e, Guard, Record(if tx.Some? then tx.value else a.tx));
    moves := [idle] + obtaining;
    Prefixed(g, idle, obtaining);
  }

  lemma RunLast(g: Global, before: seq<Move>, m: Move)
    ensures Run(g, before + [m]) == Next(Run(g, before), m)
  {
    assert (before + [m])[..|before|] == before;
  }

  lemma BeginningConfirmation(g: Global, w: WorkerRef, e: EventId, a: Answers) returns (moves: seq<Move>)
    requires Poised(g, w, e, Dispatch) && g.db.jobs[e].state == Submitted
    ensures Alone(w, moves) && OneFurther(g, Run(g, moves), w, e, a)
  {
    var idle := Act(w, Nothing);
    Beaten(g, w, e);
    ConfirmationFurther(g.db.jobs[e], a);
    FurtherBy(g, Next(g, idle), w, e, Confirm, BEGIN_CONFIRMATION, a);
    moves := [idle] + [idle];
    RunTwo(g, idle, idle);
  }

  lemma Inspecting(g: Global, w: WorkerRef, e: EventId, a: Answers) returns (moves: seq<Move>)
    requires Poised(g, w, e, Dispatch) && g.db.jobs[e].state == Confirming && Plausible(a)
    ensures Alone(w, moves) && OneFurther(g, Run(g, moves), w, e, a)
  {
    var idle, seen := Act(w, Nothing), Act(w, ConfirmedAt(a.height, a.hash));
    KnownTransaction(g, e);
    BeatAndAsk(g, w, e, ConfirmedAt(a.height, a.hash), Confirmed(a.height, a.hash));
    ReadbackFurther(g.db.jobs[e], a);
    FurtherBy(g, Run(g, [idle] + [seen]), w, e, Confirmed(a.height, a.hash), BeginReadbackAt(a.height, a.hash), a);
    moves := [idle] + [seen] + [idle];
    RunLast(g, [idle] + [seen], idle);
  }

  lemma KnownTransaction(g: Global, e: EventId)
    requires Inv(g) && e in g.db.events && g.db.jobs[e].state in {Submitted, Confirming, Readback, Verified}
    ensures g.db.jobs[e].transactionId.Some?
  {
    assert EventInv(g, e);
  }

  lemma Verifying(g: Global, w: WorkerRef, e: EventId, a: Answers) returns (moves: seq<Move>)
    requires Poised(g, w, e, Dispatch) && g.db.jobs[e].state == Readback && Verifiable(g, e)
    ensures Alone(w, moves) && OneFurther(g, Run(g, moves), w, e, a)
  {
    var idle, matched := Act(w, Nothing), Act(w, ReadbackMatches);
    BeatAndAsk(g, w, e, ReadbackMatches, Verify);
    VerifiedFurther(g.db.jobs[e], a);
    FurtherBy(g, Run(g, [idle] + [matched]), w, e, Verify, VerifyReadbackOf(g.db.jobs[e].spec.manifestDigest), a);
    moves := [idle] + [matched] + [idle];
    RunLast(g, [idle] + [matched], idle);
  }

  lemma Advancing(g: Global, w: WorkerRef, e: EventId, a: Answers) returns (moves: seq<Move>)
    requires Poised(g, w, e, Dispatch) && Verifiable(g, e) && Plausible(a) && g.db.jobs[e].state != Verified
    requires g.db.jobs[e].transactionId.Some? ==> IsHex64(g.db.jobs[e].transactionId.value)
    ensures Alone(w, moves) && OneFurther(g, Run(g, moves), w, e, a)
  {
    match g.db.jobs[e].state
    case Preflight => moves := Submitting(g, w, e, a);
    case Submitted => moves := BeginningConfirmation(g, w, e, a);
    case Confirming => moves := Inspecting(g, w, e, a);
    case Readback => moves := Verifying(g, w, e, a);
    case _ => moves := Beginning(g, w, e, a);
  }

  lemma FollowsFurther(before: JobRow, middle: JobRow, after: JobRow, a: Answers)
    requires JobFurther(before, middle, a) && Follows(middle, after, a)
    ensures Follows(before, after, a)
  {
  }

  lemma StillVerifiable(g: Global, h: Global, w: WorkerRef, e: EventId, a: Answers)
    requires OneFurther(g, h, w, e, a) && Verifiable(g, e) && Plausible(a)
    requires g.db.jobs[e].transactionId.Some? ==> IsHex64(g.db.jobs[e].transactionId.value)
    ensures Verifiable(h, e)
    ensures h.db.jobs[e].transactionId.Some? ==> IsHex64(h.db.jobs[e].transactionId.value)
  {
  }

  lemma Concluding(g: Global, w: WorkerRef, e: EventId, a: Answers)
    requires Poised(g, w, e, Dispatch) && g.db.jobs[e].state == Verified
    ensures var h := Next(g, Act(w, Nothing)); Completed(g, h, e) && Follows(g.db.jobs[e], h.db.jobs[e], a)
  {
    Succeeding(g, w, e);
    KnownTransaction(g, e);
  }

  lemma {:induction false} Finishing(g: Global, w: WorkerRef, e: EventId, a: Answers) returns (moves: seq<Move>)
    requires Poised(g, w, e, Dispatch) && Verifiable(g, e) && Plausible(a)
    requires g.db.jobs[e].transactionId.Some? ==> IsHex64(g.db.jobs[e].transactionId.value)
    ensures Alone(w, moves)
    ensures var h := Run(g, moves); Completed(g, h, e) && Follows(g.db.jobs[e], h.db.jobs[e], a)
    decreases Rank(g.db.jobs[e].state)
  {
    if g.db.jobs[e].state == Verified {
      Concluding(g, w, e, a);
      moves := [Act(w, Nothing)];
      assert moves[..0] == [];
    } else {
      var first := Advancing(g, w, e, a);
      var b := Run(g, first);
      StillVerifiable(g, b, w, e, a);
      var rest := Finishing(b, w, e, a);
      RunAppend(g, first, rest);
      FollowsFurther(g.db.jobs[e], b.db.jobs[e], Run(b, rest).db.jobs[e], a);
      moves := first + rest;
    }
  }

  lemma ClaimLeases(g: Global, w: WorkerRef, e: EventId)
    requires Inv(g) && AllFiled(g.db) && Claims(g, Take(w, e), e)
    ensures var h := Next(g, Take(w, e));
            && e in h.db.jobs && h.db.jobs == g.db.jobs && Stands(h, w, e, h.db.jobs[e], Load)
            && OwnsLease(h.db, e, w, h.now) && h.now == g.now && h.config == g.config
  {
    assert EventInv(g, e);
    ClaimableExactly(g, e);
  }

  /** The worker has taken the event over, with the job as it was. */
  ghost predicate TakenOver(g: Global, h: Global, w: WorkerRef, e: EventId, s: Stage) {
    && Poised(h, w, e, s) && h.now == g.now && h.config == g.config && e in g.db.jobs && h.db.jobs[e] == g.db.jobs[e]
  }

  lemma Claiming(g: Global, w: WorkerRef, e: EventId)
    requires Inv(g) && AllFiled(g.db) && Claims(g, Take(w, e), e)
    ensures TakenOver(g, Next(g, Take(w, e)), w, e, Load)
  {
    NextKeeps(g, Take(w, e));
    ClaimLeases(g, w, e);
  }

  lemma Loading(g: Global, w: WorkerRef, e: EventId)
    requires Poised(g, w, e, Load)
    ensures TakenOver(g, Next(g, Act(w, Nothing)), w, e, Dispatch)
  {
    LeaseStays(g, w, e, Load, Nothing);
    WritableJob(g, w, e, Load);
    LoadStep(g, w, e, g.db.jobs[e]);
  }

  lemma TakenOverTwice(g: Global, b: Global, h: Global, w: WorkerRef, e: EventId)
    requires TakenOver(g, b, w, e, Load) && TakenOver(b, h, w, e, Dispatch)
    ensures TakenOver(g, h, w, e, Dispatch)
  {
  }

  /** A claim and the load that follows it. */
  lemma ClaimingAndLoading(g: Global, w: WorkerRef, e: EventId) returns (moves: seq<Move>)
    requires Inv(g) && AllFiled(g.db) && Claims(g, Take(w, e), e)
    ensures Alone(w, moves) && TakenOver(g, Run(g, moves), w, e, Dispatch)
  {
    var take, idle := Take(w, e), Act(w, Nothing);
    var b := Next(g, take);
    Claiming(g, w, e);
    Loading(b, w, e);
    TakenOverTwice(g, b, Next(b, idle), w, e);
    moves := [take] + [idle];
    RunTwo(g, take, idle);
  }

  lemma CompletedFrom(g: Global, b: Global, h: Global, w: WorkerRef, e: EventId, a: Answers)
    requires TakenOver(g, b, w, e, Dispatch) && Completed(b, h, e) && Follows(b.db.jobs[e], h.db.jobs[e], a)
    ensures Completed(g, h, e) && Follows(g.db.jobs[e], h.db.jobs[e], a)
  {
  }

  // ---------------------------------------------------------------- recorded transaction ids

  ghost predicate AllHex(db: Db) {
    forall e | e in db.jobs && db.jobs[e].transactionId.Some? :: IsHex64(db.jobs[e].transactionId.value)
  }

  lemma StaysHex(g: Global, m: Move, e: EventId)
    requires Inv(g) && AllHex(g.db) && e in Next(g, m).db.jobs && Next(g, m).db.jobs[e].transactionId.Some?
    ensures IsHex64(Next(g, m).db.jobs[e].transactionId.value)
  {
    if e in g.db.events {
      NextEffect(g, m, e);
    } else if !m.Enqueue? {
      NextKeeps(g, m);
      SameEvents(g, m);
    }
  }

  /** In every reachable state the recorded transaction ids are well formed. */
  lemma {:induction false} AlwaysHex(config: Config, now: Millis, moves: seq<Move>)
    requires ValidConfig(config)
    ensures AllHex(Run(Start(config, now), moves).db)
    decreases |moves|
  {
    if moves != [] {
      var init := moves[..|moves| - 1];
      AlwaysHex(config, now, init);
      var g := Reached(config, now, init);
      var h := Next(g, moves[|moves| - 1]);
      forall e | e in h.db.jobs && h.db.jobs[e].transactionId.Some? ensures IsHex64(h.db.jobs[e].transactionId.value) {
        StaysHex(g, moves[|moves| - 1], e);
      }
    }
  }

  lemma StillReady(g: Global, b: Global, w: WorkerRef, e: EventId)
    requires TakenOver(g, b, w, e, Dispatch) && Verifiable(g, e)
    requires g.db.jobs[e].transactionId.Some? ==> IsHex64(g.db.jobs[e].transactionId.value)
    ensures Poised(b, w, e, Dispatch) && Verifiable(b, e)
    ensures b.db.jobs[e].transactionId.Some? ==> IsHex64(b.db.jobs[e].transactionId.value)
  {
  }

  lemma UndisturbedFrom(g: Global, w: WorkerRef, e: EventId, a: Answers) returns (moves: seq<Move>)
    requires Inv(g) && AllFiled(g.db) && Claims(g, Take(w, e), e) && Verifiable(g, e) && Plausible(a)
    requires g.db.jobs[e].transactionId.Some? ==> IsHex64(g.db.jobs[e].transactionId.value)
    ensures Alone(w, moves)
    ensures var h := Run(g, moves); Completed(g, h, e) && Follows(g.db.jobs[e], h.db.jobs[e], a)
  {
    var start := ClaimingAndLoading(g, w, e);
    var b := Run(g, start);
    StillReady(g, b, w, e);
    var rest := Finishing(b, w, e, a);
    RunAppend(g, start, rest);
    CompletedFrom(g, b, Run(b, rest), w, e, a);
    moves := start + rest;
  }

  /** Whatever crashes, retries and reorganizations lie behind a job that has not failed for good: as soon as its event is
      due and its identity free, one undisturbed worker whose questions are answered well verifies it, within its lease and
      under its transaction id if one is known. */
  lemma VerifiedWhenUndisturbed(config: Config, now: Millis, history: seq<Move>, w: WorkerRef, e: EventId, a: Answers)
    returns (moves: seq<Move>)
    requires ValidConfig(config) && Plausible(a)
    requires var g := Run(Start(config, now), history); Claims(g, Take(w, e), e) && Verifiable(g, e)
    ensures Alone(w, moves)
    ensures var g, h := Run(Start(config, now), history), Run(Start(config, now), history + moves);
            Completed(g, h, e) && Follows(g.db.jobs[e], h.db.jobs[e], a)
  {
    var g := Reached(config, now, history);
    AlwaysFiled(config, now, history);
    AlwaysHex(config, now, history);
    moves := UndisturbedFrom(g, w, e, a);
    RunAppend(Start(config, now), history, moves);
  }

  // ---------------------------------------------------------------- failures

  /** The states and errors in which event and job are left. */
  predicate LeftAs(h: Global, e: EventId, o: OutboxState, j: JobState, error: ErrorClass, ambiguous: bool) {
    && e in h.db.events && e in h.db.jobs && e in h.db.anchors
    && h.db.events[e].state == o && h.db.events[e].lease.None? && h.db.events[e].lastErrorClass == Some(error)
    && h.db.jobs[e].state == j && h.db.jobs[e].lastErrorClass == Some(error) && h.db.jobs[e].ambiguous == ambiguous
    && h.db.anchors[e].state == j
  }

  /** The end of an attempt whose job stands in `j`: a retry after the backoff, or a dead letter for event and job. */
  predicate RetriedOrDead(g: Global, h: Global, e: EventId, j: JobState, error: ErrorClass, ambiguous: bool)
    requires e in g.db.events
  {
    var n := g.db.events[e].attemptCount;
    if n < g.config.retry.maxAttempts then
      LeftAs(h, e, RetryableFailed, j, error, ambiguous) && h.db.events[e].availableAt == g.now + Delay(n, g.config.retry)
    else LeftAs(h, e, DeadLetter, JobTerminalFailed, error, false)
  }

  lemma RetryClosed(g: Global, w: WorkerRef, e: EventId, reason: ErrorClass)
    requires Poised(g, w, e, CloseRetryable(reason))
    ensures var h := Next(g, Act(w, Nothing));
            && e in h.db.events && h.db.jobs == g.db.jobs && h.db.anchors == g.db.anchors
            && h.db.events[e].lease.None? && h.db.events[e].lastErrorClass == Some(reason)
            && if g.db.events[e].attemptCount < g.config.retry.maxAttempts then
                 && h.db.events[e].state == RetryableFailed
                 && h.db.events[e].availableAt == g.now + Delay(g.db.events[e].attemptCount, g.config.retry)
               else h.db.events[e].state == DeadLetter && Stands(h, w, e, h.db.jobs[e], CloseDead(reason))
  {
    ActOnEvent(g, w, Nothing, e);
    FailRetryableStep(g, w, e, g.db.jobs[e], reason);
  }

  lemma JobInState(g: Global, w: WorkerRef, e: EventId, s: Stage)
    requires Poised(g, w, e, s) && g.db.jobs[e].state !in {JobClaimed, Preflight}
    ensures g.db.anchors[e].state == g.db.jobs[e].state
  {
    assert EventInv(g, e);
  }

  lemma ClosedForRetry(g: Global, w: WorkerRef, e: EventId, reason: ErrorClass)
    requires Poised(g, w, e, CloseRetryable(reason)) && g.db.jobs[e].state in {JobRetryableFailed, ReorgPending}
    requires g.db.jobs[e].lastErrorClass == Some(reason) && g.db.events[e].attemptCount < g.config.retry.maxAttempts
    ensures var h := Next(g, Act(w, Nothing));
            RetriedOrDead(g, h, e, g.db.jobs[e].state, reason, g.db.jobs[e].ambiguous)
  {
    RetryClosed(g, w, e, reason);
    JobInState(g, w, e, CloseRetryable(reason));
  }

  lemma ClosedForGood(g: Global, w: WorkerRef, e: EventId, reason: ErrorClass)
    requires Poised(g, w, e, CloseRetryable(reason)) && g.db.events[e].attemptCount >= g.config.retry.maxAttempts
    ensures var h := Next(Next(g, Act(w, Nothing)), Act(w, Nothing));
            LeftAs(h, e, DeadLetter, JobTerminalFailed, reason, false)
  {
    NextKeeps(g, Act(w, Nothing));
    RetryClosed(g, w, e, reason);
    DeadMarked(Next(g, Act(w, Nothing)), w, e, reason);
  }

  lemma Closing(g: Global, w: WorkerRef, e: EventId, reason: ErrorClass) returns (moves: seq<Move>)
    requires Poised(g, w, e, CloseRetryable(reason)) && g.db.jobs[e].state in {JobRetryableFailed, ReorgPending}
    requires g.db.jobs[e].lastErrorClass == Some(reason)
    ensures Alone(w, moves) && RetriedOrDead(g, Run(g, moves), e, g.db.jobs[e].state, reason, g.db.jobs[e].ambiguous)
  {
    var idle := Act(w, Nothing);
    if g.db.events[e].attemptCount < g.config.retry.maxAttempts {
      ClosedForRetry(g, w, e, reason);
      moves := [idle];
      assert moves[..0] == [];
    } else {
      ClosedForGood(g, w, e, reason);
      moves := [idle] + [idle];
      RunTwo(g, idle, idle);
    }
  }

  lemma MarkedRow(db: Db, e: EventId, w: WorkerRef, reason: ErrorClass)
    requires MarkDeadLetter(db, e, w, reason).Some?
    ensures var h := MarkDeadLetter(db, e, w, reason).value;
            && h.events == db.events && e in h.jobs && e in h.anchors
            && h.jobs[e].state == JobTerminalFailed && h.jobs[e].lastErrorClass == Some(reason) && !h.jobs[e].ambiguous
            && h.anchors[e].state == JobTerminalFailed
  {
  }

  lemma DeadMarked(g: Global, w: WorkerRef, e: EventId, reason: ErrorClass)
    requires Inv(g) && e in g.db.events && e in g.db.jobs && Stands(g, w, e, g.db.jobs[e], CloseDead(reason))
    requires g.db.events[e].state == DeadLetter && g.db.events[e].lease.None? && g.db.events[e].lastErrorClass == Some(reason)
    ensures LeftAs(Next(g, Act(w, Nothing)), e, DeadLetter, JobTerminalFailed, reason, false)
  {
    assert WorkerInv(g, w);
    DeadLetterServed(g, w, Nothing);
    MarkDeadStep(g, w, e, g.db.jobs[e], reason);
    MarkedRow(g.db, e, w, reason);
  }

  /** A retryable error fails the job with the error and its ambiguity flag, and ends the attempt. */
  lemma RetryableOutcome(g: Global, w: WorkerRef, e: EventId, error: VerusError) returns (moves: seq<Move>)
    requires Poised(g, w, e, Fail(error)) && g.db.jobs[e].state in WORKING_STATES && error.retryable
    ensures Alone(w, moves)
    ensures RetriedOrDead(g, Run(g, moves), e, JobRetryableFailed, RpcClass(error.code), error.ambiguous)
  {
    var idle := Act(w, Nothing);
    Commanded(g, w, e, Fail(error), RetryableFailureOf(error));
    var rest := Closing(Next(g, idle), w, e, RpcClass(error.code));
    moves := [idle] + rest;
    Prefixed(g, idle, rest);
  }

  lemma TerminallyClosed(g: Global, w: WorkerRef, e: EventId, reason: ErrorClass)
    requires Poised(g, w, e, CloseTerminal(reason)) && g.db.jobs[e].state == JobTerminalFailed
    requires g.db.jobs[e].lastErrorClass == Some(reason) && !g.db.jobs[e].ambiguous
    ensures LeftAs(Next(g, Act(w, Nothing)), e, TerminalFailed, JobTerminalFailed, reason, false)
  {
    JobInState(g, w, e, CloseTerminal(reason));
    ActOnEvent(g, w, Nothing, e);
    FailTerminalStep(g, w, e, g.db.jobs[e], reason);
  }

  /** Any other error fails job and event for good. */
  lemma TerminalOutcome(g: Global, w: WorkerRef, e: EventId, error: VerusError) returns (moves: seq<Move>)
    requires Poised(g, w, e, Fail(error)) && g.db.jobs[e].state in WORKING_STATES && !error.retryable
    ensures Alone(w, moves) && LeftAs(Run(g, moves), e, TerminalFailed, JobTerminalFailed, RpcClass(error.code), false)
  {
    var idle := Act(w, Nothing);
    Commanded(g, w, e, Fail(error), TerminalFailureOf(error));
    TerminallyClosed(Next(g, idle), w, e, RpcClass(error.code));
    moves := [idle] + [idle];
    RunTwo(g, idle, idle);
  }

  /** The error that an answer stands for, at the stage that asked for it. */
  predicate StandsFor(g: Global, e: EventId, s: Stage, reply: Reply, error: VerusError)
    requires e in g.db.jobs
  {
    var job := g.db.jobs[e];
    match s
    case Guard =>
      if g.config.guard(job.spec).Some? then g.config.guard(job.spec).value == error else reply == NodeError(error)
    case Search =>
      reply == NodeError(error) || (reply == EvidenceMissing && error == VerusError(AmbiguousSubmission, true, true))
    case Update => reply == NodeError(error)
    case Await(accepted) => reply == NodeError(error) && (accepted ==> !error.retryable || error.ambiguous)
    case Inspect =>
      && job.transactionId.Some?
      && (reply == NodeError(error) || (reply == StillConfirming && error == VerusError(ConfirmationPending, true, false)))
    case ReadBack =>
      reply == NodeError(error) || (reply == ReadbackMismatches && error == VerusError(ReadbackMismatch, false, false))
    case _ => false
  }

  /** What an answer that is an error leads to when nothing disturbs the worker: retryable errors to a retry or a dead
      letter, all others to the end of the job. */
  lemma ErrorOutcome(g: Global, w: WorkerRef, e: EventId, s: Stage, reply: Reply, error: VerusError)
    returns (moves: seq<Move>)
    requires Poised(g, w, e, s) && g.db.jobs[e].state in WORKING_STATES && StandsFor(g, e, s, reply, error)
    ensures Alone(w, moves) && moves != [] && moves[0] == Act(w, reply)
    ensures if error.retryable then
              RetriedOrDead(g, Run(g, moves), e, JobRetryableFailed, RpcClass(error.code), error.ambiguous)
            else LeftAs(Run(g, moves), e, TerminalFailed, JobTerminalFailed, RpcClass(error.code), false)
  {
    var answer, rest := Act(w, reply), [];
    Answering(g, w, e, s, reply, Fail(error));
    if error.retryable {
      rest := RetryableOutcome(Next(g, answer), w, e, error);
    } else {
      rest := TerminalOutcome(Next(g, answer), w, e, error);
    }
    moves := [answer] + rest;
    Prefixed(g, answer, rest);
  }

  /** A reorganization leads back to `reorg_pending` and a retry or a dead letter, with the transaction kept. */
  lemma ReorganizationOutcome(g: Global, w: WorkerRef, e: EventId) returns (moves: seq<Move>)
    requires Poised(g, w, e, Inspect) && g.db.jobs[e].state == Confirming
    ensures Alone(w, moves) && moves != [] && moves[0] == Act(w, ReorgSeen)
    ensures RetriedOrDead(g, Run(g, moves), e, ReorgPending, ReorgDetected, false)
  {
    var seen := Act(w, ReorgSeen);
    KnownTransaction(g, e);
    Answering(g, w, e, Inspect, ReorgSeen, Reorganize);
    var rest := Reorganized(Next(g, seen), w, e);
    moves := [seen] + rest;
    Prefixed(g, seen, rest);
  }

  lemma Reorganized(g: Global, w: WorkerRef, e: EventId) returns (moves: seq<Move>)
    requires Poised(g, w, e, Reorganize) && g.db.jobs[e].state == Confirming
    ensures Alone(w, moves) && RetriedOrDead(g, Run(g, moves), e, ReorgPending, ReorgDetected, false)
  {
    var idle := Act(w, Nothing);
    ReorganizedJob(g, w, e);
    var rest := Closing(Next(g, idle), w, e, ReorgDetected);
    Prefixed(g, idle, rest);
    moves := [idle] + rest;
  }

  lemma ReorganizedJob(g: Global, w: WorkerRef, e: EventId)
    requires Poised(g, w, e, Reorganize) && g.db.jobs[e].state == Confirming
    ensures var h := Next(g, Act(w, Nothing));
            && Poised(h, w, e, CloseRetryable(ReorgDetected)) && SameFrame(g, h, e)
            && h.db.jobs[e].state == ReorgPending && h.db.jobs[e].lastErrorClass == Some(ReorgDetected)
            && !h.db.jobs[e].ambiguous
  {
    NotAmbiguous(g, e);
    Commanded(g, w, e, Reorganize, REORGANIZE);
  }

  lemma NotAmbiguous(g: Global, e: EventId)
    requires Inv(g) && e in g.db.events && g.db.jobs[e].state == Confirming
    ensures !g.db.jobs[e].ambiguous
  {
    assert EventInv(g, e);
  }
}

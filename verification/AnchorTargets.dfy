/** Events and the identities that their jobs write: one writer per identity, and when an event can be claimed. */
module AnchorTargets {
  import opened Wrappers
  import opened AnchorTables
  import opened Outbox
  import opened VerusJobs
  import opened AnchorProtocol
  import opened AnchorInvariant
  import opened AnchorPreservation
  import opened AnchorEffects
  import opened AnchorTheorems

  // ---------------------------------------------------------------- aggregates

  /** The event is filed under the identity that its job writes. */
  predicate Filed(db: Db, e: EventId)
    requires e in db.events
  {
    && e in db.jobs
    && db.events[e].eventType == "verus.anchor.requested" && db.events[e].aggregateType == "verus_identity"
    && db.events[e].aggregateReference == db.jobs[e].spec.targetIdentity
  }

  ghost predicate AllFiled(db: Db) {
    forall e | e in db.events :: Filed(db, e)
  }

  lemma EnqueueFiles(g: Global, id: EventId, spec: JobSpec, keyHash: string)
    requires AllFiled(g.db)
    ensures AllFiled(DoEnqueue(g, id, spec, keyHash).db)
  {
    var h := DoEnqueue(g, id, spec, keyHash);
    forall x | x in h.db.events ensures Filed(h.db, x) {
      assert x in g.db.events ==> Filed(g.db, x);
    }
  }

  lemma StaysFiled(g: Global, h: Global, x: EventId)
    requires Aligned(g.db) && x in g.db.events && Filed(g.db, x) && Effect(g, h, x)
    ensures Filed(h.db, x)
  {
  }

  lemma NextFiled(g: Global, m: Move)
    requires Inv(g) && AllFiled(g.db)
    ensures AllFiled(Next(g, m).db)
  {
    if m.Enqueue? {
      EnqueueFiles(g, m.id, m.spec, m.keyHash);
    } else {
      SameEvents(g, m);
      forall x | x in Next(g, m).db.events ensures Filed(Next(g, m).db, x) {
        NextEffect(g, m, x);
        StaysFiled(g, Next(g, m), x);
      }
    }
  }

  lemma SameEvents(g: Global, m: Move)
    requires !m.Enqueue?
    ensures Next(g, m).db.events.Keys == g.db.events.Keys
  {
  }

  /** In every reachable state each event is filed under the identity that its job writes. */
  lemma {:induction false} AlwaysFiled(config: Config, now: Millis, moves: seq<Move>)
    requires ValidConfig(config)
    ensures AllFiled(Run(Start(config, now), moves).db)
    decreases |moves|
  {
    if moves != [] {
      var init := moves[..|moves| - 1];
      AlwaysFiled(config, now, init);
      var g := Reached(config, now, init);
      NextFiled(g, moves[|moves| - 1]);
    }
  }

  /** At every point of every run, two events under live leases have jobs for different identities. */
  lemma OneWriterPerIdentity(config: Config, now: Millis, moves: seq<Move>, a: EventId, b: EventId)
    requires ValidConfig(config) && a != b
    requires var g := Run(Start(config, now), moves);
             && a in g.db.events && b in g.db.events
             && HasLiveLease(g.db.events[a], g.now) && HasLiveLease(g.db.events[b], g.now)
    ensures var db := Run(Start(config, now), moves).db;
            && a in db.jobs && b in db.jobs && db.jobs[a].spec.targetIdentity != db.jobs[b].spec.targetIdentity
  {
    var g := Reached(config, now, moves);
    AlwaysSingleWriter(config, now, moves);
    AlwaysFiled(config, now, moves);
    assert Filed(g.db, a) && Filed(g.db, b);
  }

  // ---------------------------------------------------------------- enqueueing

  predicate KeyKnown(db: Db, keyHash: string) {
    exists x | x in db.events :: db.events[x].keyHash == keyHash
  }

  /** The event, job and anchor rows as a new key leaves them. */
  predicate Queued(db: Db, id: EventId, spec: JobSpec, keyHash: string, now: Millis) {
    && id in db.events && id in db.jobs && id in db.anchors && id in db.attempts
    && var row, job, anchor := db.events[id], db.jobs[id], db.anchors[id];
       && row.state == Pending && row.lease.None? && row.attemptCount == 0 && db.attempts[id] == []
       && row.keyHash == keyHash && row.createdAt == now && row.availableAt == now
       && row.lastErrorClass.None? && row.completedAt.None? && Filed(db, id)
       && job.spec == spec && job.state == JobPending && !job.ambiguous && job.version == 1
       && job.transactionId.None? && job.blockHeight.None? && job.blockHash.None? && job.readbackDigest.None?
       && job.lastErrorClass.None?
       && anchor.state == JobPending && anchor.version == 1 && anchor.transactionId.None? && anchor.blockHeight.None?
       && anchor.blockHash.None? && anchor.readbackDigest.None?
  }

  ghost predicate OthersKept(db: Db, h: Db, id: EventId) {
    && h.events.Keys == db.events.Keys + {id}
    && forall x | x in db.events && x in db.jobs && x in db.anchors && x in db.attempts && x != id ::
         && x in h.jobs && x in h.anchors && x in h.attempts
         && h.events[x] == db.events[x] && h.jobs[x] == db.jobs[x]
         && h.anchors[x] == db.anchors[x] && h.attempts[x] == db.attempts[x]
  }

  /** A new key files a pending event under its job's identity, due at once; a known one changes nothing, and is answered
      only if it was used for the same digest, identity and key. */
  lemma EnqueueExactly(db: Db, id: EventId, spec: JobSpec, keyHash: string, now: Millis)
    requires Aligned(db)
    ensures var r := EnqueueAnchor(db, id, spec, keyHash, now);
            if KeyKnown(db, keyHash) then
              && (r.Some? ==> r.value == db)
              && (r.Some? <==> exists x | x in db.events ::
                    && db.events[x].keyHash == keyHash
                    && db.jobs[x].spec.manifestDigest == spec.manifestDigest
                    && db.jobs[x].spec.targetIdentity == spec.targetIdentity
                    && db.jobs[x].spec.vdxfKey == spec.vdxfKey)
            else
              && (r.Some? <==> id !in db.events)
              && (r.Some? ==> Queued(r.value, id, spec, keyHash, now) && OthersKept(db, r.value, id))
  {
  }
}

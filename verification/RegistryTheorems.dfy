/** What the registry guarantees over every sequence of commands. */
module RegistryTheorems {
  import opened Wrappers
  import opened Registry
  import opened RegistryInvariant
  import opened RegistryPreservation

  lemma Reached(participants: set<Ref>, now: Millis, calls: seq<Call>) returns (db: Tables)
    ensures db == Run(Empty(participants, now), calls) && Inv(db)
  {
    EmptyInv(participants, now);
    RunKeeps(Empty(participants, now), calls);
    db := Run(Empty(participants, now), calls);
  }

  // ---------------------------------------------------------------- renewal chains

  /** At most one active attestation in each chain; in fact, for each participant. */
  lemma OneActive(participants: set<Ref>, now: Millis, calls: seq<Call>, a: Ref, b: Ref)
    requires var db := Run(Empty(participants, now), calls);
             && a in db.attestations && b in db.attestations && SameParticipant(db, a, b)
             && db.attestations[a].state == Active && db.attestations[b].state == Active
    ensures a == b
  {
    var db := Reached(participants, now, calls);
    assert AttestationInv(db, a) && AttestationInv(db, b);
    OneActiveIn(db, a, b);
  }

  lemma OneActiveIn(db: Tables, a: Ref, b: Ref)
    requires Chains(db) && a in db.attestations && b in db.attestations && SameParticipant(db, a, b)
    requires db.attestations[a].state == Active && db.attestations[b].state == Active
    requires db.attestations[a].issuanceComplete && db.attestations[b].issuanceComplete
    ensures a == b
  {
    var low, high := if db.attestations[a].version <= db.attestations[b].version then a else b,
                     if db.attestations[a].version <= db.attestations[b].version then b else a;
    assert Linked(db, low);
    var c := Ancestor(db, high, db.attestations[low].version);
    SameVersion(db, low, c);
  }

  /** An attestation is superseded exactly when one renewal of it has been activated, and then only one. */
  lemma SupersededExactly(participants: set<Ref>, now: Millis, calls: seq<Call>, p: Ref)
    requires p in Run(Empty(participants, now), calls).attestations
    ensures var db := Run(Empty(participants, now), calls);
            && (db.attestations[p].state == Superseded <==> HasSuccessor(db, p))
            && (forall a, b | Renews(db, a, p) && Renews(db, b, p) :: a == b)
  {
    var db := Reached(participants, now, calls);
    assert Succeeded(db, p);
    if a :| Renews(db, a, p) && db.attestations[a].issuanceComplete {
      assert Linked(db, a);
    }
    forall a, b | Renews(db, a, p) && Renews(db, b, p) ensures a == b {
      assert Linked(db, a) && Linked(db, b);
      SameVersion(db, a, b);
    }
  }

  /** Number of attestations from the root of the chain to `a`. */
  ghost function Depth(db: Tables, a: Ref): nat
    requires Chains(db) && a in db.attestations
    decreases db.attestations[a].version
  {
    assert Linked(db, a);
    if db.attestations[a].supersedes.None? then 1 else 1 + Depth(db, db.attestations[a].supersedes.value)
  }

  lemma {:induction false} DepthIsVersion(db: Tables, a: Ref)
    requires Chains(db) && a in db.attestations
    ensures Depth(db, a) == db.attestations[a].version
    decreases db.attestations[a].version
  {
    assert Linked(db, a);
    if db.attestations[a].supersedes.Some? {
      DepthIsVersion(db, db.attestations[a].supersedes.value);
    }
  }

  /** In every reachable registry the version is the depth in the chain. */
  lemma VersionIsDepth(participants: set<Ref>, now: Millis, calls: seq<Call>, a: Ref)
    requires a in Run(Empty(participants, now), calls).attestations
    ensures var db := Run(Empty(participants, now), calls);
            Inv(db) && Depth(db, a) == db.attestations[a].version
  {
    var db := Reached(participants, now, calls);
    DepthIsVersion(db, a);
  }

  // ---------------------------------------------------------------- lockstep

  /** Attestation, status and request carry the same state, and no request has two attestations. */
  lemma AlwaysLockstep(participants: set<Ref>, now: Millis, calls: seq<Call>, a: Ref, b: Ref)
    requires var db := Run(Empty(participants, now), calls); a in db.attestations && b in db.attestations
    ensures var db := Run(Empty(participants, now), calls);
            && Lockstep(db, a)
            && (db.attestations[a].request == db.attestations[b].request ==> a == b)
  {
    var db := Reached(participants, now, calls);
    assert AttestationInv(db, a);
  }

  /** The number of events that changed a state. */
  function Changes(h: seq<AuditEvent>): nat {
    if h == [] then 0 else Changes(h[..|h| - 1]) + (if h[|h| - 1].prior.Some? then 1 else 0)
  }

  lemma {:induction false} ChainedChanges(h: seq<AuditEvent>, first: State)
    requires Chained(h, first)
    ensures Changes(h) == |h| - 1
  {
    if |h| > 1 {
      ChainedPrefix(h, first);
      ChainedChanges(h[..|h| - 1], first);
    } else {
      assert Changes(h[..0]) == 0;
    }
  }

  lemma ChainedPrefix(h: seq<AuditEvent>, first: State)
    requires Chained(h, first) && |h| > 1
    ensures Chained(h[..|h| - 1], first)
  {
    var g := h[..|h| - 1];
    forall i | 0 < i < |g| ensures g[i].prior == Some(g[i - 1].next) && Allowed(g[i].target, g[i - 1].next, g[i].next) {
      assert h[i].prior == Some(h[i - 1].next);
    }
  }

  /** A request's version is 1 plus the number of its state changes, its attestation's included. */
  lemma VersionCountsChanges(participants: set<Ref>, now: Millis, calls: seq<Call>, q: Ref, a: Ref)
    requires q in Run(Empty(participants, now), calls).requests
    ensures var db := Run(Empty(participants, now), calls);
            && (Bare(db, q) ==> db.requests[q].version == 1 + Changes(RequestHistory(db, q)))
            && (a in db.attestations && db.attestations[a].request == q ==>
                  db.requests[q].version == 1 + Changes(RequestHistory(db, q)) + Changes(AttestationHistory(db, a)))
  {
    var db := Reached(participants, now, calls);
    assert RequestInv(db, q);
    if Bare(db, q) {
      ChainedChanges(RequestHistory(db, q), Requested);
    }
    if a in db.attestations && db.attestations[a].request == q {
      assert AttestationInv(db, a);
      ChainedChanges(RequestHistory(db, q), Requested);
      ChainedChanges(AttestationHistory(db, a), Issued);
    }
  }

  // ---------------------------------------------------------------- audit replay

  /** Replaying a history: `None` before the first event, or once a prior state does not match. */
  function Replayed(h: seq<AuditEvent>): Option<State> {
    if h == [] then None
    else
      var last, before := h[|h| - 1], Replayed(h[..|h| - 1]);
      if last.prior == before && (|h| == 1 || before.Some?) then Some(last.next) else None
  }

  lemma {:induction false} ChainedReplays(h: seq<AuditEvent>, first: State)
    requires Chained(h, first)
    ensures Replayed(h) == Some(LastState(h))
  {
    if |h| > 1 {
      ChainedPrefix(h, first);
      ChainedReplays(h[..|h| - 1], first);
    } else {
      assert Replayed(h[..0]) == None;
    }
  }

  /** Folding an attestation's audit events gives its stored state, its status and its request's state. */
  lemma AuditReplaysAttestation(participants: set<Ref>, now: Millis, calls: seq<Call>, a: Ref)
    requires a in Run(Empty(participants, now), calls).attestations
    ensures var db := Run(Empty(participants, now), calls);
            && Joined(db, a)
            && Replayed(AttestationHistory(db, a)) == Some(db.attestations[a].state)
            && db.statuses[a].version == 1 + Changes(AttestationHistory(db, a))
            && RequestOf(db, a).state == db.attestations[a].state
  {
    var db := Reached(participants, now, calls);
    assert AttestationInv(db, a);
    ChainedReplays(AttestationHistory(db, a), Issued);
    ChainedChanges(AttestationHistory(db, a), Issued);
  }

  lemma AuditReplaysRequest(participants: set<Ref>, now: Millis, calls: seq<Call>, q: Ref)
    requires q in Run(Empty(participants, now), calls).requests
    requires Bare(Run(Empty(participants, now), calls), q)
    ensures var db := Run(Empty(participants, now), calls);
            Replayed(RequestHistory(db, q)) == Some(db.requests[q].state)
  {
    var db := Reached(participants, now, calls);
    assert RequestInv(db, q);
    ChainedReplays(RequestHistory(db, q), Requested);
  }

  /** A history that ends in `issued` went through approval and pending issuance right before. */
  lemma IssuedTail(h: seq<AuditEvent>)
    requires Chained(h, Requested) && LastState(h) == Issued && forall i | 0 <= i < |h| :: h[i].target == OnRequest
    ensures |h| >= 7
    ensures h[|h| - 2].next == IssuancePending && h[|h| - 3].next == Approved && h[|h| - 4].next == UnderReview
    ensures h[|h| - 5].next == CheckedIn && h[|h| - 6].next == Scheduled
  {
    var n := |h|;
    OneStepBack(h, n - 1);
    OneStepBack(h, n - 2);
    OneStepBack(h, n - 3);
    OneStepBack(h, n - 4);
    OneStepBack(h, n - 5);
  }

  /** The only way into the states on the path to issuance. */
  lemma OneStepBack(h: seq<AuditEvent>, i: nat)
    requires Chained(h, Requested) && i < |h| && forall k | 0 <= k < |h| :: h[k].target == OnRequest
    requires h[i].next in {Issued, IssuancePending, Approved, UnderReview, CheckedIn}
    ensures i > 0
    ensures h[i - 1].next == match h[i].next
                             case Issued => IssuancePending
                             case IssuancePending => Approved
                             case Approved => UnderReview
                             case UnderReview => CheckedIn
                             case _ => Scheduled
  {
    if i > 0 {
      assert Allowed(h[i].target, h[i - 1].next, h[i].next);
      var verb: Verb :| Source(verb) == h[i - 1].next && Target(verb) == h[i].next;
    }
  }

  lemma {:induction false} HistoryTarget(audit: seq<AuditEvent>, target: AuditTarget, reference: Ref)
    ensures forall i | 0 <= i < |History(audit, target, reference)| :: History(audit, target, reference)[i].target == target
  {
    if audit != [] {
      HistoryTarget(audit[..|audit| - 1], target, reference);
    }
  }

  /** Every attestation's request was scheduled, checked in, reviewed, approved, and sent to issuance, in that order. */
  lemma IssuedRequestsWereApproved(participants: set<Ref>, now: Millis, calls: seq<Call>, a: Ref)
    requires a in Run(Empty(participants, now), calls).attestations
    ensures var db := Run(Empty(participants, now), calls);
            var h := RequestHistory(db, db.attestations[a].request);
            && |h| >= 7 && h[|h| - 1].next == Issued
            && h[|h| - 2].next == IssuancePending && h[|h| - 3].next == Approved && h[|h| - 4].next == UnderReview
            && h[|h| - 5].next == CheckedIn && h[|h| - 6].next == Scheduled
  {
    var db := Reached(participants, now, calls);
    IssuedIn(db, a);
  }

  lemma IssuedIn(db: Tables, a: Ref)
    requires Inv(db) && a in db.attestations
    ensures var h := RequestHistory(db, db.attestations[a].request);
            && |h| >= 7 && h[|h| - 1].next == Issued
            && h[|h| - 2].next == IssuancePending && h[|h| - 3].next == Approved && h[|h| - 4].next == UnderReview
            && h[|h| - 5].next == CheckedIn && h[|h| - 6].next == Scheduled
  {
    assert AttestationInv(db, a);
    HistoryTarget(db.audit, OnRequest, db.attestations[a].request);
    IssuedTail(RequestHistory(db, db.attestations[a].request));
  }
}

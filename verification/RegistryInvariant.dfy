/** What every sequence of commands keeps of the registry. */
module RegistryInvariant {
  import opened Wrappers
  import opened Registry

  // ---------------------------------------------------------------- histories

  /** The audit events of one request or attestation, oldest first. */
  function History(audit: seq<AuditEvent>, target: AuditTarget, reference: Ref): seq<AuditEvent> {
    if audit == [] then []
    else
      var last := audit[|audit| - 1];
      History(audit[..|audit| - 1], target, reference)
        + (if last.target == target && last.reference == reference then [last] else [])
  }

  lemma HistoryAppend(audit: seq<AuditEvent>, event: AuditEvent, target: AuditTarget, reference: Ref)
    ensures History(audit + [event], target, reference)
         == History(audit, target, reference)
              + (if event.target == target && event.reference == reference then [event] else [])
  {
    assert (audit + [event])[..|audit|] == audit;
  }

  /** The state changes that the domain names: a verb on a request, or an attestation command. */
  predicate Allowed(target: AuditTarget, a: State, b: State) {
    match target
    case OnRequest => exists verb: Verb :: Source(verb) == a && Target(verb) == b
    case OnAttestation => (a == Issued && b == Active) || (a == Active && b in {Expired, Revoked, Superseded})
  }

  /** Each prior state is the previous new state, every change is allowed, and the first has no prior state. */
  predicate Chained(h: seq<AuditEvent>, first: State) {
    && h != []
    && h[0].prior == None && h[0].next == first
    && forall i | 0 < i < |h| :: h[i].prior == Some(h[i - 1].next) && Allowed(h[i].target, h[i - 1].next, h[i].next)
  }

  function LastState(h: seq<AuditEvent>): State
    requires h != []
  {
    h[|h| - 1].next
  }

  function RequestHistory(db: Tables, q: Ref): seq<AuditEvent> {
    History(db.audit, OnRequest, q)
  }

  function AttestationHistory(db: Tables, a: Ref): seq<AuditEvent> {
    History(db.audit, OnAttestation, a)
  }

  // ---------------------------------------------------------------- rows

  const ATTESTATION_STATES := {Issued, Active, Expired, Revoked, Superseded}

  /** Attestation, status and request carry one state; the history leads to it. */
  predicate Lockstep(db: Tables, a: Ref)
    requires a in db.attestations
  {
    && Joined(db, a)
    && var row, q := db.attestations[a], RequestOf(db, a);
       && q.participant == row.participant
       && row.state == db.statuses[a].state == q.state
       && row.state in ATTESTATION_STATES
       && (row.issuanceComplete <==> row.state != Issued)
       && ValidWindow(row.validFrom, row.expiresAt)
  }

  predicate Recorded(db: Tables, a: Ref)
    requires Joined(db, a)
  {
    var h, hq := AttestationHistory(db, a), RequestHistory(db, db.attestations[a].request);
    && Chained(h, Issued) && LastState(h) == db.attestations[a].state && |h| == db.statuses[a].version
    && Chained(hq, Requested) && LastState(hq) == Issued
    && RequestOf(db, a).version == |hq| + |h| - 1
  }

  /** Times of the row lie behind the registry's clock. */
  predicate Timely(db: Tables, a: Ref)
    requires Joined(db, a)
  {
    var row, status := db.attestations[a], db.statuses[a];
    && (row.issuanceComplete ==> row.validFrom <= db.latest && status.effectiveAt <= db.latest)
    && (row.state == Expired ==> row.expiresAt <= db.latest)
    && (row.state == Revoked <==> a in db.revocations)
    && (row.state == Revoked ==> db.revocations[a] == status.effectiveAt)
  }

  ghost predicate AttestationInv(db: Tables, a: Ref)
    requires a in db.attestations
  {
    Lockstep(db, a) && Recorded(db, a) && Timely(db, a)
  }

  ghost predicate Bare(db: Tables, q: Ref) {
    forall a | a in db.attestations :: db.attestations[a].request != q
  }

  /** A request without attestation is where its own history left it. */
  ghost predicate RequestInv(db: Tables, q: Ref)
    requires q in db.requests
  {
    Bare(db, q) ==>
      var h := RequestHistory(db, q);
      && Chained(h, Requested) && LastState(h) == db.requests[q].state && |h| == db.requests[q].version
  }

  /** No history without a row, no revocation or status without an attestation. */
  ghost predicate NoStrays(db: Tables) {
    && (forall q | q !in db.requests :: RequestHistory(db, q) == [])
    && (forall a | a !in db.attestations :: AttestationHistory(db, a) == [])
    && (forall a | a !in db.attestations :: a !in db.revocations)
  }

  // ---------------------------------------------------------------- renewal chains

  predicate SameParticipant(db: Tables, a: Ref, b: Ref)
    requires a in db.attestations && b in db.attestations
  {
    db.attestations[a].participant == db.attestations[b].participant
  }

  ghost predicate Unique(db: Tables) {
    forall a, b | a in db.attestations && b in db.attestations && a != b ::
      SameParticipant(db, a, b) ==> db.attestations[a].version != db.attestations[b].version
  }

  /** `a` is the renewal of `p`. */
  predicate Renews(db: Tables, a: Ref, p: Ref) {
    a in db.attestations && db.attestations[a].supersedes == Some(p)
  }

  /** Roots have version 1; a renewal's version follows its predecessor's, which is superseded once the renewal has
      been activated. */
  predicate Linked(db: Tables, a: Ref)
    requires a in db.attestations
  {
    var row := db.attestations[a];
    && 1 <= row.version
    && (row.supersedes.None? <==> row.version == 1)
    && (row.supersedes.Some? ==>
          var p := row.supersedes.value;
          && p in db.attestations && SameParticipant(db, a, p) && row.version == db.attestations[p].version + 1
          && db.attestations[p].issuanceComplete
          && (row.issuanceComplete <==> db.attestations[p].state == Superseded))
  }

  ghost predicate HasSuccessor(db: Tables, p: Ref) {
    exists a :: Renews(db, a, p) && db.attestations[a].issuanceComplete
  }

  ghost predicate Succeeded(db: Tables, p: Ref)
    requires p in db.attestations
  {
    db.attestations[p].state == Superseded ==> HasSuccessor(db, p)
  }

  ghost predicate Chains(db: Tables) {
    && Unique(db)
    && (forall a | a in db.attestations :: Linked(db, a))
    && (forall a | a in db.attestations :: Succeeded(db, a))
  }

  ghost predicate Exclusive(db: Tables) {
    forall a, b | a in db.attestations && b in db.attestations && db.attestations[a].request == db.attestations[b].request ::
      a == b
  }

  ghost predicate Rows(db: Tables) {
    && Exclusive(db) && NoStrays(db)
    && (forall a {:trigger AttestationInv(db, a)} | a in db.attestations :: AttestationInv(db, a))
    && (forall q {:trigger RequestInv(db, q)} | q in db.requests :: RequestInv(db, q))
  }

  ghost predicate Inv(db: Tables) {
    Rows(db) && Chains(db)
  }

  // ---------------------------------------------------------------- walking a chain

  /** Below every attestation, each smaller version of the participant exists; below an activated one, superseded. */
  lemma {:induction false} Ancestor(db: Tables, a: Ref, k: nat) returns (b: Ref)
    requires Chains(db) && a in db.attestations && 1 <= k <= db.attestations[a].version
    ensures b in db.attestations && SameParticipant(db, a, b) && db.attestations[b].version == k
    ensures k == db.attestations[a].version ==> b == a
    ensures k < db.attestations[a].version && db.attestations[a].issuanceComplete ==> db.attestations[b].state == Superseded
    ensures k < db.attestations[a].version ==> db.attestations[b].issuanceComplete
    decreases db.attestations[a].version
  {
    b := a;
    if k < db.attestations[a].version {
      assert Linked(db, a);
      var p := db.attestations[a].supersedes.value;
      b := Ancestor(db, p, k);
    }
  }
}

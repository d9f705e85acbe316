/** When each command succeeds and why it is refused otherwise, in terms of single rows; and what the expected versions
    protect. */
module RegistryOutcomes {
  import opened Wrappers
  import opened Registry
  import opened RegistryInvariant
  import opened RegistryPreservation
  import opened RegistryTheorems
  import opened RegistryRuns
  import opened RegistryExclusion

  // ---------------------------------------------------------------- verdicts

  datatype Verdict = Accepted | Denied(error: Error)

  /** The attestation can be issued for the participant: the first one, or the only renewal of an active one. */
  ghost predicate Eligible(db: Tables, participant: Ref, supersedes: Option<Ref>) {
    match supersedes
    case None => forall x :: !Of(db, x, participant)
    case Some(p) => Of(db, p, participant) && db.attestations[p].state == Active && forall y :: !Renews(db, y, p)
  }

  predicate ActivePredecessor(db: Tables, participant: Ref, p: Ref) {
    p in db.attestations && db.attestations[p].participant == participant && db.attestations[p].state == Active
  }

  ghost function IssueVerdict(db: Tables, reference: Ref, request: Ref, from: Millis, until: Millis,
                              supersedes: Option<Ref>): Verdict {
    if request !in db.requests then Denied(TenantBoundary)
    else if db.requests[request].state != Issued then Denied(RepositoryConflict)
    else
      var participant := db.requests[request].participant;
      if supersedes.Some? && !ActivePredecessor(db, participant, supersedes.value) then Denied(RepositoryConflict)
      else if !(0 < until - from <= 45 * 86_400_000) then Denied(InvalidValidity)
      else if reference in db.attestations || !Eligible(db, participant, supersedes) then Denied(RepositoryConflict)
      else Accepted
  }

  /** Commands on an attestation that is known under the expected version, at its time, and in the right state. */
  function RowVerdict(db: Tables, a: Ref, expected: nat, state: State, onTime: bool): Verdict {
    if a !in db.attestations then Denied(TenantBoundary)
    else if a !in db.statuses || db.statuses[a].version != expected || !onTime then Denied(RepositoryConflict)
    else if db.attestations[a].state != state then Denied(InvalidTransition)
    else Accepted
  }

  function ActivationVerdict(db: Tables, a: Ref, expected: nat, at: Millis): Verdict {
    if a !in db.attestations then Denied(TenantBoundary)
    else
      var row := db.attestations[a];
      var verdict := RowVerdict(db, a, expected, Issued, row.validFrom <= at < row.expiresAt);
      if verdict == Accepted && row.supersedes.Some? && !ActivePredecessor(db, row.participant, row.supersedes.value)
      then Denied(InvalidTransition) else verdict
  }

  ghost function VerdictOn(db: Tables, c: Command): Verdict {
    match c
    case CreateRequest(reference, participant) =>
      if participant in db.participants && reference !in db.requests then Accepted else Denied(RepositoryConflict)
    case Transition(reference, verb, expected) =>
      if reference !in db.requests then Denied(TenantBoundary)
      else if db.requests[reference].version != expected then Denied(RepositoryConflict)
      else if db.requests[reference].state != Source(verb) then Denied(InvalidTransition)
      else Accepted
    case Issue(reference, request, from, until, supersedes) =>
      IssueVerdict(db, reference, request, from, until, supersedes)
    case Activate(a, expected, at) => ActivationVerdict(db, a, expected, at)
    case Expire(a, expected, at) =>
      RowVerdict(db, a, expected, Active, a in db.attestations && db.attestations[a].expiresAt <= at)
    case Revoke(a, expected, _) => RowVerdict(db, a, expected, Active, true)
  }

  predicate Agrees(effect: Effect, verdict: Verdict) {
    match effect
    case Changed(_, _, _) => verdict == Accepted
    case Refused(error) => verdict == Denied(error)
  }

  lemma IndexesExactly(db: Tables, participant: Ref, supersedes: Option<Ref>)
    requires Chains(db)
    requires supersedes.Some? ==> ActivePredecessor(db, participant, supersedes.value)
    ensures IndexesAllow(db, participant,
                         if supersedes.Some? then db.attestations[supersedes.value].version + 1 else 1, supersedes)
       <==> Eligible(db, participant, supersedes)
  {
    if Eligible(db, participant, supersedes) {
      IndexesFree(db, participant, supersedes);
    } else if supersedes.None? {
      var x :| Of(db, x, participant);
      RootBlocks(db, participant, x);
    } else {
      var y :| Renews(db, y, supersedes.value);
    }
  }

  lemma IssueAgrees(db: Tables, c: Command)
    requires Chains(db) && c.Issue?
    ensures Agrees(Apply(db, c), VerdictOn(db, c))
  {
    if c.request in db.requests {
      var participant := db.requests[c.request].participant;
      if c.supersedesReference.Some? ==> ActivePredecessor(db, participant, c.supersedesReference.value) {
        IndexesExactly(db, participant, c.supersedesReference);
      }
    }
  }

  /** The predecessor stands in a request of its own, with the state of its attestation. */
  predicate SoundPredecessor(db: Tables, a: Ref, p: Ref)
    requires Joined(db, a)
  {
    && Joined(db, p) && p != a && db.attestations[a].request != db.attestations[p].request
    && db.attestations[p].participant == db.attestations[a].participant
    && db.attestations[p].state == RequestOf(db, p).state
  }

  lemma FirstActivationOf(db: Tables, a: Ref, version: nat, at: Millis)
    requires a in db.attestations ==> Joined(db, a) && db.attestations[a].state == RequestOf(db, a).state
    requires a in db.attestations ==> db.attestations[a].supersedes.None?
    ensures Agrees(Activation(db, a, version, at), VerdictOn(db, Activate(a, version, at)))
  {
  }

  lemma RenewalActivationOf(db: Tables, a: Ref, p: Ref, version: nat, at: Millis)
    requires Joined(db, a) && db.attestations[a].state == RequestOf(db, a).state
    requires db.attestations[a].supersedes == Some(p) && SoundPredecessor(db, a, p)
    ensures Agrees(Activation(db, a, version, at), VerdictOn(db, Activate(a, version, at)))
  {
    var moved := Move(db, a, Active, at, true);
    assert Joined(moved, p) && RequestOf(moved, p) == RequestOf(db, p);
  }

  lemma PredecessorSound(db: Tables, a: Ref)
    requires Inv(db) && a in db.attestations && db.attestations[a].supersedes.Some?
    ensures Joined(db, a) && SoundPredecessor(db, a, db.attestations[a].supersedes.value)
  {
    PredecessorActive(db, a);
    assert Linked(db, a);
  }

  lemma ActivationAgrees(db: Tables, a: Ref, version: nat, at: Millis)
    requires Inv(db)
    ensures Agrees(Activation(db, a, version, at), VerdictOn(db, Activate(a, version, at)))
  {
    if a in db.attestations {
      assert AttestationInv(db, a);
    }
    if a in db.attestations && db.attestations[a].supersedes.Some? {
      PredecessorSound(db, a);
      RenewalActivationOf(db, a, db.attestations[a].supersedes.value, version, at);
    } else {
      FirstActivationOf(db, a, version, at);
    }
  }

  lemma ExpiryOf(db: Tables, a: Ref, version: nat, at: Millis)
    requires a in db.attestations ==> Joined(db, a) && db.attestations[a].state == RequestOf(db, a).state
    ensures Agrees(Expiry(db, a, version, at), VerdictOn(db, Expire(a, version, at)))
  {
  }

  lemma ExpiryAgrees(db: Tables, a: Ref, version: nat, at: Millis)
    requires Inv(db)
    ensures Agrees(Expiry(db, a, version, at), VerdictOn(db, Expire(a, version, at)))
  {
    if a in db.attestations {
      assert AttestationInv(db, a);
    }
    ExpiryOf(db, a, version, at);
  }

  lemma RevocationOf(db: Tables, a: Ref, version: nat, at: Millis)
    requires a in db.attestations ==> Joined(db, a) && (db.attestations[a].state == Active ==> a !in db.revocations)
    ensures Agrees(Revocation(db, a, version, at), VerdictOn(db, Revoke(a, version, at)))
  {
  }

  lemma RevocationAgrees(db: Tables, a: Ref, version: nat, at: Millis)
    requires Inv(db)
    ensures Agrees(Revocation(db, a, version, at), VerdictOn(db, Revoke(a, version, at)))
  {
    if a in db.attestations {
      assert AttestationInv(db, a);
    }
    RevocationOf(db, a, version, at);
  }

  /** In every reachable registry a command under a new key succeeds exactly if the verdict on its rows accepts it, and is
      refused with the verdict's error otherwise. */
  lemma OutcomeExactly(participants: set<Ref>, now: Millis, calls: seq<Call>, call: Call)
    requires call.context.key !in Run(Empty(participants, now), calls).records
    ensures var db := Run(Empty(participants, now), calls);
            var (after, r) := Execute(db, call.command, call.context);
            match VerdictOn(db, call.command)
            case Accepted => r.Done? && !r.replayed && after != db
            case Denied(error) => r == Failed(error) && after == db
  {
    var db := Reached(participants, now, calls);
    var c := call.command;
    match c
    case Issue(_, _, _, _, _) => IssueAgrees(db, c);
    case Activate(a, version, at) => ActivationAgrees(db, a, version, at);
    case Expire(a, version, at) => ExpiryAgrees(db, a, version, at);
    case Revoke(a, version, at) => RevocationAgrees(db, a, version, at);
    case _ =>
    ExecuteAgrees(db, call);
  }

  lemma ExecuteAgrees(db: Tables, call: Call)
    requires call.context.key !in db.records && Agrees(Apply(db, call.command), VerdictOn(db, call.command))
    ensures var (after, r) := Execute(db, call.command, call.context);
            match VerdictOn(db, call.command)
            case Accepted => r.Done? && !r.replayed && after != db
            case Denied(error) => r == Failed(error) && after == db
  {
    if Apply(db, call.command).Changed? {
      assert call.context.key in Execute(db, call.command, call.context).0.records;
    }
  }

  // ---------------------------------------------------------------- lost updates

  /** Versions of requests and of attestations' statuses never go back. */
  predicate VersionsGrow(db: Tables, h: Tables) {
    && (forall q | q in db.requests :: q in h.requests && db.requests[q].version <= h.requests[q].version)
    && (forall a | a in db.statuses :: a in h.statuses && db.statuses[a].version <= h.statuses[a].version)
  }

  lemma MoveVersions(db: Tables, a: Ref, next: State, at: Millis, complete: bool)
    requires Joined(db, a)
    ensures VersionsGrow(db, Move(db, a, next, at, complete))
  {
  }

  lemma ActivationVersions(db: Tables, a: Ref, version: nat, at: Millis)
    requires Activation(db, a, version, at).Changed?
    ensures VersionsGrow(db, Activation(db, a, version, at).db)
  {
    var moved := Move(db, a, Active, at, true);
    MoveVersions(db, a, Active, at, true);
    if db.attestations[a].supersedes.Some? {
      MoveVersions(moved, db.attestations[a].supersedes.value, Superseded, at, false);
    }
  }

  lemma ApplyVersions(db: Tables, c: Command)
    requires Apply(db, c).Changed? && (c.Issue? ==> c.reference !in db.statuses)
    ensures VersionsGrow(db, Apply(db, c).db)
  {
    match c
    case Activate(a, version, at) => ActivationVersions(db, a, version, at);
    case Expire(a, _, at) => MoveVersions(db, a, Expired, at, false);
    case Revoke(a, _, at) => MoveVersions(db.(revocations := db.revocations[a := at]), a, Revoked, at, false);
    case _ =>
  }

  ghost predicate OnlyAttestationsHaveStatus(db: Tables) {
    db.statuses.Keys == db.attestations.Keys
  }

  lemma ExecuteVersions(db: Tables, call: Call)
    requires OnlyAttestationsHaveStatus(db)
    ensures var h := Execute(db, call.command, call.context).0; VersionsGrow(db, h) && OnlyAttestationsHaveStatus(h)
  {
    if call.context.key !in db.records && Apply(db, call.command).Changed? {
      ApplyVersions(db, call.command);
      ApplyStatuses(db, call.command);
    }
  }

  lemma ApplyStatuses(db: Tables, c: Command)
    requires OnlyAttestationsHaveStatus(db) && Apply(db, c).Changed?
    ensures OnlyAttestationsHaveStatus(Apply(db, c).db)
  {
  }

  lemma {:induction false} RunVersions(db: Tables, calls: seq<Call>)
    requires OnlyAttestationsHaveStatus(db)
    ensures VersionsGrow(db, Run(db, calls)) && OnlyAttestationsHaveStatus(Run(db, calls))
    decreases |calls|
  {
    if calls != [] {
      RunVersions(db, calls[..|calls| - 1]);
      ExecuteVersions(Run(db, calls[..|calls| - 1]), calls[|calls| - 1]);
    }
  }

  /** The call is executed, and not answered from a record. */
  predicate Executed(start: Tables, calls: seq<Call>, i: nat)
    requires i < |calls|
  {
    var r := Execute(Run(start, calls[..i]), calls[i].command, calls[i].context).1;
    r.Done? && !r.replayed
  }

  /** Both commands expect a version of the same request, or of the same attestation. */
  predicate SameTarget(c: Command, d: Command) {
    && c.reference == d.reference
    && ((c.Transition? && d.Transition?) || (Versioned(c) && Versioned(d)))
  }

  predicate Versioned(c: Command) {
    c.Activate? || c.Expire? || c.Revoke?
  }

  lemma ExecutedVersions(db: Tables, call: Call)
    requires call.command.Transition? || Versioned(call.command)
    requires Execute(db, call.command, call.context).1.Done? && !Execute(db, call.command, call.context).1.replayed
    ensures var h, c := Execute(db, call.command, call.context).0, call.command;
            if c.Transition? then
              && c.reference in db.requests && db.requests[c.reference].version == c.expectedVersion
              && c.reference in h.requests && h.requests[c.reference].version == c.expectedVersion + 1
            else
              && c.reference in db.statuses && db.statuses[c.reference].version == c.expectedVersion
              && c.reference in h.statuses && h.statuses[c.reference].version > c.expectedVersion
  {
    var c := call.command;
    if c.Activate? {
      ExecutedActivation(db, c.reference, c.expectedVersion, c.observedAt);
    }
  }

  lemma ExecutedActivation(db: Tables, a: Ref, version: nat, at: Millis)
    requires Activation(db, a, version, at).Changed?
    ensures var h := Activation(db, a, version, at).db;
            a in db.statuses && db.statuses[a].version == version && a in h.statuses && h.statuses[a].version > version
  {
    var moved := Move(db, a, Active, at, true);
    assert moved.statuses[a].version == version + 1;
    if db.attestations[a].supersedes.Some? {
      MoveVersions(moved, db.attestations[a].supersedes.value, Superseded, at, false);
    }
  }

  /** No update is lost: of two executed commands on one target, the later one expected a later version, so it was sent by
      someone who had seen the first one's effect. */
  lemma NoLostUpdate(participants: set<Ref>, now: Millis, calls: seq<Call>, i: nat, j: nat)
    requires i < j < |calls| && SameTarget(calls[i].command, calls[j].command)
    requires Executed(Empty(participants, now), calls, i) && Executed(Empty(participants, now), calls, j)
    ensures calls[i].command.expectedVersion < calls[j].command.expectedVersion
  {
    var start := Empty(participants, now);
    ExecutedVersions(Run(start, calls[..i]), calls[i]);
    ExecutedVersions(Run(start, calls[..j]), calls[j]);
    var middle := calls[i + 1..j];
    assert calls[..i + 1][..i] == calls[..i];
    RunVersions(start, calls[..i + 1]);
    assert calls[..j] == calls[..i + 1] + middle;
    RunSplitAt(start, calls[..i + 1], middle);
    RunVersions(Run(start, calls[..i + 1]), middle);
  }
}

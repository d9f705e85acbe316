/** The last command of a request or attestation and the state it stands for, state by state. */
module RegistryCommands {
  import opened Wrappers
  import opened Registry
  import opened RegistryInvariant
  import opened RegistryPreservation
  import opened RegistryTheorems

  // ---------------------------------------------------------------- every event says what its command did

  /** The states before and after, as the event's kind and target name them. */
  predicate Described(e: AuditEvent) {
    match e.kind
    case CreateKind => e.target == OnRequest && e.prior == None && e.next == Requested
    case TransitionKind(verb) => e.target == OnRequest && e.prior == Some(Source(verb)) && e.next == Target(verb)
    case IssueKind => e.target == OnAttestation && e.prior == None && e.next == Issued
    case ActivateKind => e.target == OnAttestation && e.prior == Some(Issued) && e.next == Active
    case ExpireKind => e.target == OnAttestation && e.prior == Some(Active) && e.next == Expired
    case RevokeKind => e.target == OnAttestation && e.prior == Some(Active) && e.next == Revoked
    case SupersedeKind => e.target == OnAttestation && e.prior == Some(Active) && e.next == Superseded
  }

  predicate AllDescribed(audit: seq<AuditEvent>) {
    forall i | 0 <= i < |audit| :: Described(audit[i])
  }

  lemma AdvanceDescribes(db: Tables, a: Ref, next: State, at: Millis, kind: Kind)
    requires Joined(db, a) && AllDescribed(db.audit) && Described(Event(db, a, next, kind))
    ensures AllDescribed(Advance(db, a, next, at, kind).audit)
  {
    assert Advance(db, a, next, at, kind).audit == db.audit + [Event(db, a, next, kind)];
  }

  lemma RenewalDescribes(db: Tables, a: Ref, p: Ref, at: Millis)
    requires Joined(db, a) && Joined(db, p) && a != p && db.attestations[a].request != db.attestations[p].request
    requires AllDescribed(db.audit) && db.attestations[a].state == Issued && db.attestations[p].state == Active
    ensures AllDescribed(Renewal(db, a, p, at).audit)
  {
    AdvanceDescribes(db, p, Superseded, at, SupersedeKind);
    AdvanceDescribes(Advance(db, p, Superseded, at, SupersedeKind), a, Active, at, ActivateKind);
  }

  lemma ActivationShape(db: Tables, a: Ref, version: nat, at: Millis)
    requires Inv(db) && Activation(db, a, version, at).Changed?
    ensures Joined(db, a) && db.attestations[a].state == Issued
    ensures db.attestations[a].supersedes.None? ==>
              Activation(db, a, version, at).db == Advance(db, a, Active, at, ActivateKind)
  {
    assert AttestationInv(db, a);
  }

  lemma ActivationDescribes(db: Tables, a: Ref, version: nat, at: Millis)
    requires Inv(db) && Activation(db, a, version, at).Changed? && AllDescribed(db.audit)
    ensures AllDescribed(Activation(db, a, version, at).db.audit)
  {
    ActivationShape(db, a, version, at);
    if db.attestations[a].supersedes.Some? {
      ActivationIsRenewal(db, a, version, at);
      RenewalDescribes(db, a, db.attestations[a].supersedes.value, at);
    } else {
      AdvanceDescribes(db, a, Active, at, ActivateKind);
    }
  }

  lemma ExpiryShape(db: Tables, a: Ref, version: nat, at: Millis)
    requires Inv(db) && Expiry(db, a, version, at).Changed?
    ensures Joined(db, a) && db.attestations[a].state == Active
    ensures Expiry(db, a, version, at).db == Advance(db, a, Expired, at, ExpireKind)
  {
    assert AttestationInv(db, a);
  }

  lemma RevocationShape(db: Tables, a: Ref, version: nat, at: Millis)
    requires Revocation(db, a, version, at).Changed?
    ensures Joined(db, a) && db.attestations[a].state == Active
    ensures Revocation(db, a, version, at).db == Advance(db, a, Revoked, at, RevokeKind)
  {
  }

  lemma ApplyDescribes(db: Tables, c: Command)
    requires Inv(db) && Apply(db, c).Changed? && AllDescribed(db.audit)
    ensures AllDescribed(Apply(db, c).db.audit)
  {
    match c
    case Activate(a, version, at) => ActivationDescribes(db, a, version, at);
    case Expire(a, version, at) =>
      ExpiryShape(db, a, version, at);
      AdvanceDescribes(db, a, Expired, at, ExpireKind);
    case Revoke(a, version, at) =>
      RevocationShape(db, a, version, at);
      AdvanceDescribes(db, a, Revoked, at, RevokeKind);
    case CreateRequest(_, _) =>
    case Transition(_, _, _) =>
    case Issue(_, _, _, _, _) =>
  }

  lemma {:induction false} RunDescribes(participants: set<Ref>, now: Millis, calls: seq<Call>)
    ensures AllDescribed(Run(Empty(participants, now), calls).audit)
    decreases |calls|
  {
    if calls != [] {
      var init, last := calls[..|calls| - 1], calls[|calls| - 1];
      RunDescribes(participants, now, init);
      var before := Reached(participants, now, init);
      if last.context.key !in before.records && Apply(before, last.command).Changed? {
        ApplyDescribes(before, last.command);
      }
    }
  }

  lemma {:induction false} HistoryDescribed(audit: seq<AuditEvent>, target: AuditTarget, reference: Ref)
    requires AllDescribed(audit)
    ensures AllDescribed(History(audit, target, reference))
    ensures forall i | 0 <= i < |History(audit, target, reference)| ::
              History(audit, target, reference)[i].target == target && History(audit, target, reference)[i].reference == reference
  {
    if audit != [] {
      HistoryDescribed(audit[..|audit| - 1], target, reference);
    }
  }

  // ---------------------------------------------------------------- requests

  /** The event records the verb, from the given state. */
  predicate Was(e: AuditEvent, verb: Verb, prior: State) {
    e.kind == TransitionKind(verb) && e.prior == Some(prior)
  }

  /** What the last event of a request has been, for every state that a request without attestation can be in. */
  predicate LastCommand(state: State, e: AuditEvent) {
    && (state == Requested <==> e.kind == CreateKind)
    && (state == Scheduled <==> Was(e, ScheduleRequest, Requested)
                                || Was(e, RescheduleAfterMoreInformation, NeedsMoreInformation))
    && (state == CheckedIn <==> Was(e, CheckInParticipant, Scheduled))
    && (state == UnderReview <==> Was(e, BeginReview, CheckedIn))
    && (state == Approved <==> Was(e, ApproveVerification, UnderReview))
    && (state == Rejected <==> Was(e, RejectVerification, UnderReview)
                               || Was(e, RejectAfterMoreInformation, NeedsMoreInformation))
    && (state == NeedsMoreInformation <==> Was(e, RequestMoreInformation, UnderReview))
    && (state == Withdrawn <==> Was(e, WithdrawVerification, UnderReview)
                                || Was(e, WithdrawAfterMoreInformation, NeedsMoreInformation))
    && (state == IssuancePending <==> Was(e, RequestIssuance, Approved))
    && (state == Issued <==> Was(e, RecordIssuance, IssuancePending))
    && (state == Appealed <==> Was(e, OpenAppeal, Rejected))
    && (state == AppealUpheld <==> Was(e, UpholdAppeal, Appealed))
    && (state == AppealDenied <==> Was(e, DenyAppeal, Appealed))
    && (state == AppealRemanded <==> Was(e, RemandAppeal, Appealed))
    && state !in {Active, Expired, Revoked, Superseded}
  }

  lemma DescribedLast(e: AuditEvent)
    requires Described(e) && e.target == OnRequest
    ensures LastCommand(e.next, e)
  {
  }

  /** In every reachable registry, the state of a request without attestation is that of its last command, which found it
      in the state that the command starts from. */
  lemma RequestStateExactly(participants: set<Ref>, now: Millis, calls: seq<Call>, q: Ref)
    requires var db := Run(Empty(participants, now), calls); q in db.requests && Bare(db, q)
    ensures var db := Run(Empty(participants, now), calls);
            var h := RequestHistory(db, q);
            && h != [] && LastCommand(db.requests[q].state, h[|h| - 1])
            && db.requests[q].version == |h|
  {
    var db := Reached(participants, now, calls);
    assert RequestInv(db, q);
    RunDescribes(participants, now, calls);
    HistoryDescribed(db.audit, OnRequest, q);
    var h := RequestHistory(db, q);
    DescribedLast(h[|h| - 1]);
  }

  // ---------------------------------------------------------------- attestations

  predicate LastAttestationCommand(state: State, e: AuditEvent) {
    && (state == Issued <==> e.kind == IssueKind && e.prior == None)
    && (state == Active <==> e.kind == ActivateKind && e.prior == Some(Issued))
    && (state == Expired <==> e.kind == ExpireKind && e.prior == Some(Active))
    && (state == Revoked <==> e.kind == RevokeKind && e.prior == Some(Active))
    && (state == Superseded <==> e.kind == SupersedeKind && e.prior == Some(Active))
  }

  lemma DescribedLastAttestation(e: AuditEvent)
    requires Described(e) && e.target == OnAttestation
    ensures LastAttestationCommand(e.next, e)
  {
  }

  /** The same for attestations, whose state is also their request's and their status's. */
  lemma AttestationStateExactly(participants: set<Ref>, now: Millis, calls: seq<Call>, a: Ref)
    requires a in Run(Empty(participants, now), calls).attestations
    ensures var db := Run(Empty(participants, now), calls);
            var h := AttestationHistory(db, a);
            && h != [] && LastAttestationCommand(db.attestations[a].state, h[|h| - 1])
            && a in db.statuses && db.statuses[a].version == |h| && db.statuses[a].state == db.attestations[a].state
  {
    var db := Reached(participants, now, calls);
    assert AttestationInv(db, a);
    RunDescribes(participants, now, calls);
    HistoryDescribed(db.audit, OnAttestation, a);
    var h := AttestationHistory(db, a);
    DescribedLastAttestation(h[|h| - 1]);
  }

  // ---------------------------------------------------------------- published events

  /** The outbox repeats the audit log: kind, reference and new state of every event, in the same order. */
  predicate Mirrored(db: Tables) {
    && |db.outbox| == |db.audit|
    && forall i | 0 <= i < |db.audit| ::
         && db.outbox[i].kind == db.audit[i].kind && db.outbox[i].reference == db.audit[i].reference
         && db.outbox[i].state == db.audit[i].next
  }

  lemma ApplyMirrors(db: Tables, c: Command)
    requires Apply(db, c).Changed? && Mirrored(db)
    ensures Mirrored(Apply(db, c).db)
  {
  }

  lemma {:induction false} AlwaysMirrored(participants: set<Ref>, now: Millis, calls: seq<Call>)
    ensures Mirrored(Run(Empty(participants, now), calls))
    decreases |calls|
  {
    if calls != [] {
      var init, last := calls[..|calls| - 1], calls[|calls| - 1];
      AlwaysMirrored(participants, now, init);
      var before := Run(Empty(participants, now), init);
      if last.context.key !in before.records && Apply(before, last.command).Changed? {
        ApplyMirrors(before, last.command);
      }
    }
  }

  // ---------------------------------------------------------------- answers

  function TargetOf(c: Command): AuditTarget {
    if c.CreateRequest? || c.Transition? then OnRequest else OnAttestation
  }

  /** The stored row says what the answer says. */
  predicate Answers(db: Tables, c: Command, r: Result)
    requires r.Done?
  {
    && r.reference == c.reference
    && if TargetOf(c) == OnRequest then
         c.reference in db.requests && r.state == db.requests[c.reference].state && r.version == db.requests[c.reference].version
       else
         && c.reference in db.attestations && c.reference in db.statuses
         && r.state == db.attestations[c.reference].state == db.statuses[c.reference].state
         && r.version == db.statuses[c.reference].version
  }

  /** The row's history is longer by one event, of the command's kind and into the state that was answered. */
  predicate Logs(db: Tables, h: Tables, c: Command, state: State) {
    var longer, was := History(h.audit, TargetOf(c), c.reference), History(db.audit, TargetOf(c), c.reference);
    |longer| == |was| + 1 && longer[..|was|] == was && longer[|was|].kind == KindOf(c) && longer[|was|].next == state
  }

  /** The last published event is the command's, with the new state and the version of the request or attestation. */
  predicate Publishes(h: Tables, c: Command, state: State) {
    && h.outbox != []
    && var event := h.outbox[|h.outbox| - 1];
       && event.kind == KindOf(c) && event.reference == c.reference && event.state == state
       && if TargetOf(c) == OnRequest then
            c.reference in h.requests && event.version == h.requests[c.reference].version
          else c.reference in h.attestations && event.version == h.attestations[c.reference].version
  }

  predicate Answered(db: Tables, c: Command) {
    var r := Apply(db, c);
    && r.Changed? && Answers(r.db, c, Done(c.reference, r.state, r.version, false))
    && Logs(db, r.db, c, r.state) && Publishes(r.db, c, r.state)
  }

  lemma AdvanceLogs(db: Tables, a: Ref, next: State, at: Millis, kind: Kind, c: Command)
    requires Joined(db, a) && c.reference == a && TargetOf(c) == OnAttestation && KindOf(c) == kind
    ensures Logs(db, Advance(db, a, next, at, kind), c, next)
  {
    AdvanceHistories(db, a, next, at, kind, OnAttestation, a);
  }

  /** The first half of a renewal leaves the history of the renewal itself alone. */
  lemma SupersedingKeepsHistory(db: Tables, a: Ref, p: Ref, at: Millis)
    requires Joined(db, p) && a != p
    ensures AttestationHistory(Advance(db, p, Superseded, at, SupersedeKind), a) == AttestationHistory(db, a)
  {
    AdvanceHistories(db, p, Superseded, at, SupersedeKind, OnAttestation, a);
  }

  lemma RenewalLogs(db: Tables, a: Ref, p: Ref, at: Millis, c: Command)
    requires Joined(db, a) && Joined(db, p) && a != p && db.attestations[a].request != db.attestations[p].request
    requires c.reference == a && c.Activate?
    ensures Logs(db, Renewal(db, a, p, at), c, Active)
  {
    var g := Advance(db, p, Superseded, at, SupersedeKind);
    SupersedingKeepsHistory(db, a, p, at);
    assert Logs(g, Advance(g, a, Active, at, ActivateKind), c, Active) by {
      AdvanceLogs(g, a, Active, at, ActivateKind, c);
    }
  }

  lemma AdvanceRowAnswers(db: Tables, a: Ref, next: State, at: Millis, kind: Kind, c: Command)
    requires Joined(db, a) && c.reference == a && TargetOf(c) == OnAttestation && KindOf(c) == kind
    ensures Answers(Advance(db, a, next, at, kind), c, Done(a, next, db.statuses[a].version + 1, false))
    ensures Publishes(Advance(db, a, next, at, kind), c, next)
  {
  }

  lemma RenewalAnswers(db: Tables, a: Ref, p: Ref, at: Millis, c: Command)
    requires Joined(db, a) && Joined(db, p) && a != p && db.attestations[a].request != db.attestations[p].request
    requires c.reference == a && c.Activate?
    ensures Answers(Renewal(db, a, p, at), c, Done(a, Active, db.statuses[a].version + 1, false))
    ensures Publishes(Renewal(db, a, p, at), c, Active)
  {
    var g := Advance(db, p, Superseded, at, SupersedeKind);
    assert g.statuses[a] == db.statuses[a];
    AdvanceRowAnswers(g, a, Active, at, ActivateKind, c);
  }

  lemma ActivationResult(db: Tables, a: Ref, version: nat, at: Millis)
    requires Activation(db, a, version, at).Changed?
    ensures a in db.statuses && Activation(db, a, version, at).state == Active
    ensures Activation(db, a, version, at).version == db.statuses[a].version + 1
  {
  }

  lemma ActivationAnswers(db: Tables, a: Ref, version: nat, at: Millis)
    requires Inv(db) && Activation(db, a, version, at).Changed?
    ensures Answered(db, Activate(a, version, at))
  {
    var c := Activate(a, version, at);
    ActivationShape(db, a, version, at);
    ActivationResult(db, a, version, at);
    if db.attestations[a].supersedes.Some? {
      var p := db.attestations[a].supersedes.value;
      ActivationIsRenewal(db, a, version, at);
      RenewalLogs(db, a, p, at, c);
      RenewalAnswers(db, a, p, at, c);
    } else {
      AdvanceLogs(db, a, Active, at, ActivateKind, c);
      AdvanceRowAnswers(db, a, Active, at, ActivateKind, c);
    }
  }

  lemma ExpiryAnswers(db: Tables, a: Ref, version: nat, at: Millis)
    requires Inv(db) && Expiry(db, a, version, at).Changed?
    ensures Answered(db, Expire(a, version, at))
  {
    var c := Expire(a, version, at);
    ExpiryShape(db, a, version, at);
    AdvanceLogs(db, a, Expired, at, ExpireKind, c);
    AdvanceRowAnswers(db, a, Expired, at, ExpireKind, c);
  }

  lemma RevocationAnswers(db: Tables, a: Ref, version: nat, at: Millis)
    requires Revocation(db, a, version, at).Changed?
    ensures Answered(db, Revoke(a, version, at))
  {
    var c := Revoke(a, version, at);
    RevocationShape(db, a, version, at);
    AdvanceLogs(db, a, Revoked, at, RevokeKind, c);
    AdvanceRowAnswers(db, a, Revoked, at, RevokeKind, c);
  }

  lemma RequestAnswers(db: Tables, c: Command)
    requires (c.CreateRequest? || c.Transition?) && Apply(db, c).Changed?
    ensures Answered(db, c)
  {
    match c
    case CreateRequest(q, _) => HistoryAppend(db.audit, AuditEvent(CreateKind, OnRequest, q, None, Requested), OnRequest, q);
    case Transition(q, verb, _) =>
      HistoryAppend(db.audit, AuditEvent(TransitionKind(verb), OnRequest, q, Some(Source(verb)), Target(verb)), OnRequest, q);
  }

  lemma IssueAnswers(db: Tables, c: Command)
    requires c.Issue? && Apply(db, c).Changed?
    ensures Answered(db, c)
  {
    HistoryAppend(db.audit, AuditEvent(IssueKind, OnAttestation, c.reference, None, Issued), OnAttestation, c.reference);
  }

  lemma ApplyAnswers(db: Tables, c: Command)
    requires Inv(db) && Apply(db, c).Changed?
    ensures Answered(db, c)
  {
    match c
    case Activate(a, version, at) => ActivationAnswers(db, a, version, at);
    case Issue(_, _, _, _, _) => IssueAnswers(db, c);
    case Expire(a, version, at) => ExpiryAnswers(db, a, version, at);
    case Revoke(a, version, at) => RevocationAnswers(db, a, version, at);
    case _ => RequestAnswers(db, c);
  }

  /** The first successful answer to a command: its state and version are those of the stored row, and the command is the
      one new event of the row's history, and the last published event. */
  lemma FirstAnswer(participants: set<Ref>, now: Millis, calls: seq<Call>, call: Call)
    requires var db := Run(Empty(participants, now), calls);
             var r := Execute(db, call.command, call.context).1;
             r.Done? && !r.replayed
    ensures var db, c := Run(Empty(participants, now), calls), call.command;
            var (after, r) := Execute(db, c, call.context);
            Answers(after, c, r) && Logs(db, after, c, r.state) && Publishes(after, c, r.state)
  {
    var db := Reached(participants, now, calls);
    ApplyAnswers(db, call.command);
  }
}

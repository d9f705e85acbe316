/** Who can be attested again: the exact condition on a participant's rows and the time, over all later runs. */
module RegistryExclusion {
  import opened Wrappers
  import opened Registry
  import opened RegistryInvariant
  import opened RegistryPreservation
  import opened RegistryTheorems
  import opened RegistryRuns
  import opened RegistryExamples
  import opened AttestationStatus

  predicate Of(db: Tables, x: Ref, participant: Ref) {
    x in db.attestations && db.attestations[x].participant == participant
  }

  ghost predicate Renewable(db: Tables, x: Ref) {
    forall y :: !Renews(db, y, x)
  }

  /** What can still lead to an active attestation at `now` or later: one that is active inside its window, one that is
      stored as active and has no renewal yet, or an issued one that can still be activated. */
  ghost predicate Promising(db: Tables, x: Ref, now: Millis)
    requires x in db.attestations
  {
    var row := db.attestations[x];
    || (row.state == Active && (now < row.expiresAt || Renewable(db, x)))
    || (row.state == Issued && now < row.expiresAt
        && (row.supersedes.Some? ==> row.supersedes.value in db.attestations
                                     && db.attestations[row.supersedes.value].state == Active))
  }

  /** The participant has attestations, and none of them leads anywhere. */
  ghost predicate Excluded(db: Tables, participant: Ref, now: Millis) {
    && (exists x :: Of(db, x, participant))
    && (forall x | Of(db, x, participant) :: !Promising(db, x, now))
  }

  /** Commands that observe a time observe none before `now`. */
  predicate From(c: Command, now: Millis) {
    match c
    case Activate(_, _, at) => now <= at
    case Expire(_, _, at) => now <= at
    case Revoke(_, _, at) => now <= at
    case _ => true
  }

  predicate AllFrom(calls: seq<Call>, now: Millis) {
    forall i | 0 <= i < |calls| :: From(calls[i].command, now)
  }

  /** Some attestation of the participant has the public status active. */
  ghost predicate Attested(db: Tables, participant: Ref, t: Millis) {
    exists x :: Of(db, x, participant) && Joined(db, x) && AttestationStatusAt(InputOf(db, x), t) == StatusActive
  }

  /** After `calls`, none of which observes a time before `now`, the participant counts as attested at `t`. */
  ghost predicate Attests(db: Tables, participant: Ref, now: Millis, calls: seq<Call>, t: Millis) {
    AllFrom(calls, now) && now <= t && Run(db, calls).latest <= t && Attested(Run(db, calls), participant, t)
  }

  // ---------------------------------------------------------------- excluded for ever

  /** The row has stayed, or its active attestation has expired or been revoked. */
  predicate StaysOrEnds(row: AttestationRow, later: AttestationRow) {
    || later == row
    || (row.state == Active && later.state in {Expired, Revoked} && later == row.(state := later.state))
  }

  /** The participant gets no new attestation, and no old one becomes active. */
  ghost predicate OnlyEnds(db: Tables, h: Tables, participant: Ref) {
    && (forall x | Of(h, x, participant) :: Of(db, x, participant))
    && (forall x | Of(db, x, participant) :: Of(h, x, participant) && StaysOrEnds(db.attestations[x], h.attestations[x]))
  }

  lemma OnlyEndsTransitive(db: Tables, g: Tables, h: Tables, participant: Ref)
    requires OnlyEnds(db, g, participant) && OnlyEnds(g, h, participant)
    ensures OnlyEnds(db, h, participant)
  {
  }

  lemma OnlyEndsExcludes(db: Tables, h: Tables, participant: Ref, now: Millis)
    requires Chains(db) && Excluded(db, participant, now) && OnlyEnds(db, h, participant)
    ensures Excluded(h, participant, now)
  {
    var x :| Of(db, x, participant);
    assert Of(h, x, participant);
    forall z | Of(h, z, participant) ensures !Promising(h, z, now) {
      assert Of(db, z, participant) && !Promising(db, z, now) && Linked(db, z);
      var row := db.attestations[z];
      if h.attestations[z].state == Active {
        var y :| Renews(db, y, z);
        assert Linked(db, y) && Of(db, y, participant);
        assert Renews(h, y, z);
      } else if h.attestations[z].state == Issued && row.supersedes.Some? {
        assert Of(db, row.supersedes.value, participant);
      }
    }
  }

  /** A participant with attestations has one of version 1, so a first issue violates the index. */
  lemma RootBlocks(db: Tables, participant: Ref, x: Ref)
    requires Chains(db) && Of(db, x, participant)
    ensures !IndexesAllow(db, participant, 1, None)
  {
    assert Linked(db, x);
    var root := Ancestor(db, x, 1);
  }

  lemma NothingIssued(db: Tables, c: Command, participant: Ref, now: Millis)
    requires Chains(db) && Excluded(db, participant, now) && c.Issue? && Apply(db, c).Changed?
    ensures db.requests[c.request].participant != participant
  {
    if c.supersedesReference.None? {
      var x :| Of(db, x, participant);
      RootBlocks(db, participant, x);
    } else {
      assert Of(db, c.supersedesReference.value, participant) ==> !Renewable(db, c.supersedesReference.value);
    }
  }

  lemma NothingActivated(db: Tables, a: Ref, version: nat, at: Millis, participant: Ref, now: Millis)
    requires Inv(db) && Excluded(db, participant, now) && now <= at && Activation(db, a, version, at).Changed?
    ensures !Of(db, a, participant)
  {
    if Of(db, a, participant) {
      assert AttestationInv(db, a) && !Promising(db, a, now);
      if db.attestations[a].supersedes.Some? {
        ActivationIsRenewal(db, a, version, at);
      }
    }
  }

  lemma OtherRow(db: Tables, h: Tables, a: Ref, row: AttestationRow, participant: Ref)
    requires h.attestations == db.attestations[a := row] && row.participant != participant && !Of(db, a, participant)
    ensures OnlyEnds(db, h, participant)
  {
  }

  lemma OtherRows(db: Tables, h: Tables, p: Ref, prior: AttestationRow, a: Ref, row: AttestationRow, participant: Ref)
    requires h.attestations == db.attestations[p := prior][a := row] && a != p
    requires row.participant != participant && prior.participant != participant
    requires !Of(db, a, participant) && !Of(db, p, participant)
    ensures OnlyEnds(db, h, participant)
  {
  }

  lemma ActivationSpares(db: Tables, a: Ref, version: nat, at: Millis, participant: Ref, now: Millis)
    requires Inv(db) && Excluded(db, participant, now) && now <= at && Activation(db, a, version, at).Changed?
    ensures OnlyEnds(db, Activation(db, a, version, at).db, participant)
  {
    var h := Activation(db, a, version, at).db;
    NothingActivated(db, a, version, at, participant, now);
    if db.attestations[a].supersedes.Some? {
      var p := db.attestations[a].supersedes.value;
      ActivationIsRenewal(db, a, version, at);
      assert Linked(db, a);
      OtherRows(db, h, p, h.attestations[p], a, h.attestations[a], participant);
    } else {
      OtherRow(db, h, a, h.attestations[a], participant);
    }
  }

  lemma EndSpares(db: Tables, h: Tables, a: Ref, next: State, participant: Ref)
    requires a in db.attestations && db.attestations[a].state == Active && next in {Expired, Revoked}
    requires h.attestations == db.attestations[a := db.attestations[a].(state := next)]
    ensures OnlyEnds(db, h, participant)
  {
  }

  lemma ExpirySpares(db: Tables, a: Ref, version: nat, at: Millis, participant: Ref)
    requires Inv(db) && Expiry(db, a, version, at).Changed?
    ensures OnlyEnds(db, Expiry(db, a, version, at).db, participant)
  {
    assert AttestationInv(db, a);
    EndSpares(db, Expiry(db, a, version, at).db, a, Expired, participant);
  }

  lemma RevocationSpares(db: Tables, a: Ref, version: nat, at: Millis, participant: Ref)
    requires Inv(db) && Revocation(db, a, version, at).Changed?
    ensures OnlyEnds(db, Revocation(db, a, version, at).db, participant)
  {
    EndSpares(db, Revocation(db, a, version, at).db, a, Revoked, participant);
  }

  lemma CommandSpares(db: Tables, c: Command, participant: Ref, now: Millis)
    requires Inv(db) && Excluded(db, participant, now) && From(c, now) && Apply(db, c).Changed?
    ensures OnlyEnds(db, Apply(db, c).db, participant)
  {
    var h := Apply(db, c).db;
    match c
    case Issue(reference, _, _, _, _) =>
      NothingIssued(db, c, participant, now);
      OtherRow(db, h, reference, h.attestations[reference], participant);
    case Activate(a, version, at) => ActivationSpares(db, a, version, at, participant, now);
    case Expire(a, version, at) => ExpirySpares(db, a, version, at, participant);
    case Revoke(a, version, at) => RevocationSpares(db, a, version, at, participant);
    case _ => assert h.attestations == db.attestations;
  }

  lemma CallSpares(db: Tables, call: Call, participant: Ref, now: Millis)
    requires Inv(db) && Excluded(db, participant, now) && From(call.command, now)
    ensures OnlyEnds(db, Execute(db, call.command, call.context).0, participant)
  {
    if call.context.key !in db.records && Apply(db, call.command).Changed? {
      CommandSpares(db, call.command, participant, now);
    }
  }

  /** An excluded participant stays excluded whatever is called, gets no further attestation, and none becomes active. */
  lemma {:induction false} ExcludedForEver(db: Tables, participant: Ref, now: Millis, calls: seq<Call>)
    requires Inv(db) && Excluded(db, participant, now) && AllFrom(calls, now)
    ensures Excluded(Run(db, calls), participant, now) && OnlyEnds(db, Run(db, calls), participant)
    decreases |calls|
  {
    if calls != [] {
      var init, last := calls[..|calls| - 1], calls[|calls| - 1];
      ExcludedForEver(db, participant, now, init);
      RunKeeps(db, init);
      CallSpares(Run(db, init), last, participant, now);
      OnlyEndsExcludes(Run(db, init), Run(db, calls), participant, now);
      OnlyEndsTransitive(db, Run(db, init), Run(db, calls), participant);
    }
  }

  lemma ExcludedUnattested(db: Tables, participant: Ref, now: Millis, calls: seq<Call>, t: Millis)
    requires Inv(db) && Excluded(db, participant, now)
    ensures !Attests(db, participant, now, calls, t)
  {
    if Attests(db, participant, now, calls, t) {
      var h := Run(db, calls);
      ExcludedForEver(db, participant, now, calls);
      RunKeeps(db, calls);
      var x :| Of(h, x, participant) && Joined(h, x) && AttestationStatusAt(InputOf(h, x), t) == StatusActive;
      assert AttestationInv(h, x);
      StatusOfRow(h, x, t);
      assert Promising(h, x, now);
    }
  }

  // ---------------------------------------------------------------- the way back

  lemma AttestedBy(db: Tables, participant: Ref, x: Ref, t: Millis)
    requires Inv(db) && Of(db, x, participant) && db.latest <= t
    requires db.attestations[x].state == Active && t < db.attestations[x].expiresAt
    ensures Attested(db, participant, t)
  {
    assert AttestationInv(db, x);
    StatusOfRow(db, x, t);
  }

  /** An issued attestation inside its window, with an active predecessor if it has one, is activated by one call. */
  lemma ActivationWorks(db: Tables, x: Ref, at: Millis, key: string)
    requires Inv(db) && x in db.attestations && Fresh(db, key)
    requires var row := db.attestations[x];
             && row.state == Issued && row.validFrom <= at < row.expiresAt
             && (row.supersedes.Some? ==> row.supersedes.value in db.attestations
                                          && db.attestations[row.supersedes.value].state == Active)
    ensures Joined(db, x)
    ensures var h := Execute(db, Activate(x, db.statuses[x].version, at), Context(key, "digest")).0;
            && x in h.attestations && h.attestations[x] == db.attestations[x].(state := Active, issuanceComplete := true)
            && h.latest == if at > db.latest then at else db.latest
  {
    assert AttestationInv(db, x);
    if db.attestations[x].supersedes.Some? {
      PredecessorActive(db, x);
    }
  }

  lemma ActivateIssued(db: Tables, participant: Ref, x: Ref, now: Millis) returns (calls: seq<Call>, t: Millis)
    requires Inv(db) && db.latest <= now && Of(db, x, participant) && db.attestations[x].state == Issued
    requires Promising(db, x, now)
    ensures Attests(db, participant, now, calls, t)
  {
    var row := db.attestations[x];
    assert AttestationInv(db, x);
    t := if now < row.validFrom then row.validFrom else now;
    var key := FreshName(db.records.Keys);
    var call := One(Activate(x, db.statuses[x].version, t), key);
    ActivationWorks(db, x, t, key);
    calls := [] + [call];
    RunSnoc(db, [], call);
    RunKeeps(db, calls);
    AttestedBy(Run(db, calls), participant, x, t);
  }

  /** An issued attestation whose window starts now. */
  predicate IssuedNow(g: Tables, h: Tables, participant: Ref, supersedes: Option<Ref>, x: Ref, now: Millis) {
    && h.latest == g.latest && x !in g.attestations && x in h.attestations
    && h.attestations == g.attestations[x := h.attestations[x]]
    && h.attestations[x].participant == participant && h.attestations[x].state == Issued
    && h.attestations[x].expiresAt == now + 1 && h.attestations[x].supersedes == supersedes
  }

  ghost predicate Attestable(db: Tables, participant: Ref, supersedes: Option<Ref>) {
    match supersedes
    case None => forall x :: !Of(db, x, participant)
    case Some(p) => Of(db, p, participant) && Renewable(db, p) && db.attestations[p].state == Active
  }

  /** The version that a new attestation gets is free: a first one for a participant without attestations, a renewal for
      one whose predecessor has none. */
  lemma IndexesFree(db: Tables, participant: Ref, supersedes: Option<Ref>)
    requires Chains(db) && Attestable(db, participant, supersedes)
    ensures IndexesAllow(db, participant,
                         if supersedes.Some? then db.attestations[supersedes.value].version + 1 else 1, supersedes)
  {
    if supersedes.Some? {
      var p := supersedes.value;
      forall x | x in db.attestations
        ensures !(db.attestations[x].participant == participant
                  && db.attestations[x].version == db.attestations[p].version + 1)
        ensures db.attestations[x].supersedes != supersedes
      {
        assert Linked(db, x) && Linked(db, p) && !Renews(db, x, p);
        if db.attestations[x].participant == participant && db.attestations[x].version == db.attestations[p].version + 1 {
          SameVersion(db, db.attestations[x].supersedes.value, p);
        }
      }
    } else {
      assert forall x | x in db.attestations :: !Of(db, x, participant);
    }
  }

  lemma IssueWorks(db: Tables, participant: Ref, q: Ref, supersedes: Option<Ref>, x: Ref, now: Millis, key: string)
    requires Inv(db) && Fresh(db, key) && x !in db.attestations && At(db, q, participant, Issued, 7)
    requires Attestable(db, participant, supersedes)
    ensures var h := Execute(db, Issue(x, q, now, now + 1, supersedes), Context(key, "digest")).0;
            IssuedNow(db, h, participant, supersedes, x, now)
  {
    IndexesFree(db, participant, supersedes);
  }

  lemma StillAttestable(db: Tables, g: Tables, participant: Ref, supersedes: Option<Ref>)
    requires Attestable(db, participant, supersedes) && g.attestations == db.attestations
    ensures Attestable(g, participant, supersedes)
  {
    assert forall x :: Of(g, x, participant) == Of(db, x, participant);
    assert supersedes.Some? ==> forall y :: Renews(g, y, supersedes.value) == Renews(db, y, supersedes.value);
  }

  lemma IssueReached(db: Tables, participant: Ref, supersedes: Option<Ref>, now: Millis)
    returns (calls: seq<Call>, x: Ref)
    requires Inv(db) && participant in db.participants && Attestable(db, participant, supersedes)
    ensures AllFrom(calls, now) && IssuedNow(db, Run(db, calls), participant, supersedes, x, now)
  {
    var keys := FreshNames(db.records.Keys, 8);
    var q := FreshName(db.requests.Keys);
    var approval := ToIssuance(db, q, participant, keys[..7]);
    var g := Run(db, approval);
    x := FreshName(g.attestations.Keys);
    var issue := One(Issue(x, q, now, now + 1, supersedes), keys[7]);
    RunKeeps(db, approval);
    StillAttestable(db, g, participant, supersedes);
    IssueWorks(g, participant, q, supersedes, x, now, keys[7]);
    RunSnoc(db, approval, issue);
    calls := approval + [issue];
  }

  lemma IssueAndActivate(db: Tables, participant: Ref, supersedes: Option<Ref>, now: Millis)
    returns (calls: seq<Call>, t: Millis)
    requires Inv(db) && db.latest <= now && participant in db.participants && Attestable(db, participant, supersedes)
    ensures Attests(db, participant, now, calls, t)
  {
    var issuing, x := IssueReached(db, participant, supersedes, now);
    var g := Run(db, issuing);
    RunKeeps(db, issuing);
    assert Of(g, x, participant) && Promising(g, x, now);
    var activating;
    activating, t := ActivateIssued(g, participant, x, now);
    calls := issuing + activating;
    RunSplitAt(db, issuing, activating);
  }

  lemma WayBack(db: Tables, participant: Ref, now: Millis) returns (calls: seq<Call>, t: Millis)
    requires Inv(db) && db.latest <= now && participant in db.participants && !Excluded(db, participant, now)
    ensures Attests(db, participant, now, calls, t)
  {
    if x :| Of(db, x, participant) && Promising(db, x, now) {
      if db.attestations[x].state == Issued {
        calls, t := ActivateIssued(db, participant, x, now);
      } else if now < db.attestations[x].expiresAt {
        calls, t := [], now;
        AttestedBy(db, participant, x, now);
      } else {
        calls, t := IssueAndActivate(db, participant, Some(x), now);
      }
    } else {
      calls, t := IssueAndActivate(db, participant, None, now);
    }
  }

  /** From `now` on a participant can be attested again if and only if it is not excluded. */
  lemma ExcludedExactly(db: Tables, participant: Ref, now: Millis)
    requires Inv(db) && db.latest <= now && participant in db.participants
    ensures Excluded(db, participant, now) <==> !exists calls, t :: Attests(db, participant, now, calls, t)
  {
    if Excluded(db, participant, now) {
      forall calls, t ensures !Attests(db, participant, now, calls, t) {
        ExcludedUnattested(db, participant, now, calls, t);
      }
    } else {
      var calls, t := WayBack(db, participant, now);
    }
  }

  // ---------------------------------------------------------------- without regard to time

  /** Neither active nor still able to become active at any time. */
  predicate Spent(db: Tables, x: Ref)
    requires x in db.attestations
  {
    var row := db.attestations[x];
    || row.state in {Expired, Revoked, Superseded}
    || (row.state == Issued && row.supersedes.Some? && row.supersedes.value in db.attestations
        && db.attestations[row.supersedes.value].state != Active)
  }

  ghost predicate Lapsed(db: Tables, participant: Ref) {
    && (exists x :: Of(db, x, participant))
    && (forall x | Of(db, x, participant) :: Spent(db, x))
  }

  /** A time before every time that the calls observe. */
  lemma {:induction false} BeforeAll(calls: seq<Call>) returns (now: Millis)
    ensures AllFrom(calls, now)
    decreases |calls|
  {
    now := 0;
    if calls != [] {
      var init, c := calls[..|calls| - 1], calls[|calls| - 1].command;
      var earlier := BeforeAll(init);
      now := if (c.Activate? || c.Expire? || c.Revoke?) && c.observedAt < earlier then c.observedAt else earlier;
      forall i | 0 <= i < |calls| ensures From(calls[i].command, now) {
        assert i < |init| ==> From(init[i].command, earlier);
      }
    }
  }

  lemma LapsedExcluded(db: Tables, participant: Ref, now: Millis)
    requires Lapsed(db, participant)
    ensures Excluded(db, participant, now)
  {
    forall x | Of(db, x, participant) ensures !Promising(db, x, now) {
      assert Spent(db, x);
    }
  }

  lemma LapsedStays(db: Tables, h: Tables, participant: Ref)
    requires Lapsed(db, participant) && OnlyEnds(db, h, participant)
    ensures forall x | Of(db, x, participant) ::
              Of(h, x, participant) && h.attestations[x] == db.attestations[x] && h.attestations[x].state != Active
  {
    forall x | Of(db, x, participant) ensures StaysOrEnds(db.attestations[x], h.attestations[x]) && Spent(db, x) {
    }
  }

  /** A participant whose attestations are all spent never holds an active one again, whatever times the calls observe. */
  lemma LapsedForEver(db: Tables, calls: seq<Call>, participant: Ref)
    requires Inv(db) && Lapsed(db, participant)
    ensures var h := Run(db, calls);
            && (forall x | Of(h, x, participant) :: Of(db, x, participant))
            && (forall x | Of(db, x, participant) ::
                  Of(h, x, participant) && h.attestations[x] == db.attestations[x] && h.attestations[x].state != Active)
  {
    var now := BeforeAll(calls);
    LapsedExcluded(db, participant, now);
    ExcludedForEver(db, participant, now, calls);
    LapsedStays(db, Run(db, calls), participant);
  }

  // ---------------------------------------------------------------- instances

  /** The participant's attestation was revoked: excluded at every time. */
  lemma ExcludedByRevocation() returns (calls: seq<Call>)
    ensures var db := Run(Empty({"p"}, 0), calls);
            db.latest == 20 && Lapsed(db, "p") && forall now :: Excluded(db, "p", now)
  {
    var activated := ToFirstActivation();
    var before, call := Run(Empty({"p"}, 0), activated), One(Revoke("a", 2, 20), "c2");
    RunSnoc(Empty({"p"}, 0), activated, call);
    calls := activated + [call];
    var db := Run(Empty({"p"}, 0), calls);
    assert "c2" !in before.records;
    assert db.attestations == map["a" := ORIGINAL.(state := Revoked)];
    assert Of(db, "a", "p");
  }

  /** The only attestation was issued for [0, 100) and not activated: excluded from 100 on, and not before. */
  lemma ExcludedByMissedActivation() returns (calls: seq<Call>)
    ensures var db := Run(Empty({"p"}, 0), calls);
            db.latest == 0 && forall now :: Excluded(db, "p", now) <==> 100 <= now
  {
    calls := ToFirstIssue();
    var db := Run(Empty({"p"}, 0), calls);
    assert Of(db, "a", "p");
    forall now ensures Excluded(db, "p", now) <==> 100 <= now {
      assert Promising(db, "a", now) <==> now < 100;
    }
  }

  /** An active attestation over [0, 100) with a renewal for [10, 110) that is never activated: excluded from 110 on. */
  lemma ExcludedByMissedRenewal() returns (calls: seq<Call>)
    ensures var db := Run(Empty({"p"}, 0), calls);
            && db.latest == 0 && "a" in db.attestations && db.attestations["a"].state == Active
            && forall now :: Excluded(db, "p", now) <==> 110 <= now
  {
    calls := ToFirstActivation();
    calls := ToSecondApproval(Empty({"p"}, 0), calls);
    calls := ToSecondIssue(Empty({"p"}, 0), calls);
    var db := Run(Empty({"p"}, 0), calls);
    assert Of(db, "a", "p") && Of(db, "b", "p") && Renews(db, "b", "a");
    forall now ensures Excluded(db, "p", now) <==> 110 <= now {
      assert Promising(db, "a", now) <==> now < 100;
      assert Promising(db, "b", now) <==> now < 110;
    }
  }
}

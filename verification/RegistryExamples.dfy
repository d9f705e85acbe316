/** A concrete history in which a revoked renewal brings the attestation it replaced back to life in SQL. */
module RegistryExamples {
  import opened Wrappers
  import opened Registry
  import opened RegistryInvariant
  import opened RegistryPreservation
  import opened RegistryRuns
  import opened AttestationStatus

  predicate Begins(key: string, c: char) {
    key != "" && key[0] == c
  }

  const FIRST_KEYS := ["a0", "a1", "a2", "a3", "a4", "a5", "a6"]
  const SECOND_KEYS := ["b0", "b1", "b2", "b3", "b4", "b5", "b6"]

  /** An approved request becomes an attestation that is valid over [0, 100). */
  lemma IssuedFirst(db: Tables)
    requires At(db, "q", "p", Issued, 7) && db.attestations == map[] && db.statuses == map[] && Fresh(db, "c0")
    ensures var h := Execute(db, Issue("a", "q", 0, 100, None), Context("c0", "digest")).0;
            && h.attestations == map["a" := AttestationRow("p", "q", 1, Issued, 0, 100, false, None)]
            && h.statuses == map["a" := StatusRow(Issued, 0, 1)]
            && h.requests == db.requests && h.revocations == db.revocations && h.participants == db.participants
            && h.records.Keys == db.records.Keys + {"c0"} && h.latest == db.latest
  {
  }

  lemma ActivatedFirst(db: Tables)
    requires At(db, "q", "p", Issued, 7) && Fresh(db, "c1") && db.latest == 0
    requires db.attestations == map["a" := AttestationRow("p", "q", 1, Issued, 0, 100, false, None)]
    requires db.statuses == map["a" := StatusRow(Issued, 0, 1)]
    ensures var h := Execute(db, Activate("a", 1, 0), Context("c1", "digest")).0;
            && h.attestations == map["a" := AttestationRow("p", "q", 1, Active, 0, 100, true, None)]
            && h.statuses == map["a" := StatusRow(Active, 0, 2)]
            && At(h, "q", "p", Active, 8) && h.requests.Keys == db.requests.Keys
            && h.revocations == db.revocations && h.participants == db.participants && h.latest == 0
            && h.records.Keys == db.records.Keys + {"c1"}
  {
  }

  lemma IssuedSecond(db: Tables)
    requires At(db, "r", "p", Issued, 7) && Fresh(db, "c2")
    requires db.attestations == map["a" := AttestationRow("p", "q", 1, Active, 0, 100, true, None)]
    requires db.statuses == map["a" := StatusRow(Active, 0, 2)]
    ensures var h := Execute(db, Issue("b", "r", 10, 110, Some("a")), Context("c2", "digest")).0;
            && h.attestations == db.attestations["b" := AttestationRow("p", "r", 2, Issued, 10, 110, false, Some("a"))]
            && h.statuses == db.statuses["b" := StatusRow(Issued, 10, 1)]
            && h.requests == db.requests && h.revocations == db.revocations && h.latest == db.latest
            && h.records.Keys == db.records.Keys + {"c2"}
  {
    assert ValidWindow(10, 110);
    assert forall x | x in db.attestations :: x == "a";
  }

  const RENEWAL := AttestationRow("p", "r", 2, Issued, 10, 110, false, Some("a"))
  const ORIGINAL := AttestationRow("p", "q", 1, Active, 0, 100, true, None)

  predicate BeforeRenewal(db: Tables) {
    && db.latest == 0 && At(db, "q", "p", Active, 8) && At(db, "r", "p", Issued, 7)
    && db.attestations == map["a" := ORIGINAL, "b" := RENEWAL]
    && db.statuses == map["a" := StatusRow(Active, 0, 2), "b" := StatusRow(Issued, 10, 1)]
  }

  predicate HalfRenewed(db: Tables) {
    && db.latest == 10 && At(db, "q", "p", Active, 8) && At(db, "r", "p", Active, 8)
    && db.attestations == map["a" := ORIGINAL, "b" := RENEWAL.(state := Active, issuanceComplete := true)]
    && db.statuses == map["a" := StatusRow(Active, 0, 2), "b" := StatusRow(Active, 10, 2)]
  }

  lemma RenewalMoves(db: Tables)
    requires BeforeRenewal(db)
    ensures HalfRenewed(Move(db, "b", Active, 10, true))
  {
  }

  predicate FullyRenewed(db: Tables) {
    && db.latest == 10 && At(db, "q", "p", Superseded, 9) && At(db, "r", "p", Active, 8)
    && db.attestations == map["a" := ORIGINAL.(state := Superseded),
                              "b" := RENEWAL.(state := Active, issuanceComplete := true)]
    && db.statuses == map["a" := StatusRow(Superseded, 10, 3), "b" := StatusRow(Active, 10, 2)]
  }

  lemma OriginalMoves(db: Tables)
    requires HalfRenewed(db)
    ensures FullyRenewed(Move(db, "a", Superseded, 10, false))
  {
  }

  lemma Replaced(db: Tables)
    requires Fresh(db, "c3") && BeforeRenewal(db)
    ensures var g := Execute(db, Activate("b", 1, 10), Context("c3", "digest")).0;
            FullyRenewed(g) && g.revocations == db.revocations && g.records.Keys == db.records.Keys + {"c3"}
  {
    RenewalMoves(db);
    OriginalMoves(Move(db, "b", Active, 10, true));
  }

  /** `a` is active, and only the keys used so far are taken. */
  predicate Activated(db: Tables) {
    && db.attestations == map["a" := ORIGINAL] && db.statuses == map["a" := StatusRow(Active, 0, 2)]
    && At(db, "q", "p", Active, 8) && db.requests.Keys == {"q"} && "p" in db.participants
    && db.revocations == map[] && db.latest == 0
    && (forall k | k in db.records :: Begins(k, 'a') || k == "c0" || k == "c1")
  }

  /** The request of the renewal is issued too. */
  predicate SecondApproved(db: Tables) {
    && db.attestations == map["a" := ORIGINAL] && db.statuses == map["a" := StatusRow(Active, 0, 2)]
    && At(db, "q", "p", Active, 8) && At(db, "r", "p", Issued, 7)
    && db.revocations == map[] && db.latest == 0
    && "c2" !in db.records && "c3" !in db.records && "c4" !in db.records
  }

  predicate Pending(db: Tables) {
    BeforeRenewal(db) && db.revocations == map[] && "c3" !in db.records && "c4" !in db.records
  }

  predicate Swapped(db: Tables) {
    FullyRenewed(db) && db.revocations == map[] && "c4" !in db.records
  }

  /** `a` counts as superseded by the times of its rows, and as active by the SQL function. */
  ghost predicate Revived(db: Tables) {
    && "a" in db.attestations && Joined(db, "a") && db.latest == 20
    && AttestationStatusAt(InputOf(db, "a"), 20) == StatusSuperseded
    && SqlStatusAt(db, "a", 20) == StatusActive
  }

  lemma ToSecondIssue(start: Tables, calls: seq<Call>) returns (longer: seq<Call>)
    requires SecondApproved(Run(start, calls))
    ensures Pending(Run(start, longer))
  {
    var call := One(Issue("b", "r", 10, 110, Some("a")), "c2");
    IssuedSecond(Run(start, calls));
    RunSnoc(start, calls, call);
    longer := calls + [call];
  }

  lemma ToSecondActivation(start: Tables, calls: seq<Call>) returns (longer: seq<Call>)
    requires Pending(Run(start, calls))
    ensures Swapped(Run(start, longer))
  {
    var call := One(Activate("b", 1, 10), "c3");
    Replaced(Run(start, calls));
    RunSnoc(start, calls, call);
    longer := calls + [call];
  }

  lemma Withdrawn(db: Tables)
    requires Swapped(db)
    ensures Revived(Execute(db, Revoke("b", 2, 20), Context("c4", "digest")).0)
  {
    var h := Execute(db, Revoke("b", 2, 20), Context("c4", "digest")).0;
    assert h.attestations == db.attestations["b" := db.attestations["b"].(state := Revoked)];
    assert forall x | x in h.attestations :: x == "a" || x == "b";
    assert !Displaced(h, "a", 20);
  }

  lemma ToRevival(start: Tables, calls: seq<Call>) returns (longer: seq<Call>)
    requires Swapped(Run(start, calls))
    ensures Revived(Run(start, longer))
  {
    var call := One(Revoke("b", 2, 20), "c4");
    Withdrawn(Run(start, calls));
    RunSnoc(start, calls, call);
    longer := calls + [call];
  }

  lemma FreshSecondKeys(db: Tables)
    requires forall k | k in db.records :: Begins(k, 'a') || k == "c0" || k == "c1"
    ensures forall i | 0 <= i < 7 :: Fresh(db, SECOND_KEYS[i])
    ensures "c2" !in db.records && "c3" !in db.records && "c4" !in db.records
  {
    forall i | 0 <= i < 7 ensures Fresh(db, SECOND_KEYS[i]) {
      assert Begins(SECOND_KEYS[i], 'b');
    }
  }

  lemma SecondApproval(db: Tables) returns (approval: seq<Call>)
    requires Activated(db)
    ensures SecondApproved(Run(db, approval))
  {
    FreshSecondKeys(db);
    approval := ToIssuance(db, "r", "p", SECOND_KEYS);
    var h := Run(db, approval);
    assert forall k | k in SECOND_KEYS :: k[0] == 'b';
    assert "c2"[0] == "c3"[0] == "c4"[0] == 'c';
    assert h.requests["q"] == db.requests["q"];
  }

  lemma ToSecondApproval(start: Tables, calls: seq<Call>) returns (longer: seq<Call>)
    requires Activated(Run(start, calls))
    ensures SecondApproved(Run(start, longer))
  {
    var approval := SecondApproval(Run(start, calls));
    RunSplitAt(start, calls, approval);
    longer := calls + approval;
  }

  lemma ToFirstIssue() returns (calls: seq<Call>)
    ensures var db := Run(Empty({"p"}, 0), calls);
            && db.attestations == map["a" := AttestationRow("p", "q", 1, Issued, 0, 100, false, None)]
            && db.statuses == map["a" := StatusRow(Issued, 0, 1)]
            && At(db, "q", "p", Issued, 7) && db.requests.Keys == {"q"} && db.participants == {"p"}
            && db.revocations == map[] && db.latest == 0
            && (forall k | k in db.records :: Begins(k, 'a') || k == "c0")
  {
    var start, call := Empty({"p"}, 0), One(Issue("a", "q", 0, 100, None), "c0");
    calls := ToIssuance(start, "q", "p", FIRST_KEYS);
    assert forall k | k in FIRST_KEYS :: Begins(k, 'a');
    IssuedFirst(Run(start, calls));
    RunSnoc(start, calls, call);
    calls := calls + [call];
  }

  lemma ToFirstActivation() returns (calls: seq<Call>)
    ensures Activated(Run(Empty({"p"}, 0), calls))
  {
    var start, call := Empty({"p"}, 0), One(Activate("a", 1, 0), "c1");
    calls := ToFirstIssue();
    ActivatedFirst(Run(start, calls));
    RunSnoc(start, calls, call);
    calls := calls + [call];
  }

  /** A run in which the two status functions disagree: after it `a` is superseded, its renewal is revoked, and SQL calls
      `a` active again. */
  lemma RevivedAttestation() returns (calls: seq<Call>)
    ensures Revived(Run(Empty({"p"}, 0), calls))
  {
    calls := ToFirstActivation();
    calls := ToSecondApproval(Empty({"p"}, 0), calls);
    calls := ToSecondIssue(Empty({"p"}, 0), calls);
    calls := ToSecondActivation(Empty({"p"}, 0), calls);
    calls := ToRevival(Empty({"p"}, 0), calls);
  }
}

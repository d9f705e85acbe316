/** packages/domain/src/attestation.ts: the public status at a time, against the stored state and against the SQL
    function that the registry's queries use. */
module AttestationStatus {
  import opened Wrappers
  import opened Registry
  import opened RegistryInvariant
  import opened RegistryPreservation
  import opened RegistryTheorems

  datatype Status = StatusActive | StatusExpired | StatusRevoked | StatusSuperseded | Unavailable

  datatype StatusInput = StatusInput(
    validFrom: Millis,
    expiresAt: Millis,
    issuanceComplete: bool,
    revokedAt: Option<Millis>,
    supersededAt: Option<Millis>)

  function AttestationStatusAt(input: StatusInput, now: Millis): Status {
    if !input.issuanceComplete || now < input.validFrom then Unavailable
    else if input.revokedAt.Some? && input.revokedAt.value <= now then StatusRevoked
    else if input.supersededAt.Some? && input.supersededAt.value <= now then StatusSuperseded
    else if now >= input.expiresAt then StatusExpired
    else StatusActive
  }

  /** The rows' times as inputs. */
  function InputOf(db: Tables, a: Ref): StatusInput
    requires Joined(db, a)
  {
    var row, status := db.attestations[a], db.statuses[a];
    StatusInput(row.validFrom, row.expiresAt, row.issuanceComplete,
                if a in db.revocations then Some(db.revocations[a]) else None,
                if row.state == Superseded then Some(status.effectiveAt) else None)
  }

  /** What the stored state stands for at a time. */
  function Stored(db: Tables, a: Ref, now: Millis): Status
    requires a in db.attestations
  {
    match db.attestations[a].state
    case Active => if now >= db.attestations[a].expiresAt then StatusExpired else StatusActive
    case Expired => StatusExpired
    case Revoked => StatusRevoked
    case Superseded => StatusSuperseded
    case _ => Unavailable
  }

  lemma StatusOfRow(db: Tables, a: Ref, now: Millis)
    requires a in db.attestations && Lockstep(db, a) && Timely(db, a) && db.latest <= now
    ensures AttestationStatusAt(InputOf(db, a), now) == Stored(db, a, now)
  {
  }

  /** From the last command on, the status computed from times is the stored state, read as of now. */
  lemma StatusAgrees(participants: set<Ref>, start: Millis, calls: seq<Call>, a: Ref, now: Millis)
    requires var db := Run(Empty(participants, start), calls); a in db.attestations && db.latest <= now
    ensures var db := Run(Empty(participants, start), calls);
            Joined(db, a) && AttestationStatusAt(InputOf(db, a), now) == Stored(db, a, now)
  {
    var db := Reached(participants, start, calls);
    assert AttestationInv(db, a);
    StatusOfRow(db, a, now);
  }

  /** From the last command on, at most one attestation of a participant, hence of a chain, has the status active. */
  lemma OneActiveStatus(participants: set<Ref>, start: Millis, calls: seq<Call>, a: Ref, b: Ref, now: Millis)
    requires var db := Run(Empty(participants, start), calls);
             && a in db.attestations && b in db.attestations && SameParticipant(db, a, b) && db.latest <= now
             && Joined(db, a) && Joined(db, b)
             && AttestationStatusAt(InputOf(db, a), now) == StatusActive
             && AttestationStatusAt(InputOf(db, b), now) == StatusActive
    ensures a == b
  {
    StatusAgrees(participants, start, calls, a, now);
    StatusAgrees(participants, start, calls, b, now);
    OneActive(participants, start, calls, a, b);
  }

  /** An attestation's active times form one interval of at most 45 days, inside its validity window. */
  lemma ActiveInterval(participants: set<Ref>, start: Millis, calls: seq<Call>, a: Ref, s: Millis, t: Millis)
    requires var db := Run(Empty(participants, start), calls);
             && a in db.attestations && Joined(db, a) && s <= t
             && AttestationStatusAt(InputOf(db, a), s) == StatusActive
             && AttestationStatusAt(InputOf(db, a), t) == StatusActive
    ensures var input := InputOf(Run(Empty(participants, start), calls), a);
            && t - s < 45 * 86_400_000
            && input.validFrom <= s && t < input.expiresAt
            && forall u | s <= u <= t :: AttestationStatusAt(input, u) == StatusActive
  {
    var db := Reached(participants, start, calls);
    assert AttestationInv(db, a);
  }

  // ---------------------------------------------------------------- the SQL function

  /** The row that the SQL function joins as the successor: activated, and active itself. */
  predicate Displaces(db: Tables, b: Ref, a: Ref, now: Millis) {
    && b in db.attestations
    && db.attestations[b].supersedes == Some(a) && db.attestations[b].issuanceComplete
    && db.attestations[b].state == Active && db.attestations[b].validFrom <= now
  }

  ghost predicate Displaced(db: Tables, a: Ref, now: Millis) {
    exists b :: Displaces(db, b, a, now)
  }

  ghost predicate HasActiveRenewal(db: Tables, a: Ref) {
    exists b :: Renews(db, b, a) && db.attestations[b].state == Active
  }

  /** cbc_attestation_status_at. */
  ghost function SqlStatusAt(db: Tables, a: Ref, now: Millis): Status
    requires a in db.attestations
  {
    var row := db.attestations[a];
    if !row.issuanceComplete || now < row.validFrom then Unavailable
    else if a in db.revocations && db.revocations[a] <= now then StatusRevoked
    else if Displaced(db, a, now) then StatusSuperseded
    else if now >= row.expiresAt then StatusExpired
    else StatusActive
  }

  lemma SqlOfRow(db: Tables, a: Ref, now: Millis)
    requires a in db.attestations && Lockstep(db, a) && Timely(db, a) && db.latest <= now
    requires Displaced(db, a, now) <==> HasActiveRenewal(db, a)
    requires Displaced(db, a, now) ==> db.attestations[a].state == Superseded
    ensures SqlStatusAt(db, a, now) != Stored(db, a, now) <==>
              db.attestations[a].state == Superseded && !HasActiveRenewal(db, a)
    ensures SqlStatusAt(db, a, now) != Stored(db, a, now) ==>
              SqlStatusAt(db, a, now) == if now >= db.attestations[a].expiresAt then StatusExpired else StatusActive
  {
  }

  lemma DisplacersAreActiveRenewals(db: Tables, a: Ref, now: Millis)
    requires Inv(db) && a in db.attestations && db.latest <= now
    ensures Displaced(db, a, now) <==> HasActiveRenewal(db, a)
    ensures Displaced(db, a, now) ==> db.attestations[a].state == Superseded
  {
    if b :| Renews(db, b, a) && db.attestations[b].state == Active {
      assert AttestationInv(db, b);
      assert Displaces(db, b, a, now);
    }
    if b :| Displaces(db, b, a, now) {
      assert Renews(db, b, a) && Linked(db, b);
    }
  }

  /** From the last command on, the two functions differ exactly for a superseded attestation whose renewal is no
      longer active: SQL then reports it as active again until its own expiry. */
  lemma SqlDiffersExactly(participants: set<Ref>, start: Millis, calls: seq<Call>, a: Ref, now: Millis)
    requires var db := Run(Empty(participants, start), calls); a in db.attestations && db.latest <= now
    ensures var db := Run(Empty(participants, start), calls);
            && Joined(db, a)
            && (SqlStatusAt(db, a, now) != AttestationStatusAt(InputOf(db, a), now) <==>
                  db.attestations[a].state == Superseded && !HasActiveRenewal(db, a))
            && (SqlStatusAt(db, a, now) != AttestationStatusAt(InputOf(db, a), now) ==>
                  SqlStatusAt(db, a, now) == if now >= db.attestations[a].expiresAt then StatusExpired else StatusActive)
  {
    var db := Reached(participants, start, calls);
    assert AttestationInv(db, a);
    StatusOfRow(db, a, now);
    DisplacersAreActiveRenewals(db, a, now);
    SqlOfRow(db, a, now);
  }
}

/** Every command keeps the registry's invariant; so does every sequence of commands. */
module RegistryPreservation {
  import opened Wrappers
  import opened Registry
  import opened RegistryInvariant

  // ---------------------------------------------------------------- framing

  ghost predicate SameAttestation(db: Tables, h: Tables, x: Ref)
    requires x in db.attestations
  {
    && x in h.attestations && h.attestations[x] == db.attestations[x]
    && (x in db.statuses ==> x in h.statuses && h.statuses[x] == db.statuses[x])
    && (x in h.revocations <==> x in db.revocations)
    && (x in db.revocations ==> h.revocations[x] == db.revocations[x])
  }

  /** Only the attestations in `moved` and the requests in `touched` may differ. */
  ghost predicate Frame(db: Tables, h: Tables, moved: set<Ref>, touched: set<Ref>) {
    && db.latest <= h.latest
    && h.attestations.Keys == db.attestations.Keys + moved && h.requests.Keys == db.requests.Keys + touched
    && (forall x {:trigger SameAttestation(db, h, x)} | x in db.attestations && x !in moved :: SameAttestation(db, h, x))
    && (forall q {:trigger db.requests[q]} {:trigger h.requests[q]} | q in db.requests && q !in touched ::
          h.requests[q] == db.requests[q])
    && (forall x {:trigger AttestationHistory(h, x)} | x !in moved :: AttestationHistory(h, x) == AttestationHistory(db, x))
    && (forall q {:trigger RequestHistory(h, q)} | q !in touched :: RequestHistory(h, q) == RequestHistory(db, q))
    && (forall x | x !in h.attestations :: x in h.revocations <==> x in db.revocations)
  }

  lemma FrameAttestation(db: Tables, h: Tables, moved: set<Ref>, touched: set<Ref>, x: Ref)
    requires Frame(db, h, moved, touched) && x in db.attestations && x !in moved && AttestationInv(db, x)
    requires db.attestations[x].request !in touched
    ensures x in h.attestations && AttestationInv(h, x)
  {
    assert SameAttestation(db, h, x);
    assert AttestationHistory(h, x) == AttestationHistory(db, x);
    assert RequestHistory(h, db.attestations[x].request) == RequestHistory(db, db.attestations[x].request);
  }

  /** Attestations keep their request. */
  ghost predicate SameRequests(db: Tables, h: Tables) {
    forall x | x in db.attestations :: x in h.attestations && h.attestations[x].request == db.attestations[x].request
  }

  lemma FrameRequest(db: Tables, h: Tables, moved: set<Ref>, touched: set<Ref>, q: Ref)
    requires Frame(db, h, moved, touched) && SameRequests(db, h) && q in db.requests && q !in touched && RequestInv(db, q)
    ensures q in h.requests && RequestInv(h, q)
  {
    assert h.requests[q] == db.requests[q];
    assert RequestHistory(h, q) == RequestHistory(db, q);
    if Bare(h, q) {
      BareBefore(db, h, q);
    }
  }

  lemma BareBefore(db: Tables, h: Tables, q: Ref)
    requires SameRequests(db, h) && Bare(h, q)
    ensures Bare(db, q)
  {
    forall x | x in db.attestations ensures db.attestations[x].request != q {
      assert x in h.attestations;
    }
  }

  lemma FrameRows(db: Tables, h: Tables, moved: set<Ref>, touched: set<Ref>)
    requires Rows(db) && Frame(db, h, moved, touched) && SameRequests(db, h) && Exclusive(h)
    requires forall a | a in moved :: a in h.attestations && AttestationInv(h, a)
    requires forall q | q in touched :: q in h.requests && RequestInv(h, q)
    requires forall x | x in db.attestations && x !in moved :: db.attestations[x].request !in touched
    ensures Rows(h)
  {
    forall x | x in h.attestations ensures AttestationInv(h, x) {
      if x !in moved {
        assert AttestationInv(db, x);
        FrameAttestation(db, h, moved, touched, x);
      }
    }
    forall q | q in h.requests ensures RequestInv(h, q) {
      if q !in touched {
        assert RequestInv(db, q);
        FrameRequest(db, h, moved, touched, q);
      }
    }
    FrameStrays(db, h, moved, touched);
  }

  lemma FrameStrays(db: Tables, h: Tables, moved: set<Ref>, touched: set<Ref>)
    requires NoStrays(db) && Frame(db, h, moved, touched)
    ensures NoStrays(h)
  {
    forall q | q !in h.requests ensures RequestHistory(h, q) == [] {
      assert RequestHistory(h, q) == RequestHistory(db, q);
    }
    forall x | x !in h.attestations ensures AttestationHistory(h, x) == [] {
      assert AttestationHistory(h, x) == AttestationHistory(db, x);
    }
  }

  /** One attestation and its request have moved. */
  lemma FrameOne(db: Tables, h: Tables, a: Ref, q: Ref)
    requires Rows(db) && Frame(db, h, {a}, {q}) && SameRequests(db, h) && Exclusive(h)
    requires a in h.attestations && AttestationInv(h, a) && q in h.requests && RequestInv(h, q)
    requires forall x | x in db.attestations && x != a :: db.attestations[x].request != q
    ensures Rows(h)
  {
    FrameRows(db, h, {a}, {q});
  }

  lemma SameExclusive(db: Tables, h: Tables)
    requires Exclusive(db) && h.attestations.Keys == db.attestations.Keys && SameRequests(db, h)
    ensures Exclusive(h)
  {
    forall x, y | x in h.attestations && y in h.attestations && h.attestations[x].request == h.attestations[y].request
      ensures x == y
    {
      assert db.attestations[x].request == db.attestations[y].request;
    }
  }

  /** Histories after one more audit event. */
  lemma LoggedHistories(db: Tables, h: Tables, event: AuditEvent)
    requires h.audit == db.audit + [event]
    ensures forall x :: AttestationHistory(h, x)
                     == AttestationHistory(db, x) + (if event.target == OnAttestation && x == event.reference then [event] else [])
    ensures forall q :: RequestHistory(h, q)
                     == RequestHistory(db, q) + (if event.target == OnRequest && q == event.reference then [event] else [])
  {
    forall x ensures AttestationHistory(h, x)
                  == AttestationHistory(db, x) + (if event.target == OnAttestation && x == event.reference then [event] else []) {
      HistoryAppend(db.audit, event, OnAttestation, x);
    }
    forall q ensures RequestHistory(h, q)
                  == RequestHistory(db, q) + (if event.target == OnRequest && q == event.reference then [event] else []) {
      HistoryAppend(db.audit, event, OnRequest, q);
    }
  }

  // ---------------------------------------------------------------- one attestation moves on

  function Event(db: Tables, a: Ref, next: State, kind: Kind): AuditEvent
    requires a in db.attestations
  {
    AuditEvent(kind, OnAttestation, a, Some(db.attestations[a].state), next)
  }

  /** One attestation, its status and its request change state together, and the change is logged. */
  function Advance(db: Tables, a: Ref, next: State, at: Millis, kind: Kind): Tables
    requires Joined(db, a)
  {
    var base := if next == Revoked then db.(revocations := db.revocations[a := at]) else db;
    Log(Move(base, a, next, at, next == Active), Event(db, a, next, kind), db.attestations[a].version)
  }

  /** The change is one the domain allows, at a time that fits it. */
  predicate MayAdvance(db: Tables, a: Ref, next: State, at: Millis)
    requires a in db.attestations
  {
    var row := db.attestations[a];
    && Allowed(OnAttestation, row.state, next)
    && (next == Active ==> row.validFrom <= at)
    && (next == Expired ==> row.expiresAt <= at)
  }

  lemma AdvanceHistories(db: Tables, a: Ref, next: State, at: Millis, kind: Kind, target: AuditTarget, x: Ref)
    requires Joined(db, a)
    ensures History(Advance(db, a, next, at, kind).audit, target, x)
         == History(db.audit, target, x) + (if target == OnAttestation && x == a then [Event(db, a, next, kind)] else [])
  {
    HistoryAppend(db.audit, Event(db, a, next, kind), target, x);
  }

  lemma ChainedAppend(h: seq<AuditEvent>, first: State, event: AuditEvent)
    requires Chained(h, first) && event.prior == Some(LastState(h)) && Allowed(event.target, LastState(h), event.next)
    ensures Chained(h + [event], first) && LastState(h + [event]) == event.next
  {
    var g := h + [event];
    forall i | 0 < i < |g| ensures g[i].prior == Some(g[i - 1].next) && Allowed(g[i].target, g[i - 1].next, g[i].next) {
      if i < |h| {
        assert g[i] == h[i] && g[i - 1] == h[i - 1];
      }
    }
  }

  /** The histories that one more event on `a` leaves. */
  lemma RecordedAfter(db: Tables, h: Tables, a: Ref, event: AuditEvent)
    requires Joined(db, a) && Recorded(db, a) && Joined(h, a)
    requires h.attestations[a].request == db.attestations[a].request && h.attestations[a].state == event.next
    requires AttestationHistory(h, a) == AttestationHistory(db, a) + [event]
    requires RequestHistory(h, db.attestations[a].request) == RequestHistory(db, db.attestations[a].request)
    requires h.statuses[a].version == db.statuses[a].version + 1 && RequestOf(h, a).version == RequestOf(db, a).version + 1
    requires event.prior == Some(db.attestations[a].state)
    requires Allowed(event.target, db.attestations[a].state, event.next)
    ensures Recorded(h, a)
  {
    ChainedAppend(AttestationHistory(db, a), Issued, event);
  }

  lemma AdvancedRecorded(db: Tables, a: Ref, next: State, at: Millis, kind: Kind)
    requires a in db.attestations && Lockstep(db, a) && Recorded(db, a) && MayAdvance(db, a, next, at)
    ensures var h := Advance(db, a, next, at, kind); Joined(h, a) && Recorded(h, a)
  {
    AdvanceHistories(db, a, next, at, kind, OnAttestation, a);
    AdvanceHistories(db, a, next, at, kind, OnRequest, db.attestations[a].request);
    RecordedAfter(db, Advance(db, a, next, at, kind), a, Event(db, a, next, kind));
  }

  lemma AdvancedRow(db: Tables, a: Ref, next: State, at: Millis, kind: Kind)
    requires a in db.attestations && Lockstep(db, a) && Timely(db, a) && MayAdvance(db, a, next, at)
    ensures var h := Advance(db, a, next, at, kind); a in h.attestations && Lockstep(h, a) && Timely(h, a)
  {
  }

  lemma AdvancedSelf(db: Tables, a: Ref, next: State, at: Millis, kind: Kind)
    requires a in db.attestations && AttestationInv(db, a) && MayAdvance(db, a, next, at)
    ensures var h := Advance(db, a, next, at, kind); a in h.attestations && AttestationInv(h, a)
  {
    AdvancedRecorded(db, a, next, at, kind);
    AdvancedRow(db, a, next, at, kind);
  }

  lemma AdvanceFrame(db: Tables, a: Ref, next: State, at: Millis, kind: Kind)
    requires a in db.attestations && Joined(db, a)
    ensures var h := Advance(db, a, next, at, kind);
            Frame(db, h, {a}, {db.attestations[a].request}) && SameRequests(db, h)
  {
    var h := Advance(db, a, next, at, kind);
    LoggedHistories(db, h, Event(db, a, next, kind));
    forall x | x in db.attestations && x != a ensures SameAttestation(db, h, x) {
    }
  }

  lemma AdvancedRequest(db: Tables, a: Ref, next: State, at: Millis, kind: Kind)
    requires a in db.attestations && Joined(db, a)
    ensures var h, q := Advance(db, a, next, at, kind), db.attestations[a].request;
            q in h.requests && RequestInv(h, q)
  {
    var h := Advance(db, a, next, at, kind);
    assert a in h.attestations && h.attestations[a].request == db.attestations[a].request;
  }

  lemma OthersElsewhere(db: Tables, a: Ref)
    requires Exclusive(db) && a in db.attestations
    ensures forall x | x in db.attestations && x != a :: db.attestations[x].request != db.attestations[a].request
  {
  }

  lemma AdvanceRows(db: Tables, a: Ref, next: State, at: Millis, kind: Kind)
    requires Rows(db) && a in db.attestations && Joined(db, a) && MayAdvance(db, a, next, at)
    ensures Rows(Advance(db, a, next, at, kind))
  {
    var h := Advance(db, a, next, at, kind);
    assert AttestationInv(db, a);
    AdvanceFrame(db, a, next, at, kind);
    AdvancedSelf(db, a, next, at, kind);
    AdvancedRequest(db, a, next, at, kind);
    SameExclusive(db, h);
    OthersElsewhere(db, a);
    FrameOne(db, h, a, db.attestations[a].request);
  }

  // ---------------------------------------------------------------- chains

  /** Tables with the same chain links: identities are immutable, only states move. */
  predicate SameLinks(db: Tables, h: Tables) {
    && h.attestations.Keys == db.attestations.Keys
    && forall x | x in db.attestations ::
         && h.attestations[x].participant == db.attestations[x].participant
         && h.attestations[x].version == db.attestations[x].version
         && h.attestations[x].supersedes == db.attestations[x].supersedes
  }

  /** An activated attestation stays activated. */
  predicate CompleteGrows(db: Tables, h: Tables) {
    forall x | x in db.attestations && db.attestations[x].issuanceComplete ::
      x in h.attestations && h.attestations[x].issuanceComplete
  }

  lemma SameUnique(db: Tables, h: Tables)
    requires Unique(db) && SameLinks(db, h)
    ensures Unique(h)
  {
    forall x, y | x in h.attestations && y in h.attestations && x != y
      ensures SameParticipant(h, x, y) ==> h.attestations[x].version != h.attestations[y].version
    {
      assert SameParticipant(h, x, y) == SameParticipant(db, x, y);
    }
  }

  lemma SuccessorStays(db: Tables, h: Tables, x: Ref)
    requires SameLinks(db, h) && CompleteGrows(db, h) && HasSuccessor(db, x)
    ensures HasSuccessor(h, x)
  {
    var y :| Renews(db, y, x) && db.attestations[y].issuanceComplete;
    assert Renews(h, y, x) && h.attestations[y].issuanceComplete;
  }

  lemma MovedChains(db: Tables, h: Tables)
    requires Chains(db) && SameLinks(db, h) && CompleteGrows(db, h)
    requires forall x | x in h.attestations :: Linked(h, x)
    requires forall x | x in h.attestations && h.attestations[x].state == Superseded ::
               db.attestations[x].state == Superseded || HasSuccessor(h, x)
    ensures Chains(h)
  {
    SameUnique(db, h);
    forall x | x in h.attestations ensures Succeeded(h, x) {
      assert Succeeded(db, x);
      if db.attestations[x].state == Superseded {
        SuccessorStays(db, h, x);
      }
    }
  }

  /** The tables differ in nothing but the state of `a`. */
  ghost predicate StateMoved(db: Tables, h: Tables, a: Ref, next: State) {
    && a in db.attestations
    && h.attestations == db.attestations[a :=
         db.attestations[a].(state := next, issuanceComplete := next == Active || db.attestations[a].issuanceComplete)]
  }

  lemma StateLinked(db: Tables, h: Tables, a: Ref, next: State, x: Ref)
    requires Chains(db) && StateMoved(db, h, a, next) && x in db.attestations
    requires || (db.attestations[a].state == Active && next in {Expired, Revoked})
             || (db.attestations[a].state == Issued && next == Active && db.attestations[a].supersedes.None?)
    requires db.attestations[a].issuanceComplete == (db.attestations[a].state != Issued)
    ensures Linked(h, x)
  {
    assert Linked(db, x) && Linked(db, a);
  }

  /** The end of an active attestation other than by renewal, or the activation of a first one. */
  lemma AdvanceChains(db: Tables, h: Tables, a: Ref, next: State)
    requires Chains(db) && StateMoved(db, h, a, next)
    requires db.attestations[a].issuanceComplete == (db.attestations[a].state != Issued)
    requires || (db.attestations[a].state == Active && next in {Expired, Revoked})
             || (db.attestations[a].state == Issued && next == Active && db.attestations[a].supersedes.None?)
    ensures Chains(h)
  {
    forall x | x in h.attestations ensures Linked(h, x) {
      StateLinked(db, h, a, next, x);
    }
    MovedChains(db, h);
  }

  /** A renewal is activated while its predecessor is superseded. */
  function Renewal(db: Tables, a: Ref, p: Ref, at: Millis): Tables
    requires Joined(db, a) && Joined(db, p) && a != p && db.attestations[a].request != db.attestations[p].request
  {
    Advance(Advance(db, p, Superseded, at, SupersedeKind), a, Active, at, ActivateKind)
  }

  ghost predicate Renewed(db: Tables, h: Tables, a: Ref, p: Ref) {
    && a in db.attestations && p in db.attestations && a != p
    && h.attestations == db.attestations[p := db.attestations[p].(state := Superseded)]
                                        [a := db.attestations[a].(state := Active, issuanceComplete := true)]
  }

  lemma RenewalLinked(db: Tables, h: Tables, a: Ref, p: Ref, x: Ref)
    requires Chains(db) && Renewed(db, h, a, p)
    requires db.attestations[a].supersedes == Some(p) && !db.attestations[a].issuanceComplete
    requires x in db.attestations
    ensures Linked(h, x)
  {
    assert Linked(db, a) && Linked(db, x) && Linked(db, p);
    if db.attestations[x].supersedes == Some(p) && x != a {
      assert SameParticipant(db, x, a);
    }
  }

  lemma RenewalShape(db: Tables, h: Tables, a: Ref, p: Ref)
    requires Renewed(db, h, a, p) && db.attestations[a].supersedes == Some(p)
    ensures SameLinks(db, h) && CompleteGrows(db, h) && HasSuccessor(h, p)
    ensures forall x | x in h.attestations && h.attestations[x].state == Superseded ::
              db.attestations[x].state == Superseded || x == p
  {
    assert Renews(h, a, p) && h.attestations[a].issuanceComplete;
  }

  lemma RenewalChains(db: Tables, h: Tables, a: Ref, p: Ref)
    requires Chains(db) && Renewed(db, h, a, p)
    requires db.attestations[a].supersedes == Some(p) && !db.attestations[a].issuanceComplete
    ensures Chains(h)
  {
    RenewalShape(db, h, a, p);
    forall x | x in h.attestations ensures Linked(h, x) {
      RenewalLinked(db, h, a, p, x);
    }
    MovedChains(db, h);
  }

  // ---------------------------------------------------------------- commands on requests

  lemma SameAttestations(db: Tables, h: Tables)
    requires Chains(db) && h.attestations == db.attestations
    ensures Chains(h)
  {
    forall x | x in h.attestations ensures Linked(h, x) {
      assert Linked(db, x);
    }
    MovedChains(db, h);
  }

  lemma CreateKeeps(db: Tables, reference: Ref, participant: Ref)
    requires Inv(db) && Create(db, reference, participant).Changed?
    ensures Inv(Create(db, reference, participant).db)
  {
    var h := Create(db, reference, participant).db;
    LoggedHistories(db, h, AuditEvent(CreateKind, OnRequest, reference, None, Requested));
    SameAttestations(db, h);
    SameExclusive(db, h);
    assert RequestInv(h, reference) by {
      assert RequestHistory(db, reference) == [];
    }
    forall x | x in db.attestations ensures SameAttestation(db, h, x) && db.attestations[x].request != reference {
      assert AttestationInv(db, x);
    }
    FrameRows(db, h, {}, {reference});
  }

  lemma TransitionedRequest(db: Tables, reference: Ref, verb: Verb, version: nat)
    requires TransitionRequest(db, reference, verb, version).Changed? && RequestInv(db, reference)
    ensures var h := TransitionRequest(db, reference, verb, version).db; reference in h.requests && RequestInv(h, reference)
  {
    var h := TransitionRequest(db, reference, verb, version).db;
    var event := AuditEvent(TransitionKind(verb), OnRequest, reference, Some(Source(verb)), Target(verb));
    HistoryAppend(db.audit, event, OnRequest, reference);
    if Bare(h, reference) {
      BareBefore(db, h, reference);
      assert Allowed(OnRequest, Source(verb), Target(verb));
      ChainedAppend(RequestHistory(db, reference), Requested, event);
    }
  }

  /** No verb applies to a request that has an attestation. */
  lemma VerbsSpareAttested(db: Tables, x: Ref, reference: Ref, verb: Verb)
    requires x in db.attestations && Lockstep(db, x)
    requires reference in db.requests && db.requests[reference].state == Source(verb)
    ensures db.attestations[x].request != reference
  {
    assert Source(verb) !in ATTESTATION_STATES;
  }

  lemma TransitionFrame(db: Tables, reference: Ref, verb: Verb, version: nat)
    requires TransitionRequest(db, reference, verb, version).Changed?
    ensures var h := TransitionRequest(db, reference, verb, version).db;
            Frame(db, h, {}, {reference}) && SameRequests(db, h) && h.attestations == db.attestations
  {
    var h := TransitionRequest(db, reference, verb, version).db;
    LoggedHistories(db, h, AuditEvent(TransitionKind(verb), OnRequest, reference, Some(Source(verb)), Target(verb)));
    forall x | x in db.attestations ensures SameAttestation(db, h, x) {
    }
  }

  lemma TransitionKeeps(db: Tables, reference: Ref, verb: Verb, version: nat)
    requires Inv(db) && TransitionRequest(db, reference, verb, version).Changed?
    ensures Inv(TransitionRequest(db, reference, verb, version).db)
  {
    var h := TransitionRequest(db, reference, verb, version).db;
    TransitionFrame(db, reference, verb, version);
    SameAttestations(db, h);
    SameExclusive(db, h);
    assert RequestInv(db, reference);
    TransitionedRequest(db, reference, verb, version);
    forall x | x in db.attestations ensures db.attestations[x].request != reference {
      assert AttestationInv(db, x);
      VerbsSpareAttested(db, x, reference, verb);
    }
    FrameRows(db, h, {}, {reference});
  }

  // ---------------------------------------------------------------- issuing

  lemma SameVersion(db: Tables, b: Ref, c: Ref)
    requires Unique(db) && b in db.attestations && c in db.attestations
    requires SameParticipant(db, b, c) && db.attestations[b].version == db.attestations[c].version
    ensures b == c
  {
  }

  /** The unique indexes leave at most one attestation for each request: nothing else has to be assumed. */
  lemma IssueIsFresh(db: Tables, reference: Ref, request: Ref, from: Millis, until: Millis, supersedes: Option<Ref>)
    requires Inv(db) && IssueAttestation(db, reference, request, from, until, supersedes).Changed?
    ensures Bare(db, request)
  {
    var q := db.requests[request];
    var version := if supersedes.Some? then db.attestations[supersedes.value].version + 1 else 1;
    forall b | b in db.attestations && db.attestations[b].request == request ensures false {
      assert AttestationInv(db, b);
      assert Linked(db, b);
      if version <= db.attestations[b].version {
        var c := Ancestor(db, b, version);
        assert false;
      } else {
        var p := supersedes.value;
        assert AttestationInv(db, p);
        var c := Ancestor(db, p, db.attestations[b].version);
        SameVersion(db, b, c);
        assert false;
      }
    }
  }

  lemma IssuedRecorded(db: Tables, h: Tables, reference: Ref, request: Ref)
    requires Rows(db) && Bare(db, request) && request in db.requests && db.requests[request].state == Issued
    requires reference !in db.attestations && Joined(h, reference)
    requires h.requests == db.requests && h.attestations[reference].request == request
    requires h.attestations[reference].state == Issued && h.statuses[reference].version == 1
    requires h.audit == db.audit + [AuditEvent(IssueKind, OnAttestation, reference, None, Issued)]
    ensures Recorded(h, reference)
  {
    LoggedHistories(db, h, AuditEvent(IssueKind, OnAttestation, reference, None, Issued));
    assert RequestInv(db, request);
    assert AttestationHistory(h, reference) == AttestationHistory(db, reference)
                                             + [AuditEvent(IssueKind, OnAttestation, reference, None, Issued)];
    assert RequestHistory(h, request) == RequestHistory(db, request);
  }

  lemma IssuedSelf(db: Tables, h: Tables, reference: Ref, request: Ref, from: Millis, until: Millis,
                   supersedes: Option<Ref>)
    requires Rows(db) && Bare(db, request)
    requires IssueAttestation(db, reference, request, from, until, supersedes).Changed?
    requires h == IssueAttestation(db, reference, request, from, until, supersedes).db
    ensures AttestationInv(h, reference)
  {
    IssuedRecorded(db, h, reference, request);
  }

  lemma IssueExclusive(db: Tables, h: Tables, reference: Ref, row: AttestationRow)
    requires Exclusive(db) && Bare(db, row.request) && h.attestations == db.attestations[reference := row]
    ensures Exclusive(h)
  {
    forall x, y | x in h.attestations && y in h.attestations && h.attestations[x].request == h.attestations[y].request
      ensures x == y
    {
      if x != reference && y != reference {
        assert db.attestations[x].request == db.attestations[y].request;
      }
    }
  }

  lemma IssueKeepsRows(db: Tables, reference: Ref, request: Ref, from: Millis, until: Millis, supersedes: Option<Ref>)
    requires Rows(db) && Bare(db, request)
    requires IssueAttestation(db, reference, request, from, until, supersedes).Changed?
    ensures Rows(IssueAttestation(db, reference, request, from, until, supersedes).db)
  {
    var h := IssueAttestation(db, reference, request, from, until, supersedes).db;
    LoggedHistories(db, h, AuditEvent(IssueKind, OnAttestation, reference, None, Issued));
    IssuedSelf(db, h, reference, request, from, until, supersedes);
    IssueExclusive(db, h, reference, h.attestations[reference]);
    forall x | x in db.attestations ensures SameAttestation(db, h, x) && db.attestations[x].request != request {
    }
    assert !Bare(h, request) by {
      assert h.attestations[reference].request == request;
    }
    FrameOne(db, h, reference, request);
  }

  lemma IssueLinked(db: Tables, h: Tables, reference: Ref, row: AttestationRow, x: Ref)
    requires Chains(db) && reference !in db.attestations && h.attestations == db.attestations[reference := row]
    requires x in db.attestations
    ensures Linked(h, x) && Succeeded(h, x)
  {
    assert Linked(db, x) && Succeeded(db, x);
    if db.attestations[x].state == Superseded {
      var y :| Renews(db, y, x) && db.attestations[y].issuanceComplete;
      assert Renews(h, y, x) && h.attestations[y].issuanceComplete;
    }
  }

  lemma IssueUnique(db: Tables, h: Tables, reference: Ref, row: AttestationRow)
    requires Unique(db) && reference !in db.attestations && h.attestations == db.attestations[reference := row]
    requires IndexesAllow(db, row.participant, row.version, row.supersedes)
    ensures Unique(h)
  {
    forall x, y | x in h.attestations && y in h.attestations && x != y
      ensures SameParticipant(h, x, y) ==> h.attestations[x].version != h.attestations[y].version
    {
      if x != reference && y != reference {
        assert SameParticipant(h, x, y) == SameParticipant(db, x, y);
      }
    }
  }

  lemma IssueKeepsChains(db: Tables, reference: Ref, request: Ref, from: Millis, until: Millis, supersedes: Option<Ref>)
    requires Inv(db) && IssueAttestation(db, reference, request, from, until, supersedes).Changed?
    ensures Chains(IssueAttestation(db, reference, request, from, until, supersedes).db)
  {
    var h := IssueAttestation(db, reference, request, from, until, supersedes).db;
    var row := h.attestations[reference];
    IssueUnique(db, h, reference, row);
    if supersedes.Some? {
      assert AttestationInv(db, supersedes.value);
      assert Linked(db, supersedes.value);
    }
    assert Linked(h, reference) && Succeeded(h, reference);
    forall x | x in h.attestations ensures Linked(h, x) && Succeeded(h, x) {
      if x != reference {
        IssueLinked(db, h, reference, row, x);
      }
    }
  }

  // ---------------------------------------------------------------- attestation commands

  /** Two different attestations of different requests may be moved in either order. */
  lemma MovesCommute(db: Tables, a: Ref, p: Ref, at: Millis)
    requires Joined(db, a) && Joined(db, p) && a != p && db.attestations[a].request != db.attestations[p].request
    ensures Move(Move(db, a, Active, at, true), p, Superseded, at, false)
         == Move(Move(db, p, Superseded, at, false), a, Active, at, true)
  {
    var row, prior := db.attestations[a], db.attestations[p];
    SwapUpdates(db.attestations, a, row.(state := Active, issuanceComplete := true), p, prior.(state := Superseded));
    SwapUpdates(db.statuses, a, StatusRow(Active, at, db.statuses[a].version + 1),
                p, StatusRow(Superseded, at, db.statuses[p].version + 1));
    var q, r := RequestOf(db, a), RequestOf(db, p);
    SwapUpdates(db.requests, row.request, q.(state := Active, version := q.version + 1),
                prior.request, r.(state := Superseded, version := r.version + 1));
  }

  lemma SwapUpdates<V>(m: map<Ref, V>, a: Ref, x: V, b: Ref, y: V)
    requires a != b
    ensures m[a := x][b := y] == m[b := y][a := x]
  {
  }

  lemma RenewalTables(db: Tables, a: Ref, p: Ref, at: Millis)
    requires Joined(db, a) && Joined(db, p) && a != p && db.attestations[a].request != db.attestations[p].request
    ensures var events := Log(Move(Move(db, p, Superseded, at, false), a, Active, at, true),
                              Event(db, p, Superseded, SupersedeKind), db.attestations[p].version);
            Renewal(db, a, p, at) == Log(events, Event(db, a, Active, ActivateKind), db.attestations[a].version)
  {
  }

  lemma PredecessorActive(db: Tables, a: Ref)
    requires Inv(db) && a in db.attestations && db.attestations[a].supersedes.Some?
    ensures var p := db.attestations[a].supersedes.value;
            && p != a && Joined(db, a) && Joined(db, p)
            && db.attestations[a].request != db.attestations[p].request
            && db.attestations[p].state == RequestOf(db, p).state
  {
    assert AttestationInv(db, a);
    assert Linked(db, a);
    assert AttestationInv(db, db.attestations[a].supersedes.value);
  }

  lemma ActivationTables(db: Tables, a: Ref, p: Ref, version: nat, at: Millis)
    requires Activation(db, a, version, at).Changed? && db.attestations[a].supersedes == Some(p)
    requires p != a && Joined(db, p) && db.attestations[a].request != db.attestations[p].request
    ensures RequestOf(db, p).state == Active
    ensures var both := Move(Move(db, a, Active, at, true), p, Superseded, at, false);
            var logged := Log(both, Event(db, p, Superseded, SupersedeKind), db.attestations[p].version);
            Activation(db, a, version, at).db == Log(logged, Event(db, a, Active, ActivateKind), db.attestations[a].version)
  {
    var moved := Move(db, a, Active, at, true);
    assert moved.attestations[p] == db.attestations[p] && RequestOf(moved, p) == RequestOf(db, p);
  }

  /** Activation with a predecessor, statement by statement, is the renewal of the predecessor. */
  lemma ActivationIsRenewal(db: Tables, a: Ref, version: nat, at: Millis)
    requires Inv(db) && Activation(db, a, version, at).Changed? && db.attestations[a].supersedes.Some?
    ensures var p := db.attestations[a].supersedes.value;
            && p != a && Joined(db, p) && db.attestations[p].state == Active
            && db.attestations[a].request != db.attestations[p].request
            && Activation(db, a, version, at).db == Renewal(db, a, p, at)
  {
    var p := db.attestations[a].supersedes.value;
    PredecessorActive(db, a);
    ActivationTables(db, a, p, version, at);
    MovesCommute(db, a, p, at);
    RenewalTables(db, a, p, at);
  }

  lemma RenewalKeeps(db: Tables, a: Ref, p: Ref, at: Millis)
    requires Inv(db) && Joined(db, a) && Joined(db, p) && a != p
    requires db.attestations[a].request != db.attestations[p].request && db.attestations[a].supersedes == Some(p)
    requires db.attestations[a].state == Issued && db.attestations[p].state == Active && db.attestations[a].validFrom <= at
    ensures Inv(Renewal(db, a, p, at))
  {
    assert AttestationInv(db, a);
    AdvanceRows(db, p, Superseded, at, SupersedeKind);
    AdvanceRows(Advance(db, p, Superseded, at, SupersedeKind), a, Active, at, ActivateKind);
    RenewalChains(db, Renewal(db, a, p, at), a, p);
  }

  lemma ActivationKeeps(db: Tables, a: Ref, version: nat, at: Millis)
    requires Inv(db) && Activation(db, a, version, at).Changed?
    ensures Inv(Activation(db, a, version, at).db)
  {
    assert AttestationInv(db, a);
    if db.attestations[a].supersedes.None? {
      assert Activation(db, a, version, at).db == Advance(db, a, Active, at, ActivateKind);
      AdvanceRows(db, a, Active, at, ActivateKind);
      AdvanceChains(db, Advance(db, a, Active, at, ActivateKind), a, Active);
    } else {
      ActivationIsRenewal(db, a, version, at);
      RenewalKeeps(db, a, db.attestations[a].supersedes.value, at);
    }
  }

  /** An active attestation ends, by expiry or revocation. */
  lemma EndKeeps(db: Tables, a: Ref, next: State, at: Millis, kind: Kind)
    requires Inv(db) && a in db.attestations && Joined(db, a)
    requires db.attestations[a].state == Active && next in {Expired, Revoked}
    requires next == Expired ==> db.attestations[a].expiresAt <= at
    ensures Inv(Advance(db, a, next, at, kind))
  {
    assert AttestationInv(db, a);
    AdvanceRows(db, a, next, at, kind);
    AdvanceChains(db, Advance(db, a, next, at, kind), a, next);
  }

  lemma ExpiryKeeps(db: Tables, a: Ref, version: nat, at: Millis)
    requires Inv(db) && Expiry(db, a, version, at).Changed?
    ensures Inv(Expiry(db, a, version, at).db)
  {
    assert AttestationInv(db, a);
    assert Expiry(db, a, version, at).db == Advance(db, a, Expired, at, ExpireKind);
    EndKeeps(db, a, Expired, at, ExpireKind);
  }

  lemma RevocationKeeps(db: Tables, a: Ref, version: nat, at: Millis)
    requires Inv(db) && Revocation(db, a, version, at).Changed?
    ensures Inv(Revocation(db, a, version, at).db)
  {
    assert Revocation(db, a, version, at).db == Advance(db, a, Revoked, at, RevokeKind);
    EndKeeps(db, a, Revoked, at, RevokeKind);
  }

  lemma ApplyKeeps(db: Tables, c: Command)
    requires Inv(db) && Apply(db, c).Changed?
    ensures Inv(Apply(db, c).db)
  {
    match c
    case CreateRequest(reference, participant) => CreateKeeps(db, reference, participant);
    case Transition(reference, verb, version) => TransitionKeeps(db, reference, verb, version);
    case Issue(reference, request, from, until, supersedes) =>
      IssueIsFresh(db, reference, request, from, until, supersedes);
      IssueKeepsRows(db, reference, request, from, until, supersedes);
      IssueKeepsChains(db, reference, request, from, until, supersedes);
    case Activate(reference, version, at) => ActivationKeeps(db, reference, version, at);
    case Expire(reference, version, at) => ExpiryKeeps(db, reference, version, at);
    case Revoke(reference, version, at) => RevocationKeeps(db, reference, version, at);
  }

  /** The records table takes no part in the invariant. */
  lemma RecordsAside(db: Tables, records: map<string, Record>)
    requires Inv(db)
    ensures Inv(db.(records := records))
  {
    var h := db.(records := records);
    SameAttestations(db, h);
    forall a | a in h.attestations ensures AttestationInv(h, a) {
      assert AttestationInv(db, a);
    }
    forall q | q in h.requests ensures RequestInv(h, q) {
      assert RequestInv(db, q);
      assert Bare(h, q) ==> Bare(db, q);
    }
    assert NoStrays(h) by {
      assert forall q | q !in h.requests :: RequestHistory(h, q) == RequestHistory(db, q);
      assert forall a | a !in h.attestations :: AttestationHistory(h, a) == AttestationHistory(db, a);
    }
  }

  lemma ExecuteKeeps(db: Tables, c: Command, context: Context)
    requires Inv(db)
    ensures Inv(Execute(db, c, context).0)
  {
    if context.key !in db.records && Apply(db, c).Changed? {
      ApplyKeeps(db, c);
      RecordsAside(Apply(db, c).db, Execute(db, c, context).0.records);
    }
  }

  lemma EmptyInv(participants: set<Ref>, now: Millis)
    ensures Inv(Empty(participants, now))
  {
  }

  lemma {:induction false} RunKeeps(db: Tables, calls: seq<Call>)
    requires Inv(db)
    ensures Inv(Run(db, calls))
    decreases |calls|
  {
    if calls != [] {
      RunKeeps(db, calls[..|calls| - 1]);
      var last := calls[|calls| - 1];
      ExecuteKeeps(Run(db, calls[..|calls| - 1]), last.command, last.context);
    }
  }
}

/** services/verusid/src/app.js: the hosted side of the wallet link. Requests to its routes interleave at every await; the
    store operations are atomic. */
module RelayProtocol {
  import opened Wrappers
  import opened ResultStore

  const TOLERANCE_MS := 60_000
  const TOMBSTONE_MS := 10 * 60_000

  datatype Limits = Limits(challengeLifetimeMs: int, tokenLifetimeSeconds: int)

  /** Tombstones outlive every challenge; the deployed lifetime is five minutes. */
  predicate Sane(limits: Limits) {
    0 < limits.challengeLifetimeMs <= TOMBSTONE_MS - TOLERANCE_MS && 0 < limits.tokenLifetimeSeconds
  }

  /** The time checks of `validateChallengeInput`. */
  predicate AcceptsChallenge(limits: Limits, c: Challenge, now: Millis) {
    && now - TOLERANCE_MS <= c.issuedAt <= now + TOLERANCE_MS
    && c.issuedAt < c.expiresAt && c.expiresAt - c.issuedAt <= limits.challengeLifetimeMs
  }

  /** Math.floor(ms / 1000). */
  function Seconds(ms: Millis): int {
    ms / 1000
  }

  /** Token lifetime in whole seconds, for a token minted now. */
  function ExpiresIn(limits: Limits, c: Challenge, now: Millis): int {
    var rest := Seconds(c.expiresAt) - Seconds(now);
    if limits.tokenLifetimeSeconds < rest then limits.tokenLifetimeSeconds else rest
  }

  function Minted(limits: Limits, c: Challenge, now: Millis, identity: string, digest: string): StoredResult {
    StoredResult(identity, digest, (Seconds(now) + ExpiresIn(limits, c, now)) * 1000)
  }

  /** `seen`: the challenges that callback requests have read so far. */
  datatype Relay = Relay(limits: Limits, now: Millis, store: Store, seen: set<(Id, Challenge)>)

  datatype Move =
    | Tick(to: Millis)
    | Open(id: Id, challenge: Challenge, validatedAt: Millis)     // challenge route: validated, then stored
    | Look(id: Id)                                               // callback route: the challenge is read
    | Deliver(id: Id, challenge: Challenge, mintedAt: Millis, identity: string, digest: string)
    | Acknowledged(id: Id, digest: string)                       // acknowledgement route

  function Next(g: Relay, m: Move): Relay {
    match m
    case Tick(to) => g.(now := if to > g.now then to else g.now)
    case Open(id, c, at) =>
      if at <= g.now && AcceptsChallenge(g.limits, c, at) then
        g.(store := Step(g.store, g.now, CreateChallenge(id, c)).0)
      else g
    case Look(id) =>
      var c := LiveChallenge(g.store, id, g.now);
      if c.Some? then g.(seen := g.seen + {(id, c.value)}) else g
    case Deliver(id, c, at, identity, digest) =>
      if (id, c) in g.seen && at <= g.now && ExpiresIn(g.limits, c, at) >= 1 then
        g.(store := Step(g.store, g.now, PutResult(id, Minted(g.limits, c, at, identity, digest))).0)
      else g
    case Acknowledged(id, digest) =>
      g.(store := Step(g.store, g.now, Acknowledge(id, digest, g.now + TOMBSTONE_MS)).0)
  }

  function Run(g: Relay, moves: seq<Move>): Relay
    decreases |moves|
  {
    if moves == [] then g else Next(Run(g, moves[..|moves| - 1]), moves[|moves| - 1])
  }

  function Start(limits: Limits, now: Millis): Relay {
    Relay(limits, now, EMPTY, {})
  }

  // ---------------------------------------------------------------- the invariant

  /** A challenge that some callback still works with has expired, is stored, or is covered by a tombstone. */
  predicate Covered(g: Relay, id: Id, c: Challenge) {
    || c.expiresAt <= g.now
    || (id in g.store.challenges && g.store.challenges[id].expiresAt == c.expiresAt)
    || (id in g.store.consumed && c.expiresAt <= g.store.consumed[id])
  }

  /** A live result has a live challenge that expires no earlier. */
  predicate Backed(g: Relay, id: Id) {
    LiveResult(g.store, id, g.now).Some? ==>
      && LiveChallenge(g.store, id, g.now).Some?
      && g.store.results[id].expiresAt <= g.store.challenges[id].expiresAt
  }

  /** No challenge reaches further than the tolerance and the lifetime allow, no tombstone further than its own. */
  predicate Bounded(g: Relay, id: Id) {
    && (id in g.store.challenges ==>
          g.store.challenges[id].expiresAt <= g.now + TOLERANCE_MS + g.limits.challengeLifetimeMs)
    && (id in g.store.consumed ==> g.store.consumed[id] <= g.now + TOMBSTONE_MS)
  }

  ghost predicate Inv(g: Relay) {
    && Sane(g.limits)
    && (forall pair | pair in g.seen :: Covered(g, pair.0, pair.1))
    && (forall id :: Backed(g, id) && Bounded(g, id))
  }

  lemma MintedWithinChallenge(limits: Limits, c: Challenge, now: Millis, identity: string, digest: string)
    ensures Minted(limits, c, now, identity, digest).expiresAt <= c.expiresAt
  {
  }

  lemma TickKeeps(g: Relay, to: Millis)
    requires Inv(g)
    ensures Inv(Next(g, Tick(to)))
  {
    var h := Next(g, Tick(to));
    forall pair | pair in h.seen ensures Covered(h, pair.0, pair.1) {
      assert Covered(g, pair.0, pair.1);
    }
    forall id ensures Backed(h, id) && Bounded(h, id) {
      assert Backed(g, id) && Bounded(g, id);
    }
  }

  lemma OpenKeeps(g: Relay, id: Id, c: Challenge, at: Millis)
    requires Inv(g)
    ensures Inv(Next(g, Open(id, c, at)))
  {
    var h := Next(g, Open(id, c, at));
    forall pair | pair in h.seen ensures Covered(h, pair.0, pair.1) {
      assert Covered(g, pair.0, pair.1);
    }
    forall x ensures Backed(h, x) && Bounded(h, x) {
      assert Backed(g, x) && Bounded(g, x);
    }
  }

  lemma LookKeeps(g: Relay, id: Id)
    requires Inv(g)
    ensures Inv(Next(g, Look(id)))
  {
    var h := Next(g, Look(id));
    forall pair | pair in h.seen ensures Covered(h, pair.0, pair.1) {
      if pair in g.seen {
        assert Covered(g, pair.0, pair.1);
      }
    }
    forall x ensures Backed(h, x) && Bounded(h, x) {
      assert Backed(g, x) && Bounded(g, x);
    }
  }

  lemma DeliverKeeps(g: Relay, id: Id, c: Challenge, at: Millis, identity: string, digest: string)
    requires Inv(g)
    ensures Inv(Next(g, Deliver(id, c, at, identity, digest)))
  {
    var h := Next(g, Deliver(id, c, at, identity, digest));
    forall pair | pair in h.seen ensures Covered(h, pair.0, pair.1) {
      assert Covered(g, pair.0, pair.1);
    }
    forall x ensures Backed(h, x) && Bounded(h, x) {
      assert Backed(g, x) && Bounded(g, x);
      if x == id && h != g {
        MintedWithinChallenge(g.limits, c, at, identity, digest);
        assert Covered(g, id, c);
      }
    }
  }

  lemma AcknowledgedKeeps(g: Relay, id: Id, digest: string)
    requires Inv(g)
    ensures Inv(Next(g, Acknowledged(id, digest)))
  {
    var h := Next(g, Acknowledged(id, digest));
    forall pair | pair in h.seen ensures Covered(h, pair.0, pair.1) {
      assert Covered(g, pair.0, pair.1) && Bounded(g, pair.0);
    }
    forall x ensures Backed(h, x) && Bounded(h, x) {
      assert Backed(g, x) && Bounded(g, x);
    }
  }

  lemma NextKeeps(g: Relay, m: Move)
    requires Inv(g)
    ensures Inv(Next(g, m))
  {
    match m
    case Tick(to) => TickKeeps(g, to);
    case Open(id, c, at) => OpenKeeps(g, id, c, at);
    case Look(id) => LookKeeps(g, id);
    case Deliver(id, c, at, identity, digest) => DeliverKeeps(g, id, c, at, identity, digest);
    case Acknowledged(id, digest) => AcknowledgedKeeps(g, id, digest);
  }

  lemma {:induction false} RunKeeps(g: Relay, moves: seq<Move>)
    requires Inv(g)
    ensures Inv(Run(g, moves))
    decreases |moves|
  {
    if moves != [] {
      RunKeeps(g, moves[..|moves| - 1]);
      NextKeeps(Run(g, moves[..|moves| - 1]), moves[|moves| - 1]);
    }
  }

  // ---------------------------------------------------------------- theorems

  /** With tokens minted by the callback route, every live result has a live challenge that expires no earlier, however
      the routes interleave. */
  lemma ResultsAreBacked(limits: Limits, now: Millis, moves: seq<Move>, id: Id)
    requires Sane(limits)
    requires LiveResult(Run(Start(limits, now), moves).store, id, Run(Start(limits, now), moves).now).Some?
    ensures var g := Run(Start(limits, now), moves);
            && LiveChallenge(g.store, id, g.now).Some?
            && g.store.results[id].expiresAt <= g.store.challenges[id].expiresAt
  {
    RunKeeps(Start(limits, now), moves);
    assert Backed(Run(Start(limits, now), moves), id);
  }

  lemma StepStable(g: Relay, m: Move, id: Id)
    requires Inv(g) && LiveResult(g.store, id, g.now).Some?
    ensures var r, h := g.store.results[id], Next(g, m);
            || r.expiresAt <= h.now
            || m == Acknowledged(id, r.proofDigest)
            || LiveResult(h.store, id, h.now) == Some(r)
  {
    assert Backed(g, id);
  }

  /** A stored result stays what it is until it is acknowledged with its digest, or expires. */
  lemma {:induction false} ResultsAreStable(g: Relay, moves: seq<Move>, id: Id)
    requires Inv(g) && LiveResult(g.store, id, g.now).Some?
    requires Acknowledged(id, g.store.results[id].proofDigest) !in moves
    ensures var r, h := g.store.results[id], Run(g, moves);
            r.expiresAt <= h.now || LiveResult(h.store, id, h.now) == Some(r)
    decreases |moves|
  {
    if moves != [] {
      var init, last := moves[..|moves| - 1], moves[|moves| - 1];
      assert moves == init + [last];
      ResultsAreStable(g, init, id);
      RunKeeps(g, init);
      ClockGrows(Run(g, init), last);
      if LiveResult(Run(g, init).store, id, Run(g, init).now) == Some(g.store.results[id]) {
        StepStable(Run(g, init), last, id);
      }
    }
  }

  lemma ClockGrows(g: Relay, m: Move)
    ensures g.now <= Next(g, m).now
  {
  }

  /** Nothing is stored under the identifier, and the tombstone stands. */
  predicate Buried(g: Relay, id: Id, until: Millis) {
    id in g.store.consumed && until <= g.store.consumed[id] && LiveResult(g.store, id, g.now).None?
  }

  lemma StaysBuried(g: Relay, m: Move, id: Id, until: Millis)
    requires Buried(g, id, until) && g.now < until
    ensures Buried(Next(g, m), id, until)
  {
  }

  /** After an acknowledgement no result for that identifier is stored until the tombstone ends, even by callbacks that
      read the challenge before. */
  lemma {:induction false} NoResultAfterAcknowledgement(g: Relay, id: Id, digest: string, moves: seq<Move>)
    requires Step(g.store, g.now, Acknowledge(id, digest, g.now + TOMBSTONE_MS)).1 == Flag(true)
    ensures var h := Run(Next(g, Acknowledged(id, digest)), moves);
            h.now < g.now + 10 * 60_000 ==> LiveResult(h.store, id, h.now).None?
    ensures var h := Run(Next(g, Acknowledged(id, digest)), moves);
            h.now < g.now + 10 * 60_000 ==> Buried(h, id, g.now + TOMBSTONE_MS)
    decreases |moves|
  {
    if moves != [] {
      var init := moves[..|moves| - 1];
      NoResultAfterAcknowledgement(g, id, digest, init);
      var h := Run(Next(g, Acknowledged(id, digest)), init);
      ClockGrows(h, moves[|moves| - 1]);
      if h.now < g.now + TOMBSTONE_MS {
        StaysBuried(h, moves[|moves| - 1], id, g.now + TOMBSTONE_MS);
      }
    }
  }

  // ---------------------------------------------------------------- minting against verification

  /** The time checks of `verifyJwt`, in the client's whole seconds. */
  predicate AcceptsTimes(issuedAt: Millis, expiresAt: Millis, clientNow: Millis, iat: int, exp: int) {
    && iat >= Seconds(issuedAt) - 60
    && iat <= Seconds(clientNow) + 60
    && exp > Seconds(clientNow)
    && exp <= Seconds(expiresAt) + 60
    && exp > iat
  }

  lemma SecondsMonotone(a: Millis, b: Millis, k: int)
    requires a <= b + k * 1000
    ensures Seconds(a) <= Seconds(b) + k
  {
    assert (b + k * 1000) / 1000 == b / 1000 + k;
  }

  /** Every token minted for an accepted challenge passes all time checks of a client whose clock is at most 60 s behind,
      at any time before the token expires. */
  lemma MintedTokensVerify(limits: Limits, c: Challenge, validatedAt: Millis, mintedAt: Millis, clientNow: Millis)
    requires AcceptsChallenge(limits, c, validatedAt) && validatedAt <= mintedAt && ExpiresIn(limits, c, mintedAt) >= 1
    requires mintedAt - 60_000 <= clientNow < Minted(limits, c, mintedAt, "", "").expiresAt
    ensures AcceptsTimes(c.issuedAt, c.expiresAt, clientNow, Seconds(mintedAt),
                         Seconds(mintedAt) + ExpiresIn(limits, c, mintedAt))
  {
    SecondsMonotone(c.issuedAt, mintedAt, 60);
    SecondsMonotone(mintedAt, clientNow, 60);
  }

  /** The client's clock bounds are exact: a token that has not expired for the client is rejected if and only if the
      client is more than 60 whole seconds behind the minting clock. */
  lemma RejectedExactly(limits: Limits, c: Challenge, validatedAt: Millis, mintedAt: Millis, clientNow: Millis)
    requires AcceptsChallenge(limits, c, validatedAt) && validatedAt <= mintedAt && ExpiresIn(limits, c, mintedAt) >= 1
    requires clientNow < Minted(limits, c, mintedAt, "", "").expiresAt
    ensures AcceptsTimes(c.issuedAt, c.expiresAt, clientNow, Seconds(mintedAt),
                         Seconds(mintedAt) + ExpiresIn(limits, c, mintedAt))
       <==> Seconds(mintedAt) - Seconds(clientNow) <= 60
  {
    SecondsMonotone(c.issuedAt, mintedAt, 60);
  }

  /** An accepted token lies inside the challenge window widened by 60 s, to the whole second. */
  lemma AcceptedTokensInsideWindow(issuedAt: Millis, expiresAt: Millis, clientNow: Millis, iat: int, exp: int)
    requires AcceptsTimes(issuedAt, expiresAt, clientNow, iat, exp)
    ensures issuedAt - 60_000 - 1000 < iat * 1000 < exp * 1000 <= expiresAt + 60_000
    ensures clientNow < exp * 1000
  {
    assert issuedAt < Seconds(issuedAt) * 1000 + 1000 && Seconds(expiresAt) * 1000 <= expiresAt;
    assert clientNow < Seconds(clientNow) * 1000 + 1000;
  }
}

/** What each route of the relay accepts and stores, in terms of times, and what it then answers. */
module RelayOutcomes {
  import opened Wrappers
  import opened ResultStore
  import opened RelayProtocol
  import opened StoreHistory

  /** A new challenge is stored exactly if it was validated by now, was issued within a minute of its validation, runs
      no longer than the configured lifetime, and no live challenge has its identifier. */
  lemma OpenExactly(g: Relay, id: Id, c: Challenge, validatedAt: Millis)
    ensures var h := Next(g, Open(id, c, validatedAt));
            && h.now == g.now && h.seen == g.seen && h.limits == g.limits
            && if && validatedAt <= g.now
                  && validatedAt - 60_000 <= c.issuedAt <= validatedAt + 60_000
                  && c.issuedAt < c.expiresAt <= c.issuedAt + g.limits.challengeLifetimeMs
                  && !HasChallenge(g.store, id, g.now)
               then h.store == g.store.(challenges := g.store.challenges[id := c])
               else h.store == g.store
  {
  }

  /** A callback reads exactly the live challenge. */
  lemma LookExactly(g: Relay, id: Id)
    ensures var h := Next(g, Look(id));
            && h.store == g.store && h.now == g.now
            && h.seen == g.seen + (if HasChallenge(g.store, id, g.now) then {(id, g.store.challenges[id])} else {})
  {
  }

  /** The whole seconds from minting to the end of the challenge. */
  function SecondsLeft(c: Challenge, mintedAt: Millis): int {
    c.expiresAt / 1000 - mintedAt / 1000
  }

  /** A result is stored exactly if its callback has read the challenge, at least one whole second is left of it, and the
      challenge is still live, not acknowledged, and without result. It names the identity and the digest, and runs out at a
      whole second, after the token lifetime or with the challenge, whichever is earlier. */
  lemma DeliverExactly(g: Relay, id: Id, c: Challenge, mintedAt: Millis, identity: string, digest: string)
    requires g.limits.tokenLifetimeSeconds > 0
    ensures var h := Next(g, Deliver(id, c, mintedAt, identity, digest));
            && h.now == g.now && h.seen == g.seen
            && if && (id, c) in g.seen && mintedAt <= g.now && SecondsLeft(c, mintedAt) >= 1
                  && HasChallenge(g.store, id, g.now) && !IsBuried(g.store, id, g.now) && !HasResult(g.store, id, g.now)
               then
                 && h.store.challenges == g.store.challenges && h.store.consumed == g.store.consumed
                 && h.store.results.Keys == g.store.results.Keys + {id}
                 && (forall x | x in g.store.results && x != id :: h.store.results[x] == g.store.results[x])
                 && var r := h.store.results[id];
                    && r.identityAddress == identity && r.proofDigest == digest && r.expiresAt % 1000 == 0
                    && r.expiresAt / 1000 - mintedAt / 1000
                         == Least(g.limits.tokenLifetimeSeconds, SecondsLeft(c, mintedAt))
               else h.store == g.store
  {
  }

  function Least(a: int, b: int): int {
    if a < b then a else b
  }

  /** An acknowledgement counts exactly if it names the live result's digest; it removes challenge and result for good, and
      leaves a tombstone for ten minutes. */
  lemma AcknowledgeExactly(g: Relay, id: Id, digest: string)
    ensures var h := Next(g, Acknowledged(id, digest));
            && h.now == g.now && h.seen == g.seen
            && if HasResult(g.store, id, g.now) && g.store.results[id].proofDigest == digest then
                 && !HasChallenge(h.store, id, h.now) && !HasResult(h.store, id, h.now)
                 && id in h.store.consumed && h.store.consumed[id] == g.now + 600_000
                 && OthersSame(g.store, h.store, id)
               else h.store == g.store
  {
  }
}

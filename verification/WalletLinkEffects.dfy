/** What unlinking, revalidation, completion and cancellation do to links and challenges, and how long it lasts. */
module WalletLinkEffects {
  import opened Wrappers
  import opened WalletLinks
  import opened WalletLinkProtocol
  import RelayProtocol
  import ResultStore

  /** No challenge changes, and no link but the one of `key`. */
  predicate OnlyLink(g: World, h: World, key: LinkKey) {
    && h.db.challenges == g.db.challenges && h.db.links.Keys == g.db.links.Keys + {key}
    && forall k | k in g.db.links && k != key :: h.db.links[k] == g.db.links[k]
  }

  // ---------------------------------------------------------------- unlinking

  predicate Linked(db: Tables, key: LinkKey) {
    key in db.links && (db.links[key].state == Active || db.links[key].state == RevalidationRequired)
  }

  /** The link became active by a challenge that was not yet consumed in `g`. */
  ghost predicate FreshlyProved(g: World, h: World, key: LinkKey) {
    exists id :: ConsumedFor(h.db, id, key) && !(id in g.db.challenges && g.db.challenges[id].state == Consumed)
  }

  /** Unlinking ends exactly the links that are not unlinked yet: the row keeps its proof and gets a new version, and from
      then on only a challenge that was not consumed by then can make the link active again. A second unlink is refused. */
  lemma UnlinkTakesEffect(g: World, key: LinkKey, moves: seq<Move>)
    requires Inv(g)
    ensures var h := Next(g, UnlinkMove(key));
            && (Unlink(g.db, key).Some? <==> Linked(g.db, key))
            && (!Linked(g.db, key) ==> h == g)
            && (Linked(g.db, key) ==>
                  && OnlyLink(g, h, key)
                  && h.db.links[key] == LinkRow(Unlinked, g.db.links[key].proofDigest, g.db.links[key].version + 1)
                  && Unlink(h.db, key).None?
                  && (IsActive(Run(h, moves).db, key) ==> FreshlyProved(g, Run(h, moves), key)))
  {
    if Linked(g.db, key) {
      var h := Next(g, UnlinkMove(key));
      NextKeeps(g, UnlinkMove(key));
      UnlinkedUntilFreshProof(h, moves, key);
    }
  }

  // ---------------------------------------------------------------- revalidation

  /** After a revalidation no link of the identity is active, whatever its account, until a challenge that was not consumed
      by then proves it again; exactly its active links have moved, and keep their proofs. */
  lemma RevalidationTakesEffect(g: World, identity: Identity, key: LinkKey, moves: seq<Move>)
    requires Inv(g)
    ensures var h := Next(g, Revalidate(identity));
            && h.db.challenges == g.db.challenges && h.db.links.Keys == g.db.links.Keys
            && (forall k | k in g.db.links ::
                  h.db.links[k] == if k.1 == identity && g.db.links[k].state == Active then
                                     LinkRow(RevalidationRequired, g.db.links[k].proofDigest, g.db.links[k].version + 1)
                                   else g.db.links[k])
            && (key.1 == identity ==>
                  && !IsActive(h.db, key)
                  && (key in g.db.links && IsActive(Run(h, moves).db, key) ==> FreshlyProved(g, Run(h, moves), key)))
  {
    var h := Next(g, Revalidate(identity));
    if key.1 == identity && key in g.db.links {
      NextKeeps(g, Revalidate(identity));
      UnlinkedUntilFreshProof(h, moves, key);
    }
  }

  // ---------------------------------------------------------------- completion

  /** A completion before the deadline consumes its presented challenge, for the identity and the digest, and makes the
      link active with that proof; at or after the deadline it expires the challenge and changes no link. */
  lemma CompletionTakesEffect(g: World, p: Poller)
    requires StageOf(g, p).Received? && StageOf(g, p).id in g.db.challenges
    requires g.db.challenges[StageOf(g, p).id].state == Presented
    ensures var h, s := Next(g, Finish(p)), StageOf(g, p);
            var row := g.db.challenges[s.id];
            var key := (row.account, s.identity);
            && s.id in h.db.challenges && h.db.challenges.Keys == g.db.challenges.Keys
            && (forall id | id in g.db.challenges && id != s.id :: h.db.challenges[id] == g.db.challenges[id])
            && h.db.challenges[s.id].account == row.account && h.db.challenges[s.id].expiresAt == row.expiresAt
            && h.db.challenges[s.id].version == row.version + 1
            && if s.at < row.expiresAt then
                 && ConsumedWith(h.db, s.id, s.digest) && ConsumedFor(h.db, s.id, key)
                 && IsActive(h.db, key) && h.db.links[key].proofDigest == s.digest
                 && h.db.links[key].version == (if key in g.db.links then g.db.links[key].version + 1 else 1)
                 && (forall k | k in g.db.links && k != key :: k in h.db.links && h.db.links[k] == g.db.links[k])
                 && StageOf(h, p) == Acknowledging(s.id, s.digest, 3)
               else
                 && h.db.challenges[s.id].state == Expired && h.db.links == g.db.links
                 && StageOf(h, p) == Idle
  {
  }

  // ---------------------------------------------------------------- a poll from start to end

  /** The moves of a poll that nothing disturbs. */
  function WholePoll(p: Poller, account: Account, id: Id, at: Millis): seq<Move> {
    [StartPoll(p, account, id, at)] + [Fetch(p, true)] + [Finish(p)] + [SendAck(p, true, true)]
  }

  lemma RunStep(g: World, before: seq<Move>, m: Move)
    ensures Run(g, before + [m]) == Next(Run(g, before), m)
  {
    assert (before + [m])[..|before|] == before;
  }

  /** From any state in which the account's challenge is presented and the relay holds a live result for it, an undisturbed
      poll before the deadline activates the link for the identity of the result, with its digest as proof, consumes the
      challenge, and has the relay drop the result. */
  lemma PollCompletes(g: World, p: Poller, account: Account, id: Id, at: Millis)
    requires StageOf(g, p).Idle? && Mine(g.db, account, id) && g.db.challenges[id].state == Presented
    requires at < g.db.challenges[id].expiresAt && ResultStore.LiveResult(g.relay.store, id, g.relay.now).Some?
    ensures var h, r := Run(g, WholePoll(p, account, id, at)), g.relay.store.results[id];
            var key := (account, r.identityAddress);
            && ConsumedWith(h.db, id, r.proofDigest) && ConsumedFor(h.db, id, key)
            && IsActive(h.db, key) && h.db.links[key].proofDigest == r.proofDigest
            && h.activations == g.activations + [Activation(key, id)]
            && h.acknowledged == g.acknowledged + {(id, r.proofDigest)}
            && StageOf(h, p).Idle? && ResultStore.LiveResult(h.relay.store, id, h.relay.now).None?
  {
    var start, fetch := StartPoll(p, account, id, at), Fetch(p, true);
    assert Run(g, [start]) == Next(g, start) by {
      assert [start][..0] == [];
    }
    RunStep(g, [start], fetch);
    RunStep(g, [start] + [fetch], Finish(p));
    RunStep(g, [start] + [fetch] + [Finish(p)], SendAck(p, true, true));
    FetchReady(g, p, account, id, at);
    var b := Next(Next(g, start), fetch);
    CompletionTakesEffect(b, p);
    FinishLogs(b, p);
    DeliveredAck(Next(b, Finish(p)), p);
  }

  lemma FetchReady(g: World, p: Poller, account: Account, id: Id, at: Millis)
    requires StageOf(g, p).Idle? && Mine(g.db, account, id) && g.db.challenges[id].state == Presented
    requires at < g.db.challenges[id].expiresAt && ResultStore.LiveResult(g.relay.store, id, g.relay.now).Some?
    ensures var b, r := Next(Next(g, StartPoll(p, account, id, at)), Fetch(p, true)), g.relay.store.results[id];
            && b == g.(pollers := b.pollers)
            && StageOf(b, p) == Received(id, at, r.proofDigest, r.identityAddress)
  {
  }

  /** A completed challenge is logged once and changes nothing outside the tables. */
  lemma FinishLogs(g: World, p: Poller)
    requires StageOf(g, p).Received? && StageOf(g, p).id in g.db.challenges
    requires g.db.challenges[StageOf(g, p).id].state == Presented
    requires StageOf(g, p).at < g.db.challenges[StageOf(g, p).id].expiresAt
    ensures var h, s := Next(g, Finish(p)), StageOf(g, p);
            && h.relay == g.relay && h.acknowledged == g.acknowledged
            && h.activations == g.activations + [Activation((g.db.challenges[s.id].account, s.identity), s.id)]
  {
  }

  lemma DeliveredAck(g: World, p: Poller)
    requires StageOf(g, p).Acknowledging?
    requires var s := StageOf(g, p);
             var r := ResultStore.LiveResult(g.relay.store, s.id, g.relay.now);
             r.Some? && r.value.proofDigest == s.digest
    ensures var h, s := Next(g, SendAck(p, true, true)), StageOf(g, p);
            && h.db == g.db && h.activations == g.activations && h.acknowledged == g.acknowledged + {(s.id, s.digest)}
            && StageOf(h, p).Idle? && ResultStore.LiveResult(h.relay.store, s.id, h.relay.now).None?
  {
  }

  /** A refused token, a relay without result, and a crash end the poll and change nothing else. */
  lemma DisturbedPollChangesNothing(g: World, p: Poller, accepted: bool)
    ensures var h := Next(g, Crash(p)); StageOf(h, p).Idle? && h == g.(pollers := h.pollers)
    ensures StageOf(g, p).Waiting?
            && (!accepted || ResultStore.LiveResult(g.relay.store, StageOf(g, p).id, g.relay.now).None?) ==>
              var h := Next(g, Fetch(p, accepted)); StageOf(h, p).Idle? && h == g.(pollers := h.pollers)
  {
  }

  /** Acknowledging goes on until an answer comes back or the third attempt is over, and never changes a table. */
  lemma AcknowledgingExactly(g: World, p: Poller, delivered: bool, confirmed: bool)
    requires StageOf(g, p).Acknowledging?
    ensures var h, s := Next(g, SendAck(p, delivered, confirmed)), StageOf(g, p);
            && h.db == g.db && h.activations == g.activations
            && h.acknowledged == g.acknowledged + {(s.id, s.digest)}
            && StageOf(h, p) == (if (delivered && confirmed) || s.left <= 1 then Idle
                                 else Acknowledging(s.id, s.digest, s.left - 1))
            && (!delivered ==> h.relay == g.relay)
  {
  }

  /** A poll goes on to the relay exactly for the account's own challenge, while it is presented before its deadline. */
  lemma StartsExactly(g: World, p: Poller, account: Account, id: Id, at: Millis)
    requires StageOf(g, p).Idle?
    ensures StageOf(Next(g, StartPoll(p, account, id, at)), p)
         == if Mine(g.db, account, id) && g.db.challenges[id].state == Presented && at < g.db.challenges[id].expiresAt
            then Waiting(id, at) else Idle
  {
  }

  // ---------------------------------------------------------------- polls and cancellations

  predicate Mine(db: Tables, account: Account, id: Id) {
    id in db.challenges && db.challenges[id].account == account
  }

  /** The challenge has moved to the final state, and nothing else has changed. */
  predicate Ends(db: Tables, after: Tables, id: Id, state: ChallengeState) {
    && id in db.challenges && after.links == db.links && after.challenges.Keys == db.challenges.Keys
    && (forall other | other in db.challenges && other != id :: after.challenges[other] == db.challenges[other])
    && after.challenges[id].state == state && after.challenges[id].version == db.challenges[id].version + 1
    && after.challenges[id].account == db.challenges[id].account
    && after.challenges[id].expiresAt == db.challenges[id].expiresAt
    && after.challenges[id].responseDigest == db.challenges[id].responseDigest
    && after.challenges[id].linkedIdentity == db.challenges[id].linkedIdentity
  }

  /** A poll answers the state of the account's own challenge only, after it has expired it if its deadline has passed. */
  lemma PollExactly(db: Tables, account: Account, id: Id, now: Millis)
    ensures var (after, r) := PollChallenge(db, account, id, now);
            && (r.Some? <==> Mine(db, account, id))
            && (r.Some? ==> r.value == after.challenges[id].state)
            && (if Mine(db, account, id) && db.challenges[id].state == Presented && db.challenges[id].expiresAt <= now
                then Ends(db, after, id, Expired) else after == db)
  {
  }

  /** A cancellation ends the account's own presented challenge, as cancelled before its deadline and as expired from it
      on; a second one is accepted without effect, and any other is refused. */
  lemma CancelExactly(db: Tables, account: Account, id: Id, at: Millis)
    ensures var r := CancelChallenge(db, account, id, at);
            && (r.Some? <==> Mine(db, account, id) && db.challenges[id].state in {Presented, Cancelled})
            && (r.Some? && db.challenges[id].state == Cancelled ==> r.value == db)
            && (r.Some? && db.challenges[id].state == Presented ==>
                  Ends(db, r.value, id, if at < db.challenges[id].expiresAt then Cancelled else Expired))
  {
  }

  /** A challenge is created presented, once, with a deadline in the future of its issue. */
  lemma CreateExactly(db: Tables, id: Id, account: Account, issuedAt: Millis, expiresAt: Millis)
    ensures var r := CreateChallenge(db, id, account, issuedAt, expiresAt);
            && (r.Some? <==> id !in db.challenges && issuedAt < expiresAt)
            && (r.Some? ==>
                  && r.value.links == db.links && r.value.challenges.Keys == db.challenges.Keys + {id}
                  && (forall other | other in db.challenges :: r.value.challenges[other] == db.challenges[other])
                  && Mine(r.value, account, id) && r.value.challenges[id].state == Presented
                  && r.value.challenges[id].expiresAt == expiresAt && r.value.challenges[id].responseDigest.None?
                  && r.value.challenges[id].linkedIdentity.None? && r.value.challenges[id].version == 1)
  {
  }

  // ---------------------------------------------------------------- whole runs

  /** A challenge has one of its two versions, and proof and identity exactly once it is consumed. */
  predicate ChallengeShape(row: ChallengeRow) {
    && row.version == (if row.state == Presented then 1 else 2)
    && (row.responseDigest.Some? <==> row.state == Consumed) && (row.linkedIdentity.Some? <==> row.state == Consumed)
  }

  /** The link's proof is the digest of a challenge consumed for it. */
  ghost predicate Proved(db: Tables, key: LinkKey)
    requires key in db.links
  {
    exists id :: ConsumedFor(db, id, key) && db.challenges[id].responseDigest == Some(db.links[key].proofDigest)
  }

  ghost predicate Shaped(db: Tables) {
    && (forall id | id in db.challenges :: ChallengeShape(db.challenges[id]))
    && (forall key | key in db.links :: Proved(db, key))
  }

  lemma ProofStays(g: World, m: Move, key: LinkKey)
    requires Shaped(g.db) && key in g.db.links && key in Next(g, m).db.links
    requires Next(g, m).db.links[key].proofDigest == g.db.links[key].proofDigest
    ensures Proved(Next(g, m).db, key)
  {
    assert Proved(g.db, key);
    var id :| ConsumedFor(g.db, id, key) && g.db.challenges[id].responseDigest == Some(g.db.links[key].proofDigest);
    ConsumedStays(g, m, id);
    assert ConsumedFor(Next(g, m).db, id, key);
  }

  lemma NewProof(g: World, m: Move, key: LinkKey)
    requires key in Next(g, m).db.links
    requires key in g.db.links ==> Next(g, m).db.links[key].proofDigest != g.db.links[key].proofDigest
    ensures Proved(Next(g, m).db, key)
  {
    var s := StageOf(g, m.p);
    assert ConsumedFor(Next(g, m).db, s.id, key);
  }

  lemma ChallengesShaped(g: World, m: Move, id: Id)
    requires Shaped(g.db) && id in Next(g, m).db.challenges
    ensures ChallengeShape(Next(g, m).db.challenges[id])
  {
    assert id in g.db.challenges ==> ChallengeShape(g.db.challenges[id]);
  }

  lemma NextShapes(g: World, m: Move)
    requires Shaped(g.db)
    ensures Shaped(Next(g, m).db)
  {
    forall id | id in Next(g, m).db.challenges ensures ChallengeShape(Next(g, m).db.challenges[id]) {
      ChallengesShaped(g, m, id);
    }
    forall key | key in Next(g, m).db.links ensures Proved(Next(g, m).db, key) {
      if key in g.db.links && Next(g, m).db.links[key].proofDigest == g.db.links[key].proofDigest {
        ProofStays(g, m, key);
      } else {
        NewProof(g, m, key);
      }
    }
  }

  /** In every reachable state each link rests on the proof of a challenge that was consumed for its account and identity. */
  lemma {:induction false} AlwaysProved(relay: RelayProtocol.Relay, moves: seq<Move>)
    ensures Shaped(Run(Start(relay), moves).db)
    decreases |moves|
  {
    if moves != [] {
      AlwaysProved(relay, moves[..|moves| - 1]);
      NextShapes(Run(Start(relay), moves[..|moves| - 1]), moves[|moves| - 1]);
    }
  }

  lemma EndedStays(g: World, m: Move, id: Id)
    requires id in g.db.challenges && g.db.challenges[id].state != Presented
    ensures id in Next(g, m).db.challenges && Next(g, m).db.challenges[id] == g.db.challenges[id]
  {
  }

  /** A consumed, expired or cancelled challenge never changes again. */
  lemma {:induction false} EndedForEver(g: World, moves: seq<Move>, id: Id)
    requires id in g.db.challenges && g.db.challenges[id].state != Presented
    ensures var h := Run(g, moves); id in h.db.challenges && h.db.challenges[id] == g.db.challenges[id]
    decreases |moves|
  {
    if moves != [] {
      EndedForEver(g, moves[..|moves| - 1], id);
      EndedStays(Run(g, moves[..|moves| - 1]), moves[|moves| - 1], id);
    }
  }
}

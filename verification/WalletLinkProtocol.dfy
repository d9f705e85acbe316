/** The wallet link across two parties: local polls, cancellations and unlinks on one side, the hosted relay on the other,
    interleaved in any order and interrupted by crashes. */
module WalletLinkProtocol {
  import opened Wrappers
  import opened WalletLinks
  import ResultStore
  import RelayProtocol

  type Poller = nat

  const ACK_ATTEMPTS := 3

  /** Where a poll request stands inside `poll`; `at` is the time it was started with. */
  datatype Stage =
    | Idle
    | Waiting(id: Id, at: Millis)                                       // about to ask the relay
    | Received(id: Id, at: Millis, digest: Digest, identity: Identity)   // about to complete the challenge
    | Acknowledging(id: Id, digest: Digest, left: nat)                  // about to acknowledge

  /** One entry for each time a link became active, with the challenge that did it. */
  datatype Activation = Activation(key: LinkKey, id: Id)

  datatype World = World(
    db: Tables,
    relay: RelayProtocol.Relay,
    pollers: map<Poller, Stage>,
    acknowledged: set<(Id, Digest)>,     // account of every acknowledgement that was sent
    activations: seq<Activation>)        // account of every activation

  datatype Move =
    | Relay(move: RelayProtocol.Move)
    | Create(id: Id, account: Account, issuedAt: Millis, expiresAt: Millis)
    | StartPoll(p: Poller, account: Account, id: Id, at: Millis)
    | Fetch(p: Poller, accepted: bool)
    | Finish(p: Poller)
    | SendAck(p: Poller, delivered: bool, confirmed: bool)
    | Crash(p: Poller)
    | Cancel(account: Account, id: Id, at: Millis)
    | UnlinkMove(key: LinkKey)
    | Revalidate(identity: Identity)

  function StageOf(g: World, p: Poller): Stage {
    if p in g.pollers then g.pollers[p] else Idle
  }

  function Goto(g: World, p: Poller, s: Stage): World {
    g.(pollers := g.pollers[p := s])
  }

  function DoStart(g: World, p: Poller, account: Account, id: Id, at: Millis): World {
    var (db, state) := PollChallenge(g.db, account, id, at);
    var h := g.(db := db);
    if state == Some(Presented) then Goto(h, p, Waiting(id, at)) else Goto(h, p, Idle)
  }

  /** The relay's answer: pending, refused by the client, or a verified result. */
  function DoFetch(g: World, p: Poller, accepted: bool): World
    requires StageOf(g, p).Waiting?
  {
    var s := StageOf(g, p);
    var result := ResultStore.LiveResult(g.relay.store, s.id, g.relay.now);
    if result.None? || !accepted then Goto(g, p, Idle)
    else Goto(g, p, Received(s.id, s.at, result.value.proofDigest, result.value.identityAddress))
  }

  function DoFinish(g: World, p: Poller): World
    requires StageOf(g, p).Received?
  {
    var s := StageOf(g, p);
    var (db, completion) := CompleteChallenge(g.db, s.id, s.digest, s.identity, s.at);
    var h := g.(db := db);
    match completion
    case Completed(replayed) =>
      var logged := if replayed then h
                    else h.(activations := h.activations + [Activation((g.db.challenges[s.id].account, s.identity), s.id)]);
      Goto(logged, p, Acknowledging(s.id, s.digest, ACK_ATTEMPTS))
    case _ => Goto(h, p, Idle)
  }

  /** One attempt: it may reach the relay or not, and its answer may come back or not. */
  function DoAck(g: World, p: Poller, delivered: bool, confirmed: bool): World
    requires StageOf(g, p).Acknowledging?
  {
    var s := StageOf(g, p);
    var sent := g.(acknowledged := g.acknowledged + {(s.id, s.digest)},
                   relay := if delivered then RelayProtocol.Next(g.relay, RelayProtocol.Acknowledged(s.id, s.digest)) else g.relay);
    if (delivered && confirmed) || s.left <= 1 then Goto(sent, p, Idle)
    else Goto(sent, p, Acknowledging(s.id, s.digest, s.left - 1))
  }

  function Next(g: World, m: Move): World {
    match m
    case Relay(move) => if move.Acknowledged? then g else g.(relay := RelayProtocol.Next(g.relay, move))
    case Create(id, account, issuedAt, expiresAt) =>
      var db := CreateChallenge(g.db, id, account, issuedAt, expiresAt);
      if db.Some? then g.(db := db.value) else g
    case StartPoll(p, account, id, at) => if StageOf(g, p).Idle? then DoStart(g, p, account, id, at) else g
    case Fetch(p, accepted) => if StageOf(g, p).Waiting? then DoFetch(g, p, accepted) else g
    case Finish(p) => if StageOf(g, p).Received? then DoFinish(g, p) else g
    case SendAck(p, delivered, confirmed) => if StageOf(g, p).Acknowledging? then DoAck(g, p, delivered, confirmed) else g
    case Crash(p) => Goto(g, p, Idle)
    case Cancel(account, id, at) =>
      var db := CancelChallenge(g.db, account, id, at);
      if db.Some? then g.(db := db.value) else g
    case UnlinkMove(key) =>
      var db := Unlink(g.db, key);
      if db.Some? then g.(db := db.value) else g
    case Revalidate(identity) => g.(db := RequireRevalidation(g.db, identity))
  }

  function Run(g: World, moves: seq<Move>): World
    decreases |moves|
  {
    if moves == [] then g else Next(Run(g, moves[..|moves| - 1]), moves[|moves| - 1])
  }

  function Start(relay: RelayProtocol.Relay): World {
    World(Tables(map[], map[]), relay, map[], {}, [])
  }

  // ---------------------------------------------------------------- the invariant

  /** The challenge has been consumed with this digest. */
  predicate ConsumedWith(db: Tables, id: Id, digest: Digest) {
    id in db.challenges && db.challenges[id].state == Consumed && db.challenges[id].responseDigest == Some(digest)
  }

  /** The challenge was consumed for this account and identity. */
  predicate ConsumedFor(db: Tables, id: Id, key: LinkKey) {
    && id in db.challenges && db.challenges[id].state == Consumed
    && db.challenges[id].account == key.0 && db.challenges[id].linkedIdentity == Some(key.1)
  }

  predicate OncePerChallenge(log: seq<Activation>) {
    forall i, j | 0 <= i < j < |log| :: log[i].id != log[j].id
  }

  ghost predicate Logged(g: World, id: Id) {
    exists i | 0 <= i < |g.activations| :: g.activations[i].id == id
  }

  ghost predicate Inv(g: World) {
    && (forall pair | pair in g.acknowledged :: ConsumedWith(g.db, pair.0, pair.1))
    && (forall p :: var s := StageOf(g, p); s.Acknowledging? ==> ConsumedWith(g.db, s.id, s.digest))
    && (forall id | id in g.relay.store.consumed :: exists digest :: (id, digest) in g.acknowledged)
    && (forall i | 0 <= i < |g.activations| ::
          ConsumedFor(g.db, g.activations[i].id, g.activations[i].key) && g.activations[i].key in g.db.links)
    && OncePerChallenge(g.activations)
    && (forall id | id in g.db.challenges :: g.db.challenges[id].state == Consumed <==> Logged(g, id))
  }

  /** Consumed challenges are never touched again, and links are never deleted. */
  predicate KeepsConsumed(a: Tables, b: Tables) {
    && (forall id | id in a.challenges :: id in b.challenges)
    && (forall id | id in a.challenges && a.challenges[id].state == Consumed :: b.challenges[id] == a.challenges[id])
    && (forall key | key in a.links :: key in b.links)
  }

  /** No challenge is newly consumed. */
  predicate ConsumesNothing(a: Tables, b: Tables) {
    forall id | id in b.challenges && b.challenges[id].state == Consumed ::
      id in a.challenges && a.challenges[id].state == Consumed
  }

  /** A step that consumes no challenge and acknowledges nothing new. */
  lemma QuietStepKeeps(g: World, h: World)
    requires Inv(g) && KeepsConsumed(g.db, h.db) && ConsumesNothing(g.db, h.db)
    requires h.acknowledged == g.acknowledged && h.activations == g.activations
    requires h.relay.store.consumed.Keys <= g.relay.store.consumed.Keys
    requires forall p :: StageOf(h, p).Acknowledging? ==> StageOf(g, p) == StageOf(h, p)
    ensures Inv(h)
  {
    forall p ensures var s := StageOf(h, p); s.Acknowledging? ==> ConsumedWith(h.db, s.id, s.digest) {
      assert StageOf(h, p).Acknowledging? ==> StageOf(g, p) == StageOf(h, p);
    }
    forall id | id in h.db.challenges ensures h.db.challenges[id].state == Consumed <==> Logged(h, id) {
      if Logged(h, id) {
        var i :| 0 <= i < |h.activations| && h.activations[i].id == id;
        assert ConsumedFor(g.db, g.activations[i].id, g.activations[i].key);
      }
      if h.db.challenges[id].state == Consumed {
        assert Logged(g, id);
        var i :| 0 <= i < |g.activations| && g.activations[i].id == id;
        assert h.activations[i].id == id;
      }
    }
  }

  lemma RelayMoveKeepsTombstones(r: RelayProtocol.Relay, m: RelayProtocol.Move)
    requires !m.Acknowledged?
    ensures RelayProtocol.Next(r, m).store.consumed == r.store.consumed
  {
  }

  lemma CompletionConsumes(db: Tables, id: Id, digest: Digest, identity: Identity, at: Millis)
    ensures var (after, c) := CompleteChallenge(db, id, digest, identity, at);
            && KeepsConsumed(db, after)
            && (c.Completed? ==> ConsumedWith(after, id, digest))
            && (c != Completed(false) ==> ConsumesNothing(db, after))
            && (c == Completed(false) ==>
                  && id in db.challenges && db.challenges[id].state == Presented
                  && ConsumedFor(after, id, (db.challenges[id].account, identity))
                  && (db.challenges[id].account, identity) in after.links
                  && forall x | x in after.challenges && x != id :: x in db.challenges && after.challenges[x] == db.challenges[x])
  {
  }

  /** One more entry, for a challenge that has none yet. */
  lemma LogGrows(g: World, h: World, entry: Activation)
    requires h.activations == g.activations + [entry] && !Logged(g, entry.id)
    ensures forall id :: Logged(h, id) <==> Logged(g, id) || id == entry.id
    ensures OncePerChallenge(g.activations) ==> OncePerChallenge(h.activations)
  {
    var n := |g.activations|;
    assert h.activations[n] == entry;
    forall i | 0 <= i < n ensures h.activations[i] == g.activations[i] && h.activations[i].id != entry.id {
    }
    forall id ensures Logged(h, id) <==> Logged(g, id) || id == entry.id {
      if Logged(g, id) {
        var i :| 0 <= i < n && g.activations[i].id == id;
        assert h.activations[i].id == id;
      }
      if Logged(h, id) {
        var i :| 0 <= i <= n && h.activations[i].id == id;
        assert i < n ==> g.activations[i].id == id;
      }
    }
  }

  lemma FinishLogs(g: World, p: Poller)
    requires Inv(g) && StageOf(g, p).Received?
    requires var s := StageOf(g, p); CompleteChallenge(g.db, s.id, s.digest, s.identity, s.at).1 == Completed(false)
    ensures var h := DoFinish(g, p);
            && (forall i | 0 <= i < |h.activations| ::
                  ConsumedFor(h.db, h.activations[i].id, h.activations[i].key) && h.activations[i].key in h.db.links)
            && OncePerChallenge(h.activations)
            && (forall id | id in h.db.challenges :: h.db.challenges[id].state == Consumed <==> Logged(h, id))
  {
    var s, h := StageOf(g, p), DoFinish(g, p);
    CompletionConsumes(g.db, s.id, s.digest, s.identity, s.at);
    var entry := Activation((g.db.challenges[s.id].account, s.identity), s.id);
    assert h.activations == g.activations + [entry];
    LogGrows(g, h, entry);
    forall i | 0 <= i < |h.activations|
      ensures ConsumedFor(h.db, h.activations[i].id, h.activations[i].key) && h.activations[i].key in h.db.links
    {
      assert i < |g.activations| ==> h.activations[i] == g.activations[i];
    }
  }

  lemma FinishKeeps(g: World, p: Poller)
    requires Inv(g) && StageOf(g, p).Received?
    ensures Inv(DoFinish(g, p))
  {
    var s, h := StageOf(g, p), DoFinish(g, p);
    CompletionConsumes(g.db, s.id, s.digest, s.identity, s.at);
    if CompleteChallenge(g.db, s.id, s.digest, s.identity, s.at).1 == Completed(false) {
      FinishLogs(g, p);
      forall q ensures var t := StageOf(h, q); t.Acknowledging? ==> ConsumedWith(h.db, t.id, t.digest) {
        assert q != p ==> StageOf(h, q) == StageOf(g, q);
      }
    } else {
      var waiting := h.(pollers := g.pollers);
      QuietStepKeeps(g, waiting);
      forall q ensures var t := StageOf(h, q); t.Acknowledging? ==> ConsumedWith(h.db, t.id, t.digest) {
        assert q != p ==> StageOf(h, q) == StageOf(waiting, q);
      }
      assert forall id :: Logged(h, id) == Logged(waiting, id);
    }
  }

  lemma AckKeeps(g: World, p: Poller, delivered: bool, confirmed: bool)
    requires Inv(g) && StageOf(g, p).Acknowledging?
    ensures Inv(DoAck(g, p, delivered, confirmed))
  {
    var s, h := StageOf(g, p), DoAck(g, p, delivered, confirmed);
    assert (s.id, s.digest) in h.acknowledged;
    forall id | id in h.relay.store.consumed ensures exists digest :: (id, digest) in h.acknowledged {
      if id in g.relay.store.consumed {
        var digest :| (id, digest) in g.acknowledged;
        assert (id, digest) in h.acknowledged;
      }
    }
    forall q ensures var t := StageOf(h, q); t.Acknowledging? ==> ConsumedWith(h.db, t.id, t.digest) {
      assert q != p ==> StageOf(h, q) == StageOf(g, q);
    }
    assert forall id :: Logged(h, id) == Logged(g, id);
  }

  predicate OnTables(m: Move) {
    m.Create? || m.Cancel? || m.UnlinkMove? || m.Revalidate?
  }

  lemma TableMoveKeeps(g: World, m: Move)
    requires Inv(g) && OnTables(m)
    ensures Inv(Next(g, m))
  {
    QuietStepKeeps(g, Next(g, m));
  }

  lemma PollMoveKeeps(g: World, m: Move)
    requires Inv(g) && (m.StartPoll? || m.Fetch? || m.Crash?)
    ensures Inv(Next(g, m))
  {
    QuietStepKeeps(g, Next(g, m));
  }

  lemma RelayMoveKeeps(g: World, m: RelayProtocol.Move)
    requires Inv(g)
    ensures Inv(Next(g, Relay(m)))
  {
    if !m.Acknowledged? {
      RelayMoveKeepsTombstones(g.relay, m);
    }
    QuietStepKeeps(g, Next(g, Relay(m)));
  }

  lemma NextKeeps(g: World, m: Move)
    requires Inv(g)
    ensures Inv(Next(g, m))
  {
    if m.Finish? {
      if StageOf(g, m.p).Received? {
        FinishKeeps(g, m.p);
      }
    } else if m.SendAck? {
      if StageOf(g, m.p).Acknowledging? {
        AckKeeps(g, m.p, m.delivered, m.confirmed);
      }
    } else if m.Relay? {
      RelayMoveKeeps(g, m.move);
    } else if OnTables(m) {
      TableMoveKeeps(g, m);
    } else {
      PollMoveKeeps(g, m);
    }
  }

  lemma {:induction false} RunKeeps(g: World, moves: seq<Move>)
    requires Inv(g)
    ensures Inv(Run(g, moves))
    decreases |moves|
  {
    if moves != [] {
      RunKeeps(g, moves[..|moves| - 1]);
      NextKeeps(Run(g, moves[..|moves| - 1]), moves[|moves| - 1]);
    }
  }

  lemma Reached(relay: RelayProtocol.Relay, moves: seq<Move>) returns (g: World)
    requires relay.store.consumed == map[]
    ensures g == Run(Start(relay), moves) && Inv(g)
  {
    assert Inv(Start(relay));
    RunKeeps(Start(relay), moves);
    g := Run(Start(relay), moves);
  }

  // ---------------------------------------------------------------- theorems

  /** An acknowledgement is only ever sent for a challenge that is durably consumed with that digest; whenever the relay
      has dropped a result, the link it proved is stored. */
  lemma AcknowledgedOnlyAfterConsumption(relay: RelayProtocol.Relay, moves: seq<Move>)
    requires relay.store.consumed == map[]
    ensures var g := Run(Start(relay), moves);
            && (forall pair | pair in g.acknowledged :: ConsumedWith(g.db, pair.0, pair.1))
            && (forall id | id in g.relay.store.consumed ::
                  && id in g.db.challenges && g.db.challenges[id].state == Consumed
                  && g.db.challenges[id].linkedIdentity.Some?
                  && (g.db.challenges[id].account, g.db.challenges[id].linkedIdentity.value) in g.db.links)
  {
    var g := Reached(relay, moves);
    forall id | id in g.relay.store.consumed
      ensures && id in g.db.challenges && g.db.challenges[id].state == Consumed
              && g.db.challenges[id].linkedIdentity.Some?
              && (g.db.challenges[id].account, g.db.challenges[id].linkedIdentity.value) in g.db.links
    {
      var digest :| (id, digest) in g.acknowledged;
      assert ConsumedWith(g.db, id, digest);
      assert Logged(g, id);
      var i :| 0 <= i < |g.activations| && g.activations[i].id == id;
      assert ConsumedFor(g.db, id, g.activations[i].key);
    }
  }

  /** Each challenge activates a link at most once, and exactly the consumed challenges have. */
  lemma EachChallengeOnce(relay: RelayProtocol.Relay, moves: seq<Move>, id: Id)
    requires relay.store.consumed == map[]
    ensures var g := Run(Start(relay), moves);
            && (forall i, j | 0 <= i < |g.activations| && 0 <= j < |g.activations|
                              && g.activations[i].id == id && g.activations[j].id == id :: i == j)
            && (Logged(g, id) <==> id in g.db.challenges && g.db.challenges[id].state == Consumed)
  {
    var g := Reached(relay, moves);
    if Logged(g, id) {
      var i :| 0 <= i < |g.activations| && g.activations[i].id == id;
      assert ConsumedFor(g.db, id, g.activations[i].key);
    }
  }

  predicate IsActive(db: Tables, key: LinkKey) {
    key in db.links && db.links[key].state == Active
  }

  /** A link becomes active, or active again, only in the step that consumes a presented challenge of the same account
      for that identity. */
  lemma OnlyAFreshChallengeActivates(g: World, m: Move, key: LinkKey)
    requires !IsActive(g.db, key) && IsActive(Next(g, m).db, key)
    ensures exists id :: && id in g.db.challenges && g.db.challenges[id].state == Presented
                         && ConsumedFor(Next(g, m).db, id, key)
  {
    if m.Finish? && StageOf(g, m.p).Received? {
      var s := StageOf(g, m.p);
      CompletionConsumes(g.db, s.id, s.digest, s.identity, s.at);
      assert ConsumedFor(Next(g, m).db, s.id, key);
    }
  }

  lemma ConsumedStays(g: World, m: Move, id: Id)
    requires id in g.db.challenges && g.db.challenges[id].state == Consumed
    ensures id in Next(g, m).db.challenges && Next(g, m).db.challenges[id] == g.db.challenges[id]
    ensures forall key | key in g.db.links :: key in Next(g, m).db.links
  {
    if m.Finish? && StageOf(g, m.p).Received? {
      var s := StageOf(g, m.p);
      CompletionConsumes(g.db, s.id, s.digest, s.identity, s.at);
    }
  }

  lemma {:induction false} ConsumedForEver(g: World, moves: seq<Move>, id: Id)
    requires id in g.db.challenges && g.db.challenges[id].state == Consumed
    ensures var h := Run(g, moves); id in h.db.challenges && h.db.challenges[id] == g.db.challenges[id]
    ensures forall key | key in g.db.links :: key in Run(g, moves).db.links
    decreases |moves|
  {
    if moves != [] {
      var init := moves[..|moves| - 1];
      ConsumedForEver(g, init, id);
      ConsumedStays(Run(g, init), moves[|moves| - 1], id);
    }
  }

  /** Once a challenge is consumed, no completion of it, repeated or forged, ever changes a row again: it is a replay of
      the first if digest and identity match, and a conflict otherwise. */
  lemma ReplayedCompletionsChangeNothing(g: World, moves: seq<Move>, id: Id, first: Digest, identity: Identity,
                                         digest: Digest, other: Identity, at: Millis)
    requires ConsumedWith(g.db, id, first) && g.db.challenges[id].linkedIdentity == Some(identity)
    requires var key := (g.db.challenges[id].account, identity); key in g.db.links
    ensures var h := Run(g, moves);
            CompleteChallenge(h.db, id, digest, other, at)
              == (h.db, if digest == first && other == identity then Completed(true) else Conflict)
  {
    ConsumedForEver(g, moves, id);
  }

  /** An unlinked identity stays unlinked unless some challenge is consumed for it in the meantime. */
  lemma {:induction false} UnlinkedUntilFreshProof(g: World, moves: seq<Move>, key: LinkKey)
    requires Inv(g) && key in g.db.links && !IsActive(g.db, key)
    ensures var h := Run(g, moves);
            IsActive(h.db, key) ==>
              exists id :: ConsumedFor(h.db, id, key) && !(id in g.db.challenges && g.db.challenges[id].state == Consumed)
    decreases |moves|
  {
    if moves != [] {
      var init, last := moves[..|moves| - 1], moves[|moves| - 1];
      var before, h := Run(g, init), Run(g, moves);
      UnlinkedUntilFreshProof(g, init, key);
      if IsActive(h.db, key) {
        if IsActive(before.db, key) {
          var id :| ConsumedFor(before.db, id, key) && !(id in g.db.challenges && g.db.challenges[id].state == Consumed);
          ConsumedStays(before, last, id);
          assert ConsumedFor(h.db, id, key);
        } else {
          OnlyAFreshChallengeActivates(before, last, key);
          var id :| && id in before.db.challenges && before.db.challenges[id].state == Presented
                    && ConsumedFor(h.db, id, key);
          if id in g.db.challenges && g.db.challenges[id].state == Consumed {
            ConsumedForEver(g, init, id);
          }
        }
      }
    }
  }
}

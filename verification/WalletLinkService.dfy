/** packages/verus-linking/src/service.ts: `poll` as a program. Other requests, the relay and crashes may come in between
    any two of its calls; the program is proved to be one of the protocol's pollers. */
module WalletLinkService {
  import opened Wrappers
  import opened WalletLinks
  import opened WalletLinkProtocol
  import opened WalletLinkEffects
  import ResultStore
  import RelayProtocol

  /** The acknowledgements that poller `p` has sent. */
  function Acks(moves: seq<Move>, p: Poller): nat {
    if moves == [] then 0
    else
      var last := moves[|moves| - 1];
      Acks(moves[..|moves| - 1], p) + (if last.SendAck? && last.p == p then 1 else 0)
  }

  lemma AcksAppend(moves: seq<Move>, m: Move, p: Poller)
    ensures Acks(moves + [m], p) == Acks(moves, p) + (if m.SendAck? && m.p == p then 1 else 0)
  {
    assert (moves + [m])[..|moves|] == moves;
  }

  /** What alone may end a poll with an exception: a crash, a challenge that is not the account's, no acceptable answer of
      the relay, or a completion that expires the challenge or conflicts. */
  predicate Fails(g: World, m: Move, p: Poller) {
    match m
    case Crash(q) => q == p
    case StartPoll(q, account, id, _) => q == p && !Mine(g.db, account, id)
    case Fetch(q, accepted) => q == p && !accepted
    case Finish(q) =>
      && q == p && StageOf(g, p).Received?
      && var s := StageOf(g, p); !CompleteChallenge(g.db, s.id, s.digest, s.identity, s.at).1.Completed?
    case _ => false
  }

  ghost predicate FailedSince(origin: World, history: seq<Move>, n: nat, p: Poller) {
    exists i :: n <= i < |history| && Fails(Run(origin, history[..i]), history[i], p)
  }

  lemma LastFails(origin: World, history: seq<Move>, n: nat, m: Move, p: Poller)
    requires n <= |history| && Fails(Run(origin, history), m, p)
    ensures FailedSince(origin, history + [m], n, p)
  {
    assert (history + [m])[..|history|] == history;
  }

  /** Whether the relay answers with a token that the client accepts, gets an acknowledgement, and its answer comes back. */
  datatype RelayAnswer = RelayAnswer(accepted: bool, delivered: bool, confirmed: bool)

  /** The move after `n` others: reliable requests do not crash, and the relay is reached as it is. */
  predicate Possible(n: nat, m: Move, reliable: set<Poller>, relays: nat -> RelayAnswer) {
    match m
    case Crash(p) => p !in reliable
    case Fetch(_, accepted) => accepted == relays(n).accepted
    case SendAck(_, delivered, confirmed) => delivered == relays(n).delivered && confirmed == relays(n).confirmed
    case _ => true
  }

  /** Every move of the account was possible when it was made. */
  ghost predicate Genuine(history: seq<Move>, reliable: set<Poller>, relays: nat -> RelayAnswer)
    decreases |history|
  {
    history == [] ||
      var n := |history| - 1;
      Genuine(history[..n], reliable, relays) && Possible(n, history[n], reliable, relays)
  }

  /** The local tables and the relay, beside the account of everything that has happened. */
  class Setting {
    const repository: VerusLinkRepository
    const reliable: set<Poller>               // the requests that never crash
    const relays: nat -> RelayAnswer          // how the relay is reached after so many moves
    var run: World
    var count: nat
    ghost const origin: World
    ghost var history: seq<Move>

    constructor (repository: VerusLinkRepository, relay: RelayProtocol.Relay, reliable: set<Poller>,
                 relays: nat -> RelayAnswer)
      requires repository.Contents() == Tables(map[], map[]) && relay.store.consumed == map[]
      ensures Valid() && this.repository == repository && this.reliable == reliable && this.relays == relays && history == []
    {
      this.repository, this.reliable, this.relays, count := repository, reliable, relays, 0;
      run, origin, history := Start(relay), Start(relay), [];
    }

    ghost predicate Explained()
      reads this
    {
      && origin == Start(origin.relay) && origin.relay.store.consumed == map[] && run == Run(origin, history)
      && count == |history| && Genuine(history, reliable, relays)
    }

    ghost predicate Valid()
      reads this, repository
    {
      Explained() && run.db == repository.Contents()
    }

    method Observe(m: Move)
      requires Explained() && Possible(count, m, reliable, relays) && repository.Contents() == Next(run, m).db
      modifies this
      ensures Valid() && run == Next(old(run), m) && history == old(history) + [m]
    {
      assert (history + [m])[..|history|] == history;
      run, history, count := Next(run, m), history + [m], count + 1;
    }

    method Happen(m: Move)
      requires Valid() && Possible(count, m, reliable, relays)
      modifies this, repository
      ensures Valid() && run == Next(old(run), m) && history == old(history) + [m]
    {
      var db := Next(run, m).db;
      repository.challenges, repository.links := db.challenges, db.links;
      Observe(m);
    }

    /** An `await` of poller `p`. */
    method Await(p: Poller) returns (alive: bool)
      requires Valid()
      modifies this, repository
      ensures Valid() && old(history) <= history && Acks(history, p) == old(Acks(history, p))
      ensures StageOf(run, p) == if alive then old(StageOf(run, p)) else Idle
      ensures !alive ==> FailedSince(origin, history, |old(history)|, p)
    {
      var n: int := *;
      while n > 0
        invariant Valid() && old(history) <= history && StageOf(run, p) == old(StageOf(run, p))
        invariant Acks(history, p) == old(Acks(history, p))
      {
        n := n - 1;
        var m: Move := *;
        if !MovesPoller(m, p) && Possible(count, m, reliable, relays) {
          OthersMove(run, m, p);
          AcksAppend(history, m, p);
          Happen(m);
        }
      }
      alive := *;
      alive := alive || p in reliable;
      if !alive {
        AcksAppend(history, Crash(p), p);
        LastFails(origin, history, |old(history)|, Crash(p), p);
        Happen(Crash(p));
      }
    }
  }

  predicate MovesPoller(m: Move, p: Poller) {
    match m
    case StartPoll(q, _, _, _) => q == p
    case Fetch(q, _) => q == p
    case Finish(q) => q == p
    case SendAck(q, _, _) => q == p
    case Crash(q) => q == p
    case _ => false
  }

  lemma OthersMove(g: World, m: Move, p: Poller)
    requires !MovesPoller(m, p)
    ensures StageOf(Next(g, m), p) == StageOf(g, p)
  {
  }

  /** What a poll request answers; `Failed` stands for its exceptions and for a crash. */
  datatype Answer = Reported(state: ChallengeState) | Failed

  /** The relay has no result yet, or one that the client accepts, or the request ends in an exception or a crash. */
  datatype Fetched = NotYet | Verified(result: ResultStore.StoredResult) | Refused

  class WalletLinkService {
    const me: Poller
    const setting: Setting

    constructor (me: Poller, setting: Setting)
      ensures this.me == me && this.setting == setting
    {
      this.me, this.setting := me, setting;
    }

    ghost predicate Here(s: Stage)
      reads setting
    {
      StageOf(setting.run, me) == s
    }

    /** The request has added `n` acknowledgements since `before`. */
    ghost predicate Sent(before: seq<Move>, n: nat)
      reads setting
    {
      Acks(setting.history, me) == Acks(before, me) + n
    }

    ghost predicate SentAtMost(before: seq<Move>, n: nat)
      reads setting
    {
      Acks(setting.history, me) <= Acks(before, me) + n
    }

    /** The poll has failed since `before`. */
    ghost predicate Failing(before: seq<Move>)
      reads setting
    {
      FailedSince(setting.origin, setting.history, |before|, me)
    }

    ghost predicate NoResult(id: Id)
      reads setting
    {
      ResultStore.LiveResult(setting.run.relay.store, id, setting.run.relay.now).None?
    }

    /** One call of `pollChallenge`. */
    method PollOnce(account: Account, id: Id, at: Millis, ghost since: seq<Move>) returns (state: Option<ChallengeState>)
      requires setting.Valid() && Here(Idle) && since <= setting.history
      modifies setting, setting.repository
      ensures setting.Valid() && setting.history == old(setting.history) + [StartPoll(me, account, id, at)]
      ensures (setting.run.db, state) == PollChallenge(old(setting.run.db), account, id, at)
      ensures Here(if state == Some(Presented) then Waiting(id, at) else Idle) && Sent(old(setting.history), 0)
      ensures state.None? ==> FailedSince(setting.origin, setting.history, |since|, me)
    {
      state := setting.repository.Poll(account, id, at);
      if state.None? {
        LastFails(setting.origin, setting.history, |since|, StartPoll(me, account, id, at), me);
      }
      AcksAppend(setting.history, StartPoll(me, account, id, at), me);
      setting.Observe(StartPoll(me, account, id, at));
    }

    /** `pollChallenge`, which expires a challenge that is due. */
    method Look(account: Account, id: Id, at: Millis) returns (r: Answer)
      requires setting.Valid() && Here(Idle)
      modifies setting, setting.repository
      ensures setting.Valid() && old(setting.history) <= setting.history && Sent(old(setting.history), 0)
      ensures r == Reported(Presented) ==> Here(Waiting(id, at))
      ensures r != Reported(Presented) ==> Here(Idle)
      ensures r.Reported? ==> id in setting.run.db.challenges && setting.run.db.challenges[id].account == account
                              && setting.run.db.challenges[id].state == r.state
      ensures r == Failed ==> Failing(old(setting.history))
    {
      var alive := setting.Await(me);
      if !alive {
        return Failed;
      }
      var state := PollOnce(account, id, at, old(setting.history));
      r := if state.Some? then Reported(state.value) else Failed;
    }

    /** The relay's answer: it may be out of reach, it may have no result, and the client may refuse its token. */
    method FetchResult(id: Id, at: Millis) returns (r: Fetched)
      requires setting.Valid() && Here(Waiting(id, at))
      modifies setting, setting.repository
      ensures setting.Valid() && old(setting.history) <= setting.history && Sent(old(setting.history), 0)
      ensures if r.Verified? then Here(Received(id, at, r.result.proofDigest, r.result.identityAddress)) else Here(Idle)
      ensures r.NotYet? ==> NoResult(id)
      ensures r.Refused? ==> Failing(old(setting.history))
    {
      var alive := setting.Await(me);
      if !alive {
        return Refused;
      }
      var accepted := setting.relays(setting.count).accepted;
      var result := ResultStore.LiveResult(setting.run.relay.store, id, setting.run.relay.now);
      AcksAppend(setting.history, Fetch(me, accepted), me);
      if !accepted {
        LastFails(setting.origin, setting.history, |old(setting.history)|, Fetch(me, accepted), me);
      }
      setting.Observe(Fetch(me, accepted));
      r := if !accepted then Refused else if result.None? then NotYet else Verified(result.value);
    }

    method Complete(id: Id, at: Millis, digest: Digest, identity: Identity) returns (completed: bool)
      requires setting.Valid() && Here(Received(id, at, digest, identity))
      modifies setting, setting.repository
      ensures setting.Valid() && old(setting.history) <= setting.history && Sent(old(setting.history), 0)
      ensures if completed then Here(Acknowledging(id, digest, ACK_ATTEMPTS)) && ConsumedWith(setting.run.db, id, digest)
              else Here(Idle) && Failing(old(setting.history))
    {
      var alive := setting.Await(me);
      if !alive {
        return false;
      }
      var c := setting.repository.Complete(id, digest, identity, at);
      if !c.Completed? {
        LastFails(setting.origin, setting.history, |old(setting.history)|, Finish(me), me);
      }
      AcksAppend(setting.history, Finish(me), me);
      setting.Observe(Finish(me));
      completed := c.Completed?;
    }

    /** At most three attempts; a failure never undoes the completed link. */
    method AcknowledgeHostedResult(id: Id, digest: Digest) returns (alive: bool)
      requires setting.Valid() && Here(Acknowledging(id, digest, ACK_ATTEMPTS))
      requires ConsumedWith(setting.run.db, id, digest)
      modifies setting, setting.repository
      ensures setting.Valid() && old(setting.history) <= setting.history && Here(Idle)
      ensures ConsumedWith(setting.run.db, id, digest) && SentAtMost(old(setting.history), 3)
      ensures if alive then Acks(setting.history, me) > Acks(old(setting.history), me) else Failing(old(setting.history))
    {
      var attempt := 0;
      alive := true;
      while attempt < ACK_ATTEMPTS
        invariant 0 <= attempt <= ACK_ATTEMPTS && alive
        invariant setting.Valid() && old(setting.history) <= setting.history && Sent(old(setting.history), attempt)
        invariant Here(if attempt < ACK_ATTEMPTS then Acknowledging(id, digest, ACK_ATTEMPTS - attempt) else Idle)
        invariant ConsumedWith(setting.run.db, id, digest)
      {
        alive := AwaitConsumed(id, digest);
        if !alive {
          return;
        }
        var delivered, confirmed := setting.relays(setting.count).delivered, setting.relays(setting.count).confirmed;
        AcksAppend(setting.history, SendAck(me, delivered, confirmed), me);
        setting.Observe(SendAck(me, delivered, confirmed));
        if delivered && confirmed {
          return;
        }
        attempt := attempt + 1;
      }
    }

    /** Whatever happens meanwhile, the challenge stays consumed. */
    method AwaitConsumed(id: Id, digest: Digest) returns (alive: bool)
      requires setting.Valid() && ConsumedWith(setting.run.db, id, digest)
      modifies setting, setting.repository
      ensures setting.Valid() && old(setting.history) <= setting.history && Sent(old(setting.history), 0)
      ensures StageOf(setting.run, me) == if alive then old(StageOf(setting.run, me)) else Idle
      ensures ConsumedWith(setting.run.db, id, digest) && (!alive ==> Failing(old(setting.history)))
    {
      ghost var before, was := setting.run, setting.history;
      alive := setting.Await(me);
      ghost var rest := setting.history[|was|..];
      assert setting.history == was + rest;
      RunAppend(setting.origin, was, rest);
      ConsumedForEver(before, rest, id);
    }

    /** The final look at a consumed challenge. */
    method Confirm(account: Account, id: Id, digest: Digest, at: Millis) returns (r: Answer)
      requires setting.Valid() && Here(Idle) && ConsumedWith(setting.run.db, id, digest)
      modifies setting, setting.repository
      ensures setting.Valid() && Here(Idle) && old(setting.history) <= setting.history && Sent(old(setting.history), 0)
      ensures ConsumedWith(setting.run.db, id, digest) && r in {Reported(Consumed), Failed}
      ensures r == Failed ==> Failing(old(setting.history))
    {
      var alive := AwaitConsumed(id, digest);
      if !alive {
        return Failed;
      }
      var state := PollOnce(account, id, at, old(setting.history));
      r := if state.Some? then Reported(state.value) else Failed;
    }

    /** Local completion first, acknowledgement second. */
    method CompleteAndAcknowledge(account: Account, id: Id, at: Millis, digest: Digest, identity: Identity)
      returns (r: Answer)
      requires setting.Valid() && Here(Received(id, at, digest, identity))
      modifies setting, setting.repository
      ensures setting.Valid() && Here(Idle) && old(setting.history) <= setting.history
      ensures SentAtMost(old(setting.history), 3)
      ensures r == Failed ==> Failing(old(setting.history))
      ensures r == Failed || (r == Reported(Consumed) && ConsumedWith(setting.run.db, id, digest))
    {
      var completed := Complete(id, at, digest, identity);
      if !completed {
        return Failed;
      }
      var alive := AcknowledgeHostedResult(id, digest);
      if !alive {
        return Failed;
      }
      r := Confirm(account, id, digest, at);
    }

    /** One poll request from start to end, with at most three acknowledgements. It fails only by a crash, for a challenge
        that is not the account's, for want of an acceptable answer, or by a refused completion. It answers `presented` only if the relay
        has no result, and any other state only if the challenge is stored in it. */
    method Poll(account: Account, id: Id, at: Millis) returns (r: Answer)
      requires setting.Valid() && Here(Idle)
      modifies setting, setting.repository
      ensures setting.Valid() && Here(Idle) && old(setting.history) <= setting.history
      ensures SentAtMost(old(setting.history), 3)
      ensures r == Failed ==> Failing(old(setting.history))
      ensures r.Reported? && r.state != Presented ==>
                id in setting.run.db.challenges && setting.run.db.challenges[id].state == r.state
      ensures r == Reported(Presented) ==> NoResult(id)
    {
      r := Look(account, id, at);
      if r != Reported(Presented) {
        return;
      }
      var fetched := FetchResult(id, at);
      match fetched
      case NotYet =>
      case Refused => r := Failed;
      case Verified(result) => r := CompleteAndAcknowledge(account, id, at, result.proofDigest, result.identityAddress);
    }
  }

  lemma {:induction false} RunAppend(g: World, first: seq<Move>, second: seq<Move>)
    ensures Run(g, first + second) == Run(Run(g, first), second)
    decreases |second|
  {
    if second == [] {
      assert first + second == first;
    } else {
      var init := second[..|second| - 1];
      assert (first + second)[..|first + second| - 1] == first + init;
      RunAppend(g, first, init);
    }
  }
}

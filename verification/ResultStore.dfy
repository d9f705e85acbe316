/** services/verusid/src/store.js: challenges, results and tombstones with deadlines. */
module ResultStore {
  import opened Wrappers

  type Id = string
  type Millis = int

  datatype Challenge = Challenge(issuedAt: Millis, expiresAt: Millis)
  datatype StoredResult = StoredResult(identityAddress: string, proofDigest: string, expiresAt: Millis)

  /** Three maps; an entry counts until its deadline, whether or not it has been removed. */
  datatype Store = Store(challenges: map<Id, Challenge>, results: map<Id, StoredResult>, consumed: map<Id, Millis>)

  const EMPTY := Store(map[], map[], map[])

  datatype Operation =
    | CreateChallenge(id: Id, challenge: Challenge)
    | GetChallenge(id: Id)
    | PutResult(id: Id, result: StoredResult)
    | GetResult(id: Id)
    | Acknowledge(id: Id, proofDigest: string, tombstoneExpiresAt: Millis)

  datatype Reply =
    | Flag(ok: bool)
    | FoundChallenge(challenge: Option<Challenge>)
    | FoundResult(result: Option<StoredResult>)
    | Stored | Same | Conflict | Consumed

  function LiveChallenge(s: Store, id: Id, now: Millis): Option<Challenge> {
    if id in s.challenges && s.challenges[id].expiresAt > now then Some(s.challenges[id]) else None
  }

  function LiveResult(s: Store, id: Id, now: Millis): Option<StoredResult> {
    if id in s.results && s.results[id].expiresAt > now then Some(s.results[id]) else None
  }

  function LiveTombstone(s: Store, id: Id, now: Millis): Option<Millis> {
    if id in s.consumed && s.consumed[id] > now then Some(s.consumed[id]) else None
  }

  /** A map with deadlines: nothing is swept, every look-up checks the deadline. */
  function Step(s: Store, now: Millis, op: Operation): (Store, Reply) {
    match op
    case CreateChallenge(id, challenge) =>
      if LiveChallenge(s, id, now).Some? then (s, Flag(false))
      else (s.(challenges := s.challenges[id := challenge]), Flag(true))
    case GetChallenge(id) => (s, FoundChallenge(LiveChallenge(s, id, now)))
    case PutResult(id, result) =>
      if LiveTombstone(s, id, now).Some? || LiveChallenge(s, id, now).None? then (s, Consumed)
      else if LiveResult(s, id, now).Some? then
        (s, if LiveResult(s, id, now).value.proofDigest == result.proofDigest then Same else Conflict)
      else (s.(results := s.results[id := result]), Stored)
    case GetResult(id) => (s, FoundResult(LiveResult(s, id, now)))
    case Acknowledge(id, digest, until) =>
      if LiveResult(s, id, now).None? || LiveResult(s, id, now).value.proofDigest != digest then (s, Flag(false))
      else (Store(s.challenges - {id}, s.results - {id}, s.consumed[id := until]), Flag(true))
  }

  /** What is left after a sweep. */
  function Live(s: Store, now: Millis): Store {
    Store(map id | id in s.challenges && s.challenges[id].expiresAt > now :: s.challenges[id],
          map id | id in s.results && s.results[id].expiresAt > now :: s.results[id],
          map id | id in s.consumed && s.consumed[id] > now :: s.consumed[id])
  }

  /** The in-memory store sweeps before every operation. */
  function SweptStep(s: Store, now: Millis, op: Operation): (Store, Reply) {
    Step(Live(s, now), now, op)
  }

  datatype Timed = Timed(now: Millis, op: Operation)

  predicate Ordered(ops: seq<Timed>) {
    forall i, j | 0 <= i <= j < |ops| :: ops[i].now <= ops[j].now
  }

  function Replies(s: Store, ops: seq<Timed>): seq<Reply>
    decreases |ops|
  {
    if ops == [] then []
    else [Step(s, ops[0].now, ops[0].op).1] + Replies(Step(s, ops[0].now, ops[0].op).0, ops[1..])
  }

  function SweptReplies(s: Store, ops: seq<Timed>): seq<Reply>
    decreases |ops|
  {
    if ops == [] then []
    else [SweptStep(s, ops[0].now, ops[0].op).1] + SweptReplies(SweptStep(s, ops[0].now, ops[0].op).0, ops[1..])
  }

  lemma LiveLater(s: Store, now: Millis, later: Millis)
    requires now <= later
    ensures Live(Live(s, now), later) == Live(s, later)
  {
    var l := Live(s, now);
    assert Live(l, later).challenges == Live(s, later).challenges;
    assert Live(l, later).results == Live(s, later).results;
    assert Live(l, later).consumed == Live(s, later).consumed;
  }

  lemma SameLive(s: Store, t: Store, now: Millis, id: Id)
    requires Live(s, now) == Live(t, now)
    ensures LiveChallenge(s, id, now) == LiveChallenge(t, id, now)
    ensures LiveResult(s, id, now) == LiveResult(t, id, now)
    ensures LiveTombstone(s, id, now) == LiveTombstone(t, id, now)
  {
    var a, b := Live(s, now), Live(t, now);
    assert id in a.challenges <==> id in b.challenges;
    assert id in a.results <==> id in b.results;
    assert id in a.consumed <==> id in b.consumed;
    assert LiveChallenge(s, id, now).Some? ==> a.challenges[id] == s.challenges[id];
    assert LiveChallenge(t, id, now).Some? ==> b.challenges[id] == t.challenges[id];
    assert LiveResult(s, id, now).Some? ==> a.results[id] == s.results[id];
    assert LiveResult(t, id, now).Some? ==> b.results[id] == t.results[id];
    assert LiveTombstone(s, id, now).Some? ==> a.consumed[id] == s.consumed[id];
    assert LiveTombstone(t, id, now).Some? ==> b.consumed[id] == t.consumed[id];
  }

  lemma RepliesAgree(s: Store, t: Store, now: Millis, op: Operation)
    requires Live(s, now) == Live(t, now)
    ensures Step(s, now, op).1 == Step(t, now, op).1
  {
    SameLive(s, t, now, op.id);
  }

  lemma ViewsAgree(s: Store, t: Store, now: Millis, op: Operation, id: Id)
    requires Live(s, now) == Live(t, now)
    ensures var a, b := Step(s, now, op).0, Step(t, now, op).0;
            && LiveChallenge(a, id, now) == LiveChallenge(b, id, now)
            && LiveResult(a, id, now) == LiveResult(b, id, now)
            && LiveTombstone(a, id, now) == LiveTombstone(b, id, now)
  {
    SameLive(s, t, now, op.id);
    SameLive(s, t, now, id);
  }

  /** Stores with the same live part answer alike and keep the same live part. */
  lemma StepAgrees(s: Store, t: Store, now: Millis, op: Operation)
    requires Live(s, now) == Live(t, now)
    ensures Step(s, now, op).1 == Step(t, now, op).1
    ensures Live(Step(s, now, op).0, now) == Live(Step(t, now, op).0, now)
  {
    RepliesAgree(s, t, now, op);
    var a, b := Step(s, now, op).0, Step(t, now, op).0;
    forall id ensures LiveChallenge(a, id, now) == LiveChallenge(b, id, now)
              ensures LiveResult(a, id, now) == LiveResult(b, id, now)
              ensures LiveTombstone(a, id, now) == LiveTombstone(b, id, now) {
      ViewsAgree(s, t, now, op, id);
    }
    SameParts(a, b, now);
  }

  lemma SameParts(a: Store, b: Store, now: Millis)
    requires forall id :: LiveChallenge(a, id, now) == LiveChallenge(b, id, now)
    requires forall id :: LiveResult(a, id, now) == LiveResult(b, id, now)
    requires forall id :: LiveTombstone(a, id, now) == LiveTombstone(b, id, now)
    ensures Live(a, now) == Live(b, now)
  {
    var x, y := Live(a, now), Live(b, now);
    forall id ensures (id in x.challenges <==> id in y.challenges) && (id in x.challenges ==> x.challenges[id] == y.challenges[id])
              ensures (id in x.results <==> id in y.results) && (id in x.results ==> x.results[id] == y.results[id])
              ensures (id in x.consumed <==> id in y.consumed) && (id in x.consumed ==> x.consumed[id] == y.consumed[id]) {
      assert LiveChallenge(a, id, now) == LiveChallenge(b, id, now);
      assert LiveResult(a, id, now) == LiveResult(b, id, now);
      assert LiveTombstone(a, id, now) == LiveTombstone(b, id, now);
    }
    assert x.challenges == y.challenges && x.results == y.results && x.consumed == y.consumed;
  }

  /** Sweeping is invisible: on a clock that does not run backwards, both stores give the same replies for ever. */
  lemma {:induction false} SweepingIsInvisible(s: Store, t: Store, ops: seq<Timed>, now: Millis)
    requires Ordered(ops) && Live(s, now) == Live(t, now) && (ops != [] ==> now <= ops[0].now)
    ensures SweptReplies(s, ops) == Replies(t, ops)
    decreases |ops|
  {
    if ops != [] {
      var later, op := ops[0].now, ops[0].op;
      var swept := Live(s, later);
      LiveLater(s, now, later);
      LiveLater(t, now, later);
      LiveLater(s, later, later);
      StepAgrees(swept, t, later, op);
      SweepingIsInvisible(Step(swept, later, op).0, Step(t, later, op).0, ops[1..], later);
    }
  }

  // ---------------------------------------------------------------- the class

  class MemoryStore {
    var challenges: map<Id, Challenge>
    var results: map<Id, StoredResult>
    var consumed: map<Id, Millis>

    constructor ()
      ensures Contents() == EMPTY
    {
      challenges, results, consumed := map[], map[], map[];
    }

    function Contents(): Store
      reads this
    {
      Store(challenges, results, consumed)
    }

    /** Three sweeps that delete while they iterate. */
    method Cleanup(now: Millis)
      modifies this
      ensures Contents() == Live(old(Contents()), now)
    {
      SweepChallenges(now);
      SweepResults(now);
      var rest := consumed.Keys;
      while rest != {}
        invariant challenges == Live(old(Contents()), now).challenges && results == Live(old(Contents()), now).results
        invariant consumed.Keys <= old(consumed).Keys && rest <= old(consumed).Keys
        invariant forall id | id in consumed :: consumed[id] == old(consumed)[id]
        invariant forall id | id in old(consumed) && id !in rest :: id in consumed <==> old(consumed)[id] > now
        invariant rest <= consumed.Keys
        decreases rest
      {
        var id :| id in rest;
        rest := rest - {id};
        if consumed[id] <= now {
          consumed := consumed - {id};
        }
      }
      assert consumed == Live(old(Contents()), now).consumed;
    }

    method SweepChallenges(now: Millis)
      modifies this`challenges
      ensures challenges == Live(old(Contents()), now).challenges
    {
      var rest := challenges.Keys;
      while rest != {}
        invariant challenges.Keys <= old(challenges).Keys && rest <= old(challenges).Keys && rest <= challenges.Keys
        invariant forall id | id in challenges :: challenges[id] == old(challenges)[id]
        invariant forall id | id in old(challenges) && id !in rest ::
                    id in challenges <==> old(challenges)[id].expiresAt > now
        decreases rest
      {
        var id :| id in rest;
        rest := rest - {id};
        if challenges[id].expiresAt <= now {
          challenges := challenges - {id};
        }
      }
    }

    method SweepResults(now: Millis)
      modifies this`results
      ensures results == Live(old(Contents()), now).results
    {
      var rest := results.Keys;
      while rest != {}
        invariant results.Keys <= old(results).Keys && rest <= old(results).Keys && rest <= results.Keys
        invariant forall id | id in results :: results[id] == old(results)[id]
        invariant forall id | id in old(results) && id !in rest :: id in results <==> old(results)[id].expiresAt > now
        decreases rest
      {
        var id :| id in rest;
        rest := rest - {id};
        if results[id].expiresAt <= now {
          results := results - {id};
        }
      }
    }

    method Create(now: Millis, id: Id, challenge: Challenge) returns (created: bool)
      modifies this
      ensures (Contents(), Flag(created)) == SweptStep(old(Contents()), now, CreateChallenge(id, challenge))
    {
      Cleanup(now);
      if id in challenges {
        return false;
      }
      challenges := challenges[id := challenge];
      return true;
    }

    method FindChallenge(now: Millis, id: Id) returns (challenge: Option<Challenge>)
      modifies this
      ensures (Contents(), FoundChallenge(challenge)) == SweptStep(old(Contents()), now, GetChallenge(id))
    {
      Cleanup(now);
      return if id in challenges then Some(challenges[id]) else None;
    }

    method Put(now: Millis, id: Id, result: StoredResult) returns (r: Reply)
      modifies this
      ensures (Contents(), r) == SweptStep(old(Contents()), now, PutResult(id, result))
    {
      Cleanup(now);
      if id in consumed || id !in challenges {
        return Consumed;
      }
      if id in results {
        return if results[id].proofDigest == result.proofDigest then Same else Conflict;
      }
      results := results[id := result];
      return Stored;
    }

    method FindResult(now: Millis, id: Id) returns (result: Option<StoredResult>)
      modifies this
      ensures (Contents(), FoundResult(result)) == SweptStep(old(Contents()), now, GetResult(id))
    {
      Cleanup(now);
      return if id in results then Some(results[id]) else None;
    }

    method Ack(now: Millis, id: Id, proofDigest: string, tombstoneExpiresAt: Millis) returns (acknowledged: bool)
      modifies this
      ensures (Contents(), Flag(acknowledged))
           == SweptStep(old(Contents()), now, Acknowledge(id, proofDigest, tombstoneExpiresAt))
    {
      Cleanup(now);
      if id !in results || results[id].proofDigest != proofDigest {
        return false;
      }
      results := results - {id};
      challenges := challenges - {id};
      consumed := consumed[id := tombstoneExpiresAt];
      return true;
    }
  }
}

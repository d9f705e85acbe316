/** The answers of the result store to one identifier, in terms of what was stored under it and when it runs out. */
module StoreHistory {
  import opened Wrappers
  import opened ResultStore

  // ---------------------------------------------------------------- what is stored under an identifier

  predicate HasChallenge(s: Store, id: Id, now: Millis) {
    id in s.challenges && now < s.challenges[id].expiresAt
  }

  predicate HasResult(s: Store, id: Id, now: Millis) {
    id in s.results && now < s.results[id].expiresAt
  }

  predicate IsBuried(s: Store, id: Id, now: Millis) {
    id in s.consumed && now < s.consumed[id]
  }

  /** Nothing but the entries of `id` may differ. */
  predicate OthersSame(s: Store, t: Store, id: Id) {
    && (s.challenges - {id}) == (t.challenges - {id})
    && (s.results - {id}) == (t.results - {id})
    && (s.consumed - {id}) == (t.consumed - {id})
  }

  /** Each operation succeeds exactly under its condition, and only then changes anything: creation stores a challenge over
      none or an expired one, a result is stored once for a live challenge that is not acknowledged, and the acknowledgement
      with the result's digest removes both and leaves a tombstone. */
  lemma RepliesExactly(s: Store, now: Millis, op: Operation)
    ensures var (t, r) := Step(s, now, op);
            OthersSame(s, t, op.id) &&
            match op
            case CreateChallenge(id, c) =>
              && r == Flag(!HasChallenge(s, id, now)) && t.results == s.results && t.consumed == s.consumed
              && id in t.challenges && t.challenges[id] == (if HasChallenge(s, id, now) then s.challenges[id] else c)
            case GetChallenge(id) =>
              t == s && r == FoundChallenge(if HasChallenge(s, id, now) then Some(s.challenges[id]) else None)
            case GetResult(id) =>
              t == s && r == FoundResult(if HasResult(s, id, now) then Some(s.results[id]) else None)
            case PutResult(id, result) =>
              && (r == Stored <==> HasChallenge(s, id, now) && !IsBuried(s, id, now) && !HasResult(s, id, now))
              && (r == Consumed <==> IsBuried(s, id, now) || !HasChallenge(s, id, now))
              && (r == Same ==> HasResult(s, id, now) && s.results[id].proofDigest == result.proofDigest)
              && (r == Conflict ==> HasResult(s, id, now) && s.results[id].proofDigest != result.proofDigest)
              && r in {Stored, Consumed, Same, Conflict}
              && (if r == Stored then
                    t.challenges == s.challenges && t.consumed == s.consumed && id in t.results && t.results[id] == result
                  else t == s)
            case Acknowledge(id, digest, until) =>
              && r == Flag(HasResult(s, id, now) && s.results[id].proofDigest == digest)
              && (if r == Flag(true) then
                    id !in t.challenges && id !in t.results && id in t.consumed && t.consumed[id] == until
                  else t == s)
  {
  }

  // ---------------------------------------------------------------- over sequences of operations

  function After(s: Store, ops: seq<Timed>): Store
    decreases |ops|
  {
    if ops == [] then s
    else
      var last := ops[|ops| - 1];
      Step(After(s, ops[..|ops| - 1]), last.now, last.op).0
  }

  /** The operation at `i` acknowledges what is stored under the identifier. */
  predicate Acknowledges(s: Store, ops: seq<Timed>, i: nat, id: Id)
    requires i < |ops|
  {
    ops[i].op.Acknowledge? && ops[i].op.id == id && Step(After(s, ops[..i]), ops[i].now, ops[i].op).1 == Flag(true)
  }

  predicate NeverAcknowledged(s: Store, ops: seq<Timed>, id: Id) {
    forall i | 0 <= i < |ops| :: !Acknowledges(s, ops, i, id)
  }

  lemma NeverBefore(s: Store, ops: seq<Timed>, id: Id)
    requires ops != [] && NeverAcknowledged(s, ops, id)
    ensures NeverAcknowledged(s, ops[..|ops| - 1], id)
  {
    var init := ops[..|ops| - 1];
    forall i | 0 <= i < |init| ensures !Acknowledges(s, init, i, id) {
      assert init[..i] == ops[..i] && !Acknowledges(s, ops, i, id);
    }
  }

  /** A challenge is found again until it expires, whatever else is stored, unless its result is acknowledged; and so is a
      result. */
  lemma {:induction false} FoundUntilExpired(s: Store, ops: seq<Timed>, id: Id)
    requires NeverAcknowledged(s, ops, id)
    requires id in s.challenges && forall i | 0 <= i < |ops| :: ops[i].now < s.challenges[id].expiresAt
    ensures var t := After(s, ops);
            && id in t.challenges && t.challenges[id] == s.challenges[id]
            && (id in s.results && (forall i | 0 <= i < |ops| :: ops[i].now < s.results[id].expiresAt) ==>
                  id in t.results && t.results[id] == s.results[id])
    decreases |ops|
  {
    if ops != [] {
      var init, last := ops[..|ops| - 1], ops[|ops| - 1];
      NeverBefore(s, ops, id);
      FoundUntilExpired(s, init, id);
      assert !Acknowledges(s, ops, |ops| - 1, id);
      RepliesExactly(After(s, init), last.now, last.op);
      if last.op.id != id {
        StepKeepsOther(After(s, init), last, id);
      }
    }
  }

  lemma StepKeepsOther(s: Store, timed: Timed, id: Id)
    requires timed.op.id != id
    ensures var t := Step(s, timed.now, timed.op).0;
            && (id in s.challenges <==> id in t.challenges) && (id in s.challenges ==> t.challenges[id] == s.challenges[id])
            && (id in s.results <==> id in t.results) && (id in s.results ==> t.results[id] == s.results[id])
  {
  }
}

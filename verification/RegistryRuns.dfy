/** Runs of the registry that bring a fresh request to issuance, from any tables. */
module RegistryRuns {
  import opened Wrappers
  import opened Registry

  /** Calls under fresh keys, one after the other. */
  predicate Fresh(db: Tables, key: string) {
    key !in db.records
  }

  function One(c: Command, key: string): Call {
    Call(c, Context(key, "digest"))
  }

  lemma RunSnoc(db: Tables, calls: seq<Call>, call: Call)
    ensures Run(db, calls + [call]) == Execute(Run(db, calls), call.command, call.context).0
  {
    assert (calls + [call])[..|calls|] == calls;
  }

  /** Request `q` of `participant` stands in `state`, after `n` commands on it. */
  predicate At(db: Tables, q: Ref, participant: Ref, state: State, n: nat) {
    q in db.requests && db.requests[q] == RequestRow(participant, state, n)
  }

  /** The command touched request `q` only. */
  predicate OnlyRequest(db: Tables, h: Tables, q: Ref, key: string) {
    && h.attestations == db.attestations && h.statuses == db.statuses && h.revocations == db.revocations
    && h.participants == db.participants && h.latest == db.latest
    && h.records.Keys == db.records.Keys + {key} && h.requests.Keys == db.requests.Keys + {q}
    && forall r | r in db.requests && r != q :: r in h.requests && h.requests[r] == db.requests[r]
  }

  lemma Created(db: Tables, q: Ref, participant: Ref, key: string)
    requires Fresh(db, key) && participant in db.participants && q !in db.requests
    ensures var h := Execute(db, CreateRequest(q, participant), Context(key, "digest")).0;
            At(h, q, participant, Requested, 1) && OnlyRequest(db, h, q, key)
  {
  }

  lemma Moved(db: Tables, q: Ref, participant: Ref, verb: Verb, n: nat, key: string)
    requires Fresh(db, key) && At(db, q, participant, Source(verb), n)
    ensures var h := Execute(db, Transition(q, verb, n), Context(key, "digest")).0;
            At(h, q, participant, Target(verb), n + 1) && OnlyRequest(db, h, q, key)
  {
  }

  /** From creation to issuance. */
  const PATH := [ScheduleRequest, CheckInParticipant, BeginReview, ApproveVerification, RequestIssuance, RecordIssuance]

  /** The state on the path after `n` verbs. */
  function Along(n: nat): State
    requires n <= 6
  {
    if n == 0 then Requested else Target(PATH[n - 1])
  }

  /** Commands on requests carry no observation time. */
  predicate OnRequests(calls: seq<Call>) {
    forall i | 0 <= i < |calls| :: calls[i].command.CreateRequest? || calls[i].command.Transition?
  }

  function Approval(q: Ref, participant: Ref, keys: seq<string>, n: nat): (calls: seq<Call>)
    requires n <= 6 && |keys| == 7
    ensures OnRequests(calls)
  {
    if n == 0 then [One(CreateRequest(q, participant), keys[0])]
    else Approval(q, participant, keys, n - 1) + [One(Transition(q, PATH[n - 1], n), keys[n])]
  }

  /** What `n` verbs on the fresh request `q` have changed. */
  predicate Progress(db: Tables, h: Tables, q: Ref, participant: Ref, keys: seq<string>, n: nat)
    requires n <= 6 && |keys| == 7
  {
    && At(h, q, participant, Along(n), n + 1)
    && h.attestations == db.attestations && h.statuses == db.statuses && h.revocations == db.revocations
    && h.participants == db.participants && h.latest == db.latest
    && (forall k | k in h.records :: k in db.records || k in keys[..n + 1])
    && (forall r | r in db.requests && r != q :: r in h.requests && h.requests[r] == db.requests[r])
    && h.requests.Keys == db.requests.Keys + {q}
  }

  lemma ProgressStep(db: Tables, before: Tables, q: Ref, participant: Ref, keys: seq<string>, n: nat)
    requires 0 < n <= 6 && |keys| == 7 && Progress(db, before, q, participant, keys, n - 1) && Fresh(before, keys[n])
    ensures Progress(db, Execute(before, Transition(q, PATH[n - 1], n), Context(keys[n], "digest")).0, q, participant, keys, n)
  {
    var h := Execute(before, Transition(q, PATH[n - 1], n), Context(keys[n], "digest")).0;
    Moved(before, q, participant, PATH[n - 1], n, keys[n]);
    forall k | k in h.records ensures k in db.records || k in keys[..n + 1] {
      assert k in before.records || k == keys[n];
      assert k in keys[..n] ==> k in keys[..n + 1];
      assert keys[..n + 1][n] == keys[n];
    }
  }

  lemma {:induction false} Approving(db: Tables, q: Ref, participant: Ref, keys: seq<string>, n: nat)
    requires n <= 6 && |keys| == 7 && participant in db.participants && q !in db.requests
    requires forall i | 0 <= i < 7 :: Fresh(db, keys[i])
    requires forall i, j | 0 <= i < j < 7 :: keys[i] != keys[j]
    ensures Progress(db, Run(db, Approval(q, participant, keys, n)), q, participant, keys, n)
  {
    if n == 0 {
      assert [One(CreateRequest(q, participant), keys[0])][..0] == [];
      Created(db, q, participant, keys[0]);
      assert keys[..1] == [keys[0]];
    } else {
      Approving(db, q, participant, keys, n - 1);
      assert keys[n] !in keys[..n];
      ProgressStep(db, Run(db, Approval(q, participant, keys, n - 1)), q, participant, keys, n);
      RunSnoc(db, Approval(q, participant, keys, n - 1), One(Transition(q, PATH[n - 1], n), keys[n]));
    }
  }

  /** Seven calls bring a fresh request to issuance. */
  lemma ToIssuance(db: Tables, q: Ref, participant: Ref, keys: seq<string>) returns (calls: seq<Call>)
    requires |keys| == 7 && participant in db.participants && q !in db.requests
    requires forall i | 0 <= i < 7 :: Fresh(db, keys[i])
    requires forall i, j | 0 <= i < j < 7 :: keys[i] != keys[j]
    ensures OnRequests(calls)
    ensures var h := Run(db, calls);
            && At(h, q, participant, Issued, 7)
            && h.attestations == db.attestations && h.statuses == db.statuses && h.revocations == db.revocations
            && h.participants == db.participants && h.latest == db.latest
            && (forall k | k in h.records :: k in db.records || k in keys)
            && (forall r | r in db.requests && r != q :: r in h.requests && h.requests[r] == db.requests[r])
            && h.requests.Keys == db.requests.Keys + {q}
  {
    var n: nat :| n == 6;
    Approving(db, q, participant, keys, n);
    calls := Approval(q, participant, keys, n);
    assert keys[..n + 1] == keys;
    assert Along(n) == Issued;
  }

  lemma {:induction false} RunSplitAt(db: Tables, first: seq<Call>, second: seq<Call>)
    ensures Run(db, first + second) == Run(Run(db, first), second)
    decreases |second|
  {
    if second == [] {
      assert first + second == first;
    } else {
      var init := second[..|second| - 1];
      assert (first + second)[..|first + second| - 1] == first + init;
      RunSplitAt(db, first, init);
    }
  }

  // ---------------------------------------------------------------- fresh names

  lemma {:induction false} LongerThanAll(names: set<string>) returns (n: nat)
    ensures forall x | x in names :: |x| < n
    decreases |names|
  {
    n := 0;
    if names != {} {
      var x :| x in names;
      var m := LongerThanAll(names - {x});
      n := if |x| < m then m else |x| + 1;
      forall y | y in names ensures |y| < n {
        assert y == x || y in names - {x};
      }
    }
  }

  function Name(n: nat): (name: string)
    ensures |name| == n
  {
    seq(n, _ => 'k')
  }

  /** Any number of different names outside a finite set. */
  lemma FreshNames(names: set<string>, count: nat) returns (unused: seq<string>)
    ensures |unused| == count
    ensures forall i | 0 <= i < count :: unused[i] !in names
    ensures forall i, j | 0 <= i < j < count :: unused[i] != unused[j]
  {
    var n := LongerThanAll(names);
    unused := seq(count, i requires i >= 0 => Name(n + i));
    forall i | 0 <= i < count ensures unused[i] !in names && |unused[i]| == n + i {
      assert unused[i] == Name(n + i);
    }
    forall i, j | 0 <= i < j < count ensures unused[i] != unused[j] {
      assert |unused[i]| != |unused[j]|;
    }
  }

  lemma FreshName(names: set<string>) returns (name: string)
    ensures name !in names
  {
    var n := LongerThanAll(names);
    name := Name(n);
  }
}

/** Idempotent commands: a repeated call changes nothing and returns its first result, whatever ran in between. */
module RegistryIdempotency {
  import opened Wrappers
  import opened Registry

  /** The call has completed: its record is there, and so is the row that a replay loads. */
  predicate Completed(db: Tables, call: Call) {
    && call.context.key in db.records
    && db.records[call.context.key].digest == call.context.digest
    && db.records[call.context.key].kind == KindOf(call.command)
    && db.records[call.context.key].reference == call.command.reference
    && Loads(db, call.command)
  }

  /** No row is ever deleted and no record rewritten. */
  predicate Grows(db: Tables, h: Tables) {
    && db.requests.Keys <= h.requests.Keys && db.attestations.Keys <= h.attestations.Keys
    && db.statuses.Keys <= h.statuses.Keys
    && (forall x | x in db.attestations :: x in h.attestations && h.attestations[x].request == db.attestations[x].request)
    && (forall k | k in db.records :: k in h.records && h.records[k] == db.records[k])
  }

  lemma MoveGrows(db: Tables, a: Ref, next: State, at: Millis, complete: bool)
    requires Joined(db, a)
    ensures Grows(db, Move(db, a, next, at, complete))
  {
  }

  lemma GrowsTransitive(a: Tables, b: Tables, c: Tables)
    requires Grows(a, b) && Grows(b, c)
    ensures Grows(a, c)
  {
  }

  lemma ActivationGrows(db: Tables, a: Ref, version: nat, at: Millis)
    requires Activation(db, a, version, at).Changed?
    ensures Grows(db, Activation(db, a, version, at).db)
  {
    var moved := Move(db, a, Active, at, true);
    MoveGrows(db, a, Active, at, true);
    if db.attestations[a].supersedes.Some? {
      var p := db.attestations[a].supersedes.value;
      MoveGrows(moved, p, Superseded, at, false);
      GrowsTransitive(db, moved, Move(moved, p, Superseded, at, false));
    }
  }

  lemma RevocationGrows(db: Tables, a: Ref, version: nat, at: Millis)
    requires Revocation(db, a, version, at).Changed?
    ensures Grows(db, Revocation(db, a, version, at).db)
  {
    MoveGrows(db.(revocations := db.revocations[a := at]), a, Revoked, at, false);
  }

  lemma ApplyGrows(db: Tables, c: Command)
    requires Apply(db, c).Changed?
    ensures Grows(db, Apply(db, c).db) && Apply(db, c).db.records == db.records
  {
    match c
    case Activate(a, version, at) => ActivationGrows(db, a, version, at);
    case Expire(a, version, at) => MoveGrows(db, a, Expired, at, false);
    case Revoke(a, version, at) => RevocationGrows(db, a, version, at);
    case _ =>
  }

  lemma AppliedLoads(db: Tables, c: Command)
    requires Apply(db, c).Changed?
    ensures Loads(Apply(db, c).db, c)
  {
    ApplyGrows(db, c);
  }

  lemma ExecuteGrows(db: Tables, call: Call)
    ensures Grows(db, Execute(db, call.command, call.context).0)
  {
    if call.context.key !in db.records && Apply(db, call.command).Changed? {
      ApplyGrows(db, call.command);
    }
  }

  lemma {:induction false} RunGrows(db: Tables, calls: seq<Call>)
    ensures Grows(db, Run(db, calls))
    decreases |calls|
  {
    if calls != [] {
      var init := calls[..|calls| - 1];
      RunGrows(db, init);
      ExecuteGrows(Run(db, init), calls[|calls| - 1]);
      GrowsTransitive(db, Run(db, init), Run(db, calls));
    }
  }

  lemma CompletedStays(db: Tables, h: Tables, call: Call)
    requires Completed(db, call) && Grows(db, h)
    ensures Completed(h, call) && h.records[call.context.key] == db.records[call.context.key]
  {
  }

  lemma ExecuteCompletes(db: Tables, call: Call)
    requires Execute(db, call.command, call.context).1.Done?
    ensures var h := Execute(db, call.command, call.context).0;
            var r := Execute(db, call.command, call.context).1;
            && Completed(h, call)
            && h.records[call.context.key].state == r.state && h.records[call.context.key].version == r.version
            && r.reference == call.command.reference
  {
    if call.context.key !in db.records {
      AppliedLoads(db, call.command);
    }
  }

  /** Every later repetition returns the first reference, state and version, and changes no table. */
  lemma ReplayRepeatsFirstResult(db: Tables, call: Call, between: seq<Call>)
    requires Execute(db, call.command, call.context).1.Done?
    ensures var first := Execute(db, call.command, call.context);
            var later := Run(first.0, between);
            Execute(later, call.command, call.context) == (later, first.1.(replayed := true))
  {
    var h := Execute(db, call.command, call.context).0;
    ExecuteCompletes(db, call);
    RunGrows(h, between);
    CompletedStays(h, Run(h, between), call);
  }

  // ---------------------------------------------------------------- keys

  predicate Succeeds(db: Tables, calls: seq<Call>, j: nat)
    requires j < |calls|
  {
    Execute(Run(db, calls[..j]), calls[j].command, calls[j].context).1.Done?
  }

  /** Some call under this key has succeeded. */
  ghost predicate Used(db: Tables, calls: seq<Call>, key: string) {
    exists j :: 0 <= j < |calls| && calls[j].context.key == key && Succeeds(db, calls, j)
  }

  lemma SucceedsBefore(db: Tables, calls: seq<Call>, n: nat, j: nat)
    requires j < n <= |calls|
    ensures calls[..n][j] == calls[j] && Succeeds(db, calls[..n], j) == Succeeds(db, calls, j)
  {
    assert calls[..n][..j] == calls[..j];
  }

  lemma UsedBefore(db: Tables, calls: seq<Call>, key: string)
    requires calls != []
    ensures var last := |calls| - 1;
            Used(db, calls, key) <==>
              Used(db, calls[..last], key) || (calls[last].context.key == key && Succeeds(db, calls, last))
  {
    var last := |calls| - 1;
    if j :| 0 <= j < last && calls[j].context.key == key && Succeeds(db, calls, j) {
      SucceedsBefore(db, calls, last, j);
    }
    if j :| 0 <= j < last && calls[..last][j].context.key == key && Succeeds(db, calls[..last], j) {
      SucceedsBefore(db, calls, last, j);
    }
  }

  /** A key is on record exactly when it was so at the start or a call under it has succeeded, replays included. */
  lemma {:induction false} RecordedExactly(db: Tables, calls: seq<Call>, key: string)
    ensures key in Run(db, calls).records <==> key in db.records || Used(db, calls, key)
    decreases |calls|
  {
    if calls != [] {
      var init, last := calls[..|calls| - 1], calls[|calls| - 1];
      var before := Run(db, init);
      RecordedExactly(db, init, key);
      UsedBefore(db, calls, key);
      if last.context.key !in before.records && Apply(before, last.command).Changed? {
        ApplyGrows(before, last.command);
      }
    }
  }

  /** After any run, a call, repeated or not, changes the tables, and then not only the records, if and only if no call
      of the run under its key has succeeded and its command applies to the tables as they now are. */
  lemma ChangesExactly(start: Tables, calls: seq<Call>, call: Call)
    requires call.context.key !in start.records
    ensures var db := Run(start, calls);
            var after := Run(start, calls + [call]);
            && (after != db <==> !Used(start, calls, call.context.key) && Apply(db, call.command).Changed?)
            && (after != db ==> |after.audit| > |db.audit| && |after.outbox| > |db.outbox|)
  {
    var db := Run(start, calls);
    assert (calls + [call])[..|calls|] == calls;
    RecordedExactly(start, calls, call.context.key);
    if call.context.key !in db.records && Apply(db, call.command).Changed? {
      ApplyLogs(db, call.command);
    }
  }

  lemma ApplyLogs(db: Tables, c: Command)
    requires Apply(db, c).Changed?
    ensures |Apply(db, c).db.audit| > |db.audit| && |Apply(db, c).db.outbox| > |db.outbox|
  {
  }

  // ---------------------------------------------------------------- whole sequences

  /** The call at `i` comes after a successful one under its key. */
  ghost predicate Repeats(db: Tables, calls: seq<Call>, i: nat)
    requires i < |calls|
  {
    Used(db, calls[..i], calls[i].context.key)
  }

  /** The calls whose position is not in `dropped`. */
  function Without(calls: seq<Call>, dropped: set<nat>): seq<Call> {
    if calls == [] then []
    else
      var last := |calls| - 1;
      Without(calls[..last], dropped) + (if last in dropped then [] else [calls[last]])
  }

  lemma RepetitionIsNoOp(db: Tables, calls: seq<Call>)
    requires calls != [] && Repeats(db, calls, |calls| - 1)
    ensures Run(db, calls) == Run(db, calls[..|calls| - 1])
  {
    RecordedExactly(db, calls[..|calls| - 1], calls[|calls| - 1].context.key);
  }

  lemma RepeatsInPrefix(db: Tables, calls: seq<Call>, dropped: set<nat>)
    requires calls != [] && forall i | 0 <= i < |calls| && i in dropped :: Repeats(db, calls, i)
    ensures forall i | 0 <= i < |calls| - 1 && i in dropped :: Repeats(db, calls[..|calls| - 1], i)
  {
    forall i | 0 <= i < |calls| - 1 && i in dropped ensures Repeats(db, calls[..|calls| - 1], i) {
      assert calls[..|calls| - 1][..i] == calls[..i] && Repeats(db, calls, i);
    }
  }

  /** For any sequence of calls, leaving out any of those under a key that has already succeeded gives the same tables,
      audit log and outbox. */
  lemma {:induction false} RepetitionsChangeNothing(db: Tables, calls: seq<Call>, dropped: set<nat>)
    requires forall i | 0 <= i < |calls| && i in dropped :: Repeats(db, calls, i)
    ensures Run(db, Without(calls, dropped)) == Run(db, calls)
    decreases |calls|
  {
    if calls != [] {
      var last := |calls| - 1;
      var init := calls[..last];
      RepeatsInPrefix(db, calls, dropped);
      RepetitionsChangeNothing(db, init, dropped);
      if last in dropped {
        RepetitionIsNoOp(db, calls);
        assert Without(calls, dropped) == Without(init, dropped);
      } else {
        var kept := Without(init, dropped) + [calls[last]];
        assert kept[..|kept| - 1] == Without(init, dropped);
      }
    }
  }

  /** A failed call leaves no record, so its repetition is a new attempt: here the second one succeeds. */
  lemma FailedCallsRunAgain() returns (calls: seq<Call>)
    ensures |calls| == 3 && calls[0] == calls[2]
    ensures var db := Empty({"p"}, 0);
            && Execute(db, calls[0].command, calls[0].context).1.Failed?
            && Run(db, calls) != Run(db, calls[..2])
  {
    var schedule := Call(Transition("q", ScheduleRequest, 1), Context("a", "d"));
    var create := Call(CreateRequest("q", "p"), Context("b", "d"));
    calls := [schedule, create, schedule];
    var db := Empty({"p"}, 0);
    assert calls[..2][..1] == [schedule] && calls[..2][..1][..0] == [];
    assert Run(db, [schedule]) == db by {
      assert [schedule][..0] == [];
    }
    var two := Run(db, calls[..2]);
    assert two == Execute(db, create.command, create.context).0;
    assert "q" in two.requests && two.requests["q"].state == Requested;
    assert Run(db, calls) == Execute(two, schedule.command, schedule.context).0;
  }
}

/** The one way in which the relay loses an event, and that there is no other. */
module RelayLoss {
  import opened Events
  import opened Relay
  import opened RelayLedger

  /** The event is still selectable, or in one of the two streams. */
  predicate Kept(s: Machine, id: nat)
    requires id < |s.rows|
  {
    var row := s.rows[id];
    (!row.published && row.attempts < 10) || Entry(id, row.event) in s.stream || Entry(id, row.event) in s.dlq
  }

  predicate MovesSucceed(steps: seq<Step>) {
    forall step :: step in steps && step.DeadLetter? ==> step.ok
  }

  /** A run in which moves to the dead-letter stream may, or may not, throw, and which has lost the event. */
  predicate Loses(mayThrow: bool, steps: seq<Step>, id: nat) {
    (mayThrow || MovesSucceed(steps)) && id < |Run(Init, steps).rows| && !Kept(Run(Init, steps), id)
  }

  lemma {:induction false} AllDelivered(s: Machine, steps: seq<Step>)
    requires s.hist.undelivered == {} && MovesSucceed(steps)
    ensures Run(s, steps).hist.undelivered == {}
    decreases |steps|
  {
    if steps != [] {
      assert steps[0] in steps;
      StepDelivers(s, steps[0]);
      hide Next;
      AllDelivered(Next(s, steps[0]), steps[1..]);
    }
  }

  lemma StepDelivers(s: Machine, step: Step)
    requires s.hist.undelivered == {} && (step.DeadLetter? ==> step.ok)
    ensures Next(s, step).hist.undelivered == {}
  {
    hide Batch;
  }

  // ----- Ten refusals and a move that throws -----

  /** One event, refused k times so far, and no tick under way. */
  predicate Refused(s: Machine, event: Event, k: nat) {
    && s.rows == [Row(event, false, k)] && s.stream == [] && s.dlq == []
    && s.timer && !s.running && s.ticks == []
  }

  /** Its next tick is at the row, whose publish is refused. */
  lemma RefusedAgain(s: Machine, event: Event, k: nat)
    requires Refused(s, event, k) && k < MAX_ATTEMPTS
    ensures var s' := Next(Next(Next(s, Fire), Query(0, true)), Publish(0, PublishOutcome.Refused));
            var phase := if k + 1 >= MAX_ATTEMPTS then DeadLettering else Accounting;
            && s'.ticks == [Working([Snapshot(0, event, k)], 0, phase)] && s'.running
            && s' == s.(ticks := s'.ticks, running := true, hist := s'.hist)
  {
    assert PendingFrom(s.rows, 1) == [];
    assert PendingFrom(s.rows, 0) == [Snapshot(0, event, k)] + [];
    assert Batch(s.rows) == [Snapshot(0, event, k)];
    var s1 := Next(s, Fire);
    assert s1.rows == s.rows && s1.ticks == [Querying];
    var s2 := Next(s1, Query(0, true));
    assert s2 == s1.(ticks := [Working([Snapshot(0, event, k)], 0, Publishing)]);
    hide Batch;
  }

  lemma {:induction false} NineRefusals(event: Event, k: nat) returns (steps: seq<Step>)
    requires k < MAX_ATTEMPTS
    ensures Refused(Run(Init, steps), event, k)
  {
    if k == 0 {
      steps := [Commit(event), StartRelay];
      assert steps[1..] == [StartRelay] && [StartRelay][1..] == [];
      assert Run(Next(Init, Commit(event)), [StartRelay]) == Next(Next(Init, Commit(event)), StartRelay);
    } else {
      var before := NineRefusals(event, k - 1);
      var s := Run(Init, before);
      RefusedAgain(s, event, k - 1);
      var a, b, c, d := Fire, Query(0, true), Publish(0, PublishOutcome.Refused), Account(0, Applied);
      var s3 := Next(Next(Next(s, a), b), c);
      assert Refused(Next(s3, d), event, k);
      hide Next;
      RunFour(s, a, b, c, d);
      RunConcat(Init, before, [a, b, c, d]);
      steps := before + [a, b, c, d];
    }
  }

  /** The tenth refusal's move throws: the row is marked and in neither stream. */
  lemma MoveThrows(s: Machine, event: Event)
    requires Refused(s, event, 9)
    ensures var s3 := Next(Next(Next(s, Fire), Query(0, true)), Publish(0, PublishOutcome.Refused));
            var s5 := Next(Next(s3, DeadLetter(0, false)), Account(0, Applied));
            s5.rows == [Row(event, true, 10)] && s5.stream == [] && s5.dlq == []
  {
    RefusedAgain(s, event, 9);
    hide Batch, PendingFrom;
  }

  /** At the tenth refusal the move throws, and the row is marked as published all the same. */
  lemma ThrowingMoveLoses(event: Event) returns (steps: seq<Step>)
    ensures Loses(true, steps, 0)
  {
    var before := NineRefusals(event, 9);
    var s := Run(Init, before);
    MoveThrows(s, event);
    hide Next;
    var a, b, c := Fire, Query(0, true), Publish(0, PublishOutcome.Refused);
    var d, e := DeadLetter(0, false), Account(0, Applied);
    var s3 := Next(Next(Next(s, a), b), c);
    var s5 := Next(Next(s3, d), e);
    RunFour(s, a, b, c, d);
    RunConcat(Init, before, [a, b, c, d]);
    assert Run(Next(s3, d), [e]) == s5;
    RunConcat(Init, before + [a, b, c, d], [e]);
    steps := before + [a, b, c, d] + [e];
  }

  /** Nothing is lost in all runs if and only if no move to the dead-letter stream can throw. */
  lemma NothingLostIff(mayThrow: bool)
    ensures (forall steps, id: nat :: !Loses(mayThrow, steps, id)) <==> !mayThrow
  {
    if mayThrow {
      var steps := ThrowingMoveLoses(StationOnline("a"));
      assert Loses(mayThrow, steps, 0);
    } else {
      forall steps, id: nat ensures !Loses(mayThrow, steps, id) {
        if MovesSucceed(steps) && id < |Run(Init, steps).rows| {
          NoLoss(steps, id);
          AllDelivered(Init, steps);
        }
      }
    }
  }
}

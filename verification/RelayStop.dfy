/** What a stop of the relay, and a crash, put an end to, and what an idle relay leaves alone. */
module RelayStop {
  import opened Events
  import opened Relay
  import opened RelaySafety
  import L = RelayLedger
  import T = RelayTick

  /** The relay is not started along the run. */
  predicate NoStart(steps: seq<Step>) {
    StartRelay !in steps
  }

  /** Nothing has been published, moved, counted or marked since; events may have been committed. */
  predicate Quiet(s: Machine, s': Machine) {
    && s'.stream == s.stream && s'.dlq == s.dlq && s'.hist == s.hist
    && s.rows <= s'.rows
  }

  lemma StoppedStep(s: Machine, step: Step)
    requires !s.timer && step != StartRelay
    ensures var s' := Next(s, step);
            !s'.timer && |s'.ticks| <= |s.ticks| && (s.ticks == [] && step != Crash ==> Quiet(s, s'))
    ensures s.ticks == [] && step == Crash ==> Quiet(s, Next(s, step))
  {
    hide Batch;
  }

  lemma {:induction false} StaysStopped(s: Machine, steps: seq<Step>)
    requires !s.timer && NoStart(steps)
    ensures var s' := Run(s, steps);
            !s'.timer && |s'.ticks| <= |s.ticks| && (s.ticks == [] ==> Quiet(s, s'))
    decreases |steps|
  {
    if steps != [] {
      assert steps[0] in steps;
      StoppedStep(s, steps[0]);
      hide Next;
      StaysStopped(Next(s, steps[0]), steps[1..]);
    }
  }

  /**
   * After a stop or a crash no tick passes the guard in any later run without a start, and once the tick in
   * flight has ended nothing is published, dead-lettered, counted or marked any more.
   */
  lemma StopEndsPublishing(before: seq<Step>, stop: Step, during: seq<Step>, after: seq<Step>)
    requires (stop == StopRelay || stop == Crash) && NoStart(during) && NoStart(after)
    ensures var s := Next(Run(Init, before), stop);
            var ended := Run(s, during);
            && |ended.ticks| <= |s.ticks| <= |Run(Init, before).ticks|
            && (stop == Crash ==> s.ticks == [])
            && (ended.ticks == [] ==> Quiet(ended, Run(ended, after)) && Run(ended, after).ticks == [])
  {
    var s := Next(Run(Init, before), stop);
    StaysStopped(s, during);
    StaysStopped(Run(s, during), after);
  }

  // ----- A stop is immediate exactly between ticks -----

  /** A tick in flight can still do something. */
  lemma TickGoesOn(s: Machine) returns (steps: seq<Step>)
    requires Inv(s) && s.ticks != []
    ensures NoStart(steps) && !Quiet(s, Run(s, steps))
  {
    var t := s.ticks[0];
    assert t in s.ticks && TickOk(s, t);
    if t.Querying? {
      steps := QueryGoesOn(s);
    } else {
      var step := match t.phase
        case Publishing => Publish(0, Acked)
        case Marking => Mark(0, Applied)
        case DeadLettering => DeadLetter(0, true)
        case Accounting => Account(0, Applied);
      steps := [step];
      assert Run(s, steps) == Next(s, step);
      RowGoesOn(s, step);
    }
  }

  lemma RowGoesOn(s: Machine, step: Step)
    requires Inv(s) && s.ticks != [] && s.ticks[0].Working?
    requires step == match s.ticks[0].phase
                     case Publishing => Publish(0, Acked)
                     case Marking => Mark(0, Applied)
                     case DeadLettering => DeadLetter(0, true)
                     case Accounting => Account(0, Applied)
    ensures !Quiet(s, Next(s, step))
  {
    assert s.ticks[0] in s.ticks && TickOk(s, s.ticks[0]);
    hide Batch, InLog, GivenUp, Settled, InBatch;
  }

  /** With an event to find, the query of the tick leads to a publish. */
  lemma QueryGoesOn(s: Machine) returns (steps: seq<Step>)
    requires Inv(s) && s.ticks != [] && s.ticks[0].Querying?
    ensures NoStart(steps) && !Quiet(s, Run(s, steps))
  {
    var a, b, c := Commit(StationOnline("a")), Query(0, true), Publish(0, Acked);
    var s1 := Next(s, a);
    steps := [a, b, c];
    assert steps[1..] == [b, c] && [b, c][1..] == [c];
    PendingFromSpec(s1.rows, 0);
    assert Selected(s1.rows[|s.rows|]) && InBatch(PendingFrom(s1.rows, 0), |s.rows|);
    assert Batch(s1.rows) != [];
    var s2 := Next(s1, b);
    assert At(s2, 0, Publishing) && s2.hist == s.hist;
    var s3 := Next(s2, c);
    assert |s3.hist.tried| == |s.hist.tried| + 1;
    assert Run(s2, [c]) == s3;
    assert Run(s1, [b, c]) == s3;
  }

  /** A stop takes effect at once if and only if no tick is in flight. */
  lemma StopIsImmediateIff(before: seq<Step>)
    ensures var s := Run(Init, before);
            s.ticks == [] <==> forall after :: NoStart(after) ==> Quiet(s, Run(Next(s, StopRelay), after))
  {
    var s := Run(Init, before);
    L.Reachable(before);
    var stopped := Next(s, StopRelay);
    if s.ticks == [] {
      forall after | NoStart(after) ensures Quiet(s, Run(stopped, after)) {
        StaysStopped(stopped, after);
      }
    } else {
      NextKeeps(s, StopRelay);
      var after := TickGoesOn(stopped);
      assert !Quiet(s, Run(stopped, after));
    }
  }

  // ----- What an idle relay leaves alone -----

  /** A tick whose query fails, and a tick that finds nothing pending, leave everything as it was. */
  lemma EmptyTickChangesNothing(s: Machine, queryOk: bool, io: T.Outcomes)
    requires !s.running && s.ticks == []
    requires queryOk ==> forall row :: row in s.rows ==> row.published || row.attempts >= 10
    ensures T.AfterTick(s, queryOk, io) == s
  {
    var all := PendingFrom(s.rows, 0);
    PendingFromSpec(s.rows, 0);
    hide PendingFrom, Ascending;
    assert all != [] ==> Selected(s.rows[all[0].id]) && s.rows[all[0].id] in s.rows;
  }
}

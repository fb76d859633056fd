/** What holds of every run of commands, sweeps and restarts. */
module CommandSafety {
  import opened Wrappers
  import opened CommandErrors
  import opened Commands
  import P = PendingRequests

  lemma {:induction false} RunKeeps(lim: Limits, s: Machine, steps: seq<Step>)
    requires Inv(s)
    ensures Inv(Run(lim, s, steps))
    ensures MarginCovers(lim) && Safe(lim, s) ==> Safe(lim, Run(lim, s, steps))
    decreases |steps|
  {
    if steps != [] {
      NextKeeps(lim, s, steps[0]);
      if MarginCovers(lim) && Safe(lim, s) { NextSafe(lim, s, steps[0]); }
      hide Next, Inv, Safe;
      RunKeeps(lim, Next(lim, s, steps[0]), steps[1..]);
    }
  }

  lemma Reachable(lim: Limits, steps: seq<Step>)
    ensures Inv(Run(lim, Init, steps))
    ensures MarginCovers(lim) ==> Safe(lim, Run(lim, Init, steps))
  {
    assert Inv(Init) && Safe(lim, Init);
    RunKeeps(lim, Init, steps);
  }

  /** The sweeper never writes the row of a command whose sender is still at work. */
  lemma SweepSparesLive(lim: Limits, steps: seq<Step>, id: string)
    requires MarginCovers(lim)
    requires var s := Run(lim, Init, steps); id in s.rows && id in s.senders
    ensures var s := Run(lim, Init, steps); Swept(lim, s.now, s.rows)[id] == s.rows[id]
  {
    Reachable(lim, steps);
    var s := Run(lim, Init, steps);
    assert s.now <= Deadline(lim, s.senders[id]);
  }

  /** A step writes a row's terminal status at most once, and only writing changes an existing row. */
  lemma StepRow(lim: Limits, s: Machine, step: Step, id: string)
    requires Inv(s) && id in s.rows
    ensures var s' := Next(lim, s, step);
            id in s'.rows && (s'.rows[id] == s.rows[id] || s'.rows[id].writes == s.rows[id].writes + 1)
  {
  }

  lemma {:induction false} RunWrites(lim: Limits, s: Machine, steps: seq<Step>, id: string)
    requires Inv(s) && id in s.rows
    ensures var s' := Run(lim, s, steps);
            && id in s'.rows && s'.rows[id].writes >= s.rows[id].writes
            && (s'.rows[id].writes == s.rows[id].writes ==> s'.rows[id] == s.rows[id])
    decreases |steps|
  {
    if steps != [] {
      StepRow(lim, s, steps[0], id);
      NextKeeps(lim, s, steps[0]);
      hide Next, Inv;
      RunWrites(lim, Next(lim, s, steps[0]), steps[1..], id);
    }
  }

  /** Over all runs with crashes and restarts, a row gets one terminal status and keeps it. */
  lemma OneTerminalStatus(lim: Limits, before: seq<Step>, after: seq<Step>, id: string)
    requires MarginCovers(lim) && id in Run(lim, Init, before).rows
    ensures var s, s' := Run(lim, Init, before), Run(lim, Run(lim, Init, before), after);
            && s.rows[id].writes == (if s.rows[id].status == Pending then 0 else 1)
            && id in s'.rows
            && (s.rows[id].status != Pending ==> s'.rows[id] == s.rows[id])
  {
    Reachable(lim, before);
    var s := Run(lim, Init, before);
    assert RowOk(s, id);
    RunWrites(lim, s, after, id);
    RunKeeps(lim, s, after);
  }

  /** At most one result event per message id, and exactly one if and only if the sender wrote the row. */
  lemma ResultEventOnce(lim: Limits, steps: seq<Step>, id: string)
    ensures var s := Run(lim, Init, steps);
            ResultCount(s.outbox, id) == if id in s.rows && s.rows[id].answered then 1 else 0
  {
    Reachable(lim, steps);
    var s := Run(lim, Init, steps);
    assert id in s.rows ==> RowOk(s, id);
  }

  /** A sweep leaves pending only what is younger than the timeout and the margin; a restart leaves nothing. */
  lemma NothingStaysPending(lim: Limits, steps: seq<Step>, id: string)
    requires var s := Run(lim, Init, steps); s.phase == Serving && id in s.rows
    ensures var s := Run(lim, Init, steps);
            var swept := Next(lim, s, Sweep(true));
            swept.rows[id].status == Pending ==> swept.rows[id].sentAt >= s.now - lim.timeout - 60_000
    ensures var s := Run(lim, Init, steps);
            var restarted := Next(lim, Next(lim, Next(lim, s, Crash), Boot), Cleanup(true));
            restarted.phase == Serving && restarted.rows[id].status != Pending
  {
  }

  // ----- The margin is exact -----

  /** A command that uses every limit to the full, swept just before its final update. */
  function SlowCommand(lim: Limits): seq<Step> {
    [Boot, Cleanup(true), Insert("m", "s", 0 - lim.skew, true), Advance(lim.insert), Register("m")]
    + [Advance(lim.insert + lim.timeout + lim.timer), Expire("m"),
       Advance(lim.insert + lim.timeout + lim.timer + lim.finish), Sweep(true), Finish("m", true)]
  }

  lemma RunFive(lim: Limits, s: Machine, a: Step, b: Step, c: Step, d: Step, e: Step)
    ensures Run(lim, s, [a, b, c, d, e]) == Next(lim, Next(lim, Next(lim, Next(lim, Next(lim, s, a), b), c), d), e)
  {
    hide Next;
    var s1 := Next(lim, s, a);
    var s2 := Next(lim, s1, b);
    var s3 := Next(lim, s2, c);
    var s4 := Next(lim, s3, d);
    assert [a, b, c, d, e][1..] == [b, c, d, e] && [b, c, d, e][1..] == [c, d, e] && [c, d, e][1..] == [d, e]
           && [d, e][1..] == [e] && [e][1..] == [];
    assert Run(lim, s4, [e]) == Next(lim, s4, e);
    assert Run(lim, s3, [d, e]) == Run(lim, s4, [e]);
    assert Run(lim, s2, [c, d, e]) == Run(lim, s3, [d, e]);
    assert Run(lim, s1, [b, c, d, e]) == Run(lim, s2, [c, d, e]);
  }

  function Waits(lim: Limits): Machine {
    Machine(lim.insert, Serving, map["m" := Row("s", Pending, 0 - lim.skew, None, 0, false)],
            P.State(map["m" := 0], [P.Promise("m", None, true, 0)]),
            map["m" := Waiting("s", 0, lim.insert + lim.timeout)], {"m"}, [])
  }

  function Expires(lim: Limits): Machine {
    var outcome := P.Failed(P.TimeoutMessage("m"));
    Machine(lim.insert + lim.timeout + lim.timer + lim.finish, Serving,
            map["m" := Row("s", Pending, 0 - lim.skew, None, 0, false)],
            P.State(map[], [P.Promise("m", Some(outcome), false, 1)]),
            map["m" := Finishing("s", lim.insert + lim.timeout + lim.timer, outcome)], {"m"}, [])
  }

  lemma SlowCommandWaits(lim: Limits)
    ensures Run(lim, Init, SlowCommand(lim)[..5]) == Waits(lim)
  {
    var a := SlowCommand(lim)[..5];
    assert a == [Boot, Cleanup(true), Insert("m", "s", 0 - lim.skew, true), Advance(lim.insert), Register("m")];
    RunFive(lim, Init, Boot, Cleanup(true), Insert("m", "s", 0 - lim.skew, true), Advance(lim.insert), Register("m"));
    var s2 := Init.(phase := Serving);
    assert Next(lim, Next(lim, Init, Boot), Cleanup(true)) == s2;
    var s3 := s2.(used := {"m"}, senders := map["m" := Inserting("s", 0)],
                  rows := map["m" := Row("s", Pending, 0 - lim.skew, None, 0, false)]);
    assert Next(lim, s2, Insert("m", "s", 0 - lim.skew, true)) == s3;
    assert OnTime(lim, s3.senders, lim.insert);
    assert Next(lim, s3, Advance(lim.insert)) == s3.(now := lim.insert);
  }

  lemma SlowCommandExpires(lim: Limits)
    ensures var due := lim.insert + lim.timeout + lim.timer;
            Next(lim, Next(lim, Next(lim, Waits(lim), Advance(due)), Expire("m")), Advance(due + lim.finish))
            == Expires(lim)
  {
  }

  lemma SweptThenFinished(lim: Limits)
    requires !MarginCovers(lim)
    ensures var s := Next(lim, Next(lim, Expires(lim), Sweep(true)), Finish("m", true));
            "m" in s.rows && s.rows["m"].writes == 2
  {
  }

  lemma SlowCommandWrittenTwice(lim: Limits)
    requires !MarginCovers(lim)
    ensures var s := Run(lim, Init, SlowCommand(lim)); "m" in s.rows && s.rows["m"].writes == 2
  {
    hide Next, Waits, Expires;
    var due := lim.insert + lim.timeout + lim.timer;
    SlowCommandWaits(lim);
    SlowCommandExpires(lim);
    SweptThenFinished(lim);
    RunConcat(lim, Init, SlowCommand(lim)[..5], SlowCommand(lim)[5..]);
    assert SlowCommand(lim) == SlowCommand(lim)[..5] + SlowCommand(lim)[5..];
    assert SlowCommand(lim)[5..]
           == [Advance(due), Expire("m"), Advance(due + lim.finish), Sweep(true), Finish("m", true)];
    RunFive(lim, Waits(lim), Advance(due), Expire("m"), Advance(due + lim.finish), Sweep(true), Finish("m", true));
  }

  /** The 60 s margin is exactly what is needed: rows are written once in all runs iff it covers the delays. */
  lemma MarginIsExact(lim: Limits)
    ensures MarginCovers(lim) <==>
            forall steps: seq<Step>, id: string :: id in Run(lim, Init, steps).rows ==>
              Run(lim, Init, steps).rows[id].writes <= 1
  {
    if MarginCovers(lim) {
      forall steps: seq<Step>, id: string | id in Run(lim, Init, steps).rows
        ensures Run(lim, Init, steps).rows[id].writes <= 1
      {
        Reachable(lim, steps);
      }
    } else {
      SlowCommandWrittenTwice(lim);
    }
  }
}

/**
 * The scheduler of the command sweeper: one module variable for the timer, and a start that awaits the
 * cleanup first.
 */
module Sweeper {
  /**
   * timer tells that the module variable holds a timer, starting counts the starts that are past the
   * guard and still clean up, and intervals the timers that tick.
   */
  datatype State = State(timer: bool, starting: nat, intervals: int)

  const Init := State(false, 0, 0)

  datatype Step = EnterStart | FinishStart | Stop

  function Next(s: State, step: Step): State {
    match step
    case EnterStart => if s.timer then s else s.(starting := s.starting + 1)
    case FinishStart => if s.starting == 0 then s else State(true, s.starting - 1, s.intervals + 1)
    case Stop => if s.timer then s.(timer := false, intervals := s.intervals - 1) else s
  }

  function Run(s: State, steps: seq<Step>): State
    decreases |steps|
  {
    if steps == [] then s else Run(Next(s, steps[0]), steps[1..])
  }

  /** The variable tells exactly whether the one timer ticks, and at most one start is under way, before it. */
  predicate Tidy(s: State) {
    s.intervals == (if s.timer then 1 else 0) && s.starting <= (if s.timer then 0 else 1)
  }

  /** A step keeps this exactly if it does not start the sweeper while another start still cleans up. */
  lemma TidyIff(s: State, step: Step)
    requires Tidy(s)
    ensures Tidy(Next(s, step)) <==> !(step == EnterStart && s.starting > 0)
  {
  }

  /** Along the run no start overlaps another. */
  predicate NoOverlap(s: State, steps: seq<Step>)
    decreases |steps|
  {
    steps == [] || (!(steps[0] == EnterStart && s.starting > 0) && NoOverlap(Next(s, steps[0]), steps[1..]))
  }

  lemma {:induction false} RunTidy(s: State, steps: seq<Step>)
    requires Tidy(s) && NoOverlap(s, steps)
    ensures Tidy(Run(s, steps))
    decreases |steps|
  {
    if steps != [] {
      TidyIff(s, steps[0]);
      RunTidy(Next(s, steps[0]), steps[1..]);
    }
  }

  /** With starts that do not overlap there is never a second timer, and a stop leaves none. */
  lemma SingleTimer(steps: seq<Step>)
    requires NoOverlap(Init, steps)
    ensures var s := Run(Init, steps);
            s.intervals <= 1 && (s.starting == 0 ==> Next(s, Stop).intervals == 0)
  {
    RunTidy(Init, steps);
  }

  predicate NoNewStart(steps: seq<Step>) {
    EnterStart !in steps
  }

  lemma {:induction false} StaysStopped(s: State, steps: seq<Step>)
    requires s == Init && NoNewStart(steps)
    ensures Run(s, steps) == Init
    decreases |steps|
  {
    if steps != [] {
      assert steps[0] in steps;
      StaysStopped(Next(s, steps[0]), steps[1..]);
    }
  }

  /** The variable's timer ticks; others may tick beside it. */
  lemma {:induction false} RunTicks(s: State, steps: seq<Step>)
    requires s.timer ==> s.intervals >= 1
    requires s.intervals >= 0
    ensures var s' := Run(s, steps); s'.intervals >= if s'.timer then 1 else 0
    decreases |steps|
  {
    if steps != [] { RunTicks(Next(s, steps[0]), steps[1..]); }
  }

  /**
   * In every run, overlapping starts included: after a stop no timer ticks until the next start, in all
   * later runs, if and only if no start is under way and no timer ticks but the variable's.
   */
  lemma StopHoldsIff(before: seq<Step>)
    ensures var s := Run(Init, before);
            s.starting == 0 && s.intervals == (if s.timer then 1 else 0)
            <==> forall later :: NoNewStart(later) ==> Run(Next(s, Stop), later).intervals == 0
  {
    var s := Run(Init, before);
    RunTicks(Init, before);
    var stopped := Next(s, Stop);
    if s.starting == 0 && s.intervals == (if s.timer then 1 else 0) {
      forall later | NoNewStart(later) ensures Run(stopped, later).intervals == 0 {
        StaysStopped(stopped, later);
      }
    } else {
      var later := if s.starting == 0 then [] else [FinishStart];
      assert NoNewStart(later);
      assert s.starting > 0 ==> later[1..] == [] && Run(stopped, later) == Next(stopped, FinishStart);
      assert Run(stopped, later).intervals > 0;
    }
  }

  /** Two overlapping starts leave two timers, and a stop clears only the second. */
  lemma OverlappingStartsLeak()
    ensures var s := Run(Init, [EnterStart, EnterStart, FinishStart, FinishStart]);
            s.intervals == 2 && Next(s, Stop) == State(false, 0, 1)
  {
    var a, b := EnterStart, FinishStart;
    assert [a, a, b, b][1..] == [a, b, b] && [a, b, b][1..] == [b, b] && [b, b][1..] == [b];
    assert Run(State(false, 1, 0), [a, b, b]) == Run(State(false, 2, 0), [b, b]);
    assert Run(State(false, 2, 0), [b, b]) == Run(State(true, 1, 1), [b]);
    assert Run(State(true, 1, 1), [b]) == State(true, 0, 2);
  }

  /** A stop while the start still cleans up is lost. */
  lemma StopDuringStartIsLost()
    ensures Run(Init, [EnterStart, Stop, FinishStart]) == State(true, 0, 1)
  {
    var a, b, c := EnterStart, Stop, FinishStart;
    assert [a, b, c][1..] == [b, c] && [b, c][1..] == [c];
    assert Run(State(false, 1, 0), [b, c]) == Run(State(false, 1, 0), [c]);
    assert Run(State(false, 1, 0), [c]) == State(true, 0, 1);
  }
}

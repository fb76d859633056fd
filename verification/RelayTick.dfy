/** One uninterrupted tick as a function of its I/O outcomes, and what it does to the rows of its batch. */
module RelayTick {
  import opened Relay
  import opened RelaySafety

  /** The outcomes that the I/O calls for one row would have; not all of them are consulted. */
  datatype Attempt = Attempt(publish: PublishOutcome, mark: WriteOutcome, deadLetter: bool, account: WriteOutcome)

  type Outcomes = nat -> Attempt

  /** The catch block for the current row. */
  function AfterFailure(s: Machine, a: Attempt): Machine {
    DoAccount(DoDeadLetter(s, 0, a.deadLetter), 0, a.account)
  }

  /** The loop body of a tick for the current row. */
  function AfterRow(s: Machine, a: Attempt): Machine {
    var published := DoPublish(s, 0, a.publish);
    if !a.publish.Acked? then AfterFailure(published, a)
    else
      var marked := DoMark(published, 0, a.mark);
      if a.mark == Applied then marked else AfterFailure(marked, a)
  }

  /** The rest of the batch from row i on; it stops when the tick has ended. */
  function AfterRows(s: Machine, i: nat, count: nat, io: Outcomes): Machine
    decreases count - i
  {
    if i >= count || s.ticks == [] then s else AfterRows(AfterRow(s, io(i)), i + 1, count, io)
  }

  function AfterTick(s: Machine, queryOk: bool, io: Outcomes): Machine {
    AfterRows(DoQuery(DoFire(s), 0, queryOk), 0, |Batch(s.rows)|, io)
  }

  // ----- A tick is one of the runs of the relay -----

  lemma RunTwo(s: Machine, a: Step, b: Step)
    ensures Run(s, [a, b]) == Next(Next(s, a), b)
  {
    assert [a, b][1..] == [b];
    assert Run(Next(s, a), [b]) == Next(Next(s, a), b);
  }

  lemma AfterRowIsRun(s: Machine, a: Attempt) returns (steps: seq<Step>)
    ensures Run(s, steps) == AfterRow(s, a)
  {
    hide DoPublish, DoMark, DoDeadLetter, DoAccount;
    var p, m, d, c := Publish(0, a.publish), Mark(0, a.mark), DeadLetter(0, a.deadLetter), Account(0, a.account);
    assert Run(s, [p]) == Next(s, p);
    RunTwo(s, p, m);
    if !a.publish.Acked? {
      RunTwo(Next(s, p), d, c);
      RunConcat(s, [p], [d, c]);
      steps := [p] + [d, c];
    } else if a.mark == Applied {
      steps := [p, m];
    } else {
      RunTwo(Next(Next(s, p), m), d, c);
      RunConcat(s, [p, m], [d, c]);
      steps := [p, m] + [d, c];
    }
  }

  lemma {:induction false} AfterRowsIsRun(s: Machine, i: nat, count: nat, io: Outcomes) returns (steps: seq<Step>)
    ensures Run(s, steps) == AfterRows(s, i, count, io)
    decreases count - i
  {
    if i >= count || s.ticks == [] {
      steps := [];
    } else {
      var first := AfterRowIsRun(s, io(i));
      var rest := AfterRowsIsRun(AfterRow(s, io(i)), i + 1, count, io);
      steps := first + rest;
      RunConcat(s, first, rest);
    }
  }

  /** So everything proved of runs holds across ticks. */
  lemma AfterTickIsRun(s: Machine, queryOk: bool, io: Outcomes) returns (steps: seq<Step>)
    ensures Run(s, steps) == AfterTick(s, queryOk, io)
  {
    hide DoFire, DoQuery, Batch, AfterRows;
    var q := Query(0, queryOk);
    var rest := AfterRowsIsRun(Next(Next(s, Fire), q), 0, |Batch(s.rows)|, io);
    assert [Fire, q][1..] == [q];
    assert Run(Next(s, Fire), [q]) == Next(Next(s, Fire), q);
    steps := [Fire, q] + rest;
    RunConcat(s, [Fire, q], rest);
  }

  // ----- Draining: ticks whose database updates succeed, whatever the publishes do -----

  ghost predicate DatabaseUp(io: Outcomes) {
    forall i :: io(i).mark == Applied && io(i).account == Applied
  }

  ghost predicate Idle(s: Machine) {
    Inv(s) && s.timer && s.ticks == []
  }

  /** The current row is published or has one attempt more, no other row changes, and the tick moves on. */
  ghost predicate Progress(s: Machine, s': Machine)
    requires |s.ticks| == 1 && s.ticks[0].Working? && s.ticks[0].pos < |s.ticks[0].batch|
  {
    var ev, t := Current(s, 0), s.ticks[0];
    && Inv(s') && s'.timer == s.timer && ev.id < |s.rows| == |s'.rows|
    && s'.rows == s.rows[ev.id := s'.rows[ev.id]]
    && (s'.rows[ev.id].published || s'.rows[ev.id].attempts == s.rows[ev.id].attempts + 1)
    && s'.ticks == if t.pos + 1 < |t.batch| then [Working(t.batch, t.pos + 1, Publishing)] else []
  }

  lemma CaughtProgress(s: Machine, a: Attempt)
    requires Inv(s) && a.account == Applied && (At(s, 0, DeadLettering) || At(s, 0, Accounting))
    ensures Progress(s, AfterFailure(s, a))
  {
    assert TickOk(s, s.ticks[0]);
    var given := DoDeadLetter(s, 0, a.deadLetter);
    DeadLetterKeeps(s, 0, a.deadLetter);
    AccountKeeps(given, 0, Applied);
    assert At(given, 0, Accounting) && given.rows == s.rows;
  }

  lemma MarkProgress(s: Machine)
    requires Inv(s) && At(s, 0, Marking)
    ensures Progress(s, DoMark(s, 0, Applied))
  {
    assert TickOk(s, s.ticks[0]);
    MarkKeeps(s, 0, Applied);
  }

  /** A publish changes no row; it leads to the mark, or to the catch block. */
  lemma PublishLeads(s: Machine, outcome: PublishOutcome)
    requires Inv(s) && At(s, 0, Publishing)
    ensures var s' := DoPublish(s, 0, outcome);
            && Inv(s') && s'.rows == s.rows && s'.timer == s.timer
            && s'.ticks == [s.ticks[0].(phase := s'.ticks[0].phase)]
            && (if outcome == Acked then At(s', 0, Marking) else At(s', 0, DeadLettering) || At(s', 0, Accounting))
  {
    PublishKeeps(s, 0, outcome);
  }

  lemma RowProgress(s: Machine, a: Attempt)
    requires Inv(s) && At(s, 0, Publishing) && a.mark == Applied && a.account == Applied
    ensures Progress(s, AfterRow(s, a))
  {
    var published := DoPublish(s, 0, a.publish);
    PublishLeads(s, a.publish);
    if a.publish == Acked {
      MarkProgress(published);
    } else {
      CaughtProgress(published, a);
    }
    hide DoPublish, DoMark, AfterFailure, Inv;
  }
}

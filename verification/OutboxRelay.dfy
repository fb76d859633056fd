/** The relay as the program runs it: module-level flags, and a tick that loops over its batch. */
module OutboxRelayProgram {
  import opened Events
  import opened Relay
  import opened RelaySafety
  import opened RelayTick

  /** Where the tick is after the current row: at the next one, or past its `finally`. */
  function Moved(s: Machine, alive: bool): Machine
    requires |s.ticks| == 1 && s.ticks[0].Working?
  {
    var t := s.ticks[0];
    if alive && t.pos + 1 < |t.batch| then s.(ticks := [Working(t.batch, t.pos + 1, Publishing)])
    else s.(running := false, ticks := [])
  }

  /** The catch block as one change of the tables. */
  lemma FailureEffect(s: Machine, a: Attempt)
    requires |s.ticks| == 1 && s.ticks[0].Working? && s.ticks[0].pos < |s.ticks[0].batch|
    requires Current(s, 0).id < |s.rows|
    ensures var ev, last := Current(s, 0), LastAttempt(Current(s, 0));
            var moved := if !last then s else if a.deadLetter then s.(dlq := s.dlq + [Entry(ev.id, ev.event)])
                         else s.(hist := s.hist.(undelivered := s.hist.undelivered + {ev.id}));
            AfterFailure(Caught(s, 0), a) ==
            Moved(if a.account == NotApplied then
                    moved.(hist := moved.hist.(uncounted := moved.hist.uncounted + multiset{ev.id}))
                  else moved.(rows := CountRow(s.rows, ev)), a.account == Applied)
  {
    var given := DoDeadLetter(Caught(s, 0), 0, a.deadLetter);
    assert given.ticks == [s.ticks[0].(phase := Accounting)] && given.rows == s.rows;
  }

  class OutboxRelay {
    // outbox_event, csms:core:events and csms:core:events:dlq
    var rows: seq<Row>
    var stream: seq<Entry>
    var dlq: seq<Entry>
    // module state
    var timer: bool
    var running: bool
    ghost var ticks: seq<Tick>
    ghost var hist: History

    constructor ()
      ensures State() == Init
    {
      rows, stream, dlq, timer, running := [], [], [], false, false;
      ticks, hist := [], Init.hist;
    }

    ghost function State(): Machine
      reads this
    {
      Machine(rows, stream, dlq, timer, running, ticks, hist)
    }

    method StartOutboxRelay()
      modifies this`timer
      ensures State() == Next(old(State()), StartRelay) && timer
    {
      if timer { return; }
      timer := true;
    }

    method StopOutboxRelay()
      modifies this`timer
      ensures State() == Next(old(State()), StopRelay) && !timer
    {
      if timer { timer := false; }
    }

    /** writeOutbox, inside the caller's transaction. */
    method WriteOutbox(event: Event)
      modifies this`rows
      ensures State() == Next(old(State()), Commit(event))
    {
      rows := rows + [Row(event, false, 0)];
    }

    method PublishEventToStream(ev: Snapshot, outcome: PublishOutcome) returns (thrown: bool)
      modifies this`stream, this`hist
      ensures thrown == !outcome.Acked?
      ensures stream == if outcome.Refused? then old(stream) else old(stream) + [Entry(ev.id, ev.event)]
      ensures var h, one := old(hist), multiset{ev.id};
              hist == h.(tried := h.tried + [ev.id], refused := if outcome.Refused? then h.refused + one else h.refused,
                         ackLost := if outcome.AckLost? then h.ackLost + one else h.ackLost)
    {
      hist := hist.(tried := hist.tried + [ev.id]);
      if outcome.Refused? {
        hist := hist.(refused := hist.refused + multiset{ev.id});
        return true;
      }
      stream := stream + [Entry(ev.id, ev.event)];
      if outcome.AckLost? {
        hist := hist.(ackLost := hist.ackLost + multiset{ev.id});
      }
      return outcome.AckLost?;
    }

    method MoveToDeadLetter(ev: Snapshot, ok: bool)
      modifies this`dlq, this`hist
      ensures dlq == if ok then old(dlq) + [Entry(ev.id, ev.event)] else old(dlq)
      ensures hist == if ok then old(hist) else old(hist).(undelivered := old(hist).undelivered + {ev.id})
    {
      if ok {
        dlq := dlq + [Entry(ev.id, ev.event)];
      } else {
        hist := hist.(undelivered := hist.undelivered + {ev.id});
      }
    }

    /** The catch block; false when the row's own update throws and the error leaves the loop. */
    method HandleFailure(ghost m: Machine, ev: Snapshot, a: Attempt) returns (alive: bool)
      requires |ticks| == 1 && ticks[0].Working? && ticks[0].pos < |ticks[0].batch|
      requires ev == ticks[0].batch[ticks[0].pos] && ev.id < |rows|
      requires m == Caught(State(), 0)
      modifies this`rows, this`dlq, this`hist
      ensures alive == (a.account == Applied) && |rows| == |old(rows)|
      ensures AfterFailure(m, a) == Moved(State(), alive)
    {
      FailureEffect(State(), a);
      hide AfterFailure, Caught;
      var nextAttempts := ev.attempts + 1;
      if nextAttempts >= MAX_ATTEMPTS {
        MoveToDeadLetter(ev, a.deadLetter);
      }
      if a.account == NotApplied {
        hist := hist.(uncounted := hist.uncounted + multiset{ev.id});
        return false;
      }
      if nextAttempts >= MAX_ATTEMPTS {
        rows := rows[ev.id := rows[ev.id].(attempts := nextAttempts, published := true)];
      } else {
        rows := rows[ev.id := rows[ev.id].(attempts := nextAttempts)];
      }
      return a.account == Applied;
    }

    /** The try block: publish, then mark. */
    method TryPublish(ev: Snapshot, a: Attempt) returns (failed: bool, ghost m: Machine)
      requires At(State(), 0, Publishing) && |ticks| == 1 && ev == Current(State(), 0) && ev.id < |rows|
      modifies this`rows, this`stream, this`hist
      ensures failed == !(a.publish.Acked? && a.mark == Applied)
      ensures |rows| == |old(rows)|
      ensures m == (if failed then Caught(State(), 0) else Moved(State(), true))
      ensures m == var published := DoPublish(old(State()), 0, a.publish);
                   if a.publish.Acked? then DoMark(published, 0, a.mark) else published
    {
      failed := PublishEventToStream(ev, a.publish);
      m := DoPublish(old(State()), 0, a.publish);
      if failed { return; }
      assert m == Goto(State(), 0, Marking);
      hide DoPublish;
      m := DoMark(m, 0, a.mark);
      if a.mark != NotApplied {
        rows := rows[ev.id := rows[ev.id].(published := true)];
      }
      if a.mark == Applied {
        hist := hist.(marked := hist.marked + {ev.id});
      } else {
        hist := hist.(unmarked := hist.unmarked + multiset{ev.id});
        failed := true;
      }
    }

    /** The loop body. */
    method ProcessEvent(ev: Snapshot, a: Attempt) returns (alive: bool)
      requires At(State(), 0, Publishing) && |ticks| == 1 && ev == Current(State(), 0) && ev.id < |rows|
      modifies this`rows, this`stream, this`dlq, this`hist
      ensures alive == ((a.publish.Acked? && a.mark == Applied) || a.account == Applied)
      ensures |rows| == |old(rows)|
      ensures AfterRow(old(State()), a) == Moved(State(), alive)
    {
      hide AfterFailure, DoPublish, DoMark, Caught;
      var failed, m := TryPublish(ev, a);
      if !failed { return true; }
      alive := HandleFailure(m, ev, a);
    }

    /** The interval callback. A callback that finds another tick past the guard does nothing. */
    method Tick(queryOk: bool, io: Outcomes)
      requires Inv(State()) && timer
      modifies this
      ensures Inv(State())
      ensures old(running) ==> State() == old(State())
      ensures !old(running) ==> State() == AfterTick(old(State()), queryOk, io)
    {
      if running { return; }
      ghost var s0 := State();
      running := true;
      ticks := [Querying];
      assert State() == DoFire(s0);
      NextKeeps(s0, Fire);
      QueryKeeps(DoFire(s0), 0, queryOk);
      var pending := Batch(rows);
      if queryOk && |pending| > 0 {
        ticks := [Working(pending, 0, Publishing)];
        assert State() == DoQuery(DoFire(s0), 0, queryOk);
        Loop(s0, pending, io);
      }
      running := false;
      ticks := [];
    }

    /** The for loop of a tick over its batch. */
    method Loop(ghost s0: Machine, pending: seq<Snapshot>, io: Outcomes)
      requires Inv(State()) && running && |pending| > 0
      requires ticks == [Working(pending, 0, Publishing)]
      requires AfterTick(s0, true, io) == AfterRows(State(), 0, |pending|, io)
      modifies this
      ensures Inv(State().(running := false, ticks := []))
      ensures AfterTick(s0, true, io) == State().(running := false, ticks := [])
    {
      hide AfterTick, AfterRow, Inv, TickOk;
      var i := 0;
      ghost var m := State();
      while i < |pending|
        invariant i <= |pending|
        invariant Inv(m) && AfterTick(s0, true, io) == AfterRows(m, i, |pending|, io)
        invariant i < |pending| ==> m == State() && ticks == [Working(pending, i, Publishing)]
        invariant i == |pending| ==> m == State().(running := false, ticks := [])
      {
        var ev := pending[i];
        CurrentInTable(m);
        var alive := ProcessEvent(ev, io(i));
        RowKeeps(m, io(i));
        ghost var m' := AfterRow(m, io(i));
        assert AfterRows(m, i, |pending|, io) == AfterRows(m', i + 1, |pending|, io);
        m := m';
        if !alive { return; }
        i := i + 1;
        if i < |pending| { ticks := [Working(pending, i, Publishing)]; }
      }
    }
  }

  lemma CurrentInTable(s: Machine)
    requires Inv(s) && At(s, 0, Publishing)
    ensures |s.ticks| == 1 && Current(s, 0).id < |s.rows|
  {
    assert TickOk(s, s.ticks[0]);
  }

  lemma RowKeeps(s: Machine, a: Attempt)
    requires Inv(s)
    ensures Inv(AfterRow(s, a))
  {
    var published := DoPublish(s, 0, a.publish);
    var marked := DoMark(published, 0, a.mark);
    PublishKeeps(s, 0, a.publish);
    MarkKeeps(published, 0, a.mark);
    FailureKeeps(published, a);
    FailureKeeps(marked, a);
    hide DoPublish, DoMark, AfterFailure, Inv;
  }

  lemma FailureKeeps(s: Machine, a: Attempt)
    requires Inv(s)
    ensures Inv(AfterFailure(s, a))
  {
    DeadLetterKeeps(s, 0, a.deadLetter);
    AccountKeeps(DoDeadLetter(s, 0, a.deadLetter), 0, a.account);
    hide DoDeadLetter, DoAccount, Inv;
  }
}

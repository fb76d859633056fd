/** Sessions and relay together: what a consumer of the stream sees. */
module EndToEnd {
  import R = Relay
  import RS = RelaySafety
  import RL = RelayLedger
  import RD = RelayDrain
  import RT = RelayTick
  import S = Sessions
  import SL = SessionLedger

  /** The relay's table holds what the handlers committed, in commit order. */
  ghost predicate SameOutbox(s: S.Store, m: R.Machine) {
    |m.rows| == |s.outbox| && forall i :: 0 <= i < |m.rows| ==> m.rows[i].event == s.outbox[i]
  }

  /**
   * Whatever the handlers do, and whatever marks fail or processes crash: as long as no publish is
   * refused, a consumer has the start of a session before any stop of it.
   */
  lemma ConsumerSeesStartFirst(handlers: seq<S.Step>, relay: seq<R.Step>, k: nat) returns (j: nat)
    requires SameOutbox(S.Run(S.Empty, handlers), R.Run(R.Init, relay))
    requires var m := R.Run(R.Init, relay);
             && m.hist.refused == multiset{}
             && k < |m.stream| && m.stream[k].event.TransactionStopped?
    ensures var m := R.Run(R.Init, relay);
            && j < k && m.stream[j].event.TransactionStarted?
            && m.stream[j].event.transactionId == m.stream[k].event.transactionId
            && m.stream[j].event.stationId == m.stream[k].event.stationId
            && m.stream[j].event.sessionId == m.stream[k].event.sessionId
  {
    var m, s := R.Run(R.Init, relay), S.Run(S.Empty, handlers);
    RL.Reachable(relay);
    var e := m.stream[k];
    assert e in m.stream;
    var i := SL.StopFollowsStart(handlers, e.id);
    assert SL.StartOf(s.outbox, i, s.outbox[e.id]);
    RL.StreamInOrder(relay, k, i);
    j :| 0 <= j < k && m.stream[..k][j].id == i;
    assert m.stream[j] in m.stream;
  }

  /** Once nothing is pending, each session event has been appended, dead-lettered, or lost by a throwing move. */
  lemma DrainedSessionsDelivered(handlers: seq<S.Step>, relay: seq<R.Step>, id: nat)
    requires SameOutbox(S.Run(S.Empty, handlers), R.Run(R.Init, relay))
    requires id < |S.Run(S.Empty, handlers).outbox|
    requires R.Batch(R.Run(R.Init, relay).rows) == []
    ensures var s, m := S.Run(S.Empty, handlers), R.Run(R.Init, relay);
            R.Entry(id, s.outbox[id]) in m.stream || R.Entry(id, s.outbox[id]) in m.dlq || id in m.hist.undelivered
  {
    var m := R.Run(R.Init, relay);
    RL.NoLoss(relay, id);
    RS.PendingFromSpec(m.rows, 0);
    assert !RS.InBatch(R.PendingFrom(m.rows, 0), id);
  }

  /** No step changes the event of a committed row. */
  lemma {:induction false} EventsStay(m: R.Machine, steps: seq<R.Step>, id: nat)
    requires id < |m.rows|
    ensures id < |R.Run(m, steps).rows| && R.Run(m, steps).rows[id].event == m.rows[id].event
    decreases |steps|
  {
    if steps != [] {
      var m1 := R.Next(m, steps[0]);
      assert id < |m1.rows| && m1.rows[id].event == m.rows[id].event by { EventStays(m, steps[0], id); }
      hide R.Next;
      EventsStay(m1, steps[1..], id);
    }
  }

  lemma EventStays(m: R.Machine, step: R.Step, id: nat)
    requires id < |m.rows|
    ensures id < |R.Next(m, step).rows| && R.Next(m, step).rows[id].event == m.rows[id].event
  {
    hide R.Batch;
  }

  /**
   * From any state that handlers, relay, failures and crashes can lead to, with no tick under way: after
   * work/100 + 10 ticks with the database up, an event that the handlers have written is in the stream or
   * the dead-letter stream, or a move there threw. The work is that of the event and those before it;
   * neither failing publishes nor new events delay it further.
   */
  lemma TicksDeliver(handlers: seq<S.Step>, relay: seq<R.Step>, id: nat, n: nat, io: nat -> RT.Outcomes,
                     arrivals: RD.Arrivals)
    requires SameOutbox(S.Run(S.Empty, handlers), R.Run(R.Init, relay))
    requires R.Run(R.Init, relay).timer && R.Run(R.Init, relay).ticks == []
    requires forall i :: RT.DatabaseUp(io(i))
    requires id < |S.Run(S.Empty, handlers).outbox|
    requires n >= RD.Work(R.Run(R.Init, relay).rows[..id + 1]) / 100 + 10
    ensures var s, m := S.Run(S.Empty, handlers), RD.AfterTicks(R.Run(R.Init, relay), n, io, arrivals);
            R.Entry(id, s.outbox[id]) in m.stream || R.Entry(id, s.outbox[id]) in m.dlq || id in m.hist.undelivered
  {
    var s, m0 := S.Run(S.Empty, handlers), R.Run(R.Init, relay);
    RL.Reachable(relay);
    hide RS.Inv, RT.AfterTick, RD.Work, S.Run;
    RD.RowIsPublished(m0, id, n, io, arrivals);
    var ticks := RD.AfterTicksIsRun(m0, n, io, arrivals);
    R.RunConcat(R.Init, relay, ticks);
    EventsStay(m0, ticks, id);
    var m := RD.AfterTicks(m0, n, io, arrivals);
    assert m == R.Run(R.Init, relay + ticks);
    hide R.Run, RD.AfterTicks;
    RL.NoLoss(relay + ticks, id);
    assert m0.rows[id].event == s.outbox[id];
  }
}

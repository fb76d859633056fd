/**
 * What every run of the session writers keeps: the row invariant across all five of them, the
 * agreement of rows with the outbox, absorbing end states, and bills that replay.
 */
module SessionLedger {
  import opened Wrappers
  import opened Events
  import opened Billing
  import opened Sessions

  // ----- The outbox read back -----

  /** How many TransactionStarted events a transaction has. */
  function StartCount(outbox: seq<Event>, id: int): nat {
    if outbox == [] then 0
    else
      var last := outbox[|outbox| - 1];
      StartCount(outbox[..|outbox| - 1], id) + (if last.TransactionStarted? && last.transactionId == id then 1 else 0)
  }

  /** The last TransactionStopped event of a transaction. */
  function LastStop(outbox: seq<Event>, id: int): Option<Event>
    ensures LastStop(outbox, id).Some? ==>
              LastStop(outbox, id).value.TransactionStopped? && LastStop(outbox, id).value.transactionId == id
  {
    if outbox == [] then None
    else
      var last := outbox[|outbox| - 1];
      if last.TransactionStopped? && last.transactionId == id then Some(last)
      else LastStop(outbox[..|outbox| - 1], id)
  }

  /** Entry j is the start of the session that `e` stops. */
  predicate StartOf(outbox: seq<Event>, j: nat, e: Event)
    requires e.TransactionStopped?
  {
    && j < |outbox| && outbox[j].TransactionStarted?
    && outbox[j].transactionId == e.transactionId && outbox[j].stationId == e.stationId
    && outbox[j].sessionId == e.sessionId && outbox[j].meterStart == e.meterStart
  }

  // ----- The invariant -----

  /** Which ids a row of each status may carry, and at which price it can be billed. */
  predicate RowOk(id: int, t: Tx) {
    && (t.ocppTransactionId.Some? ==> t.unitPriceVnd.GetOr(DEFAULT_UNIT_PRICE) == DEFAULT_UNIT_PRICE)
    && (t.ocppTransactionId.Some? ==> t.ocppTransactionId.value == id)
    && (t.status == Active ==> t.ocppTransactionId.Some?)
    && (t.status == Pending || t.status == Failed ==> t.ocppTransactionId.None?)
  }

  /** The row carries exactly the bill of its last TransactionStopped event. */
  predicate BillOk(t: Tx, stop: Option<Event>)
    requires stop.Some? ==> stop.value.TransactionStopped?
  {
    match stop
    case None => t.meterEnd.None? && t.costVnd.None?
    case Some(e) =>
      && t.status == Stopped && t.meterEnd == Some(e.meterStop) && t.costVnd == Some(e.costVnd)
      && t.unitPriceVnd == Some(e.unitPrice) && t.timeEnd == Some(e.timeEnd)
      && e.costVnd == CostVnd(t.meterStart, e.meterStop, e.unitPrice)
  }

  /** A start event describes its row; a stop event bills its own readings at the default price. */
  predicate EventOk(txs: map<int, Tx>, e: Event) {
    && (e.TransactionStopped? ==>
      && e.unitPrice == DEFAULT_UNIT_PRICE && e.totalKwh == TotalKwh(e.meterStart, e.meterStop)
      && e.costVnd == CostVnd(e.meterStart, e.meterStop, e.unitPrice))
    && (e.TransactionStarted? ==>
      && e.transactionId in txs && txs[e.transactionId].stationId == e.stationId
      && txs[e.transactionId].sessionId == e.sessionId && txs[e.transactionId].meterStart == e.meterStart
      && txs[e.transactionId].ocppTransactionId.Some?)
  }

  ghost predicate StopsFollowStarts(outbox: seq<Event>) {
    forall k :: 0 <= k < |outbox| && outbox[k].TransactionStopped? ==>
      exists j: nat :: j < k && StartOf(outbox, j, outbox[k])
  }

  ghost predicate Inv(s: Store) {
    && (forall id :: id in s.txs ==> RowOk(id, s.txs[id]))
    && (forall id :: id in s.txs ==> StartCount(s.outbox, id) == if s.txs[id].ocppTransactionId.Some? then 1 else 0)
    && (forall id :: id in s.txs ==> BillOk(s.txs[id], LastStop(s.outbox, id)))
    && (forall id :: id !in s.txs ==> StartCount(s.outbox, id) == 0 && LastStop(s.outbox, id).None?)
    && (forall e :: e in s.outbox ==> EventOk(s.txs, e))
    && StopsFollowStarts(s.outbox)
  }

  // ----- Appending events that are not about transactions -----

  predicate Neutral(e: Event) {
    !e.TransactionStarted? && !e.TransactionStopped?
  }

  lemma AppendNeutral(outbox: seq<Event>, e: Event)
    requires Neutral(e) && StopsFollowStarts(outbox)
    ensures StopsFollowStarts(outbox + [e])
    ensures forall id :: StartCount(outbox + [e], id) == StartCount(outbox, id)
    ensures forall id :: LastStop(outbox + [e], id) == LastStop(outbox, id)
  {
    var more := outbox + [e];
    assert more[..|more| - 1] == outbox;
    KeepStops(outbox, e);
  }

  /** A longer outbox keeps the order of what it already holds. */
  lemma KeepStops(outbox: seq<Event>, e: Event)
    requires StopsFollowStarts(outbox)
    ensures forall k :: 0 <= k < |outbox| && outbox[k].TransactionStopped? ==>
                          exists j: nat :: j < k && StartOf(outbox + [e], j, (outbox + [e])[k])
  {
    var more := outbox + [e];
    forall k | 0 <= k < |outbox| && outbox[k].TransactionStopped?
      ensures exists j: nat :: j < k && StartOf(more, j, more[k])
    {
      var j: nat :| j < k && StartOf(outbox, j, outbox[k]);
      assert StartOf(more, j, more[k]);
    }
  }

  lemma NeutralKeeps(s: Store, e: Event)
    requires Inv(s) && Neutral(e)
    ensures Inv(s.(outbox := s.outbox + [e]))
  {
    AppendNeutral(s.outbox, e);
  }

  // ----- Row updates without events -----

  /** The update touches neither what events record nor whether the row was started. */
  predicate QuietUpdate(t: Tx, t': Tx) {
    && t'.ocppTransactionId == t.ocppTransactionId && t'.sessionId == t.sessionId && t'.stationId == t.stationId
    && t'.meterStart == t.meterStart && t'.meterEnd == t.meterEnd && t'.costVnd == t.costVnd
    && t'.unitPriceVnd == t.unitPriceVnd
    && (t' == t || (t.status == Pending && t'.status == Failed)
        || ((t.status == Pending || t.status == Active) && t'.status == Stopped))
  }

  lemma QuietKeeps(s: Store, txs: map<int, Tx>)
    requires Inv(s) && txs.Keys == s.txs.Keys && forall id :: id in txs ==> QuietUpdate(s.txs[id], txs[id])
    ensures Inv(s.(txs := txs))
  {
    hide StartCount, StopsFollowStarts, CostVnd, TotalKwh;
    forall e | e in s.outbox ensures EventOk(txs, e) {
      assert EventOk(s.txs, e);
    }
  }

  // ----- Preservation by the writers -----

  lemma StartKeeps(s: Store, id: int, t: Tx, e: Event)
    requires Inv(s)
    requires id in s.txs ==> s.txs[id].ocppTransactionId.None? && s.txs[id].status == Pending
    requires t.unitPriceVnd.GetOr(DEFAULT_UNIT_PRICE) == DEFAULT_UNIT_PRICE
    requires t.status == Active && t.ocppTransactionId == Some(id) && t.meterEnd.None? && t.costVnd.None?
    requires e.TransactionStarted? && e.transactionId == id && e.stationId == t.stationId
    requires e.sessionId == t.sessionId && e.meterStart == t.meterStart
    ensures Inv(s.(txs := s.txs[id := t], outbox := s.outbox + [e]))
  {
    var s' := s.(txs := s.txs[id := t], outbox := s.outbox + [e]);
    assert s'.outbox[..|s'.outbox| - 1] == s.outbox;
    KeepStops(s.outbox, e);
    forall f | f in s'.outbox ensures EventOk(s'.txs, f) {
      if f != e {
        assert f in s.outbox && EventOk(s.txs, f);
      }
    }
  }

  lemma {:induction false} CountFindsStart(outbox: seq<Event>, id: int) returns (j: nat)
    requires StartCount(outbox, id) > 0
    ensures j < |outbox| && outbox[j].TransactionStarted? && outbox[j].transactionId == id
  {
    var n := |outbox| - 1;
    if outbox[n].TransactionStarted? && outbox[n].transactionId == id {
      j := n;
    } else {
      j := CountFindsStart(outbox[..n], id);
    }
  }

  lemma StopKeeps(s: Store, stationId: StationId, p: StopMessage, id: int, connectorOk: bool)
    requires Inv(s) && id in s.txs && HasOcppId(stationId, p.transactionId)(s.txs[id])
    ensures Inv(Stop(s, stationId, p, id, connectorOk))
  {
    var s' := Stop(s, stationId, p, id, connectorOk);
    var e := s'.outbox[|s.outbox|];
    assert s'.outbox == s.outbox + [e] && s'.outbox[..|s'.outbox| - 1] == s.outbox;
    KeepStops(s.outbox, e);
    var j := CountFindsStart(s.outbox, id);
    assert EventOk(s.txs, s.outbox[j]);
    assert StartOf(s'.outbox, j, e);
    forall f | f in s'.outbox ensures EventOk(s'.txs, f) {
      if f != e {
        assert f in s.outbox && EventOk(s.txs, f);
      }
    }
  }

  lemma AutoStopQuiet(txs: map<int, Tx>, stuck: Tx -> bool, now: int, reason: string)
    ensures forall id :: id in txs ==> QuietUpdate(txs[id], AutoStop(txs, stuck, now, reason)[id])
  {
  }

  lemma NotifyKeeps(s: Store, stationId: StationId, p: StatusMessage, now: int, sweepOk: bool)
    requires Inv(s)
    ensures Inv(Notify(s, stationId, p, now, sweepOk))
  {
    if p.connectorId != 0 {
      var key := (stationId, p.connectorId);
      var errorCode := ErrorCode(p.errorCode);
      var changed := ConnectorStatusChanged(key.0, key.1, p.status, errorCode);
      var faults := FaultEvents(key, CurrentFault(s.connectors, key), errorCode);
      assert faults == [] || (faults == [faults[0]] && Neutral(faults[0]));
      var n := NotifyConnector(s, key, p);
      assert n == s.(connectors := n.connectors, outbox := s.outbox + [changed] + faults);
      hide Inv, FaultEvents, NotifyConnector, ErrorCode, AutoStop;
      NeutralKeeps(s, changed);
      var s1 := s.(outbox := s.outbox + [changed]);
      if faults != [] {
        NeutralKeeps(s1, faults[0]);
      } else {
        assert s1.outbox + faults == s1.outbox;
      }
      ConnectorsKeep(s.(outbox := n.outbox), n.connectors);
      var stuck := (t: Tx) => t.stationId == stationId && t.connectorId == p.connectorId;
      AutoStopQuiet(n.txs, stuck, now, "StatusNotification:Available");
      QuietKeeps(n, AutoStop(n.txs, stuck, now, "StatusNotification:Available"));
    }
  }

  lemma ConnectorsKeep(s: Store, connectors: Connectors)
    requires Inv(s)
    ensures Inv(s.(connectors := connectors))
  {
  }

  lemma CreateKeeps(s: Store, step: Step)
    requires Inv(s) && step.CreatePending?
    ensures Inv(Next(s, step))
  {
    hide StartCount, StopsFollowStarts, CostVnd, TotalKwh;
    var s' := Next(s, step);
    forall e | e in s'.outbox ensures EventOk(s'.txs, e) {
      assert EventOk(s.txs, e);
    }
  }

  lemma StartStepKeeps(s: Store, step: Step)
    requires Inv(s) && step.StartTransaction?
    ensures Inv(Next(s, step))
  {
    var s' := Next(s, step);
    if s' != s {
      var key := if step.found.Some? then step.found.value else step.id;
      assert key in s.txs ==> RowOk(key, s.txs[key]);
      StartKeeps(s, key, s'.txs[key], s'.outbox[|s.outbox|]);
      hide Inv;
      ConnectorsKeep(s'.(connectors := s.connectors), s'.connectors);
    }
  }

  lemma BootKeeps(s: Store, stationId: StationId, now: int, sweepOk: bool)
    requires Inv(s)
    ensures Inv(Boot(s, stationId, now, sweepOk))
  {
    hide Inv, AutoStop;
    NeutralKeeps(s, StationOnline(stationId));
    var stuck := (t: Tx) => t.stationId == stationId;
    AutoStopQuiet(s.txs, stuck, now, "BootNotification:Reset");
    QuietKeeps(s.(outbox := s.outbox + [StationOnline(stationId)]),
               AutoStop(s.txs, stuck, now, "BootNotification:Reset"));
  }

  lemma NextKeeps(s: Store, step: Step)
    requires Inv(s)
    ensures Inv(Next(s, step))
  {
    hide Inv;
    match step
    case CreatePending(_, _, _, _, _, _, _) => CreateKeeps(s, step);
    case StartTransaction(_, _, _, _, _, _, _) => StartStepKeeps(s, step);
    case StopTransaction(stationId, p, found, ok, connectorOk) =>
      if ok && found.Some? && FindFirst(s.txs, HasOcppId(stationId, p.transactionId), found) {
        StopKeeps(s, stationId, p, found.value, connectorOk);
      }
      hide Stop;
    case BootNotification(stationId, now, ok, sweepOk) => BootKeeps(s, stationId, now, sweepOk);
    case StatusNotification(stationId, p, now, ok, sweepOk) => NotifyKeeps(s, stationId, p, now, sweepOk);
    case SessionTimeout(now, ok) => QuietKeeps(s, TimeOut(s.txs, now));
    case DeleteStation(stationId) => ConnectorsKeep(s, WithoutStation(s.connectors, stationId));
    case OtherEvent(event) => if !SessionEvent(event) { NeutralKeeps(s, event); }
  }

  lemma {:induction false} RunKeeps(s: Store, steps: seq<Step>)
    requires Inv(s)
    ensures Inv(Run(s, steps))
    decreases |steps|
  {
    if steps != [] {
      NextKeeps(s, steps[0]);
      RunKeeps(Next(s, steps[0]), steps[1..]);
    }
  }

  // ----- Theorems about every run -----

  lemma Reachable(steps: seq<Step>)
    ensures Inv(Run(Empty, steps))
  {
    RunKeeps(Empty, steps);
  }

  predicate Terminal(t: Tx) {
    t.status == Stopped || t.status == Failed
  }

  predicate MayBecome(before: Status, after: Status) {
    before == after || before == Pending || (before == Active && after == Stopped)
  }

  /** The step re-delivers or delivers a StopTransaction for this transaction id. */
  predicate StopsId(step: Step, id: int) {
    step.StopTransaction? && step.stop.transactionId == id
  }

  /** One step: rows stay, statuses follow the life cycle, and only its own stop changes an ended row. */
  lemma StepRow(s: Store, step: Step, id: int)
    requires Inv(s) && id in s.txs
    ensures var s' := Next(s, step);
            && id in s'.txs && MayBecome(s.txs[id].status, s'.txs[id].status)
            && (Terminal(s.txs[id]) && !StopsId(step, id) ==> s'.txs[id] == s.txs[id])
  {
    assert RowOk(id, s.txs[id]);
    if step.StopTransaction? && step.found.Some? && step.found.value in s.txs {
      assert RowOk(step.found.value, s.txs[step.found.value]);
    }
  }

  lemma {:induction false} RunRow(s: Store, steps: seq<Step>, id: int)
    requires Inv(s) && id in s.txs
    ensures var s' := Run(s, steps);
            && id in s'.txs
            && (Terminal(s.txs[id]) ==> s'.txs[id].status == s.txs[id].status)
            && (s.txs[id].status == Active ==> s'.txs[id].status == Active || s'.txs[id].status == Stopped)
            && (Terminal(s.txs[id]) && (forall step :: step in steps ==> !StopsId(step, id)) ==>
                s'.txs[id] == s.txs[id])
    decreases |steps|
  {
    if steps != [] {
      StepRow(s, steps[0], id);
      NextKeeps(s, steps[0]);
      RunRow(Next(s, steps[0]), steps[1..], id);
    }
  }

  /** No handler or job ever moves a Stopped or Failed transaction, or brings a running one back to Pending. */
  lemma EndStatesAbsorb(before: seq<Step>, after: seq<Step>, id: int)
    requires id in Run(Empty, before).txs
    ensures var s, s' := Run(Empty, before), Run(Run(Empty, before), after);
            && id in s'.txs
            && (Terminal(s.txs[id]) ==> s'.txs[id].status == s.txs[id].status)
            && (s.txs[id].status == Active ==> s'.txs[id].status == Active || s'.txs[id].status == Stopped)
  {
    Reachable(before);
    RunRow(Run(Empty, before), after, id);
  }

  /**
   * The split that the atomic handlers rule out: a start whose lookup ran before the timeout job
   * and whose update runs after it brings the failed session back.
   */
  lemma StaleStartRevives(stationId: StationId, sessionId: string, p: StartMessage, now: int)
    requires p.idTag == sessionId && now > PENDING_TIMEOUT_MS
    ensures var read := Next(Empty, CreatePending(1, sessionId, stationId, p.connectorId, None, None, 0));
            && FindFirst(read.txs, AwaitsStart(stationId, p.idTag), Some(1))
            && var late := Next(read, SessionTimeout(now, true));
            && 1 in late.txs && late.txs[1].status == Failed
            && StartPending(late, stationId, p, 1, true).txs[1].status == Active
  {
  }

  /** A transaction has one start event if its OCPP id is set, which is then its own id, and none otherwise. */
  lemma StartEventsAgree(steps: seq<Step>, id: int)
    ensures var s := Run(Empty, steps);
            StartCount(s.outbox, id) == if id in s.txs && s.txs[id].ocppTransactionId == Some(id) then 1 else 0
  {
    Reachable(steps);
    var s := Run(Empty, steps);
    assert id in s.txs ==> RowOk(id, s.txs[id]);
  }

  /** Every stop event follows a start event of the same transaction, station, session and first reading. */
  lemma StopFollowsStart(steps: seq<Step>, k: nat) returns (j: nat)
    requires k < |Run(Empty, steps).outbox| && Run(Empty, steps).outbox[k].TransactionStopped?
    ensures var outbox := Run(Empty, steps).outbox; j < k && StartOf(outbox, j, outbox[k])
  {
    Reachable(steps);
    var outbox := Run(Empty, steps).outbox;
    j :| j < k && StartOf(outbox, j, outbox[k]);
  }

  /**
   * The last stop event of a transaction is its row's bill, at the default price, and a row without
   * one has no bill.
   */
  lemma BillsReplay(steps: seq<Step>, id: int)
    requires id in Run(Empty, steps).txs
    ensures var s := Run(Empty, steps);
            var t := s.txs[id];
            match LastStop(s.outbox, id)
            case None => t.meterEnd.None? && t.costVnd.None?
            case Some(e) =>
              && t.status == Stopped && t.meterEnd == Some(e.meterStop) && t.unitPriceVnd == Some(e.unitPrice)
              && t.costVnd == Some(e.costVnd) && t.timeEnd == Some(e.timeEnd)
              && e.unitPrice == 3500
              && var wh := if e.meterStop > t.meterStart then e.meterStop - t.meterStart else 0;
                 1000 * e.costVnd <= wh * 3500 < 1000 * (e.costVnd + 1)
  {
    Reachable(steps);
    var s := Run(Empty, steps);
    assert BillOk(s.txs[id], LastStop(s.outbox, id)) && RowOk(id, s.txs[id]);
    match LastStop(s.outbox, id)
    case None =>
    case Some(e) =>
      LastStopAmong(s.outbox, id);
      CostIsFloor(s.txs[id].meterStart, e.meterStop, e.unitPrice);
  }

  /** In every run, each stop event bills the energy between its own readings, and states it in kWh. */
  lemma StopsAreBilled(steps: seq<Step>, e: Event)
    requires e in Run(Empty, steps).outbox && e.TransactionStopped?
    ensures var wh := if e.meterStop > e.meterStart then e.meterStop - e.meterStart else 0;
            && 1000 * e.costVnd <= wh * 3500 < 1000 * (e.costVnd + 1) && e.unitPrice == 3500
            && e.totalKwh * 1000.0 == wh as real
  {
    Reachable(steps);
    assert EventOk(Run(Empty, steps).txs, e);
    CostIsFloor(e.meterStart, e.meterStop, e.unitPrice);
    hide Inv, TotalKwh, CostVnd;
  }

  /** In every run, a row is billed exactly if it has a last reading, for the energy between its own readings. */
  lemma RowsAreBilled(steps: seq<Step>, id: int)
    requires id in Run(Empty, steps).txs
    ensures var t := Run(Empty, steps).txs[id];
            && (t.costVnd.Some? <==> t.meterEnd.Some?)
            && (t.costVnd.Some? ==>
                  var wh := if t.meterEnd.value > t.meterStart then t.meterEnd.value - t.meterStart else 0;
                  && 1000 * t.costVnd.value <= wh * 3500 < 1000 * (t.costVnd.value + 1)
                  && t.unitPriceVnd == Some(3500))
  {
    BillsReplay(steps, id);
    hide Run;
  }

  lemma {:induction false} LastStopAmong(outbox: seq<Event>, id: int)
    requires LastStop(outbox, id).Some?
    ensures LastStop(outbox, id).value in outbox
  {
    var n := |outbox| - 1;
    if !(outbox[n].TransactionStopped? && outbox[n].transactionId == id) {
      LastStopAmong(outbox[..n], id);
    }
  }

  /**
   * Re-delivering a StopTransaction, however much else happened since, leaves every transaction row as it
   * is and repeats the first event word for word. The connector is set to Available once more, even if
   * another session has started to charge there since.
   */
  lemma RedeliveryIsIdempotent(before: seq<Step>, stationId: StationId, p: StopMessage, found: Option<int>, c: bool,
                               between: seq<Step>, found': Option<int>, c': bool)
    requires var s := Run(Empty, before); found.Some? && FindFirst(s.txs, HasOcppId(stationId, p.transactionId), found)
    requires forall step :: step in between ==> !StopsId(step, p.transactionId)
    requires var s1 := Next(Run(Empty, before), StopTransaction(stationId, p, found, true, c));
             FindFirst(Run(s1, between).txs, HasOcppId(stationId, p.transactionId), found')
    ensures var s := Run(Empty, before);
            var s1 := Next(s, StopTransaction(stationId, p, found, true, c));
            var s2 := Run(s1, between);
            var s3 := Next(s2, StopTransaction(stationId, p, found', true, c'));
            && s3.txs == s2.txs
            && p.transactionId in s2.txs
            && (var key := (stationId, s2.txs[p.transactionId].connectorId);
                s3.connectors == if c' && key in s2.connectors then WithStatus(s2.connectors, key, "Available")
                                 else s2.connectors)
            && |s1.outbox| == |s.outbox| + 1 && |s3.outbox| == |s2.outbox| + 1
            && s3.outbox[|s2.outbox|] == s1.outbox[|s.outbox|]
  {
    var s := Run(Empty, before);
    Reachable(before);
    var first := StopTransaction(stationId, p, found, true, c);
    var s1 := Next(s, first);
    NextKeeps(s, first);
    var id := p.transactionId;
    assert RowOk(found.value, s.txs[found.value]);
    assert found == Some(id) && s1.txs[id] == Billed(s.txs[id], p);
    var s2 := Run(s1, between);
    RunKeeps(s1, between);
    RunRow(s1, between, id);
    assert s2.txs[id] == s1.txs[id];
    assert HasOcppId(stationId, id)(s2.txs[id]);
    assert found'.Some? && RowOk(found'.value, s2.txs[found'.value]);
    assert found' == Some(id);
    assert Billed(s2.txs[id], p) == s2.txs[id];
    var s3 := Next(s2, StopTransaction(stationId, p, found', true, c'));
    assert s3.txs == s2.txs[id := s2.txs[id]];
  }
}

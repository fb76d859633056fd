/** The session writers as handlers over mutable tables; each is proved to be its step. */
module SessionHandlers {
  import opened Wrappers
  import opened Events
  import opened Billing
  import opened Sessions
  import opened SessionLedger

  datatype StartReply = Rejected | Accepted(transactionId: int)

  lemma TimeoutStep(s: Store, now: int, ok: bool)
    requires Inv(s)
    ensures Next(s, SessionTimeout(now, ok)) == (if ok then s.(txs := TimeOut(s.txs, now)) else s)
    ensures Inv(Next(s, SessionTimeout(now, ok)))
  {
    NextKeeps(s, SessionTimeout(now, ok));
    hide Inv, TimeOut;
  }

  class CoreDatabase {
    var txs: map<int, Tx>
    var connectors: Connectors
    var outbox: seq<Event>

    constructor ()
      ensures State() == Empty
    {
      txs, connectors, outbox := map[], map[], [];
    }

    function State(): Store
      reads this
    {
      Store(txs, connectors, outbox)
    }

    method WriteOutbox(event: Event)
      modifies this`outbox
      ensures outbox == old(outbox) + [event]
    {
      outbox := outbox + [event];
    }

    method FindPending(stationId: StationId, idTag: string) returns (found: Option<int>)
      ensures FindFirst(txs, AwaitsStart(stationId, idTag), found)
    {
      if id :| id in txs && txs[id].sessionId == idTag && txs[id].stationId == stationId && txs[id].status == Pending {
        return Some(id);
      }
      return None;
    }

    method FindStarted(stationId: StationId, transactionId: int) returns (found: Option<int>)
      ensures FindFirst(txs, HasOcppId(stationId, transactionId), found)
    {
      if id :| id in txs && txs[id].ocppTransactionId == Some(transactionId) && txs[id].stationId == stationId {
        return Some(id);
      }
      return None;
    }

    /** The transaction of a start without a pending row. */
    method CreateActive(stationId: StationId, p: StartMessage, id: int, sessionId: string)
      requires id !in txs
      modifies this`txs, this`outbox
      ensures State() == StartUnmatched(old(State()), stationId, p, id, sessionId)
    {
      var created := Tx(sessionId, None, stationId, p.connectorId, Some(p.idTag), Active, p.meterStart, None,
                        p.timestamp, None, None, None, None);
      txs := txs[id := created];
      var updated := created.(ocppTransactionId := Some(id));
      txs := txs[id := updated];
      assert txs == old(txs)[id := updated];
      WriteOutbox(TransactionStarted(id, updated.sessionId, stationId, updated.connectorId, updated.idTag,
                                     updated.meterStart, updated.timeStart, updated.unitPriceVnd));
    }

    /** The transaction of a start for a pending row, and the connector update after it. */
    method ActivatePending(stationId: StationId, p: StartMessage, id: int, connectorOk: bool)
      requires id in txs
      modifies this
      ensures State() == StartPending(old(State()), stationId, p, id, connectorOk)
    {
      var row := txs[id];
      var unitPriceVnd := DEFAULT_UNIT_PRICE;
      txs := txs[id := row.(ocppTransactionId := Some(id), status := Active, meterStart := p.meterStart,
                            timeStart := p.timestamp, unitPriceVnd := Some(unitPriceVnd))];
      WriteOutbox(TransactionStarted(id, row.sessionId, stationId, row.connectorId, row.idTag,
                                     p.meterStart, p.timestamp, Some(unitPriceVnd)));
      if connectorOk {
        connectors := WithStatus(connectors, (stationId, p.connectorId), "Charging");
      }
    }

    /** Answers the row's id; rejects only when the transaction fails and the handler throws. */
    method HandleStartTransaction(stationId: StationId, p: StartMessage, id: int, sessionId: string, ok: bool,
                                  connectorOk: bool)
      returns (reply: StartReply, ghost found: Option<int>)
      requires Inv(State())
      modifies this
      ensures Inv(State())
      ensures State() == Next(old(State()), StartTransaction(stationId, p, found, id, sessionId, ok, connectorOk))
      ensures FindFirst(old(txs), AwaitsStart(stationId, p.idTag), found)
      ensures reply.Accepted? ==>
                && reply.transactionId in txs && txs[reply.transactionId].status == Active
                && txs[reply.transactionId].ocppTransactionId == Some(reply.transactionId)
      ensures reply.Rejected? ==> State() == old(State())
    {
      var transaction := FindPending(stationId, p.idTag);
      found := transaction;
      NextKeeps(State(), StartTransaction(stationId, p, found, id, sessionId, ok, connectorOk));
      hide Inv;
      if !ok { return Rejected, found; }
      if transaction.None? {
        if id in txs || SessionIdTaken(txs, sessionId) { return Rejected, found; }
        CreateActive(stationId, p, id, sessionId);
        return Accepted(id), found;
      }
      ActivatePending(stationId, p, transaction.value, connectorOk);
      return Accepted(transaction.value), found;
    }

    method HandleStopTransaction(stationId: StationId, p: StopMessage, ok: bool, connectorOk: bool)
      returns (ghost found: Option<int>)
      requires Inv(State())
      modifies this
      ensures Inv(State())
      ensures State() == Next(old(State()), StopTransaction(stationId, p, found, ok, connectorOk))
      ensures FindFirst(old(txs), HasOcppId(stationId, p.transactionId), found)
    {
      var transaction := FindStarted(stationId, p.transactionId);
      found := transaction;
      NextKeeps(State(), StopTransaction(stationId, p, found, ok, connectorOk));
      hide Inv;
      if transaction.None? || !ok { return; }
      var id := transaction.value;
      var row := txs[id];
      var unitPrice := row.unitPriceVnd.GetOr(DEFAULT_UNIT_PRICE);
      var totalWh := if p.meterStop - row.meterStart > 0 then p.meterStop - row.meterStart else 0;
      var totalKwh := totalWh as real / 1000.0;
      var costVnd := (totalKwh * unitPrice as real).Floor;
      assert totalKwh == TotalKwh(row.meterStart, p.meterStop)
             && costVnd == CostVnd(row.meterStart, p.meterStop, unitPrice);
      hide TotalKwh, CostVnd, TotalWh;
      txs := txs[id := row.(status := Stopped, meterEnd := Some(p.meterStop), timeEnd := Some(p.timestamp),
                            costVnd := Some(costVnd), unitPriceVnd := Some(unitPrice),
                            failReason := FailReason(p.reason))];
      WriteOutbox(TransactionStopped(id, row.sessionId, stationId, row.meterStart, p.meterStop, totalKwh, costVnd,
                                     unitPrice, row.timeStart, p.timestamp, p.reason));
      var key := (stationId, row.connectorId);
      if connectorOk && key in connectors {
        connectors := WithStatus(connectors, key, "Available");
      }
    }

    method HandleBootNotification(stationId: StationId, now: int, ok: bool, sweepOk: bool)
      requires Inv(State())
      modifies this
      ensures Inv(State())
      ensures State() == Next(old(State()), BootNotification(stationId, now, ok, sweepOk))
    {
      NextKeeps(State(), BootNotification(stationId, now, ok, sweepOk));
      hide Inv;
      if !ok { return; }
      WriteOutbox(StationOnline(stationId));
      if sweepOk {
        txs := AutoStop(txs, (t: Tx) => t.stationId == stationId, now, "BootNotification:Reset");
      }
    }

    method HandleStatusNotification(stationId: StationId, p: StatusMessage, now: int, ok: bool, sweepOk: bool)
      requires Inv(State())
      modifies this
      ensures Inv(State())
      ensures State() == Next(old(State()), StatusNotification(stationId, p, now, ok, sweepOk))
    {
      NextKeeps(State(), StatusNotification(stationId, p, now, ok, sweepOk));
      hide Inv;
      if !ok || p.connectorId == 0 { return; }
      var key := (stationId, p.connectorId);
      var errorCode := ErrorCode(p.errorCode);
      var wasInFault := key in connectors && connectors[key].errorCode.Some?;
      connectors := connectors[key := Connector(ConnectorStatus(p.status), errorCode)];
      WriteOutbox(ConnectorStatusChanged(stationId, p.connectorId, p.status, errorCode));
      if errorCode.Some? {
        WriteOutbox(FaultRaised(stationId, p.connectorId, errorCode.value));
      }
      if wasInFault && errorCode.None? {
        WriteOutbox(FaultCleared(stationId, p.connectorId));
      }
      assert State() == NotifyConnector(old(State()), key, p);
      if p.status == "Available" && sweepOk {
        txs := AutoStop(txs, (t: Tx) => t.stationId == stationId && t.connectorId == p.connectorId,
                        now, "StatusNotification:Available");
      }
    }

    /** The periodic job. */
    method ProcessSessionTimeout(now: int, ok: bool)
      requires Inv(State())
      modifies this`txs
      ensures Inv(State())
      ensures State() == Next(old(State()), SessionTimeout(now, ok))
    {
      TimeoutStep(State(), now, ok);
      hide Inv, Next, TimeOut;
      if ok { txs := TimeOut(txs, now); }
    }
  }
}

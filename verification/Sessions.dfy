/**
 * Transaction rows, connector rows and the outbox, and the handlers and jobs that write them.
 * Each handler is one atomic step: its lookup and its transaction happen without interference.
 */
module Sessions {
  import opened Wrappers
  import opened Events
  import opened Billing

  const PENDING_TIMEOUT_MS: int := 5 * 60 * 1000

  datatype Status = Pending | Active | Stopped | Failed

  datatype Tx = Tx(sessionId: string, ocppTransactionId: Option<int>, stationId: StationId, connectorId: int,
                   idTag: Option<string>, status: Status, meterStart: int, meterEnd: Option<int>,
                   timeStart: int, timeEnd: Option<int>, costVnd: Option<int>, unitPriceVnd: Option<int>,
                   failReason: Option<string>)

  datatype Connector = Connector(currentStatus: string, errorCode: Option<string>)

  type ConnectorKey = (StationId, int)

  type Connectors = map<ConnectorKey, Connector>

  datatype Store = Store(txs: map<int, Tx>, connectors: Connectors, outbox: seq<Event>)

  const Empty := Store(map[], map[], [])

  datatype StartMessage = StartMessage(connectorId: int, idTag: string, meterStart: int, timestamp: int)

  datatype StopMessage = StopMessage(transactionId: int, meterStop: int, timestamp: int, reason: Option<string>)

  datatype StatusMessage = StatusMessage(connectorId: int, errorCode: Option<string>, status: string)

  /**
   * One handler or job run. `found` is the row the lookup returned, `id` and `sessionId` are the
   * fresh keys of a created row, `ok` says whether the database transaction committed, and the
   * other flags whether the separate best-effort updates after it did.
   */
  datatype Step =
    | CreatePending(id: int, sessionId: string, stationId: StationId, connectorId: int, idTag: Option<string>,
                    unitPriceVnd: Option<int>, timeStart: int)
    | StartTransaction(stationId: StationId, start: StartMessage, found: Option<int>,
                       id: int, sessionId: string, ok: bool, connectorOk: bool)
    | StopTransaction(stationId: StationId, stop: StopMessage, found: Option<int>, ok: bool, connectorOk: bool)
    | BootNotification(stationId: StationId, now: int, ok: bool, sweepOk: bool)
    | StatusNotification(stationId: StationId, notice: StatusMessage, now: int, ok: bool, sweepOk: bool)
    | SessionTimeout(now: int, ok: bool)
    | DeleteStation(stationId: StationId)
    | OtherEvent(event: Event)

  // ----- Lookups -----

  /** What `findFirst` may return: some row that matches, or none when no row matches. */
  ghost predicate FindFirst(txs: map<int, Tx>, matches: Tx -> bool, found: Option<int>) {
    match found
    case Some(id) => id in txs && matches(txs[id])
    case None => forall id :: id in txs ==> !matches(txs[id])
  }

  function AwaitsStart(stationId: StationId, idTag: string): Tx -> bool {
    (t: Tx) => t.sessionId == idTag && t.stationId == stationId && t.status == Pending
  }

  function HasOcppId(stationId: StationId, transactionId: int): Tx -> bool {
    (t: Tx) => t.ocppTransactionId == Some(transactionId) && t.stationId == stationId
  }

  predicate SessionIdTaken(txs: map<int, Tx>, sessionId: string) {
    exists id :: id in txs && txs[id].sessionId == sessionId
  }

  // ----- StartTransaction -----

  function WithStatus(connectors: Connectors, key: ConnectorKey, status: string): Connectors {
    connectors[key := if key in connectors then connectors[key].(currentStatus := status) else Connector(status, None)]
  }

  function StartUnmatched(s: Store, stationId: StationId, p: StartMessage, id: int, sessionId: string): Store {
    var t := Tx(sessionId, Some(id), stationId, p.connectorId, Some(p.idTag), Active, p.meterStart, None,
                p.timestamp, None, None, None, None);
    s.(txs := s.txs[id := t],
       outbox := s.outbox + [TransactionStarted(id, t.sessionId, stationId, t.connectorId, t.idTag,
                                                t.meterStart, t.timeStart, t.unitPriceVnd)])
  }

  function StartPending(s: Store, stationId: StationId, p: StartMessage, id: int, connectorOk: bool): Store
    requires id in s.txs
  {
    var row := s.txs[id];
    var t := row.(ocppTransactionId := Some(id), status := Active, meterStart := p.meterStart,
                  timeStart := p.timestamp, unitPriceVnd := Some(DEFAULT_UNIT_PRICE));
    s.(txs := s.txs[id := t],
       connectors := if connectorOk then WithStatus(s.connectors, (stationId, p.connectorId), "Charging")
                     else s.connectors,
       outbox := s.outbox + [TransactionStarted(id, row.sessionId, stationId, row.connectorId, row.idTag,
                                                p.meterStart, p.timestamp, Some(DEFAULT_UNIT_PRICE))])
  }

  // ----- StopTransaction -----

  function FailReason(reason: Option<string>): Option<string> {
    if reason != Some("Local") && reason != Some("Remote") then reason else None
  }

  function Billed(t: Tx, p: StopMessage): Tx {
    var unitPrice := t.unitPriceVnd.GetOr(DEFAULT_UNIT_PRICE);
    t.(status := Stopped, meterEnd := Some(p.meterStop), timeEnd := Some(p.timestamp),
       costVnd := Some(CostVnd(t.meterStart, p.meterStop, unitPrice)), unitPriceVnd := Some(unitPrice),
       failReason := FailReason(p.reason))
  }

  function Stop(s: Store, stationId: StationId, p: StopMessage, id: int, connectorOk: bool): Store
    requires id in s.txs
  {
    var t := Billed(s.txs[id], p);
    var key := (stationId, t.connectorId);
    s.(txs := s.txs[id := t],
       connectors := if connectorOk && key in s.connectors then WithStatus(s.connectors, key, "Available")
                     else s.connectors,
       outbox := s.outbox + [TransactionStopped(id, t.sessionId, stationId, t.meterStart, p.meterStop,
                                                TotalKwh(t.meterStart, p.meterStop), t.costVnd.GetOr(0),
                                                t.unitPriceVnd.GetOr(0), t.timeStart, p.timestamp, p.reason)])
  }

  // ----- Bulk updates -----

  predicate Running(t: Tx) {
    t.status == Active || t.status == Pending
  }

  /** Afterwards no chosen row is running, and rows that were not, or were not chosen, are as before. */
  function AutoStop(txs: map<int, Tx>, stuck: Tx -> bool, now: int, reason: string): (r: map<int, Tx>)
    ensures r.Keys == txs.Keys
    ensures forall id :: id in txs ==> r[id] == txs[id] || (stuck(txs[id]) && r[id].status == Stopped)
    ensures forall id :: id in txs && Running(r[id]) ==> !stuck(txs[id])
    ensures forall id :: id in txs && !Running(txs[id]) ==> r[id] == txs[id]
  {
    map id | id in txs ::
      if stuck(txs[id]) && Running(txs[id])
      then txs[id].(status := Stopped, timeEnd := Some(now), failReason := Some(reason)) else txs[id]
  }

  function Boot(s: Store, stationId: StationId, now: int, sweepOk: bool): Store {
    s.(outbox := s.outbox + [StationOnline(stationId)],
       txs := if sweepOk then AutoStop(s.txs, (t: Tx) => t.stationId == stationId, now, "BootNotification:Reset")
              else s.txs)
  }

  /** Afterwards every pending row is younger than five minutes; all other rows are as before. */
  function TimeOut(txs: map<int, Tx>, now: int): (r: map<int, Tx>)
    ensures r.Keys == txs.Keys
    ensures forall id :: id in txs && r[id].status == Pending ==> now - txs[id].timeStart <= 300_000
    ensures forall id :: id in txs && r[id] != txs[id] ==> txs[id].status == Pending && r[id].status == Failed
    ensures forall id :: id in txs && now - txs[id].timeStart <= 300_000 ==> r[id] == txs[id]
  {
    map id | id in txs ::
      if txs[id].status == Pending && txs[id].timeStart < now - PENDING_TIMEOUT_MS
      then txs[id].(status := Failed, failReason := Some("session_timeout"), timeEnd := Some(now)) else txs[id]
  }

  // ----- StatusNotification -----

  const VALID_STATUSES: set<string> :=
    {"Available", "Preparing", "Charging", "SuspendedEVSE", "SuspendedEV", "Finishing", "Reserved", "Unavailable",
     "Faulted"}

  function ConnectorStatus(status: string): string {
    if status in VALID_STATUSES then status else "Unavailable"
  }

  /** A missing, empty or "NoError" code is no error. */
  function ErrorCode(raw: Option<string>): Option<string> {
    if raw.Some? && raw.value != "" && raw.value != "NoError" then raw else None
  }

  function CurrentFault(connectors: Connectors, key: ConnectorKey): Option<string> {
    if key in connectors then connectors[key].errorCode else None
  }

  function FaultEvents(key: ConnectorKey, was: Option<string>, errorCode: Option<string>): seq<Event> {
    if errorCode.Some? then [FaultRaised(key.0, key.1, errorCode.value)]
    else if was.Some? then [FaultCleared(key.0, key.1)]
    else []
  }

  function NotifyConnector(s: Store, key: ConnectorKey, p: StatusMessage): Store {
    WriteStatus(s, key, p, CurrentFault(s.connectors, key))
  }

  /** The transaction of a status notification, which goes by the fault that was read before it. */
  function WriteStatus(s: Store, key: ConnectorKey, p: StatusMessage, was: Option<string>): Store {
    var errorCode := ErrorCode(p.errorCode);
    s.(connectors := s.connectors[key := Connector(ConnectorStatus(p.status), errorCode)],
       outbox := s.outbox + [ConnectorStatusChanged(key.0, key.1, p.status, errorCode)]
                 + FaultEvents(key, was, errorCode))
  }

  function Notify(s: Store, stationId: StationId, p: StatusMessage, now: int, sweepOk: bool): Store {
    if p.connectorId == 0 then s
    else
      var n := NotifyConnector(s, (stationId, p.connectorId), p);
      if p.status == "Available" && sweepOk then
        n.(txs := AutoStop(n.txs, (t: Tx) => t.stationId == stationId && t.connectorId == p.connectorId,
                           now, "StatusNotification:Available"))
      else n
  }

  // ----- Station deletion: refused while any transaction refers to the station -----

  predicate HasTransactions(txs: map<int, Tx>, stationId: StationId) {
    exists id :: id in txs && txs[id].stationId == stationId
  }

  function WithoutStation(connectors: Connectors, stationId: StationId): Connectors {
    map key | key in connectors && key.0 != stationId :: connectors[key]
  }

  predicate SessionEvent(e: Event) {
    e.TransactionStarted? || e.TransactionStopped? || e.FaultRaised? || e.FaultCleared?
  }

  // ----- All steps; a step that cannot happen, or whose transaction fails, changes nothing -----

  ghost function Next(s: Store, step: Step): Store {
    match step
    case CreatePending(id, sessionId, stationId, connectorId, idTag, unitPriceVnd, timeStart) =>
      if id in s.txs || SessionIdTaken(s.txs, sessionId) then s
      else s.(txs := s.txs[id := Tx(sessionId, None, stationId, connectorId, idTag, Pending, 0, None, timeStart,
                                    None, None, unitPriceVnd, None)])
    case StartTransaction(stationId, p, found, id, sessionId, ok, connectorOk) =>
      if !ok || !FindFirst(s.txs, AwaitsStart(stationId, p.idTag), found) then s
      else if found.Some? then StartPending(s, stationId, p, found.value, connectorOk)
      else if id in s.txs || SessionIdTaken(s.txs, sessionId) then s
      else StartUnmatched(s, stationId, p, id, sessionId)
    case StopTransaction(stationId, p, found, ok, connectorOk) =>
      if !ok || found.None? || !FindFirst(s.txs, HasOcppId(stationId, p.transactionId), found) then s
      else Stop(s, stationId, p, found.value, connectorOk)
    case BootNotification(stationId, now, ok, sweepOk) =>
      if ok then Boot(s, stationId, now, sweepOk) else s
    case StatusNotification(stationId, p, now, ok, sweepOk) =>
      if ok then Notify(s, stationId, p, now, sweepOk) else s
    case SessionTimeout(now, ok) => if ok then s.(txs := TimeOut(s.txs, now)) else s
    case DeleteStation(stationId) =>
      if HasTransactions(s.txs, stationId) then s
      else s.(connectors := WithoutStation(s.connectors, stationId))
    case OtherEvent(event) => if SessionEvent(event) then s else s.(outbox := s.outbox + [event])
  }

  ghost function Run(s: Store, steps: seq<Step>): Store
    decreases |steps|
  {
    if steps == [] then s else Run(Next(s, steps[0]), steps[1..])
  }
}

/** What each message does to the session data: which rows it changes, and which it leaves alone. */
module SessionEffects {
  import opened Wrappers
  import opened Events
  import opened Sessions
  import L = SessionLedger
  import H = SessionStories

  // ----- Session ids tell rows apart -----

  ghost predicate OneRowPerSession(txs: map<int, Tx>) {
    forall a, b :: a in txs && b in txs && txs[a].sessionId == txs[b].sessionId ==> a == b
  }

  /** A step adds at most one row, whose session is new. */
  lemma AddedIsNew(s: Store, step: Step, id: int)
    requires id in Next(s, step).txs && id !in s.txs && (step.CreatePending? || step.StartTransaction?)
    ensures !SessionIdTaken(s.txs, Next(s, step).txs[id].sessionId)
    ensures Next(s, step).txs.Keys == s.txs.Keys + {id}
  {
    hide WithStatus;
  }

  ghost predicate AddsOneSession(txs: map<int, Tx>, txs': map<int, Tx>) {
    && (forall id :: id in txs && id in txs' ==> txs'[id].sessionId == txs[id].sessionId)
    && forall id :: id in txs' && id !in txs ==>
         txs'.Keys == txs.Keys + {id} && !SessionIdTaken(txs, txs'[id].sessionId)
  }

  lemma SessionsStayApart(txs: map<int, Tx>, txs': map<int, Tx>)
    requires OneRowPerSession(txs) && AddsOneSession(txs, txs')
    ensures OneRowPerSession(txs')
  {
    forall a, b | a in txs' && b in txs' && txs'[a].sessionId == txs'[b].sessionId ensures a == b {
      assert a !in txs ==> b in txs.Keys + {a};
      assert b !in txs ==> a in txs.Keys + {b};
    }
  }

  lemma StepKeepsSessions(s: Store, step: Step)
    requires L.Inv(s) && OneRowPerSession(s.txs)
    ensures OneRowPerSession(Next(s, step).txs)
  {
    hide L.Inv, Next, OneRowPerSession, SessionIdTaken;
    var s' := Next(s, step);
    forall id | id in s'.txs
      ensures id in s.txs ==> s'.txs[id].sessionId == s.txs[id].sessionId
      ensures id !in s.txs ==> s'.txs.Keys == s.txs.Keys + {id} && !SessionIdTaken(s.txs, s'.txs[id].sessionId)
    {
      H.StepChanges(s, step, id);
      if id !in s.txs { AddedIsNew(s, step, id); }
    }
    SessionsStayApart(s.txs, s'.txs);
  }

  lemma {:induction false} SessionsApart(steps: seq<Step>)
    ensures OneRowPerSession(Run(Empty, steps).txs)
  {
    if steps != [] {
      var n := |steps| - 1;
      SessionsApart(steps[..n]);
      H.RunSnoc(Empty, steps);
      L.Reachable(steps[..n]);
      hide Next, Run, L.Inv;
      StepKeepsSessions(Run(Empty, steps[..n]), steps[n]);
    }
  }

  // ----- StartTransaction -----

  /** The row's session waits to be started at the station. */
  predicate Waits(t: Tx, stationId: StationId, idTag: string) {
    t.status == Pending && t.stationId == stationId && t.sessionId == idTag
  }

  /** The last event is this one, and nothing else was appended. */
  predicate Appends(s: Store, s': Store, e: Event) {
    s'.outbox == s.outbox + [e]
  }

  predicate SetsConnector(s: Store, s': Store, key: ConnectorKey, status: string) {
    && key in s'.connectors && s'.connectors[key].currentStatus == status
    && (key in s.connectors ==> s'.connectors[key].errorCode == s.connectors[key].errorCode)
    && (key !in s.connectors ==> s'.connectors[key].errorCode.None?)
    && s'.connectors == s.connectors[key := s'.connectors[key]]
  }

  /**
   * A start that names a waiting session of its station finds that row and no other, starts it with the
   * message's reading, and says so in one event.
   */
  lemma StartActivates(before: seq<Step>, id: int, stationId: StationId, p: StartMessage, found: Option<int>,
                       newId: int, session: string, connectorOk: bool)
    requires var s := Run(Empty, before); id in s.txs && Waits(s.txs[id], stationId, p.idTag)
    ensures var s := Run(Empty, before);
            var s' := Next(s, StartTransaction(stationId, p, found, newId, session, true, connectorOk));
            && (s' != s <==> found == Some(id))
            && (found == Some(id) ==>
                  && s'.txs.Keys == s.txs.Keys && (forall other :: other in s.txs && other != id ==>
                       s'.txs[other] == s.txs[other])
                  && s'.txs[id].status == Active && s'.txs[id].ocppTransactionId == Some(id)
                  && Appends(s, s', TransactionStarted(id, p.idTag, stationId, s.txs[id].connectorId, s.txs[id].idTag,
                                                       p.meterStart, p.timestamp, Some(3500)))
                  && (if connectorOk then SetsConnector(s, s', (stationId, p.connectorId), "Charging")
                      else s'.connectors == s.connectors))
  {
    var s := Run(Empty, before);
    SessionsApart(before);
    hide Run;
    var step := StartTransaction(stationId, p, found, newId, session, true, connectorOk);
    var s' := Next(s, step);
    if found.Some? && found.value in s.txs && Waits(s.txs[found.value], stationId, p.idTag) {
      assert found == Some(id) by { assert s.txs[found.value].sessionId == s.txs[id].sessionId; }
      assert |s'.outbox| == |s.outbox| + 1;
    } else {
      assert Waits(s.txs[id], stationId, p.idTag);
    }
  }

  /** A start that names no waiting session of its station finds none, and gets a row of its own, with its own id. */
  lemma StartCreates(s: Store, stationId: StationId, p: StartMessage, found: Option<int>, newId: int, session: string,
                     connectorOk: bool)
    requires forall id :: id in s.txs ==> !Waits(s.txs[id], stationId, p.idTag)
    ensures var s' := Next(s, StartTransaction(stationId, p, found, newId, session, true, connectorOk));
            && (s' != s <==> found.None? && newId !in s.txs && forall id :: id in s.txs ==>
                  s.txs[id].sessionId != session)
            && (s' != s ==>
                  && s'.txs == s.txs[newId := s'.txs[newId]] && newId in s'.txs
                  && s'.txs[newId].status == Active && s'.txs[newId].ocppTransactionId == Some(newId)
                  && Appends(s, s', TransactionStarted(newId, session, stationId, p.connectorId, Some(p.idTag),
                                                       p.meterStart, p.timestamp, None))
                  && s'.connectors == s.connectors)
  {
    var s' := Next(s, StartTransaction(stationId, p, found, newId, session, true, connectorOk));
    if found.None? && newId !in s.txs && forall id :: id in s.txs ==> s.txs[id].sessionId != session {
      assert |s'.outbox| == |s.outbox| + 1;
    }
  }

  // ----- StopTransaction -----

  /**
   * A stop names its transaction by number: it finds that row if its station started it, bills it, and
   * sets its connector to Available; a number that its station did not start changes nothing.
   */
  lemma StopBills(before: seq<Step>, stationId: StationId, p: StopMessage, found: Option<int>, connectorOk: bool)
    ensures var s, id := Run(Empty, before), p.transactionId;
            var s' := Next(s, StopTransaction(stationId, p, found, true, connectorOk));
            && (s' != s <==> found == Some(id) && id in s.txs && s.txs[id].stationId == stationId
                             && s.txs[id].ocppTransactionId.Some?)
            && (s' != s ==>
                  && s'.txs.Keys == s.txs.Keys
                  && (forall other :: other in s.txs && other != id ==> s'.txs[other] == s.txs[other])
                  && s'.txs[id].status == Stopped && s'.txs[id].meterEnd == Some(p.meterStop)
                  && |s'.outbox| == |s.outbox| + 1 && s'.outbox[..|s.outbox|] == s.outbox
                  && s'.outbox[|s.outbox|].TransactionStopped? && s'.outbox[|s.outbox|].transactionId == id
                  && var key := (stationId, s.txs[id].connectorId);
                     if connectorOk && key in s.connectors then SetsConnector(s, s', key, "Available")
                     else s'.connectors == s.connectors)
  {
    var s, id := Run(Empty, before), p.transactionId;
    L.Reachable(before);
    hide Run, L.StartCount, L.LastStop, L.StopsFollowStarts, L.EventOk, L.BillOk;
    if found.Some? && found.value in s.txs { assert L.RowOk(found.value, s.txs[found.value]); }
    if id in s.txs { assert L.RowOk(id, s.txs[id]); }
    var s' := Next(s, StopTransaction(stationId, p, found, true, connectorOk));
    if found == Some(id) && id in s.txs && s.txs[id].stationId == stationId && s.txs[id].ocppTransactionId.Some? {
      assert |s'.outbox| == |s.outbox| + 1;
    }
  }

  // ----- Sweeps and jobs -----

  /** Exactly the running rows that are chosen stop, and no other row changes. */
  ghost predicate StopsExactly(txs: map<int, Tx>, txs': map<int, Tx>, chosen: Tx -> bool) {
    && txs'.Keys == txs.Keys
    && forall id :: id in txs ==>
         if (txs[id].status == Active || txs[id].status == Pending) && chosen(txs[id]) then txs'[id].status == Stopped
         else txs'[id] == txs[id]
  }

  /** A boot stops exactly the running transactions of its own station, and reports that the station is online. */
  lemma BootStopsItsOwn(s: Store, stationId: StationId, now: int, sweepOk: bool)
    ensures var s' := Next(s, BootNotification(stationId, now, true, sweepOk));
            && Appends(s, s', StationOnline(stationId)) && s'.connectors == s.connectors
            && StopsExactly(s.txs, s'.txs, (t: Tx) => sweepOk && t.stationId == stationId)
  {
  }

  /** An available connector has no running transaction, and no other connector's transactions change. */
  lemma AvailableStopsItsOwn(s: Store, stationId: StationId, p: StatusMessage, now: int, sweepOk: bool)
    ensures var s' := Next(s, StatusNotification(stationId, p, now, true, sweepOk));
            StopsExactly(s.txs, s'.txs, (t: Tx) => sweepOk && p.connectorId != 0 && p.status == "Available"
                                                   && t.stationId == stationId && t.connectorId == p.connectorId)
  {
    hide FaultEvents, ErrorCode, ConnectorStatus;
  }

  /** The job fails exactly the sessions that have waited for more than five minutes. */
  lemma TimeoutFailsTheOld(s: Store, now: int)
    ensures var s' := Next(s, SessionTimeout(now, true));
            && s' == s.(txs := s'.txs) && s'.txs.Keys == s.txs.Keys
            && forall id :: id in s.txs ==>
                 if s.txs[id].status == Pending && now - s.txs[id].timeStart > 300_000 then s'.txs[id].status == Failed
                 else s'.txs[id] == s.txs[id]
  {
  }

  /** A session is created waiting, unless its number or its session id is taken. */
  lemma CreatedWaits(s: Store, id: int, sessionId: string, stationId: StationId, connectorId: int,
                     idTag: Option<string>, price: Option<int>, timeStart: int)
    ensures var s' := Next(s, CreatePending(id, sessionId, stationId, connectorId, idTag, price, timeStart));
            if id in s.txs || exists other :: other in s.txs && s.txs[other].sessionId == sessionId then s' == s
            else
              && s' == s.(txs := s'.txs) && id in s'.txs && s'.txs == s.txs[id := s'.txs[id]]
              && Waits(s'.txs[id], stationId, sessionId) && s'.txs[id].connectorId == connectorId
  {
  }

  /** The events of other components are appended as they are; they are neither starts, stops nor faults. */
  lemma OtherEventsPass(s: Store, e: Event)
    ensures var s' := Next(s, OtherEvent(e));
            if e.TransactionStarted? || e.TransactionStopped? || e.FaultRaised? || e.FaultCleared? then s' == s
            else Appends(s, s', e) && s' == s.(outbox := s'.outbox)
  {
  }

  /** What fails changes nothing: a handler whose transaction does not commit, and a job that does not run. */
  lemma FailureChangesNothing(s: Store, step: Step)
    requires match step
             case StartTransaction(_, _, _, _, _, ok, _) => !ok
             case StopTransaction(_, _, _, ok, _) => !ok
             case BootNotification(_, _, ok, _) => !ok
             case StatusNotification(_, _, _, ok, _) => !ok
             case SessionTimeout(_, ok) => !ok
             case _ => false
    ensures Next(s, step) == s
  {
  }
}

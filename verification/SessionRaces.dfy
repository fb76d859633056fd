/**
 * The session writers with their lookups split from their writes: what can still happen to a transaction
 * that has ended, and exactly when nothing can.
 */
module SessionRaces {
  import opened Wrappers
  import opened Events
  import opened Billing
  import S = Sessions

  /** A write that its handler has still to make, with the row that its lookup read, or the rows that it listed. */
  datatype Write =
    | StartWrite(stationId: StationId, start: S.StartMessage, id: int)
    | StopWrite(stationId: StationId, stop: S.StopMessage, id: int, read: S.Tx)
    | AutoStopWrite(ids: set<int>, now: int)

  datatype State = State(store: S.Store, writes: map<nat, Write>)

  const Init := State(S.Empty, map[])

  /** Whole is a handler or job run without interference, or one that is a single statement. */
  datatype Step =
    | Whole(step: S.Step)
    | LookUpStart(w: nat, stationId: StationId, start: S.StartMessage, found: int)
    | LookUpStop(w: nat, stationId: StationId, stop: S.StopMessage, found: int)
    | ListStuck(w: nat, stationId: StationId, connectorId: int, now: int)
    | Commit(w: nat, ok: bool, connectorOk: bool)
    | Crash

  // ----- Writes -----

  /** The bill goes by the row as it was read. */
  function StopFrom(s: S.Store, p: S.StopMessage, id: int, read: S.Tx): S.Store
    requires id in s.txs
  {
    var unitPrice := read.unitPriceVnd.GetOr(DEFAULT_UNIT_PRICE);
    var cost := CostVnd(read.meterStart, p.meterStop, unitPrice);
    var t := s.txs[id].(status := S.Stopped, meterEnd := Some(p.meterStop), timeEnd := Some(p.timestamp),
                        costVnd := Some(cost), unitPriceVnd := Some(unitPrice), failReason := S.FailReason(p.reason));
    s.(txs := s.txs[id := t],
       outbox := s.outbox + [TransactionStopped(id, t.sessionId, t.stationId, t.meterStart, p.meterStop,
                                                TotalKwh(read.meterStart, p.meterStop), cost, unitPrice,
                                                t.timeStart, p.timestamp, p.reason)])
  }

  /** updateMany by id, with no condition on the status. */
  function StopListed(txs: map<int, S.Tx>, ids: set<int>, now: int): map<int, S.Tx> {
    map id | id in txs ::
      if id !in ids then txs[id]
      else txs[id].(status := S.Stopped, timeEnd := Some(now), failReason := Some("StatusNotification:Available"))
  }

  function Apply(s: S.Store, write: Write, connectorOk: bool): S.Store {
    match write
    case StartWrite(stationId, p, id) => if id in s.txs then S.StartPending(s, stationId, p, id, connectorOk) else s
    case StopWrite(stationId, p, id, read) =>
      if id !in s.txs then s
      else
        var stopped := StopFrom(s, p, id, read);
        var key := (stationId, read.connectorId);
        if connectorOk && key in s.connectors then stopped.(connectors := S.WithStatus(s.connectors, key, "Available"))
        else stopped
    case AutoStopWrite(ids, now) => s.(txs := StopListed(s.txs, ids, now))
  }

  ghost function Next(s: State, step: Step): State {
    match step
    case Whole(step) => s.(store := S.Next(s.store, step))
    case LookUpStart(w, stationId, p, id) =>
      if w in s.writes || !S.FindFirst(s.store.txs, S.AwaitsStart(stationId, p.idTag), Some(id)) then s
      else s.(writes := s.writes[w := StartWrite(stationId, p, id)])
    case LookUpStop(w, stationId, p, id) =>
      if w in s.writes || !S.FindFirst(s.store.txs, S.HasOcppId(stationId, p.transactionId), Some(id)) then s
      else s.(writes := s.writes[w := StopWrite(stationId, p, id, s.store.txs[id])])
    case ListStuck(w, stationId, connectorId, now) =>
      if w in s.writes then s
      else
        var txs := s.store.txs;
        var ids := set id | id in txs && txs[id].stationId == stationId && txs[id].connectorId == connectorId &&
                            S.Running(txs[id]);
        s.(writes := s.writes[w := AutoStopWrite(ids, now)])
    case Commit(w, ok, connectorOk) =>
      if w !in s.writes then s
      else State(if ok then Apply(s.store, s.writes[w], connectorOk) else s.store, s.writes - {w})
    case Crash => s.(writes := map[])
  }

  ghost function Run(s: State, steps: seq<Step>): State
    decreases |steps|
  {
    if steps == [] then s else Run(Next(s, steps[0]), steps[1..])
  }

  /** A lookup and its write with nothing in between are the whole handler, or the whole auto-stop. */
  lemma SplitIsWhole(s: State, w: nat, stationId: StationId, start: S.StartMessage, stop: S.StopMessage,
                     connectorId: int, id: int, now: int, connectorOk: bool)
    requires w !in s.writes
    ensures Next(Next(s, LookUpStart(w, stationId, start, id)), Commit(w, true, connectorOk)).store
            == if !S.FindFirst(s.store.txs, S.AwaitsStart(stationId, start.idTag), Some(id)) then s.store
               else S.Next(s.store, S.StartTransaction(stationId, start, Some(id), 0, "", true, connectorOk))
    ensures Next(Next(s, LookUpStop(w, stationId, stop, id)), Commit(w, true, connectorOk)).store
            == S.Next(s.store, S.StopTransaction(stationId, stop, Some(id), true, connectorOk))
    ensures Next(Next(s, ListStuck(w, stationId, connectorId, now)), Commit(w, true, connectorOk)).store.txs
            == S.AutoStop(s.store.txs, (t: S.Tx) => t.stationId == stationId && t.connectorId == connectorId, now,
                          "StatusNotification:Available")
  {
    StartSplit(s, w, stationId, start, id, connectorOk);
    StopSplit(s, w, stationId, stop, id, connectorOk);
    SweepSplit(s, w, stationId, connectorId, now, connectorOk);
    hide Next, S.Next, S.AutoStop;
  }

  lemma StartSplit(s: State, w: nat, stationId: StationId, p: S.StartMessage, id: int, connectorOk: bool)
    requires w !in s.writes
    ensures Next(Next(s, LookUpStart(w, stationId, p, id)), Commit(w, true, connectorOk)).store
            == if !S.FindFirst(s.store.txs, S.AwaitsStart(stationId, p.idTag), Some(id)) then s.store
               else S.Next(s.store, S.StartTransaction(stationId, p, Some(id), 0, "", true, connectorOk))
  {
    hide S.WithStatus;
  }

  lemma StopSplit(s: State, w: nat, stationId: StationId, p: S.StopMessage, id: int, connectorOk: bool)
    requires w !in s.writes
    ensures Next(Next(s, LookUpStop(w, stationId, p, id)), Commit(w, true, connectorOk)).store
            == S.Next(s.store, S.StopTransaction(stationId, p, Some(id), true, connectorOk))
  {
    hide S.WithStatus, CostVnd, TotalKwh;
  }

  lemma SweepSplit(s: State, w: nat, stationId: StationId, connectorId: int, now: int, connectorOk: bool)
    requires w !in s.writes
    ensures Next(Next(s, ListStuck(w, stationId, connectorId, now)), Commit(w, true, connectorOk)).store.txs
            == S.AutoStop(s.store.txs, (t: S.Tx) => t.stationId == stationId && t.connectorId == connectorId, now,
                          "StatusNotification:Available")
  {
  }

  // ----- What survives even with races -----

  /** A row with an OCPP id carries its own, and is active or stopped; so is a row that a stop is to be written to. */
  predicate RowOk(id: int, t: S.Tx) {
    t.ocppTransactionId.Some? ==> t.ocppTransactionId.value == id && (t.status == S.Active || t.status == S.Stopped)
  }

  predicate WriteOk(txs: map<int, S.Tx>, write: Write) {
    match write
    case StartWrite(_, _, id) => id in txs
    case StopWrite(_, _, id, _) => id in txs && (txs[id].status == S.Active || txs[id].status == S.Stopped)
    case AutoStopWrite(ids, _) => ids <= txs.Keys
  }

  ghost predicate Inv(s: State) {
    && (forall id :: id in s.store.txs ==> RowOk(id, s.store.txs[id]))
    && (forall w :: w in s.writes ==> WriteOk(s.store.txs, s.writes[w]))
  }

  /** Rows stay, and an active or stopped one stays active or stopped. */
  ghost predicate Onward(txs: map<int, S.Tx>, txs': map<int, S.Tx>) {
    && (forall id :: id in txs' ==> RowOk(id, txs'[id]))
    && forall id :: id in txs ==>
         id in txs' && (txs[id].status == S.Active || txs[id].status == S.Stopped ==>
                          txs'[id].status == S.Active || txs'[id].status == S.Stopped)
  }

  lemma WholeOnward(s: S.Store, step: S.Step)
    requires forall id :: id in s.txs ==> RowOk(id, s.txs[id])
    ensures Onward(s.txs, S.Next(s, step).txs)
  {
    hide CostVnd, TotalKwh, S.WithStatus, S.NotifyConnector;
    if step.StatusNotification? { NotifiedRows(s, (step.stationId, step.notice.connectorId), step.notice); }
  }

  lemma NotifiedRows(s: S.Store, key: S.ConnectorKey, p: S.StatusMessage)
    ensures S.NotifyConnector(s, key, p).txs == s.txs
  {
  }

  lemma ApplyOnward(s: S.Store, write: Write, connectorOk: bool)
    requires (forall id :: id in s.txs ==> RowOk(id, s.txs[id])) && WriteOk(s.txs, write)
    ensures Onward(s.txs, Apply(s, write, connectorOk).txs)
  {
    hide CostVnd, TotalKwh, S.WithStatus;
  }

  lemma OnwardKeeps(s: State, s': State)
    requires Inv(s) && Onward(s.store.txs, s'.store.txs)
    requires forall w :: w in s'.writes ==>
               (w in s.writes && s'.writes[w] == s.writes[w]) || WriteOk(s'.store.txs, s'.writes[w])
    ensures Inv(s')
  {
    forall w | w in s'.writes ensures WriteOk(s'.store.txs, s'.writes[w]) {
      if w in s.writes && s'.writes[w] == s.writes[w] {
        assert WriteOk(s.store.txs, s.writes[w]);
        var txs, txs' := s.store.txs, s'.store.txs;
        assert forall id :: id in txs.Keys ==> id in txs && id in txs'.Keys;
      }
    }
  }

  lemma NextKeeps(s: State, step: Step)
    requires Inv(s)
    ensures Inv(Next(s, step))
  {
    match step {
      case Whole(step) => WholeOnward(s.store, step);
      case Commit(w, ok, connectorOk) => if w in s.writes { ApplyOnward(s.store, s.writes[w], connectorOk); }
      case _ =>
    }
    hide S.Next, Apply;
    OnwardKeeps(s, Next(s, step));
  }

  lemma {:induction false} RunKeeps(s: State, steps: seq<Step>)
    requires Inv(s)
    ensures Inv(Run(s, steps))
    decreases |steps|
  {
    if steps != [] {
      NextKeeps(s, steps[0]);
      hide Next, Inv;
      RunKeeps(Next(s, steps[0]), steps[1..]);
    }
  }

  // ----- When an ended transaction stays ended -----

  ghost predicate EndedAs(s: State, id: int, status: S.Status) {
    (status == S.Stopped || status == S.Failed) && id in s.store.txs && s.store.txs[id].status == status
  }

  /** A start that found the row pending, or an auto-stop that listed the row since failed, is still to be written. */
  ghost predicate Threatened(s: State, id: int) {
    exists w :: w in s.writes && Threatens(s, s.writes[w], id)
  }

  predicate Threatens(s: State, write: Write, id: int) {
    match write
    case StartWrite(_, _, found) => found == id
    case StopWrite(_, _, _, _) => false
    case AutoStopWrite(ids, _) => id in ids && id in s.store.txs && s.store.txs[id].status == S.Failed
  }

  lemma WholeSpares(s: S.Store, step: S.Step, id: int)
    requires (forall i :: i in s.txs ==> RowOk(i, s.txs[i])) && id in s.txs
    requires s.txs[id].status == S.Stopped || s.txs[id].status == S.Failed
    ensures id in S.Next(s, step).txs && S.Next(s, step).txs[id].status == s.txs[id].status
  {
    hide CostVnd, TotalKwh, S.WithStatus, S.NotifyConnector;
    if step.StatusNotification? { NotifiedRows(s, (step.stationId, step.notice.connectorId), step.notice); }
  }

  lemma EndedStep(s: State, step: Step, id: int, status: S.Status)
    requires Inv(s) && EndedAs(s, id, status) && !Threatened(s, id)
    ensures EndedAs(Next(s, step), id, status) && !Threatened(Next(s, step), id)
  {
    var s' := Next(s, step);
    match step {
      case Whole(step) => WholeSpares(s.store, step, id);
      case Commit(w, ok, connectorOk) =>
        if w in s.writes {
          assert WriteOk(s.store.txs, s.writes[w]) && !Threatens(s, s.writes[w], id);
          CommitSpares(s, s.writes[w], connectorOk, id);
        }
      case _ =>
    }
    hide S.Next, Apply, Inv;
    forall w | w in s'.writes ensures !Threatens(s', s'.writes[w], id) {
      if w in s.writes { assert !Threatens(s, s.writes[w], id); }
    }
  }

  lemma CommitSpares(s: State, write: Write, connectorOk: bool, id: int)
    requires WriteOk(s.store.txs, write) && !Threatens(s, write, id) && id in s.store.txs
    requires s.store.txs[id].status == S.Stopped || s.store.txs[id].status == S.Failed
    ensures var txs := Apply(s.store, write, connectorOk).txs;
            id in txs && txs[id].status == s.store.txs[id].status
  {
    hide CostVnd, TotalKwh, S.WithStatus;
  }

  lemma {:induction false} EndedStays(s: State, steps: seq<Step>, id: int, status: S.Status)
    requires Inv(s) && EndedAs(s, id, status) && !Threatened(s, id)
    ensures EndedAs(Run(s, steps), id, status)
    decreases |steps|
  {
    if steps != [] {
      EndedStep(s, steps[0], id, status);
      NextKeeps(s, steps[0]);
      hide Next, Inv, EndedAs, Threatened;
      EndedStays(Next(s, steps[0]), steps[1..], id, status);
    }
  }

  lemma CommitRevives(s: State, w: nat, id: int, status: S.Status)
    requires EndedAs(s, id, status) && w in s.writes && Threatens(s, s.writes[w], id)
    ensures !EndedAs(Run(s, [Commit(w, true, false)]), id, status)
  {
    hide CostVnd, TotalKwh, S.WithStatus, S.Next;
    var after := [Commit(w, true, false)];
    assert Run(s, after) == Next(s, after[0]);
  }

  /** A crash forgets every write still to be made, so that from then on an ended transaction keeps its status. */
  lemma CrashSettles(before: seq<Step>, id: int, status: S.Status, after: seq<Step>)
    requires EndedAs(Run(Init, before), id, status)
    ensures EndedAs(Run(Next(Run(Init, before), Crash), after), id, status)
  {
    var s := Run(Init, before);
    RunKeeps(Init, before);
    NextKeeps(s, Crash);
    assert !Threatened(Next(s, Crash), id);
    EndedStays(Next(s, Crash), after, id, status);
    hide Run, Inv;
  }

  /**
   * An ended transaction keeps its status in all later runs if and only if no start that found it
   * pending, and, if it has failed, no auto-stop that listed it, is still to be written.
   */
  lemma EndedStaysIff(before: seq<Step>, id: int, status: S.Status)
    requires EndedAs(Run(Init, before), id, status)
    ensures var s := Run(Init, before);
            !Threatened(s, id) <==> forall after :: EndedAs(Run(s, after), id, status)
  {
    var s := Run(Init, before);
    RunKeeps(Init, before);
    if Threatened(s, id) {
      var w :| w in s.writes && Threatens(s, s.writes[w], id);
      CommitRevives(s, w, id, status);
      hide *;
      assert !EndedAs(Run(s, [Commit(w, true, false)]), id, status);
    } else {
      forall after ensures EndedAs(Run(s, after), id, status) {
        EndedStays(s, after, id, status);
      }
    }
  }
}

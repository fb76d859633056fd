/**
 * Where the stored session data comes from: over every run, each field of a transaction row and of a
 * session event is explained by a message of the run, and each message has its effect.
 */
module SessionStories {
  import opened Wrappers
  import opened Events
  import opened Billing
  import opened Sessions
  import L = SessionLedger

  lemma {:induction false} RunSnoc(s: Store, steps: seq<Step>)
    requires steps != []
    ensures var n := |steps| - 1; Run(s, steps) == Next(Run(s, steps[..n]), steps[n])
    decreases |steps|
  {
    hide Next;
    if |steps| > 1 {
      RunSnoc(Next(s, steps[0]), steps[1..]);
      assert steps[1..][..|steps| - 2] == steps[..|steps| - 1][1..];
    } else {
      assert steps[..0] == [] && Run(Next(s, steps[0]), steps[1..]) == Next(s, steps[0]);
    }
  }

  // ----- Messages that explain a row -----

  /** The step brought the row into being, for this session, station, connector and tag. */
  predicate Introduces(step: Step, id: int, t: Tx) {
    match step
    case CreatePending(i, sessionId, stationId, connectorId, idTag, _, _) =>
      i == id && (t.sessionId, t.stationId, t.connectorId, t.idTag) == (sessionId, stationId, connectorId, idTag)
    case StartTransaction(stationId, p, found, i, sessionId, ok, _) =>
      ok && found.None? && i == id
      && (t.sessionId, t.stationId, t.connectorId, t.idTag) == (sessionId, stationId, p.connectorId, Some(p.idTag))
    case _ => false
  }

  /** As created: no reading yet, and the time and price of its creation. */
  predicate AsCreated(step: Step, id: int, t: Tx) {
    step.CreatePending? && step.id == id && t.meterStart == 0 && t.timeStart == step.timeStart
    && t.unitPriceVnd == step.unitPriceVnd
  }

  /**
   * The station of the row started it with this reading at this time: for the row's own session, at 3500
   * VND per kWh, or as a new row, without a price until its bill.
   */
  predicate Activates(step: Step, id: int, t: Tx) {
    && step.StartTransaction? && step.ok && step.stationId == t.stationId
    && t.meterStart == step.start.meterStart && t.timeStart == step.start.timestamp
    && match step.found
       case Some(row) => row == id && step.start.idTag == t.sessionId && t.unitPriceVnd == Some(3500)
       case None => step.id == id && t.unitPriceVnd == if t.meterEnd.Some? then Some(3500) else None
  }

  /** The station of the row stopped it with this reading at this time; only unusual reasons are kept. */
  predicate Bills(step: Step, id: int, t: Tx) {
    && step.StopTransaction? && step.ok && step.stationId == t.stationId && step.stop.transactionId == id
    && t.meterEnd == Some(step.stop.meterStop) && t.timeEnd == Some(step.stop.timestamp)
    && match step.stop.reason
       case None => t.failReason == None
       case Some(reason) => t.failReason == if reason == "Local" || reason == "Remote" then None else Some(reason)
  }

  /** The station of the row booted, or reported the row's connector as available. */
  predicate Sweeps(step: Step, t: Tx) {
    match step
    case BootNotification(stationId, now, ok, sweepOk) =>
      ok && sweepOk && stationId == t.stationId && t.timeEnd == Some(now)
      && t.failReason == Some("BootNotification:Reset")
    case StatusNotification(stationId, p, now, ok, sweepOk) =>
      ok && sweepOk && stationId == t.stationId && p.connectorId == t.connectorId && p.connectorId != 0
      && p.status == "Available" && t.timeEnd == Some(now) && t.failReason == Some("StatusNotification:Available")
    case _ => false
  }

  /** The job found the row older than five minutes. */
  predicate TimesOut(step: Step, t: Tx) {
    step.SessionTimeout? && step.ok && t.timeStart < step.now - 300_000 && t.timeEnd == Some(step.now)
    && t.failReason == Some("session_timeout")
  }

  ghost predicate Explained(steps: seq<Step>, id: int, t: Tx) {
    && (exists step :: step in steps && Introduces(step, id, t))
    && (t.ocppTransactionId.Some? ==> exists step :: step in steps && Activates(step, id, t))
    && (t.ocppTransactionId.None? ==> exists step :: step in steps && AsCreated(step, id, t))
    && (t.meterEnd.Some? ==> t.status == Stopped && exists step :: step in steps && Bills(step, id, t))
    && (t.status == Stopped && t.meterEnd.None? ==> exists step :: step in steps && Sweeps(step, t))
    && (t.status == Failed ==> exists step :: step in steps && TimesOut(step, t))
    && (Running(t) ==> t.timeEnd.None? && t.failReason.None?)
  }

  // ----- One step -----

  /** The step leaves the row's origin and start alone. */
  predicate SameStart(t: Tx, t': Tx) {
    && (t'.sessionId, t'.stationId, t'.connectorId, t'.idTag) == (t.sessionId, t.stationId, t.connectorId, t.idTag)
    && t'.ocppTransactionId == t.ocppTransactionId && t'.meterStart == t.meterStart && t'.timeStart == t.timeStart
  }

  /** What a step may have done to an existing row that it changed. */
  ghost predicate Changes(step: Step, id: int, t: Tx, t': Tx) {
    || (t.status == Pending && t' == t.(ocppTransactionId := Some(id), status := Active, meterStart := t'.meterStart,
                                        timeStart := t'.timeStart, unitPriceVnd := t'.unitPriceVnd)
        && Activates(step, id, t') && step.found.Some?)
    || (SameStart(t, t') && t'.status == Stopped && t'.meterEnd.Some? && t'.unitPriceVnd == Some(3500)
        && Bills(step, id, t') && t.ocppTransactionId.Some?)
    || (SameStart(t, t') && t'.status == Stopped && t'.meterEnd == t.meterEnd && t'.unitPriceVnd == t.unitPriceVnd
        && Running(t) && Sweeps(step, t'))
    || (SameStart(t, t') && t'.status == Failed && t'.meterEnd == t.meterEnd && t'.unitPriceVnd == t.unitPriceVnd
        && t.status == Pending && TimesOut(step, t'))
  }

  /** What a row is like that a step has added. */
  ghost predicate Adds(step: Step, id: int, t: Tx) {
    && Introduces(step, id, t) && t.meterEnd.None? && t.timeEnd.None? && t.failReason.None?
    && if step.CreatePending? then t.status == Pending && t.ocppTransactionId.None? && AsCreated(step, id, t)
       else t.status == Active && t.ocppTransactionId == Some(id) && Activates(step, id, t)
  }

  ghost predicate ChangedOrAdded(s: Store, step: Step, id: int, s': Store) {
    id in s'.txs ==>
      if id in s.txs then s'.txs[id] == s.txs[id] || Changes(step, id, s.txs[id], s'.txs[id])
      else Adds(step, id, s'.txs[id])
  }

  lemma StartChanges(s: Store, step: Step, id: int)
    requires L.Inv(s) && step.StartTransaction?
    ensures ChangedOrAdded(s, step, id, Next(s, step))
  {
    hide L.StartCount, L.LastStop, L.StopsFollowStarts, L.EventOk, L.BillOk, WithStatus, Sweeps, TimesOut, Bills;
    if id in s.txs { assert L.RowOk(id, s.txs[id]) && L.BillOk(s.txs[id], L.LastStop(s.outbox, id)); }
  }

  lemma StopChanges(s: Store, step: Step, id: int)
    requires L.Inv(s) && step.StopTransaction?
    ensures ChangedOrAdded(s, step, id, Next(s, step))
  {
    hide L.StartCount, L.LastStop, L.StopsFollowStarts, L.EventOk, L.BillOk, WithStatus, Sweeps, TimesOut, Activates;
    if step.found.Some? && step.found.value in s.txs {
      assert L.RowOk(step.found.value, s.txs[step.found.value]);
    }
  }

  lemma StepChanges(s: Store, step: Step, id: int)
    requires L.Inv(s)
    ensures ChangedOrAdded(s, step, id, Next(s, step))
  {
    hide L.Inv;
    if step.StartTransaction? {
      StartChanges(s, step, id);
    } else if step.StopTransaction? {
      StopChanges(s, step, id);
    } else if step.StatusNotification? {
      hide Activates, Bills, TimesOut, FaultEvents, ErrorCode;
    } else {
      hide Activates, Bills, NotifyConnector;
    }
  }

  lemma ChangeExplains(steps: seq<Step>, step: Step, id: int, t: Tx, t': Tx)
    requires Explained(steps, id, t) && Changes(step, id, t, t') && step in steps
    ensures Explained(steps, id, t')
  {
  }

  lemma MoreSteps(steps: seq<Step>, more: seq<Step>, id: int, t: Tx)
    requires Explained(steps, id, t) && forall step :: step in steps ==> step in more
    ensures Explained(more, id, t)
  {
    hide Introduces, Activates, AsCreated, Bills, Sweeps, TimesOut;
  }

  /** In every run, every field of a transaction row is what a message of the run made it. */
  lemma {:induction false} RowsAreExplained(steps: seq<Step>, id: int)
    requires id in Run(Empty, steps).txs
    ensures Explained(steps, id, Run(Empty, steps).txs[id])
  {
    if steps == [] { assert false; }
    var n := |steps| - 1;
    var s, step := Run(Empty, steps[..n]), steps[n];
    RunSnoc(Empty, steps);
    L.Reachable(steps[..n]);
    StepChanges(s, step, id);
    hide Next, L.Inv, Run;
    var t' := Next(s, step).txs[id];
    if id in s.txs {
      RowsAreExplained(steps[..n], id);
      MoreSteps(steps[..n], steps, id, s.txs[id]);
      if t' != s.txs[id] { ChangeExplains(steps, step, id, s.txs[id], t'); }
    }
  }

  // ----- Events -----

  /** The event carries what the message said, and what its row has kept since. */
  predicate StartMakes(step: Step, e: Event, t: Tx)
    requires e.TransactionStarted?
  {
    && step.StartTransaction? && step.ok && e.stationId == step.stationId
    && e.meterStart == step.start.meterStart && e.timeStart == step.start.timestamp
    && (e.sessionId, e.connectorId, e.idTag) == (t.sessionId, t.connectorId, t.idTag)
    && match step.found
       case Some(row) => row == e.transactionId && e.sessionId == step.start.idTag && e.unitPriceVnd == Some(3500)
       case None => step.id == e.transactionId && e.sessionId == step.sessionId && e.unitPriceVnd.None?
                    && e.connectorId == step.start.connectorId && e.idTag == Some(step.start.idTag)
  }

  predicate StopMakes(step: Step, e: Event, t: Tx)
    requires e.TransactionStopped?
  {
    && step.StopTransaction? && step.ok && e.stationId == step.stationId
    && e.transactionId == step.stop.transactionId && e.meterStop == step.stop.meterStop
    && e.timeEnd == step.stop.timestamp && e.reason == step.stop.reason
    && (e.sessionId, e.meterStart, e.timeStart) == (t.sessionId, t.meterStart, t.timeStart)
  }

  ghost predicate EventExplained(steps: seq<Step>, txs: map<int, Tx>, e: Event) {
    && (e.TransactionStarted? || e.TransactionStopped? ==>
          e.transactionId in txs && txs[e.transactionId].ocppTransactionId.Some?)
    && (e.TransactionStarted? ==> exists step :: step in steps && StartMakes(step, e, txs[e.transactionId]))
    && (e.TransactionStopped? ==> exists step :: step in steps && StopMakes(step, e, txs[e.transactionId]))
  }

  /** A started row keeps its origin and its start. */
  lemma StartedStays(s: Store, step: Step, id: int)
    requires L.Inv(s) && id in s.txs && s.txs[id].ocppTransactionId.Some?
    ensures id in Next(s, step).txs && SameStart(s.txs[id], Next(s, step).txs[id])
  {
    L.StepRow(s, step, id);
    StepChanges(s, step, id);
    assert L.RowOk(id, s.txs[id]);
    hide Next, L.Inv, Activates, Bills, Sweeps, TimesOut;
  }

  lemma EventStays(steps: seq<Step>, more: seq<Step>, txs: map<int, Tx>, txs': map<int, Tx>, e: Event)
    requires EventExplained(steps, txs, e) && forall step :: step in steps ==> step in more
    requires forall id :: id in txs && txs[id].ocppTransactionId.Some? ==> id in txs' && SameStart(txs[id], txs'[id])
    ensures EventExplained(more, txs', e)
  {
  }

  /** An event that the step appends is the step's. */
  lemma NewEvents(s: Store, step: Step, steps: seq<Step>, e: Event)
    requires L.Inv(s) && step in steps && e in Next(s, step).outbox && e !in s.outbox
    ensures EventExplained(steps, Next(s, step).txs, e)
  {
    hide L.StartCount, L.LastStop, L.StopsFollowStarts, L.EventOk, L.BillOk, WithStatus, TotalKwh, CostVnd, AutoStop,
         TimeOut;
    if step.StopTransaction? && step.found.Some? && step.found.value in s.txs {
      assert L.RowOk(step.found.value, s.txs[step.found.value]);
    }
  }

  /** In every run, every start and stop event carries the message that caused it and the row that it is about. */
  lemma {:induction false} EventsAreExplained(steps: seq<Step>, e: Event)
    requires e in Run(Empty, steps).outbox
    ensures EventExplained(steps, Run(Empty, steps).txs, e)
  {
    if steps == [] { assert false; }
    var n := |steps| - 1;
    var s, step := Run(Empty, steps[..n]), steps[n];
    RunSnoc(Empty, steps);
    L.Reachable(steps[..n]);
    if e in s.outbox {
      EventsAreExplained(steps[..n], e);
      forall id | id in s.txs && s.txs[id].ocppTransactionId.Some?
        ensures id in Next(s, step).txs && SameStart(s.txs[id], Next(s, step).txs[id])
      {
        StartedStays(s, step, id);
      }
      hide Next, L.Inv, Run, SameStart, EventExplained;
      EventStays(steps[..n], steps, s.txs, Next(s, step).txs, e);
    } else {
      NewEvents(s, step, steps, e);
    }
  }
}

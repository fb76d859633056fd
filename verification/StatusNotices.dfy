/** What a status notification says about its connector, and how far the stored and logged faults are what was said. */
module StatusNotices {
  import opened Wrappers
  import opened Events
  import opened Sessions
  import opened FaultLog
  import H = SessionStories

  /** The statuses that are stored as they are. */
  const KNOWN_STATUSES: seq<string> :=
    ["Available", "Preparing", "Charging", "SuspendedEVSE", "SuspendedEV", "Finishing", "Reserved", "Unavailable",
     "Faulted"]

  /**
   * A notification stores the code and the status that it carries, no code if it is calm and Unavailable
   * if the status is unknown. It logs a fault exactly if it is not calm, with its code, and a clear exactly if
   * it is calm and a code was stored. Connector 0 is ignored.
   */
  lemma NoticeMeans(s: Store, stationId: StationId, p: StatusMessage, now: int, sweepOk: bool)
    ensures var s' := Next(s, StatusNotification(stationId, p, now, true, sweepOk));
            var key := (stationId, p.connectorId);
            var had := key in s.connectors && s.connectors[key].errorCode.Some?;
            if p.connectorId == 0 then s' == s
            else
              && key in s'.connectors && s'.connectors == s.connectors[key := s'.connectors[key]]
              && s'.connectors[key].currentStatus == (if p.status in KNOWN_STATUSES then p.status else "Unavailable")
              && s'.connectors[key].errorCode == (if Calm(p.errorCode) then None else p.errorCode)
              && |s'.outbox| == |s.outbox| + (if Calm(p.errorCode) && !had then 1 else 2)
              && s'.outbox[..|s.outbox|] == s.outbox
              && s'.outbox[|s.outbox|] == ConnectorStatusChanged(stationId, p.connectorId, p.status,
                                                                 if Calm(p.errorCode) then None else p.errorCode)
              && (!Calm(p.errorCode) ==>
                    s'.outbox[|s.outbox| + 1] == FaultRaised(stationId, p.connectorId, p.errorCode.value))
              && (Calm(p.errorCode) && had ==> s'.outbox[|s.outbox| + 1] == FaultCleared(stationId, p.connectorId))
  {
    hide AutoStop;
  }

  // ----- Over every run -----

  /** The step is a notification about the connector, and commits. */
  predicate Notices(step: Step, key: ConnectorKey) {
    step.StatusNotification? && step.ok && step.notice.connectorId != 0
    && (step.stationId, step.notice.connectorId) == key
  }

  /** The step deletes the connector's station, which has no transaction. */
  ghost predicate Deletes(s: Store, step: Step, key: ConnectorKey) {
    step.DeleteStation? && step.stationId == key.0 && forall id :: id in s.txs ==> s.txs[id].stationId != key.0
  }

  /** What the last notification about the connector said; nothing before the first, and after a deletion. */
  ghost function LastSaid(steps: seq<Step>, key: ConnectorKey): Option<string> {
    if steps == [] then None
    else
      var n := |steps| - 1;
      if Notices(steps[n], key) then
        if Calm(steps[n].notice.errorCode) then None else steps[n].notice.errorCode
      else if Deletes(Run(Empty, steps[..n]), steps[n], key) then None
      else LastSaid(steps[..n], key)
  }

  lemma OtherStepsSpare(s: Store, step: Step, key: ConnectorKey)
    requires !Notices(step, key)
    ensures CurrentFault(Next(s, step).connectors, key)
            == if Deletes(s, step, key) then None else CurrentFault(s.connectors, key)
  {
    hide FaultEvents, AutoStop, TimeOut;
  }

  /** In every run, the stored error code of a connector is what its last notification said. */
  lemma {:induction false} CodeIsLastSaid(steps: seq<Step>, key: ConnectorKey)
    ensures CurrentFault(Run(Empty, steps).connectors, key) == LastSaid(steps, key)
  {
    if steps != [] {
      var n := |steps| - 1;
      var s, step := Run(Empty, steps[..n]), steps[n];
      CodeIsLastSaid(steps[..n], key);
      H.RunSnoc(Empty, steps);
      if Notices(step, key) {
        NoticeMeans(s, step.stationId, step.notice, step.now, step.sweepOk);
      } else {
        OtherStepsSpare(s, step, key);
      }
      hide Next, Run;
    }
  }

  /** The codes that the log raises for the connector, in order. */
  function Raised(outbox: seq<Event>, key: ConnectorKey): seq<string> {
    if outbox == [] then []
    else
      var n := |outbox| - 1;
      var last := outbox[n];
      var about := last.FaultRaised? && (last.stationId, last.connectorId) == key;
      Raised(outbox[..n], key) + (if about then [last.fault] else [])
  }

  /** What the step says about the connector's fault. */
  function CodeOf(step: Step, key: ConnectorKey): seq<string> {
    if Notices(step, key) && !Calm(step.notice.errorCode) then [step.notice.errorCode.value] else []
  }

  /** The codes that notifications about the connector have carried, in order. */
  function Reported(steps: seq<Step>, key: ConnectorKey): seq<string> {
    if steps == [] then []
    else
      var n := |steps| - 1;
      Reported(steps[..n], key) + CodeOf(steps[n], key)
  }

  lemma {:induction false} RaisedConcat(a: seq<Event>, b: seq<Event>, key: ConnectorKey)
    ensures Raised(a + b, key) == Raised(a, key) + Raised(b, key)
  {
    if b == [] {
      assert a + b == a;
    } else {
      var n := |b| - 1;
      RaisedConcat(a, b[..n], key);
      assert (a + b)[..|a| + n] == a + b[..n];
    }
  }

  /** Only a notification logs faults. */
  lemma OtherStepsRaiseNone(s: Store, step: Step, key: ConnectorKey)
    requires !step.StatusNotification?
    ensures s.outbox <= Next(s, step).outbox && |Next(s, step).outbox| <= |s.outbox| + 1
    ensures forall e :: e in Next(s, step).outbox[|s.outbox|..] ==> !e.FaultRaised?
  {
    hide AutoStop, TimeOut, WithStatus;
  }

  lemma {:induction false} NoneRaised(events: seq<Event>, key: ConnectorKey)
    requires forall e :: e in events ==> !(e.FaultRaised? && (e.stationId, e.connectorId) == key)
    ensures Raised(events, key) == []
  {
    if events != [] { NoneRaised(events[..|events| - 1], key); }
  }

  lemma RaisedPair(a: Event, b: Event, key: ConnectorKey)
    requires !a.FaultRaised? && b.FaultRaised?
    ensures Raised([a, b], key) == if (b.stationId, b.connectorId) == key then [b.fault] else []
  {
    var pair := [a, b];
    assert pair[..1] == [a] && [a][..0] == [];
    assert Raised(pair[..1], key) == [];
  }

  /** What a notification appends raises its own code, if it has one, for its own connector. */
  lemma NoticeRaises(s: Store, step: Step, key: ConnectorKey)
    requires step.StatusNotification? && step.ok && step.notice.connectorId != 0
    ensures s.outbox <= Next(s, step).outbox
    ensures Raised(Next(s, step).outbox[|s.outbox|..], key)
            == CodeOf(step, key)
  {
    NoticeMeans(s, step.stationId, step.notice, step.now, step.sweepOk);
    hide Next, Raised;
    var s' := Next(s, step);
    var news := s'.outbox[|s.outbox|..];
    if Calm(step.notice.errorCode) {
      NoneRaised(news, key);
    } else {
      assert news == [news[0], news[1]];
      RaisedPair(news[0], news[1], key);
    }
  }

  lemma NewsRaise(s: Store, step: Step, key: ConnectorKey)
    ensures s.outbox <= Next(s, step).outbox
    ensures Raised(Next(s, step).outbox[|s.outbox|..], key) == CodeOf(step, key)
  {
    var s' := Next(s, step);
    if step.StatusNotification? && step.ok && step.notice.connectorId != 0 {
      NoticeRaises(s, step, key);
      hide *;
    } else if step.StatusNotification? {
      assert s' == s && s'.outbox[|s.outbox|..] == [];
      NoneRaised([], key);
    } else {
      OtherStepsRaiseNone(s, step, key);
      NoneRaised(s'.outbox[|s.outbox|..], key);
      hide Next, Raised;
    }
  }

  lemma StepRaises(s: Store, step: Step, key: ConnectorKey)
    ensures Raised(Next(s, step).outbox, key) == Raised(s.outbox, key) + CodeOf(step, key)
  {
    hide *;
    NewsRaise(s, step, key);
    var news := Next(s, step).outbox[|s.outbox|..];
    RaisedConcat(s.outbox, news, key);
    assert Next(s, step).outbox == s.outbox + news;
  }

  /**
   * In every run, the faults that the log raises for a connector are the codes that its notifications
   * carried, all of them, once each and in order.
   */
  lemma {:induction false} RaisesAreReports(steps: seq<Step>, key: ConnectorKey)
    ensures Raised(Run(Empty, steps).outbox, key) == Reported(steps, key)
  {
    if steps != [] {
      var n := |steps| - 1;
      RaisesAreReports(steps[..n], key);
      H.RunSnoc(Empty, steps);
      StepRaises(Run(Empty, steps[..n]), steps[n], key);
      hide Next, Run, Raised;
    }
  }
}

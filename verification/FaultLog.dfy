/** The fault events in the outbox against the error codes in the connector table. */
module FaultLog {
  import opened Wrappers
  import opened Events
  import opened Sessions

  /** The three ways in which a charger says that nothing is wrong. */
  predicate Calm(errorCode: Option<string>) {
    errorCode == None || errorCode == Some("") || errorCode == Some("NoError")
  }

  // ----- The fault log read back -----

  predicate About(e: Event, key: ConnectorKey) {
    (e.FaultRaised? && (e.stationId, e.connectorId) == key) || (e.FaultCleared? && (e.stationId, e.connectorId) == key)
  }

  /** The fault a reader of the outbox believes a connector to have: the last raised and not yet cleared. */
  function LoggedFault(outbox: seq<Event>, key: ConnectorKey): Option<string> {
    if outbox == [] then None
    else
      var last := outbox[|outbox| - 1];
      if !About(last, key) then LoggedFault(outbox[..|outbox| - 1], key)
      else if last.FaultRaised? then Some(last.fault) else None
  }

  /** A clear is logged only for a fault that is logged and not cleared. */
  ghost predicate ClearsFollowRaises(outbox: seq<Event>) {
    forall k :: 0 <= k < |outbox| && outbox[k].FaultCleared? ==>
                  LoggedFault(outbox[..k], (outbox[k].stationId, outbox[k].connectorId)).Some?
  }

  ghost predicate Agree(s: Store, key: ConnectorKey) {
    LoggedFault(s.outbox, key) == CurrentFault(s.connectors, key)
  }

  /** A connector in fault has its code logged; the log may still hold faults of deleted connectors. */
  ghost predicate Logged(s: Store) {
    && (forall key :: CurrentFault(s.connectors, key).Some? ==> Agree(s, key))
    && ClearsFollowRaises(s.outbox)
  }

  lemma AppendFault(outbox: seq<Event>, e: Event)
    requires ClearsFollowRaises(outbox)
    requires e.FaultCleared? ==> LoggedFault(outbox, (e.stationId, e.connectorId)).Some?
    ensures ClearsFollowRaises(outbox + [e])
    ensures forall key :: LoggedFault(outbox + [e], key) ==
                          if !About(e, key) then LoggedFault(outbox, key)
                          else if e.FaultRaised? then Some(e.fault) else None
  {
    var more := outbox + [e];
    assert more[..|more| - 1] == outbox;
    forall k | 0 <= k < |more| && more[k].FaultCleared?
      ensures LoggedFault(more[..k], (more[k].stationId, more[k].connectorId)).Some?
    {
      assert more[..k] == outbox[..k];
      if k == |outbox| { assert outbox[..k] == outbox; }
    }
  }

  lemma AppendOther(outbox: seq<Event>, e: Event)
    requires ClearsFollowRaises(outbox) && !e.FaultRaised? && !e.FaultCleared?
    ensures ClearsFollowRaises(outbox + [e])
    ensures forall key :: LoggedFault(outbox + [e], key) == LoggedFault(outbox, key)
  {
    AppendFault(outbox, e);
  }

  /** A status notification keeps table and log in agreement, for its connector and for every other. */
  lemma NotifyLogs(s: Store, key: ConnectorKey, p: StatusMessage)
    requires Logged(s)
    ensures var s' := NotifyConnector(s, key, p);
            && Logged(s') && CurrentFault(s'.connectors, key) == (if Calm(p.errorCode) then None else p.errorCode)
            && forall k :: Agree(s, k) ==> Agree(s', k)
  {
    var s' := NotifyConnector(s, key, p);
    var was, errorCode := CurrentFault(s.connectors, key), ErrorCode(p.errorCode);
    var changed := ConnectorStatusChanged(key.0, key.1, p.status, errorCode);
    AppendOther(s.outbox, changed);
    var mid := s.outbox + [changed];
    var faults := FaultEvents(key, was, errorCode);
    if faults != [] {
      assert was.Some? ==> Agree(s, key);
      AppendFault(mid, faults[0]);
      assert mid + faults == mid + [faults[0]];
    } else {
      assert mid + faults == mid;
    }
    forall k | Agree(s, k) || CurrentFault(s'.connectors, k).Some? ensures Agree(s', k) {
      if k != key {
        assert CurrentFault(s'.connectors, k) == CurrentFault(s.connectors, k);
        assert Agree(s, k);
      }
    }
  }

  /** Steps that leave error codes alone and log no fault. */
  lemma QuietLogs(s: Store, s': Store, events: seq<Event>)
    requires Logged(s) && s'.outbox == s.outbox + events && |events| <= 1
    requires forall e :: e in events ==> !e.FaultRaised? && !e.FaultCleared?
    requires forall key :: CurrentFault(s'.connectors, key) == CurrentFault(s.connectors, key)
    ensures Logged(s') && forall key :: Agree(s, key) ==> Agree(s', key)
  {
    if events == [] {
      assert s'.outbox == s.outbox;
    } else {
      assert s'.outbox == s.outbox + [events[0]];
      AppendOther(s.outbox, events[0]);
    }
    forall key | CurrentFault(s'.connectors, key).Some? ensures Agree(s', key) {
      assert Agree(s, key);
    }
  }

  /** The step would delete a station that has a connector in fault. */
  ghost predicate DeletesFault(s: Store, step: Step) {
    && step.DeleteStation? && !HasTransactions(s.txs, step.stationId)
    && exists key: ConnectorKey :: key.0 == step.stationId && CurrentFault(s.connectors, key).Some?
  }

  lemma NextLogs(s: Store, step: Step)
    requires Logged(s)
    ensures Logged(Next(s, step))
    ensures !DeletesFault(s, step) ==> forall key :: Agree(s, key) ==> Agree(Next(s, step), key)
  {
    var s' := Next(s, step);
    if s' == s {
    } else if step.StatusNotification? {
      NotifyLogs(s, (step.stationId, step.notice.connectorId), step.notice);
      var n := NotifyConnector(s, (step.stationId, step.notice.connectorId), step.notice);
      assert s'.outbox == n.outbox && s'.connectors == n.connectors;
      assert forall key :: Agree(n, key) <==> Agree(s', key);
    } else if step.DeleteStation? {
      forall key | CurrentFault(s'.connectors, key).Some? ensures Agree(s', key) {
        assert Agree(s, key);
      }
    } else {
      assert exists events :: s'.outbox == s.outbox + events && |events| <= 1 by {
        assert s'.outbox == s.outbox + s'.outbox[|s.outbox|..];
      }
      QuietLogs(s, s', s'.outbox[|s.outbox|..]);
    }
  }

  /** Along the run, no station is deleted while one of its connectors is in fault. */
  ghost predicate NoFaultDeleted(s: Store, steps: seq<Step>)
    decreases |steps|
  {
    steps == [] || (!DeletesFault(s, steps[0]) && NoFaultDeleted(Next(s, steps[0]), steps[1..]))
  }

  lemma {:induction false} RunLogs(s: Store, steps: seq<Step>)
    requires Logged(s)
    ensures Logged(Run(s, steps))
    ensures NoFaultDeleted(s, steps) && (forall key :: Agree(s, key)) ==> forall key :: Agree(Run(s, steps), key)
    decreases |steps|
  {
    if steps != [] {
      NextLogs(s, steps[0]);
      RunLogs(Next(s, steps[0]), steps[1..]);
    }
  }

  /**
   * The outbox reconstructs every connector's fault, code included, whatever messages interleave,
   * as long as no station is deleted while one of its connectors is in fault.
   */
  lemma FaultsReconstruct(steps: seq<Step>, key: ConnectorKey)
    requires NoFaultDeleted(Empty, steps)
    ensures var s := Run(Empty, steps); LoggedFault(s.outbox, key) == CurrentFault(s.connectors, key)
  {
    RunLogs(Empty, steps);
    assert forall k :: Agree(Empty, k);
    assert Agree(Run(Empty, steps), key);
  }

  /** That condition is exact: such a deletion, and no other step, breaks the agreement. */
  lemma OnlyFaultyDeletionBreaks(steps: seq<Step>, step: Step)
    requires forall key :: Agree(Run(Empty, steps), key)
    ensures var s := Run(Empty, steps); (forall key :: Agree(Next(s, step), key)) <==> !DeletesFault(s, step)
  {
    RunLogs(Empty, steps);
    var s := Run(Empty, steps);
    NextLogs(s, step);
    if DeletesFault(s, step) {
      var key: ConnectorKey :| key.0 == step.stationId && CurrentFault(s.connectors, key).Some?;
      assert Agree(s, key) && !Agree(Next(s, step), key);
    }
  }

  /**
   * In every run, deletions included, a clear is only logged for a fault still open in the log: two
   * clears of one connector have a raise between them.
   */
  lemma ClearsAlternate(steps: seq<Step>, i: nat, k: nat, key: ConnectorKey)
    requires var outbox := Run(Empty, steps).outbox;
             && i < k < |outbox| && outbox[i] == FaultCleared(key.0, key.1) && outbox[k] == FaultCleared(key.0, key.1)
    ensures var outbox := Run(Empty, steps).outbox;
            exists j :: i < j < k && outbox[j].FaultRaised? && About(outbox[j], key)
  {
    RunLogs(Empty, steps);
    var outbox := Run(Empty, steps).outbox;
    assert LoggedFault(outbox[..k], key).Some?;
    var j := LastRaise(outbox[..k], key, i);
    assert outbox[..k][j] == outbox[j];
  }

  /**
   * The split that the atomic handlers rule out: a notification without an error that read the connector
   * before another one raised a fault, and writes after it, clears the table and not the log.
   */
  lemma StaleReadHidesClear(s: Store, key: ConnectorKey, raise: StatusMessage, calm: StatusMessage)
    requires Logged(s) && CurrentFault(s.connectors, key).None?
    requires !Calm(raise.errorCode) && Calm(calm.errorCode)
    ensures var late := WriteStatus(NotifyConnector(s, key, raise), key, calm, CurrentFault(s.connectors, key));
            CurrentFault(late.connectors, key).None? && LoggedFault(late.outbox, key) == raise.errorCode
  {
    var raised := NotifyConnector(s, key, raise);
    NotifyLogs(s, key, raise);
    assert Agree(raised, key);
    var changed := ConnectorStatusChanged(key.0, key.1, calm.status, None);
    AppendOther(raised.outbox, changed);
    var late := WriteStatus(raised, key, calm, None);
    assert late.outbox == raised.outbox + [changed] + [];
  }

  /**
   * The exact conditions for a write that goes by any earlier read: the log gives the table's fault afterwards
   * unless the write has no error, the read saw none and the log has one; and no clear is logged without a
   * fault to clear unless the write has no error, the read saw a fault and the log has none.
   */
  lemma WriteLogsIff(s: Store, key: ConnectorKey, p: StatusMessage, was: Option<string>)
    requires ClearsFollowRaises(s.outbox)
    ensures var s', calm := WriteStatus(s, key, p, was), Calm(p.errorCode);
            var logged := LoggedFault(s.outbox, key);
            && (Agree(s', key) <==> !(calm && was.None? && logged.Some?))
            && (ClearsFollowRaises(s'.outbox) <==> !(calm && was.Some? && logged.None?))
  {
    var s', errorCode := WriteStatus(s, key, p, was), ErrorCode(p.errorCode);
    var changed := ConnectorStatusChanged(key.0, key.1, p.status, errorCode);
    AppendOther(s.outbox, changed);
    var mid := s.outbox + [changed];
    var faults := FaultEvents(key, was, errorCode);
    if faults == [] {
      assert s'.outbox == mid;
    } else {
      assert s'.outbox == mid + [faults[0]];
      assert s'.outbox[..|mid|] == mid;
      if faults[0].FaultCleared? && LoggedFault(mid, key).None? {
        assert s'.outbox[|mid|] == faults[0];
      } else {
        AppendFault(mid, faults[0]);
      }
    }
  }

  lemma {:induction false} LastRaise(outbox: seq<Event>, key: ConnectorKey, i: nat) returns (j: nat)
    requires LoggedFault(outbox, key).Some? && i < |outbox| && outbox[i] == FaultCleared(key.0, key.1)
    ensures i < j < |outbox| && outbox[j].FaultRaised? && About(outbox[j], key)
  {
    var n := |outbox| - 1;
    assert outbox != [];
    if About(outbox[n], key) {
      j := n;
    } else {
      j := LastRaise(outbox[..n], key, i);
    }
  }
}

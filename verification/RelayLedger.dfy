/**
 * Exact accounting of publish attempts and stream copies, and what follows for every run from an
 * empty system: no loss, order, bounded attempts and bounded duplication.
 */
module RelayLedger {
  import opened Events
  import opened Relay
  import opened RelaySafety

  // ----- The ledger -----

  function OneIf(b: bool): nat { if b then 1 else 0 }

  /** The row's current attempt has been published or refused and is not yet written back. */
  predicate InFlight(s: Machine, id: nat) {
    && (At(s, 0, Marking) || At(s, 0, DeadLettering) || At(s, 0, Accounting))
    && Current(s, 0).id == id
  }

  predicate AwaitsMark(s: Machine, id: nat) {
    At(s, 0, Marking) && Current(s, 0).id == id
  }

  function Attempts(s: Machine, id: nat): nat {
    multiset(s.hist.tried)[id]
  }

  function Copies(s: Machine, id: nat): nat
    requires id < |s.rows|
  {
    multiset(s.stream)[Entry(id, s.rows[id].event)]
  }

  ghost predicate Untouched(s: Machine, id: nat) {
    && id !in s.hist.marked && s.hist.ackLost[id] == 0 && s.hist.unmarked[id] == 0 && s.hist.uncounted[id] == 0
    && id !in s.hist.undelivered
  }

  /** Every attempt is counted once, and every stream copy has one cause. */
  ghost predicate Balanced(s: Machine, id: nat)
    requires id < |s.rows|
  {
    && Attempts(s, id) ==
       s.rows[id].attempts + OneIf(id in s.hist.marked) + s.hist.uncounted[id] + OneIf(InFlight(s, id))
    && Copies(s, id) ==
       OneIf(id in s.hist.marked) + s.hist.unmarked[id] + s.hist.ackLost[id] + OneIf(AwaitsMark(s, id))
    && (id in s.hist.marked ==> s.rows[id].published && s.rows[id].attempts < MAX_ATTEMPTS && !InFlight(s, id))
    && (GivenUp(s, id) ==> s.rows[id].attempts + 1 >= MAX_ATTEMPTS)
  }

  ghost predicate BalancedOrNew(s: Machine, id: nat) {
    if id < |s.rows| then Balanced(s, id) else Untouched(s, id)
  }

  /** Unless a publish was refused, the stream is the log of attempts. */
  ghost predicate Mirrors(s: Machine) {
    s.hist.refused == multiset{} ==>
      |s.stream| == |s.hist.tried| && forall k :: 0 <= k < |s.stream| ==> s.stream[k].id == s.hist.tried[k]
  }

  ghost predicate Ledger(s: Machine) {
    && Inv(s) && Mirrors(s)
    && (forall id: nat :: BalancedOrNew(s, id))
  }

  lemma LedgerGives(s: Machine, id: nat)
    requires Ledger(s)
    ensures Inv(s) && BalancedOrNew(s, id) && (s.ticks != [] ==> |s.ticks| == 1)
  {
  }

  /** What the tick knows of the row it is at. */
  lemma CurrentRow(s: Machine)
    requires Inv(s) && |s.ticks| == 1 && s.ticks[0].Working?
    ensures s.ticks[0].pos < |s.ticks[0].batch|
    ensures var ev := Current(s, 0);
            && ev.id < |s.rows| && s.rows[ev.id].event == ev.event
            && s.rows[ev.id].attempts == ev.attempts < MAX_ATTEMPTS
            && (At(s, 0, Publishing) || At(s, 0, Marking) ==> !s.rows[ev.id].published)
            && (At(s, 0, Accounting) && LastAttempt(ev) ==> GivenUp(s, ev.id))
  {
    assert TickOk(s, s.ticks[0]);
    hide InBatch, GivenUp, InLog, Settled;
  }

  /** Going on to the next row ends the flight of this one. */
  lemma NextEventLands(m: Machine, id: nat)
    requires |m.ticks| == 1 && m.ticks[0].Working?
    ensures var s' := NextEvent(m, 0);
            && s'.rows == m.rows && s'.stream == m.stream && s'.dlq == m.dlq && s'.hist == m.hist
            && !InFlight(s', id) && !AwaitsMark(s', id)
  {
  }

  /** The catch block keeps the row in flight. */
  lemma CaughtFlies(m: Machine, id: nat)
    requires |m.ticks| == 1 && m.ticks[0].Working? && m.ticks[0].pos < |m.ticks[0].batch|
    ensures var s' := Caught(m, 0);
            && s'.rows == m.rows && s'.stream == m.stream && s'.dlq == m.dlq && s'.hist == m.hist
            && (InFlight(s', id) <==> Current(m, 0).id == id) && !AwaitsMark(s', id)
  {
  }

  lemma CommitBalances(s: Machine, event: Event, id: nat)
    requires Ledger(s)
    ensures BalancedOrNew(Next(s, Commit(event)), id)
  {
    var s', n := Next(s, Commit(event)), |s.rows|;
    assert BalancedOrNew(s, id);
    assert s'.dlq == s.dlq && s'.stream == s.stream && s'.hist == s.hist;
    assert s.ticks != [] ==> TickOk(s, s.ticks[0]);
    forall k | 0 <= k < |s.dlq| ensures s.dlq[k].id < n { assert s.dlq[k] in s.dlq; }
    assert InFlight(s', id) <==> InFlight(s, id);
    if id == n {
      assert id !in s.hist.tried && Entry(n, event) !in s.stream;
    }
  }

  lemma PublishMirrors(s: Machine, outcome: PublishOutcome)
    requires Ledger(s) && At(s, 0, Publishing)
    ensures Mirrors(DoPublish(s, 0, outcome))
  {
  }

  lemma CountAppend<T>(log: seq<T>, e: T, x: T)
    ensures multiset(log + [e])[x] == multiset(log)[x] + OneIf(x == e)
  {
  }

  lemma PublishMoves(s: Machine, outcome: PublishOutcome, id: nat)
    requires Inv(s) && At(s, 0, Publishing)
    ensures var s', ev := DoPublish(s, 0, outcome), Current(s, 0);
            && s'.dlq == s.dlq && s'.rows == s.rows
            && s'.stream == (if outcome == Refused then s.stream else s.stream + [Entry(ev.id, ev.event)])
            && s'.hist == s.hist.(tried := s.hist.tried + [ev.id], refused := s'.hist.refused,
                                  ackLost := s'.hist.ackLost)
            && s'.hist.ackLost[id] == s.hist.ackLost[id] + OneIf(outcome == AckLost && id == ev.id)
            && (InFlight(s', id) <==> id == ev.id) && (AwaitsMark(s', id) <==> id == ev.id && outcome == Acked)
    ensures !InFlight(s, id) && !AwaitsMark(s, id)
  {
  }

  /** How a publish changes the counts of a row. */
  lemma PublishCounts(s: Machine, outcome: PublishOutcome, id: nat)
    requires Inv(s) && At(s, 0, Publishing)
    ensures var s', ev := DoPublish(s, 0, outcome), Current(s, 0);
            && Attempts(s', id) == Attempts(s, id) + OneIf(id == ev.id)
            && (GivenUp(s', id) <==> GivenUp(s, id))
            && |s'.rows| == |s.rows|
            && (id < |s.rows| ==> Copies(s', id) == Copies(s, id) + OneIf(id == ev.id && outcome != Refused))
  {
    CurrentRow(s);
    PublishMoves(s, outcome, id);
    hide DoPublish, InFlight, AwaitsMark, Inv, InLog;
    var s', ev := DoPublish(s, 0, outcome), Current(s, 0);
    CountAppend(s.hist.tried, ev.id, id);
    if id < |s.rows| {
      CountAppend(s.stream, Entry(ev.id, ev.event), Entry(id, s.rows[id].event));
    }
  }

  lemma PublishBalances(s: Machine, outcome: PublishOutcome, id: nat)
    requires Ledger(s) && At(s, 0, Publishing)
    ensures BalancedOrNew(DoPublish(s, 0, outcome), id)
  {
    hide DoPublish, InFlight, AwaitsMark, Inv, Mirrors, Ledger, InLog, GivenUp, Attempts, Copies;
    LedgerGives(s, id);
    CurrentRow(s);
    PublishMoves(s, outcome, id);
    PublishCounts(s, outcome, id);
  }

  lemma MarkMoves(s: Machine, outcome: WriteOutcome, id: nat)
    requires Inv(s) && At(s, 0, Marking)
    ensures Current(s, 0).id < |s.rows|
    ensures var s', ev := DoMark(s, 0, outcome), Current(s, 0);
            && s'.stream == s.stream && s'.dlq == s.dlq && !AwaitsMark(s', id)
            && (InFlight(s', id) <==> outcome != Applied && ev.id == id)
            && s'.rows == (if outcome == NotApplied then s.rows else MarkRow(s.rows, ev.id))
            && s'.hist == (if outcome == Applied then s.hist.(marked := s.hist.marked + {ev.id})
                           else s.hist.(unmarked := s.hist.unmarked + multiset{ev.id}))
    ensures (InFlight(s, id) <==> Current(s, 0).id == id) && (AwaitsMark(s, id) <==> Current(s, 0).id == id)
  {
    CurrentRow(s);
    var ev := Current(s, 0);
    var unmarked := s.(hist := s.hist.(unmarked := s.hist.unmarked + multiset{ev.id}));
    match outcome {
      case Applied =>
        NextEventLands(s.(rows := MarkRow(s.rows, ev.id), hist := s.hist.(marked := s.hist.marked + {ev.id})), id);
      case NotApplied => CaughtFlies(unmarked, id);
      case Unanswered => CaughtFlies(unmarked.(rows := MarkRow(s.rows, ev.id)), id);
    }
    hide NextEvent, Caught, Inv;
  }

  lemma MarkBalances(s: Machine, outcome: WriteOutcome, id: nat)
    requires Ledger(s) && At(s, 0, Marking)
    ensures BalancedOrNew(DoMark(s, 0, outcome), id)
  {
    hide DoMark, InFlight, AwaitsMark, Inv, Mirrors, Ledger, InLog;
    LedgerGives(s, id);
    LedgerGives(s, Current(s, 0).id);
    CurrentRow(s);
    MarkMoves(s, outcome, id);
  }

  lemma DeadLetterMoves(s: Machine, ok: bool, id: nat)
    requires Inv(s) && At(s, 0, DeadLettering)
    ensures LastAttempt(Current(s, 0))
    ensures var s', ev := DoDeadLetter(s, 0, ok), Current(s, 0);
            && s'.rows == s.rows && s'.stream == s.stream
            && s'.dlq == (if ok then s.dlq + [Entry(ev.id, ev.event)] else s.dlq)
            && s'.hist == (if ok then s.hist else s.hist.(undelivered := s.hist.undelivered + {ev.id}))
            && (InFlight(s', id) <==> ev.id == id) && !AwaitsMark(s', id)
    ensures (InFlight(s, id) <==> Current(s, 0).id == id) && !AwaitsMark(s, id)
  {
    assert TickOk(s, s.ticks[0]);
    hide Inv;
  }

  lemma DeadLetterBalances(s: Machine, ok: bool, id: nat)
    requires Ledger(s) && At(s, 0, DeadLettering)
    ensures BalancedOrNew(DoDeadLetter(s, 0, ok), id)
  {
    hide DoDeadLetter, InFlight, AwaitsMark, Inv, Mirrors, Ledger;
    LedgerGives(s, id);
    CurrentRow(s);
    DeadLetterMoves(s, ok, id);
    var s', ev := DoDeadLetter(s, 0, ok), Current(s, 0);
    if id != ev.id && InLog(s'.dlq, id) {
      var k :| 0 <= k < |s'.dlq| && s'.dlq[k].id == id;
      assert s.dlq[k].id == id;
    }
  }

  lemma AccountMoves(s: Machine, outcome: WriteOutcome, id: nat)
    requires Inv(s) && At(s, 0, Accounting)
    ensures Current(s, 0).id < |s.rows|
    ensures var s', ev := DoAccount(s, 0, outcome), Current(s, 0);
            && s'.stream == s.stream && s'.dlq == s.dlq && !InFlight(s', id) && !AwaitsMark(s', id)
            && s'.rows == (if outcome == NotApplied then s.rows else CountRow(s.rows, ev))
            && s'.hist == (if outcome == NotApplied then s.hist.(uncounted := s.hist.uncounted + multiset{ev.id})
                           else s.hist)
    ensures (InFlight(s, id) <==> Current(s, 0).id == id) && !AwaitsMark(s, id)
  {
    CurrentRow(s);
    if outcome == Applied {
      NextEventLands(s.(rows := CountRow(s.rows, Current(s, 0))), id);
    }
    hide NextEvent, Inv;
  }

  lemma AccountBalances(s: Machine, outcome: WriteOutcome, id: nat)
    requires Ledger(s) && At(s, 0, Accounting)
    ensures BalancedOrNew(DoAccount(s, 0, outcome), id)
  {
    hide DoAccount, InFlight, AwaitsMark, Inv, Mirrors, Ledger, InLog;
    LedgerGives(s, id);
    LedgerGives(s, Current(s, 0).id);
    CurrentRow(s);
    AccountMoves(s, outcome, id);
  }

  lemma CrashBalances(s: Machine, id: nat)
    requires Ledger(s)
    ensures BalancedOrNew(DoCrash(s), id)
  {
    assert BalancedOrNew(s, id);
    var s' := DoCrash(s);
    assert s'.dlq == s.dlq && s'.stream == s.stream && s'.rows == s.rows;
    if s.ticks != [] { assert TickOk(s, s.ticks[0]); }
  }

  lemma IdleMoves(s: Machine, step: Step, id: nat)
    requires Inv(s) && (step.StartRelay? || step.StopRelay? || step.Fire? || step.Query?)
    ensures var s' := Next(s, step);
            && s'.dlq == s.dlq && s'.stream == s.stream && s'.rows == s.rows && s'.hist == s.hist
            && (InFlight(s', id) <==> InFlight(s, id)) && (AwaitsMark(s', id) <==> AwaitsMark(s, id))
  {
  }

  /** Steps that only start or end ticks between rows. */
  lemma IdleBalances(s: Machine, step: Step, id: nat)
    requires Ledger(s)
    requires step.StartRelay? || step.StopRelay? || step.Fire? || step.Query?
    ensures BalancedOrNew(Next(s, step), id)
  {
    hide Next, InFlight, AwaitsMark, Inv, Mirrors, Ledger;
    LedgerGives(s, id);
    IdleMoves(s, step, id);
  }

  lemma NextBalancesId(s: Machine, step: Step, id: nat)
    requires Ledger(s)
    ensures BalancedOrNew(Next(s, step), id)
  {
    assert BalancedOrNew(s, id);
    hide BalancedOrNew, Ledger, Batch;
    if Next(s, step) != s {
      match step
      case Commit(event) => CommitBalances(s, event, id);
      case Publish(k, sent) => PublishBalances(s, sent, id);
      case Mark(k, outcome) => MarkBalances(s, outcome, id);
      case DeadLetter(k, ok) => DeadLetterBalances(s, ok, id);
      case Account(k, outcome) => AccountBalances(s, outcome, id);
      case Crash => CrashBalances(s, id);
      case StartRelay => IdleBalances(s, step, id);
      case StopRelay => IdleBalances(s, step, id);
      case Fire => IdleBalances(s, step, id);
      case Query(k, ok) => IdleBalances(s, step, id);
    }
  }

  /** Only a publish appends to the stream or to the log of attempts. */
  lemma StreamStays(s: Machine, step: Step)
    requires step.Publish? ==> !At(s, step.k, Publishing)
    ensures var s' := Next(s, step);
            s'.stream == s.stream && s'.hist.tried == s.hist.tried && s'.hist.refused == s.hist.refused
  {
    hide Batch;
  }

  lemma NextMirrors(s: Machine, step: Step)
    requires Ledger(s)
    ensures Mirrors(Next(s, step))
  {
    if step.Publish? && At(s, step.k, Publishing) {
      PublishMirrors(s, step.sent);
    } else {
      assert Mirrors(s);
      StreamStays(s, step);
      hide Next, Ledger, Inv;
    }
  }

  lemma NextBalances(s: Machine, step: Step)
    requires Ledger(s)
    ensures Ledger(Next(s, step))
  {
    NextKeeps(s, step);
    NextMirrors(s, step);
    forall id: nat ensures BalancedOrNew(Next(s, step), id) { NextBalancesId(s, step, id); }
  }

  lemma {:induction false} RunBalances(s: Machine, steps: seq<Step>)
    requires Ledger(s)
    ensures Ledger(Run(s, steps))
    decreases |steps|
  {
    if steps != [] {
      NextBalances(s, steps[0]);
      RunBalances(Next(s, steps[0]), steps[1..]);
    }
  }

  lemma Reachable(steps: seq<Step>)
    ensures Ledger(Run(Init, steps))
  {
    RunBalances(Init, steps);
  }

  // ----- Theorems about every run -----

  /** However the timer, the starts and stops, the failures and the crashes fall, no two ticks overlap. */
  lemma AtMostOneTick(steps: seq<Step>)
    ensures var s := Run(Init, steps); |s.ticks| <= 1 && (s.running <==> |s.ticks| == 1)
  {
    Reachable(steps);
  }

  /**
   * No committed event is lost: it is still unpublished and selectable, or in the stream, or in the
   * dead-letter stream; the one exception is a move to the dead-letter stream that itself threw,
   * after nine counted failures.
   */
  lemma NoLoss(steps: seq<Step>, id: nat)
    requires id < |Run(Init, steps).rows|
    ensures var s := Run(Init, steps);
            || (!s.rows[id].published && s.rows[id].attempts < 10)
            || Entry(id, s.rows[id].event) in s.stream
            || Entry(id, s.rows[id].event) in s.dlq
            || (id in s.hist.undelivered && s.rows[id].attempts >= 9)
  {
    Reachable(steps);
    var s := Run(Init, steps);
    if s.rows[id].published {
      assert Settled(s, id) && BalancedOrNew(s, id);
      if InLog(s.stream, id) {
        var k :| 0 <= k < |s.stream| && s.stream[k].id == id;
        assert s.stream[k] in s.stream;
      } else if InLog(s.dlq, id) {
        var k :| 0 <= k < |s.dlq| && s.dlq[k].id == id;
        assert s.dlq[k] in s.dlq;
      }
    }
  }

  /** First attempts happen in id order, across batches, aborted ticks and crashes. */
  lemma AttemptsInOrder(steps: seq<Step>, k: nat, smaller: nat)
    requires k < |Run(Init, steps).hist.tried| && smaller < Run(Init, steps).hist.tried[k]
    ensures smaller in Run(Init, steps).hist.tried[..k]
  {
    Reachable(steps);
  }

  /** At most ten attempts per event, plus those whose accounting failed or was lost to a crash. */
  lemma AttemptsBounded(steps: seq<Step>, id: nat)
    requires id < |Run(Init, steps).rows|
    ensures var s := Run(Init, steps); Attempts(s, id) <= 10 + s.hist.uncounted[id]
  {
    Reachable(steps);
    var s := Run(Init, steps);
    assert BalancedOrNew(s, id);
    if InFlight(s, id) { assert TickOk(s, s.ticks[0]); }
  }

  /** At most one copy, plus the marks that failed or were lost and the lost acknowledgements. */
  lemma CopiesBounded(steps: seq<Step>, id: nat)
    requires id < |Run(Init, steps).rows|
    ensures var s := Run(Init, steps); Copies(s, id) <= 1 + s.hist.unmarked[id] + s.hist.ackLost[id]
  {
    Reachable(steps);
    var s := Run(Init, steps);
    assert BalancedOrNew(s, id);
    if AwaitsMark(s, id) { assert TickOk(s, s.ticks[0]); }
  }

  /** Without refused publishes every stream entry follows entries for all smaller ids. */
  lemma StreamInOrder(steps: seq<Step>, k: nat, smaller: nat)
    requires Run(Init, steps).hist.refused == multiset{}
    requires k < |Run(Init, steps).stream| && smaller < Run(Init, steps).stream[k].id
    ensures InLog(Run(Init, steps).stream[..k], smaller)
  {
    Reachable(steps);
    var s := Run(Init, steps);
    assert smaller in s.hist.tried[..k];
    var j :| 0 <= j < k && s.hist.tried[j] == smaller;
    assert s.stream[..k][j].id == smaller;
  }

  lemma {:induction false} OrderedDistinctIsIdentity(ids: seq<nat>, k: nat)
    requires InOrder(ids) && k < |ids|
    requires forall i, j :: 0 <= i < j < |ids| ==> ids[i] != ids[j]
    ensures ids[k] == k
  {
    forall j: nat | j < k ensures ids[j] == j { OrderedDistinctIsIdentity(ids, j); }
    var before := ids[..k];
    assert forall y: nat :: y < ids[k] ==> y in before;
    assert k !in before;
    assert ids[k] <= k;
    var j := ids[k];
    assert ids[j] == ids[k];
  }

  lemma CountTwice(log: seq<Entry>, i: nat, j: nat)
    requires i < j < |log| && log[i] == log[j]
    ensures multiset(log)[log[i]] >= 2
  {
    assert log == log[..j] + [log[j]] + log[j + 1..];
    assert log[..j][i] == log[i];
  }

  /** Without failed publishes and failed or lost marks, the stream is the outbox cut off at some length. */
  lemma StreamIsPrefix(steps: seq<Step>, k: nat)
    requires var h := Run(Init, steps).hist;
             h.refused == multiset{} && h.ackLost == multiset{} && h.unmarked == multiset{}
    requires k < |Run(Init, steps).stream|
    ensures var s := Run(Init, steps); k < |s.rows| && s.stream[k] == Entry(k, s.rows[k].event)
  {
    Reachable(steps);
    var s := Run(Init, steps);
    forall i, j | 0 <= i < j < |s.hist.tried|
      ensures s.hist.tried[i] != s.hist.tried[j]
    {
      if s.hist.tried[i] == s.hist.tried[j] {
        var e := s.stream[i];
        assert e in s.stream && s.stream[j] in s.stream;
        CountTwice(s.stream, i, j);
        CopiesBounded(steps, e.id);
      }
    }
    OrderedDistinctIsIdentity(s.hist.tried, k);
    assert s.stream[k] in s.stream;
  }

  /**
   * One refused publish is enough to reverse two events of one session: the stop is in the
   * stream, and the start it belongs to is not.
   */
  lemma RefusalReorders(start: Event, stop: Event)
    ensures var steps := [Commit(start), Commit(stop), StartRelay, Fire, Query(0, true),
                          Publish(0, Refused), Account(0, Applied), Publish(0, Acked)];
            var s := Run(Init, steps);
            s.stream == [Entry(1, stop)] && s.hist.refused == multiset{0}
  {
    var s1 := Next(Next(Next(Next(Init, Commit(start)), Commit(stop)), StartRelay), Fire);
    assert s1.rows == [Row(start, false, 0), Row(stop, false, 0)] && s1.ticks == [Querying];
    calc {
      PendingFrom(s1.rows, 0);
      [Snapshot(0, start, 0)] + PendingFrom(s1.rows, 1);
      { assert PendingFrom(s1.rows, 2) == []; assert PendingFrom(s1.rows, 1) == [Snapshot(1, stop, 0)] + []; }
      [Snapshot(0, start, 0), Snapshot(1, stop, 0)];
    }
    var s2 := Next(s1, Query(0, true));
    var s3 := Next(Next(s2, Publish(0, Refused)), Account(0, Applied));
    assert s3.ticks == [Working([Snapshot(0, start, 0), Snapshot(1, stop, 0)], 1, Publishing)];
    var s4 := Next(s3, Publish(0, Acked));
    assert s4.stream == [Entry(1, stop)];
    assert Run(s1, [Query(0, true), Publish(0, Refused), Account(0, Applied), Publish(0, Acked)]) == s4 by {
      RunFour(s1, Query(0, true), Publish(0, Refused), Account(0, Applied), Publish(0, Acked));
    }
    assert Run(Init, [Commit(start), Commit(stop), StartRelay, Fire]) == s1 by {
      RunFour(Init, Commit(start), Commit(stop), StartRelay, Fire);
    }
    RunConcat(Init, [Commit(start), Commit(stop), StartRelay, Fire],
              [Query(0, true), Publish(0, Refused), Account(0, Applied), Publish(0, Acked)]);
    assert [Commit(start), Commit(stop), StartRelay, Fire]
           + [Query(0, true), Publish(0, Refused), Account(0, Applied), Publish(0, Acked)]
           == [Commit(start), Commit(stop), StartRelay, Fire, Query(0, true),
               Publish(0, Refused), Account(0, Applied), Publish(0, Acked)];
  }

  /** Every publish of the run has an outcome that the stream is allowed to give. */
  predicate OnlyOutcomes(steps: seq<Step>, allowed: PublishOutcome -> bool) {
    forall step :: step in steps && step.Publish? ==> allowed(step.sent)
  }

  lemma {:induction false} NoRefusals(s: Machine, steps: seq<Step>, allowed: PublishOutcome -> bool)
    requires OnlyOutcomes(steps, allowed) && !allowed(Refused) && s.hist.refused == multiset{}
    ensures Run(s, steps).hist.refused == multiset{}
    decreases |steps|
  {
    if steps != [] {
      var s1 := Next(s, steps[0]);
      assert steps[0] in steps;
      assert s1.hist.refused == multiset{};
      NoRefusals(s1, steps[1..], allowed);
    }
  }

  ghost predicate StreamOrdered(stream: seq<Entry>) {
    forall k, smaller: nat :: 0 <= k < |stream| && smaller < stream[k].id ==> InLog(stream[..k], smaller)
  }

  /**
   * Refusals are the only thing that can reorder the stream: it is ordered in all runs iff no publish can
   * be refused.
   */
  lemma OrderIffNeverRefused(allowed: PublishOutcome -> bool)
    requires allowed(Acked)
    ensures (forall steps :: OnlyOutcomes(steps, allowed) ==> StreamOrdered(Run(Init, steps).stream))
            <==> !allowed(Refused)
  {
    if allowed(Refused) {
      var start, stop := StationOnline("a"), StationOnline("b");
      var steps := [Commit(start), Commit(stop), StartRelay, Fire, Query(0, true),
                    Publish(0, Refused), Account(0, Applied), Publish(0, Acked)];
      RefusalReorders(start, stop);
      var stream := Run(Init, steps).stream;
      assert stream[0].id == 1 && !InLog(stream[..0], 0);
      assert OnlyOutcomes(steps, allowed) && !StreamOrdered(stream);
    } else {
      forall steps | OnlyOutcomes(steps, allowed) ensures StreamOrdered(Run(Init, steps).stream) {
        NoRefusals(Init, steps, allowed);
        var stream := Run(Init, steps).stream;
        forall k, smaller: nat | 0 <= k < |stream| && smaller < stream[k].id ensures InLog(stream[..k], smaller) {
          StreamInOrder(steps, k, smaller);
        }
      }
    }
  }

  lemma RunFour(s: Machine, a: Step, b: Step, c: Step, d: Step)
    ensures Run(s, [a, b, c, d]) == Next(Next(Next(Next(s, a), b), c), d)
  {
    assert [a, b, c, d][1..] == [b, c, d] && [b, c, d][1..] == [c, d] && [c, d][1..] == [d] && [d][1..] == [];
    var s2 := Next(Next(s, a), b);
    assert Run(Next(s2, c), [d]) == Next(Next(s2, c), d);
    assert Run(s2, [c, d]) == Next(Next(s2, c), d);
    assert Run(Next(s, a), [b, c, d]) == Run(s2, [c, d]);
  }
}

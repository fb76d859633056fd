/** What every run of the relay keeps: mutual exclusion, no loss, attempt order, exact accounting. */
module RelaySafety {
  import opened Events
  import opened Relay

  // ----- The invariant -----

  /** The `running` flag is exactly "one tick is past the guard", and there is never a second. */
  ghost predicate Exclusive(s: Machine) {
    |s.ticks| <= 1 && (s.running <==> |s.ticks| == 1)
  }

  ghost predicate RowsOk(rows: seq<Row>) {
    forall i :: 0 <= i < |rows| ==>
      rows[i].attempts <= MAX_ATTEMPTS && (!rows[i].published ==> rows[i].attempts < MAX_ATTEMPTS)
  }

  ghost predicate EntriesOk(rows: seq<Row>, log: seq<Entry>) {
    forall e :: e in log ==> e.id < |rows| && e.event == rows[e.id].event
  }

  ghost predicate InBatch(batch: seq<Snapshot>, id: nat) {
    exists j :: 0 <= j < |batch| && batch[j].id == id
  }

  ghost predicate Ascending(batch: seq<Snapshot>) {
    forall i, j :: 0 <= i < j < |batch| ==> batch[i].id < batch[j].id
  }

  /**
   * A snapshot is current for every row not yet passed, unpublished from row `open` on, and skips no
   * unpublished row.
   */
  ghost predicate BatchOk(rows: seq<Row>, batch: seq<Snapshot>, pos: nat, open: nat) {
    && pos < |batch| && pos <= open <= pos + 1
    && Ascending(batch)
    && (forall j :: 0 <= j < |batch| ==> batch[j].id < |rows| && batch[j].event == rows[batch[j].id].event)
    && (forall j :: pos <= j < |batch| ==> rows[batch[j].id].attempts == batch[j].attempts < MAX_ATTEMPTS)
    && (forall j :: open <= j < |batch| ==> !rows[batch[j].id].published)
    && (forall id: nat :: id < batch[|batch| - 1].id && id < |rows| && !rows[id].published ==> InBatch(batch, id))
  }

  ghost predicate InLog(log: seq<Entry>, id: nat) {
    exists k :: 0 <= k < |log| && log[k].id == id
  }

  /** The row reached the dead-letter stream, or the move there threw. */
  ghost predicate GivenUp(s: Machine, id: nat) {
    InLog(s.dlq, id) || id in s.hist.undelivered
  }

  /** In the catch block the current row may be published already, by a mark without an answer. */
  function FirstOpen(t: Tick): nat
    requires t.Working?
  {
    if t.phase == Publishing || t.phase == Marking then t.pos else t.pos + 1
  }

  ghost predicate TickOk(s: Machine, t: Tick) {
    t.Working? ==>
      && BatchOk(s.rows, t.batch, t.pos, FirstOpen(t))
      && (forall j :: 0 <= j < t.pos ==> t.batch[j].id in s.hist.tried)
      && (t.phase != Publishing ==> t.batch[t.pos].id in s.hist.tried)
      && (t.phase == Marking ==> InLog(s.stream, t.batch[t.pos].id))
      && (t.phase == DeadLettering ==> LastAttempt(t.batch[t.pos]))
      && (t.phase == Accounting && LastAttempt(t.batch[t.pos]) ==> GivenUp(s, t.batch[t.pos].id))
  }

  /** A published row was tried, and was appended, dead-lettered, or lost by a throwing move. */
  ghost predicate Settled(s: Machine, id: nat) {
    id in s.hist.tried && (InLog(s.stream, id) || GivenUp(s, id))
  }

  /** Whenever an id is attempted, every smaller id has been attempted before. */
  ghost predicate InOrder(ids: seq<nat>) {
    forall k, y: nat :: 0 <= k < |ids| && y < ids[k] ==> y in ids[..k]
  }

  ghost predicate Inv(s: Machine) {
    && Exclusive(s)
    && RowsOk(s.rows)
    && EntriesOk(s.rows, s.stream) && EntriesOk(s.rows, s.dlq)
    && (forall t :: t in s.ticks ==> TickOk(s, t))
    && (forall id: nat :: id < |s.rows| && s.rows[id].published ==> Settled(s, id))
    && (forall id :: id in s.hist.tried ==> id < |s.rows|)
    && InOrder(s.hist.tried)
  }

  // ----- The batch query -----

  /** The list holds exactly the selected rows from `from` on, each as it is, in ascending id order. */
  ghost predicate Listed(rows: seq<Row>, from: nat, p: seq<Snapshot>) {
    && Ascending(p)
    && (forall j :: 0 <= j < |p| ==> from <= p[j].id < |rows| && Selected(rows[p[j].id])
                                     && p[j].event == rows[p[j].id].event && p[j].attempts == rows[p[j].id].attempts)
    && (forall id: nat :: from <= id < |rows| && Selected(rows[id]) ==> InBatch(p, id))
  }

  lemma ListedPrepend(rows: seq<Row>, from: nat, rest: seq<Snapshot>)
    requires from < |rows| && Selected(rows[from]) && Listed(rows, from + 1, rest)
    ensures Listed(rows, from, [Snapshot(from, rows[from].event, rows[from].attempts)] + rest)
  {
    var p := [Snapshot(from, rows[from].event, rows[from].attempts)] + rest;
    forall id: nat | from <= id < |rows| && Selected(rows[id])
      ensures InBatch(p, id)
    {
      if id == from {
        assert p[0].id == id;
      } else {
        assert InBatch(rest, id);
        var j :| 0 <= j < |rest| && rest[j].id == id;
        assert p[j + 1].id == id;
      }
    }
    hide InBatch;
  }

  lemma {:induction false} PendingFromSpec(rows: seq<Row>, from: nat)
    ensures Listed(rows, from, PendingFrom(rows, from))
    decreases |rows| - from
  {
    if from < |rows| {
      PendingFromSpec(rows, from + 1);
      if Selected(rows[from]) {
        ListedPrepend(rows, from, PendingFrom(rows, from + 1));
        hide Listed;
      }
    }
  }

  /** Cutting an ascending list off skips nothing below its new last id. */
  lemma CutSkipsNone(all: seq<Snapshot>, n: nat, id: nat)
    requires Ascending(all) && 0 < n <= |all| && InBatch(all, id) && id < all[n - 1].id
    ensures InBatch(all[..n], id)
  {
  }

  /** A prefix of the whole list of pending rows is a batch. */
  lemma PrefixIsBatch(rows: seq<Row>, all: seq<Snapshot>, n: nat)
    requires RowsOk(rows) && Listed(rows, 0, all) && 0 < n <= |all|
    ensures BatchOk(rows, all[..n], 0, 0)
  {
    hide InBatch;
    var b := all[..n];
    assert b[|b| - 1] == all[n - 1];
    forall id: nat | id < b[|b| - 1].id && id < |rows| && !rows[id].published
      ensures InBatch(b, id)
    {
      CutSkipsNone(all, n, id);
    }
  }

  lemma BatchSpec(rows: seq<Row>)
    requires RowsOk(rows) && Batch(rows) != []
    ensures BatchOk(rows, Batch(rows), 0, 0) && |Batch(rows)| <= 100
    ensures |Batch(rows)| < 100 ==>
              forall id: nat :: id < |rows| && !rows[id].published && rows[id].attempts < 10 ==>
                InBatch(Batch(rows), id)
  {
    PendingFromSpec(rows, 0);
    var all := PendingFrom(rows, 0);
    assert Batch(rows) == all[..|Batch(rows)|] && (|Batch(rows)| < 100 ==> Batch(rows) == all);
    hide PendingFrom, Batch, BatchOk, RowsOk, Ascending, InBatch;
    PrefixIsBatch(rows, all, |Batch(rows)|);
  }

  // ----- Preservation -----

  lemma InLogGrows(log: seq<Entry>, e: Entry)
    ensures InLog(log + [e], e.id)
    ensures forall id: nat :: InLog(log, id) ==> InLog(log + [e], id)
  {
    assert (log + [e])[|log|] == e;
    forall id: nat | InLog(log, id) ensures InLog(log + [e], id) {
      var k :| 0 <= k < |log| && log[k].id == id;
      assert (log + [e])[k].id == id;
    }
  }

  lemma InOrderExtend(ids: seq<nat>, id: nat)
    requires InOrder(ids) && forall y: nat :: y < id ==> y in ids
    ensures InOrder(ids + [id])
  {
    var more := ids + [id];
    forall k, y: nat | 0 <= k < |more| && y < more[k]
      ensures y in more[..k]
    {
      assert more[..k] == ids[..k];
      if k == |ids| { assert ids[..k] == ids; }
    }
  }

  /** Every row before the tick's current one has been attempted. */
  lemma EarlierTried(s: Machine, y: nat)
    requires Inv(s) && At(s, 0, Publishing)
    requires y < Current(s, 0).id
    ensures y in s.hist.tried
  {
    var t := s.ticks[0];
    assert TickOk(s, t);
    if s.rows[y].published {
      assert Settled(s, y);
    } else {
      assert t.batch[t.pos].id <= t.batch[|t.batch| - 1].id;
      assert InBatch(t.batch, y);
    }
  }

  lemma CommitKeeps(s: Machine, event: Event)
    requires Inv(s)
    ensures Inv(Next(s, Commit(event)))
  {
    var s' := Next(s, Commit(event));
    forall t | t in s'.ticks ensures TickOk(s', t) {
      assert TickOk(s, t);
    }
    forall id: nat | id < |s'.rows| && s'.rows[id].published ensures Settled(s', id) {
      assert Settled(s, id);
    }
  }

  lemma QueryKeeps(s: Machine, k: nat, ok: bool)
    requires Inv(s)
    ensures Inv(DoQuery(s, k, ok))
  {
    var s' := DoQuery(s, k, ok);
    if k < |s.ticks| && s.ticks[k].Querying? && ok && Batch(s.rows) != [] {
      BatchSpec(s.rows);
      assert TickOk(s', s'.ticks[0]);
    }
    forall id: nat | id < |s'.rows| && s'.rows[id].published ensures Settled(s', id) {
      assert Settled(s, id);
    }
  }

  lemma PublishKeeps(s: Machine, k: nat, outcome: PublishOutcome)
    requires Inv(s)
    ensures Inv(DoPublish(s, k, outcome))
  {
    if At(s, k, Publishing) {
      var s', ev, t := DoPublish(s, k, outcome), Current(s, k), s.ticks[k];
      assert TickOk(s, t);
      InLogGrows(s.stream, Entry(ev.id, ev.event));
      forall y: nat | y < ev.id ensures y in s.hist.tried { EarlierTried(s, y); }
      InOrderExtend(s.hist.tried, ev.id);
      assert s'.hist.tried[|s.hist.tried|] == ev.id;
      assert TickOk(s', s'.ticks[0]);
      forall id: nat | id < |s'.rows| && s'.rows[id].published ensures Settled(s', id) {
        assert Settled(s, id);
      }
    }
  }

  lemma BatchAdvances(rows: seq<Row>, rows': seq<Row>, batch: seq<Snapshot>, pos: nat, open: nat)
    requires BatchOk(rows, batch, pos, open) && pos + 1 < |batch| && |rows'| == |rows|
    requires forall id: nat :: id < |rows| && id != batch[pos].id ==> rows'[id] == rows[id]
    requires forall id: nat :: id < |rows| ==> rows'[id].event == rows[id].event
    ensures BatchOk(rows', batch, pos + 1, pos + 1)
  {
  }

  /** The tables after the update for the current row, with its state settled or still unpublished. */
  ghost predicate RowWritten(s: Machine, m: Machine)
    requires (At(s, 0, Marking) || At(s, 0, Accounting)) && Current(s, 0).id < |s.rows|
  {
    var current := Current(s, 0).id;
    && |m.rows| == |s.rows| && m == s.(rows := m.rows, hist := m.hist)
    && m.hist.tried == s.hist.tried && m.hist.undelivered == s.hist.undelivered
    && RowsOk(m.rows)
    && (forall id: nat :: id < |s.rows| && id != current ==> m.rows[id] == s.rows[id])
    && (forall id: nat :: id < |s.rows| ==> m.rows[id].event == s.rows[id].event)
    && (m.rows[current].published ==> Settled(s, current))
  }

  lemma AdvancedTick(s: Machine, m: Machine)
    requires Inv(s) && (At(s, 0, Marking) || At(s, 0, Accounting))
    requires Current(s, 0).id < |s.rows| && RowWritten(s, m)
    ensures forall t :: t in NextEvent(m, 0).ticks ==> TickOk(NextEvent(m, 0), t)
  {
    var t, s' := s.ticks[0], NextEvent(m, 0);
    assert TickOk(s, t);
    if t.pos + 1 < |t.batch| {
      BatchAdvances(s.rows, m.rows, t.batch, t.pos, FirstOpen(t));
      hide BatchOk;
      assert s'.ticks == [Working(t.batch, t.pos + 1, Publishing)];
    }
  }

  /** The tick's view of the rest stays right, whether it goes on or ends. */
  lemma AdvanceKeeps(s: Machine, m: Machine)
    requires Inv(s) && (At(s, 0, Marking) || At(s, 0, Accounting))
    requires Current(s, 0).id < |s.rows| && RowWritten(s, m)
    ensures Inv(NextEvent(m, 0)) && Inv(EndTick(m, 0))
  {
    hide TickOk;
    AdvancedTick(s, m);
    NextEventFields(m);
    hide NextEvent;
    var s' := NextEvent(m, 0);
    forall id: nat | id < |s'.rows| && s'.rows[id].published ensures Settled(s', id) {
      assert Settled(s, id);
    }
    assert Inv(s');
    EndKeeps(m);
    hide Inv;
  }

  /** If the tick can go on to the next row, it can as well end. */
  lemma EndKeeps(m: Machine)
    requires |m.ticks| == 1 && m.ticks[0].Working? && Inv(NextEvent(m, 0))
    ensures Inv(EndTick(m, 0))
  {
    ControlKeeps(NextEvent(m, 0), EndTick(m, 0));
    hide Inv;
  }

  lemma NextEventFields(m: Machine)
    requires |m.ticks| == 1 && m.ticks[0].Working?
    ensures var s' := NextEvent(m, 0);
            && s'.rows == m.rows && s'.hist == m.hist && s'.stream == m.stream && s'.dlq == m.dlq
            && Exclusive(s') == (m.running || m.ticks[0].pos + 1 >= |m.ticks[0].batch|)
  {
  }

  lemma MarkingRow(s: Machine)
    requires Inv(s) && At(s, 0, Marking)
    ensures Current(s, 0).id < |s.rows| && Settled(s, Current(s, 0).id)
    ensures RowsOk(MarkRow(s.rows, Current(s, 0).id))
  {
    assert TickOk(s, s.ticks[0]);
  }

  lemma MarkKeeps(s: Machine, k: nat, outcome: WriteOutcome)
    requires Inv(s)
    ensures Inv(DoMark(s, k, outcome))
  {
    assert Exclusive(s);
    hide Inv, Settled, RowsOk, NextEvent, Caught;
    if At(s, k, Marking) {
      MarkingRow(s);
      var id := Current(s, 0).id;
      var marked := s.(rows := MarkRow(s.rows, id), hist := s.hist.(marked := s.hist.marked + {id}));
      if outcome == Applied {
        AdvanceKeeps(s, marked);
      } else {
        var h := s.hist.(unmarked := s.hist.unmarked + multiset{id});
        MarkThrowsKeeps(s, s.(rows := if outcome == NotApplied then s.rows else marked.rows, hist := h));
      }
    }
  }

  /** A mark that throws, with its row published or not, leads to the catch block. */
  lemma MarkThrowsKeeps(s: Machine, m: Machine)
    requires Inv(s) && At(s, 0, Marking) && m == s.(rows := m.rows, hist := m.hist)
    requires m.hist.tried == s.hist.tried && m.hist.undelivered == s.hist.undelivered
    requires Current(s, 0).id < |s.rows| && (m.rows == s.rows || m.rows == MarkRow(s.rows, Current(s, 0).id))
    ensures Inv(Caught(m, 0))
  {
    var s', t := Caught(m, 0), s.ticks[0];
    assert TickOk(s, t);
    assert BatchOk(m.rows, t.batch, t.pos, t.pos + 1) by { hide InBatch; }
    hide BatchOk;
    assert TickOk(s', s'.ticks[0]);
    hide TickOk;
    assert Settled(s, t.batch[t.pos].id);
    forall id: nat | id < |s'.rows| && s'.rows[id].published ensures Settled(s', id) {
      assert Settled(s, id);
    }
  }

  lemma DeadLetterKeeps(s: Machine, k: nat, ok: bool)
    requires Inv(s)
    ensures Inv(DoDeadLetter(s, k, ok))
  {
    if At(s, k, DeadLettering) {
      var s', ev := DoDeadLetter(s, k, ok), Current(s, k);
      assert TickOk(s, s.ticks[k]);
      InLogGrows(s.dlq, Entry(ev.id, ev.event));
      assert GivenUp(s', ev.id);
      assert TickOk(s', s'.ticks[0]);
      forall id: nat | id < |s'.rows| && s'.rows[id].published ensures Settled(s', id) {
        assert Settled(s, id);
      }
    }
  }

  lemma AccountKeeps(s: Machine, k: nat, outcome: WriteOutcome)
    requires Inv(s)
    ensures Inv(DoAccount(s, k, outcome))
  {
    if At(s, k, Accounting) {
      var s', ev := DoAccount(s, k, outcome), Current(s, k);
      assert TickOk(s, s.ticks[k]);
      if outcome != NotApplied {
        assert s.rows[ev.id].published ==> Settled(s, ev.id);
        AdvanceKeeps(s, s.(rows := CountRow(s.rows, ev)));
      } else {
        forall id: nat | id < |s'.rows| && s'.rows[id].published ensures Settled(s', id) {
          assert Settled(s, id);
        }
      }
    }
  }

  /** Timer, flag and ticks may come and go as long as the flag still counts the ticks. */
  lemma ControlKeeps(s: Machine, s': Machine)
    requires Inv(s) && Exclusive(s')
    requires s'.rows == s.rows && s'.stream == s.stream && s'.dlq == s.dlq
    requires s'.hist.tried == s.hist.tried && s'.hist.undelivered == s.hist.undelivered
    requires forall t :: t in s'.ticks ==> t == Querying || t in s.ticks
    ensures Inv(s')
  {
  }

  lemma NextKeeps(s: Machine, step: Step)
    requires Inv(s)
    ensures Inv(Next(s, step))
  {
    match step
    case Commit(event) => CommitKeeps(s, event);
    case Query(k, ok) => QueryKeeps(s, k, ok);
    case Publish(k, sent) => PublishKeeps(s, k, sent);
    case Mark(k, outcome) => MarkKeeps(s, k, outcome);
    case DeadLetter(k, ok) => DeadLetterKeeps(s, k, ok);
    case Account(k, outcome) => AccountKeeps(s, k, outcome);
    case StartRelay => ControlKeeps(s, Next(s, step));
    case StopRelay => ControlKeeps(s, Next(s, step));
    case Fire => ControlKeeps(s, Next(s, step));
    case Crash => ControlKeeps(s, Next(s, step));
  }

  lemma {:induction false} RunKeeps(s: Machine, steps: seq<Step>)
    requires Inv(s)
    ensures Inv(Run(s, steps))
    decreases |steps|
  {
    if steps != [] {
      NextKeeps(s, steps[0]);
      RunKeeps(Next(s, steps[0]), steps[1..]);
    }
  }
}

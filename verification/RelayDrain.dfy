/** How fast ticks drain the outbox, while new events come in between them. */
module RelayDrain {
  import opened Events
  import opened Relay
  import opened RelaySafety
  import opened RelayTick

  // ----- What one tick does to the rows -----

  /** Every row of the batch is published or has one attempt more; no other row changes. */
  ghost predicate Touched(rows: seq<Row>, rows': seq<Row>, b: seq<Snapshot>) {
    && |rows'| == |rows|
    && forall id: nat :: id < |rows| ==>
         if InBatch(b, id) then rows'[id].published || rows'[id].attempts == rows[id].attempts + 1
         else rows'[id] == rows[id]
  }

  /** The first row is done, then the others. */
  lemma TouchFirst(rows: seq<Row>, mid: seq<Row>, rows': seq<Row>, b: seq<Snapshot>)
    requires b != [] && Ascending(b) && b[0].id < |rows| == |mid|
    requires mid == rows[b[0].id := mid[b[0].id]]
    requires mid[b[0].id].published || mid[b[0].id].attempts == rows[b[0].id].attempts + 1
    requires Touched(mid, rows', b[1..])
    ensures Touched(rows, rows', b)
  {
    forall id: nat | id < |rows|
      ensures InBatch(b, id) <==> id == b[0].id || InBatch(b[1..], id)
      ensures id == b[0].id ==> !InBatch(b[1..], id)
    {
      if InBatch(b, id) && id != b[0].id {
        var j :| 0 <= j < |b| && b[j].id == id;
        assert b[1..][j - 1].id == id;
      }
      if InBatch(b[1..], id) {
        var j :| 0 <= j < |b[1..]| && b[1..][j].id == id;
        assert b[j + 1].id == id;
      }
    }
  }

  lemma BatchAscends(s: Machine)
    requires Inv(s) && At(s, 0, Publishing)
    ensures Ascending(s.ticks[0].batch[s.ticks[0].pos..])
  {
    assert TickOk(s, s.ticks[0]);
  }

  lemma {:induction false} RowsTouch(s: Machine, i: nat, count: nat, io: Outcomes)
    requires Inv(s) && DatabaseUp(io) && At(s, 0, Publishing)
    requires s.ticks[0].pos == i && |s.ticks[0].batch| == count
    ensures var s' := AfterRows(s, i, count, io);
            && Inv(s') && s'.timer == s.timer && s'.ticks == []
            && Touched(s.rows, s'.rows, s.ticks[0].batch[i..])
    decreases count - i
  {
    RowProgress(s, io(i));
    BatchAscends(s);
    hide AfterRow, Inv, Touched, Ascending;
    var s1 := AfterRow(s, io(i));
    var s' := AfterRows(s, i, count, io);
    var b := s.ticks[0].batch[i..];
    assert b[0] == Current(s, 0) && b[1..] == s.ticks[0].batch[i + 1..];
    assert s' == AfterRows(s1, i + 1, count, io);
    if i + 1 < count {
      RowsTouch(s1, i + 1, count, io);
      assert s1.ticks[0].batch[i + 1..] == b[1..];
    } else {
      NothingTouched(s1.rows);
      assert b[1..] == [] && s' == s1;
    }
    TouchFirst(s.rows, s1.rows, s'.rows, b);
  }

  lemma NothingTouched(rows: seq<Row>)
    ensures Touched(rows, rows, [])
  {
  }

  lemma TickTouches(s: Machine, io: Outcomes)
    requires Idle(s) && DatabaseUp(io)
    ensures Idle(AfterTick(s, true, io)) && Touched(s.rows, AfterTick(s, true, io).rows, Batch(s.rows))
  {
    NextKeeps(s, Fire);
    var fired := DoFire(s);
    QueryKeeps(fired, 0, true);
    var queried := DoQuery(fired, 0, true);
    hide Inv, Batch, Touched;
    if Batch(s.rows) != [] {
      RowsTouch(queried, 0, |Batch(s.rows)|, io);
      assert Batch(s.rows)[0..] == Batch(s.rows);
    } else {
      NothingTouched(s.rows);
    }
  }

  // ----- Outstanding work -----

  /** Attempts a row still has before it leaves the outbox. */
  function Left(row: Row): nat {
    if row.published || row.attempts >= 10 then 0 else 10 - row.attempts
  }

  function Work(rows: seq<Row>): nat {
    if rows == [] then 0 else Work(rows[..|rows| - 1]) + Left(rows[|rows| - 1])
  }

  /** How many rows wait for a batch. */
  function Waiting(rows: seq<Row>): nat {
    if rows == [] then 0 else Waiting(rows[..|rows| - 1]) + if Selected(rows[|rows| - 1]) then 1 else 0
  }

  /** How many of the first c rows are in the batch. */
  ghost function Hits(b: seq<Snapshot>, c: nat): nat {
    if c == 0 then 0 else Hits(b, c - 1) + if InBatch(b, c - 1) then 1 else 0
  }

  lemma {:induction false} WorkBounds(rows: seq<Row>)
    ensures Waiting(rows) <= Work(rows) <= MAX_ATTEMPTS * Waiting(rows)
  {
    if rows != [] { WorkBounds(rows[..|rows| - 1]); }
  }

  ghost predicate AllSelected(rows: seq<Row>, b: seq<Snapshot>) {
    forall id: nat :: InBatch(b, id) ==> id < |rows| && Selected(rows[id])
  }

  /** Each row of the batch among the first c takes one attempt off their work. */
  lemma {:induction false} WorkFalls(rows: seq<Row>, rows': seq<Row>, b: seq<Snapshot>, c: nat)
    requires Touched(rows, rows', b) && AllSelected(rows, b) && c <= |rows|
    ensures Work(rows'[..c]) + Hits(b, c) <= Work(rows[..c])
    ensures Waiting(rows'[..c]) <= Waiting(rows[..c])
    ensures Hits(b, c) <= Waiting(rows[..c])
  {
    if c > 0 {
      WorkFalls(rows, rows', b, c - 1);
      assert rows[..c][..c - 1] == rows[..c - 1] && rows'[..c][..c - 1] == rows'[..c - 1];
      hide InBatch;
    }
  }

  lemma {:induction false} HitsSame(b: seq<Snapshot>, b': seq<Snapshot>, c: nat)
    requires forall id: nat :: id < c ==> (InBatch(b, id) <==> InBatch(b', id))
    ensures Hits(b, c) == Hits(b', c)
  {
    if c > 0 { HitsSame(b, b', c - 1); }
  }

  /** A batch that lies within the first c rows hits as often as it is long. */
  lemma {:induction false} HitsAll(b: seq<Snapshot>, c: nat)
    requires Ascending(b) && forall j :: 0 <= j < |b| ==> b[j].id < c
    ensures Hits(b, c) >= |b|
  {
    if b != [] {
      var n := |b| - 1;
      if b[n].id == c - 1 {
        var rest := b[..n];
        forall id: nat | id < c - 1 ensures InBatch(b, id) <==> InBatch(rest, id) {
          assert forall j :: 0 <= j < n ==> rest[j] == b[j];
          if InBatch(b, id) {
            var j :| 0 <= j < |b| && b[j].id == id;
            assert rest[j].id == id;
          }
        }
        HitsSame(b, rest, c - 1);
        HitsAll(rest, c - 1);
        assert InBatch(b, c - 1);
      } else {
        HitsAll(b, c - 1);
      }
    }
  }

  lemma {:induction false} HitsWaiting(rows: seq<Row>, b: seq<Snapshot>, c: nat)
    requires c <= |rows| && forall id: nat :: id < c && Selected(rows[id]) ==> InBatch(b, id)
    ensures Hits(b, c) >= Waiting(rows[..c])
  {
    if c > 0 {
      HitsWaiting(rows, b, c - 1);
      assert rows[..c][..c - 1] == rows[..c - 1];
    }
  }

  lemma PrefixSelected(rows: seq<Row>, all: seq<Snapshot>, n: nat)
    requires Listed(rows, 0, all) && n <= |all|
    ensures AllSelected(rows, all[..n]) && Ascending(all[..n])
  {
    forall id: nat | InBatch(all[..n], id) ensures id < |rows| && Selected(rows[id]) {
      var j :| 0 <= j < n && all[..n][j].id == id;
      assert all[j].id == id;
    }
    hide InBatch;
  }

  /** A list cut off at 100 is full of the first c rows, or holds every one of them that waits. */
  lemma PrefixCovers(rows: seq<Row>, all: seq<Snapshot>, n: nat, c: nat)
    requires Listed(rows, 0, all) && n <= |all| && c <= |rows| && (n == |all| || n == BATCH_SIZE)
    ensures Hits(all[..n], c) >= BATCH_SIZE
            || forall id: nat :: id < c && Selected(rows[id]) ==> InBatch(all[..n], id)
  {
    hide InBatch;
    PrefixSelected(rows, all, n);
    var b := all[..n];
    if n == |all| {
      assert b == all;
    } else if b[n - 1].id < c {
      assert forall j :: 0 <= j < n ==> b[j].id <= b[n - 1].id;
      HitsAll(b, c);
    } else {
      assert b[n - 1] == all[n - 1];
      forall id: nat | id < c && Selected(rows[id]) ensures InBatch(b, id) {
        CutSkipsNone(all, n, id);
      }
    }
  }

  /** The batch is full of the first c rows, or holds every one of them that waits. */
  lemma BatchCovers(rows: seq<Row>, c: nat)
    requires c <= |rows|
    ensures AllSelected(rows, Batch(rows))
    ensures Hits(Batch(rows), c) >= BATCH_SIZE
            || forall id: nat :: id < c && Selected(rows[id]) ==> InBatch(Batch(rows), id)
  {
    PendingFromSpec(rows, 0);
    var all, n := PendingFrom(rows, 0), |Batch(rows)|;
    assert Batch(rows) == all[..n] && (n == |all| || n == BATCH_SIZE);
    hide PendingFrom, Batch, Listed, InBatch, AllSelected, Hits, Selected;
    PrefixSelected(rows, all, n);
    PrefixCovers(rows, all, n, c);
  }

  /** The first c rows lose min(100, waiting) attempts per tick, whatever comes after them. */
  lemma TickDrops(s: Machine, io: Outcomes, c: nat)
    requires Idle(s) && DatabaseUp(io) && c <= |s.rows|
    ensures var s' := AfterTick(s, true, io);
            var waiting := Waiting(s.rows[..c]);
            && Idle(s') && |s'.rows| == |s.rows| && Waiting(s'.rows[..c]) <= waiting
            && Work(s'.rows[..c]) + (if waiting < 100 then waiting else 100) <= Work(s.rows[..c])
  {
    TickTouches(s, io);
    BatchCovers(s.rows, c);
    WorkFalls(s.rows, AfterTick(s, true, io).rows, Batch(s.rows), c);
    if Hits(Batch(s.rows), c) < BATCH_SIZE { HitsWaiting(s.rows, Batch(s.rows), c); }
    hide AfterTick, Batch, Inv, Hits, Work, Waiting, InBatch;
  }

  /** Every unpublished row among the first c has used at least n attempts. */
  ghost predicate Used(rows: seq<Row>, c: nat, n: nat)
    requires c <= |rows|
  {
    forall id: nat :: id < c && !rows[id].published ==> rows[id].attempts >= n
  }

  /** When fewer than 100 of the first c rows wait, each of them uses an attempt per tick. */
  lemma TickUses(s: Machine, io: Outcomes, c: nat, n: nat)
    requires Idle(s) && DatabaseUp(io) && c <= |s.rows| && Waiting(s.rows[..c]) < BATCH_SIZE && Used(s.rows, c, n)
    ensures c <= |AfterTick(s, true, io).rows| && Used(AfterTick(s, true, io).rows, c, n + 1)
  {
    TickTouches(s, io);
    BatchCovers(s.rows, c);
    WorkFalls(s.rows, AfterTick(s, true, io).rows, Batch(s.rows), c);
    assert RowsOk(s.rows);
    hide AfterTick, Batch, Inv, Hits, Work, Waiting, InBatch;
  }

  // ----- Ticks, with new events in between -----

  type Arrivals = nat -> seq<Event>

  function Committed(s: Machine, events: seq<Event>): Machine {
    if events == [] then s else Next(Committed(s, events[..|events| - 1]), Commit(events[|events| - 1]))
  }

  /** n ticks, each after the events that have come in since the one before. */
  function AfterTicks(s: Machine, n: nat, io: nat -> Outcomes, arrivals: Arrivals): Machine {
    if n == 0 then s else AfterTick(Committed(AfterTicks(s, n - 1, io, arrivals), arrivals(n - 1)), true, io(n - 1))
  }

  lemma {:induction false} CommittedIdle(s: Machine, events: seq<Event>)
    requires Idle(s)
    ensures Idle(Committed(s, events)) && s.rows <= Committed(s, events).rows
  {
    if events != [] {
      CommittedIdle(s, events[..|events| - 1]);
      NextKeeps(Committed(s, events[..|events| - 1]), Commit(events[|events| - 1]));
      hide Inv;
    }
  }

  lemma {:induction false} CommittedIsRun(s: Machine, events: seq<Event>) returns (steps: seq<Step>)
    ensures Run(s, steps) == Committed(s, events)
  {
    steps := [];
    if events != [] {
      var n := |events| - 1;
      var first := CommittedIsRun(s, events[..n]);
      var last := Commit(events[n]);
      RunConcat(s, first, [last]);
      assert Run(Committed(s, events[..n]), [last]) == Next(Committed(s, events[..n]), last);
      steps := first + [last];
    }
  }

  /** All this is a run of the relay. */
  lemma {:induction false} AfterTicksIsRun(s: Machine, n: nat, io: nat -> Outcomes, arrivals: Arrivals)
    returns (steps: seq<Step>)
    ensures Run(s, steps) == AfterTicks(s, n, io, arrivals)
  {
    hide AfterTick, Committed;
    steps := [];
    if n > 0 {
      var first := AfterTicksIsRun(s, n - 1, io, arrivals);
      var m := AfterTicks(s, n - 1, io, arrivals);
      var commits := CommittedIsRun(m, arrivals(n - 1));
      var tick := AfterTickIsRun(Committed(m, arrivals(n - 1)), true, io(n - 1));
      RunConcat(s, first, commits);
      RunConcat(s, first + commits, tick);
      steps := first + commits + tick;
    }
  }

  lemma {:induction false} TicksIdle(s: Machine, n: nat, io: nat -> Outcomes, arrivals: Arrivals)
    requires Idle(s) && forall i :: DatabaseUp(io(i))
    ensures var s' := AfterTicks(s, n, io, arrivals); Idle(s') && |s.rows| <= |s'.rows|
  {
    hide AfterTick, Committed, Idle, Touched;
    if n > 0 {
      TicksIdle(s, n - 1, io, arrivals);
      CommittedIdle(AfterTicks(s, n - 1, io, arrivals), arrivals(n - 1));
      TickTouches(Committed(AfterTicks(s, n - 1, io, arrivals), arrivals(n - 1)), io(n - 1));
      assert |AfterTicks(s, n, io, arrivals).rows| ==
        |Committed(AfterTicks(s, n - 1, io, arrivals), arrivals(n - 1)).rows| by {
        TickDrops(Committed(AfterTicks(s, n - 1, io, arrivals), arrivals(n - 1)), io(n - 1), 0);
      }
    }
  }

  /** While 100 of the first c rows wait, n ticks take 100 n attempts off their work. */
  lemma {:induction false} FullBatches(s: Machine, c: nat, n: nat, io: nat -> Outcomes, arrivals: Arrivals)
    requires Idle(s) && c <= |s.rows| && forall i :: DatabaseUp(io(i))
    ensures var s' := AfterTicks(s, n, io, arrivals);
            && c <= |s'.rows|
            && (Waiting(s'.rows[..c]) < BATCH_SIZE || Work(s'.rows[..c]) + BATCH_SIZE * n <= Work(s.rows[..c]))
  {
    hide AfterTick, Committed, Idle, Work, Waiting;
    if n > 0 {
      FullBatches(s, c, n - 1, io, arrivals);
      TicksIdle(s, n - 1, io, arrivals);
      var m := AfterTicks(s, n - 1, io, arrivals);
      CommittedIdle(m, arrivals(n - 1));
      var m' := Committed(m, arrivals(n - 1));
      assert m'.rows[..c] == m.rows[..c];
      TickDrops(m', io(n - 1), c);
    }
  }

  /** From then on every one of them that waits uses an attempt per tick. */
  lemma {:induction false} LastBatches(s: Machine, c: nat, from: nat, n: nat, io: nat -> Outcomes, arrivals: Arrivals)
    requires Idle(s) && c <= |s.rows| && forall i :: DatabaseUp(io(i))
    requires c <= |AfterTicks(s, from, io, arrivals).rows|
    requires Waiting(AfterTicks(s, from, io, arrivals).rows[..c]) < BATCH_SIZE
    ensures var s' := AfterTicks(s, from + n, io, arrivals);
            c <= |s'.rows| && Waiting(s'.rows[..c]) < BATCH_SIZE && Used(s'.rows, c, n)
    decreases n
  {
    hide AfterTick, Committed, Idle, Waiting, Work;
    if n > 0 {
      var k := from + n - 1;
      LastBatches(s, c, from, n - 1, io, arrivals);
      TicksIdle(s, k, io, arrivals);
      var m := AfterTicks(s, k, io, arrivals);
      CommittedIdle(m, arrivals(k));
      var m' := Committed(m, arrivals(k));
      assert m'.rows[..c] == m.rows[..c];
      assert Used(m'.rows, c, n - 1);
      TickDrops(m', io(k), c);
      TickUses(m', io(k), c, n - 1);
      assert AfterTicks(s, from + n, io, arrivals) == AfterTick(m', true, io(k));
      hide Used;
    }
  }

  /**
   * A row is published after work/100 + 10 ticks with the database up, where the work is that of the row
   * and those before it: neither publishes that fail nor events that come in meanwhile delay it further.
   */
  lemma RowIsPublished(s: Machine, id: nat, n: nat, io: nat -> Outcomes, arrivals: Arrivals)
    requires Idle(s) && id < |s.rows| && forall i :: DatabaseUp(io(i))
    requires n >= Work(s.rows[..id + 1]) / 100 + 10
    ensures var s' := AfterTicks(s, n, io, arrivals); id < |s'.rows| && s'.rows[id].published
  {
    var c, first := id + 1, n - MAX_ATTEMPTS;
    hide AfterTicks, Work, Waiting, Idle;
    FullBatches(s, c, first, io, arrivals);
    WorkBounds(AfterTicks(s, first, io, arrivals).rows[..c]);
    LastBatches(s, c, first, MAX_ATTEMPTS, io, arrivals);
    TicksIdle(s, n, io, arrivals);
    UsedUp(AfterTicks(s, n, io, arrivals), c);
  }

  lemma UsedUp(s: Machine, c: nat)
    requires Idle(s) && c <= |s.rows| && Used(s.rows, c, MAX_ATTEMPTS)
    ensures forall id: nat :: id < c ==> s.rows[id].published
  {
    assert RowsOk(s.rows);
    hide Inv;
  }

  /** So after the work of all rows, at most ten per waiting row, over 100 plus 10 ticks, all of them are published. */
  lemma DrainBound(s: Machine, n: nat, io: nat -> Outcomes, arrivals: Arrivals)
    requires Idle(s) && forall i :: DatabaseUp(io(i))
    requires n >= Work(s.rows) / 100 + 10
    ensures var s' := AfterTicks(s, n, io, arrivals);
            |s.rows| <= |s'.rows| && forall row :: row in s'.rows[..|s.rows|] ==> row.published
    ensures Work(s.rows) <= 10 * Waiting(s.rows)
  {
    hide AfterTicks, Idle;
    WorkBounds(s.rows);
    TicksIdle(s, n, io, arrivals);
    forall id: nat | id < |s.rows| ensures AfterTicks(s, n, io, arrivals).rows[id].published {
      WorkGrows(s.rows, id + 1);
      RowIsPublished(s, id, n, io, arrivals);
    }
  }

  lemma {:induction false} WorkGrows(rows: seq<Row>, c: nat)
    requires c <= |rows|
    ensures Work(rows[..c]) <= Work(rows)
  {
    if c < |rows| {
      WorkGrows(rows[..|rows| - 1], c);
      assert rows[..|rows| - 1][..c] == rows[..c];
    } else {
      assert rows[..c] == rows;
    }
  }
}

/**
 * The outbox table, the polling relay that drains it, the stream and the dead-letter stream,
 * as one transition system. Every await of a tick is a point where the other steps, among them
 * a crash of the process, can happen.
 */
module Relay {
  import opened Events

  const BATCH_SIZE: nat := 100
  const MAX_ATTEMPTS: nat := 10

  /** An outbox row; its id is its index, since ids are assigned in commit order. */
  datatype Row = Row(event: Event, published: bool, attempts: nat)

  /** What an entry of the stream or of the dead-letter stream carries. */
  datatype Entry = Entry(id: nat, event: Event)

  /** A row as the batch query returned it. */
  datatype Snapshot = Snapshot(id: nat, event: Event, attempts: nat)

  datatype Phase = Publishing | Marking | DeadLettering | Accounting

  /** Where an in-flight tick waits: for its query, or at one row of its batch. */
  datatype Tick = Querying | Working(batch: seq<Snapshot>, pos: nat, phase: Phase)

  /** A publish is acknowledged, refused with nothing appended, or appended with the answer lost. */
  datatype PublishOutcome = Acked | Refused | AckLost

  /** A table update is applied, not applied, or applied with the answer lost; the last two throw. */
  datatype WriteOutcome = Applied | NotApplied | Unanswered

  /**
   * What happened so far, for stating properties; no step reads it.
   * tried: ids in the order of publish attempts. marked: rows whose mark succeeded.
   * refused, ackLost: the two ways a publish threw. unmarked: acknowledged publishes whose mark
   * threw or was lost to a crash. uncounted: attempts that neither marked nor counted.
   * undelivered: ids whose move to the dead-letter stream threw with nothing appended.
   */
  datatype History = History(tried: seq<nat>, marked: set<nat>, refused: multiset<nat>, ackLost: multiset<nat>,
                             unmarked: multiset<nat>, uncounted: multiset<nat>, undelivered: set<nat>)

  datatype Machine = Machine(rows: seq<Row>, stream: seq<Entry>, dlq: seq<Entry>,
                             timer: bool, running: bool, ticks: seq<Tick>, hist: History)

  const Init := Machine([], [], [], false, false, [],
                        History([], {}, multiset{}, multiset{}, multiset{}, multiset{}, {}))

  datatype Step =
    | Commit(event: Event)
    | StartRelay
    | StopRelay
    | Fire
    | Query(k: nat, ok: bool)
    | Publish(k: nat, sent: PublishOutcome)
    | Mark(k: nat, outcome: WriteOutcome)
    | DeadLetter(k: nat, ok: bool)
    | Account(k: nat, outcome: WriteOutcome)
    | Crash

  // ----- The batch query: unpublished rows with attempts left, by id, at most BATCH_SIZE -----

  predicate Selected(row: Row) {
    !row.published && row.attempts < MAX_ATTEMPTS
  }

  function PendingFrom(rows: seq<Row>, from: nat): seq<Snapshot>
    decreases |rows| - from
  {
    if from >= |rows| then []
    else if Selected(rows[from]) then
      [Snapshot(from, rows[from].event, rows[from].attempts)] + PendingFrom(rows, from + 1)
    else PendingFrom(rows, from + 1)
  }

  function Batch(rows: seq<Row>): seq<Snapshot> {
    var all := PendingFrom(rows, 0);
    if |all| <= BATCH_SIZE then all else all[..BATCH_SIZE]
  }

  // ----- Steps of an in-flight tick; k chooses the tick -----

  predicate At(s: Machine, k: nat, phase: Phase) {
    k < |s.ticks| && s.ticks[k].Working? && s.ticks[k].pos < |s.ticks[k].batch| && s.ticks[k].phase == phase
  }

  function Current(s: Machine, k: nat): Snapshot
    requires k < |s.ticks| && s.ticks[k].Working? && s.ticks[k].pos < |s.ticks[k].batch|
  {
    s.ticks[k].batch[s.ticks[k].pos]
  }

  predicate LastAttempt(ev: Snapshot) {
    ev.attempts + 1 >= MAX_ATTEMPTS
  }

  /** The `finally` of a tick. */
  function EndTick(s: Machine, k: nat): Machine
    requires k < |s.ticks|
  {
    s.(running := false, ticks := s.ticks[..k] + s.ticks[k + 1..])
  }

  function Goto(s: Machine, k: nat, phase: Phase): Machine
    requires k < |s.ticks| && s.ticks[k].Working?
  {
    s.(ticks := s.ticks[k := s.ticks[k].(phase := phase)])
  }

  function NextEvent(s: Machine, k: nat): Machine
    requires k < |s.ticks| && s.ticks[k].Working?
  {
    var t := s.ticks[k];
    if t.pos + 1 < |t.batch| then s.(ticks := s.ticks[k := Working(t.batch, t.pos + 1, Publishing)])
    else EndTick(s, k)
  }

  /** The head of the catch block: the last attempt goes to the dead-letter stream first. */
  function Caught(s: Machine, k: nat): Machine
    requires k < |s.ticks| && s.ticks[k].Working? && s.ticks[k].pos < |s.ticks[k].batch|
  {
    Goto(s, k, if LastAttempt(Current(s, k)) then DeadLettering else Accounting)
  }

  function DoFire(s: Machine): Machine {
    if !s.timer || s.running then s
    else s.(running := true, ticks := s.ticks + [Querying])
  }

  function DoQuery(s: Machine, k: nat, ok: bool): Machine {
    if !(k < |s.ticks| && s.ticks[k].Querying?) then s
    else if !ok || Batch(s.rows) == [] then EndTick(s, k)
    else s.(ticks := s.ticks[k := Working(Batch(s.rows), 0, Publishing)])
  }

  function DoPublish(s: Machine, k: nat, outcome: PublishOutcome): Machine {
    if !At(s, k, Publishing) then s
    else
      var ev := Current(s, k);
      var tried := s.hist.(tried := s.hist.tried + [ev.id]);
      var appended := s.stream + [Entry(ev.id, ev.event)];
      match outcome
      case Acked => Goto(s.(stream := appended, hist := tried), k, Marking)
      case Refused => Caught(s.(hist := tried.(refused := tried.refused + multiset{ev.id})), k)
      case AckLost => Caught(s.(stream := appended, hist := tried.(ackLost := tried.ackLost + multiset{ev.id})), k)
  }

  function MarkRow(rows: seq<Row>, id: nat): seq<Row>
    requires id < |rows|
  {
    rows[id := rows[id].(published := true)]
  }

  function DoMark(s: Machine, k: nat, outcome: WriteOutcome): Machine {
    if !At(s, k, Marking) || Current(s, k).id >= |s.rows| then s
    else
      var id := Current(s, k).id;
      var unmarked := s.hist.(unmarked := s.hist.unmarked + multiset{id});
      match outcome
      case Applied => NextEvent(s.(rows := MarkRow(s.rows, id), hist := s.hist.(marked := s.hist.marked + {id})), k)
      case NotApplied => Caught(s.(hist := unmarked), k)
      case Unanswered => Caught(s.(rows := MarkRow(s.rows, id), hist := unmarked), k)
  }

  /** The catch block ignores a move that throws, so only what was appended matters; `ok` says that it was. */
  function DoDeadLetter(s: Machine, k: nat, ok: bool): Machine {
    if !At(s, k, DeadLettering) then s
    else
      var ev := Current(s, k);
      Goto(if ok then s.(dlq := s.dlq + [Entry(ev.id, ev.event)])
           else s.(hist := s.hist.(undelivered := s.hist.undelivered + {ev.id})), k, Accounting)
  }

  /** The update of the catch block; a row that a mark without an answer has published stays so. */
  function CountRow(rows: seq<Row>, ev: Snapshot): seq<Row>
    requires ev.id < |rows|
  {
    rows[ev.id := rows[ev.id].(attempts := ev.attempts + 1, published := rows[ev.id].published || LastAttempt(ev))]
  }

  /** An update that throws escapes to the tick's own catch, which ends the tick. */
  function DoAccount(s: Machine, k: nat, outcome: WriteOutcome): Machine {
    if !At(s, k, Accounting) || Current(s, k).id >= |s.rows| then s
    else
      var ev := Current(s, k);
      match outcome
      case Applied => NextEvent(s.(rows := CountRow(s.rows, ev)), k)
      case NotApplied => EndTick(s.(hist := s.hist.(uncounted := s.hist.uncounted + multiset{ev.id})), k)
      case Unanswered => EndTick(s.(rows := CountRow(s.rows, ev)), k)
  }

  /** A crash forgets the timer, the flag and every tick; table and streams survive. */
  function DoCrash(s: Machine): Machine {
    var lost := if |s.ticks| > 0 && s.ticks[0].Working? && s.ticks[0].pos < |s.ticks[0].batch| then
                  if At(s, 0, Publishing) then s.hist
                  else
                    var id := Current(s, 0).id;
                    var h := s.hist.(uncounted := s.hist.uncounted + multiset{id});
                    if At(s, 0, Marking) then h.(unmarked := h.unmarked + multiset{id}) else h
                else s.hist;
    s.(timer := false, running := false, ticks := [], hist := lost)
  }

  function Next(s: Machine, step: Step): Machine {
    match step
    case Commit(event) => s.(rows := s.rows + [Row(event, false, 0)])
    case StartRelay => s.(timer := true)
    case StopRelay => s.(timer := false)
    case Fire => DoFire(s)
    case Query(k, ok) => DoQuery(s, k, ok)
    case Publish(k, sent) => DoPublish(s, k, sent)
    case Mark(k, outcome) => DoMark(s, k, outcome)
    case DeadLetter(k, ok) => DoDeadLetter(s, k, ok)
    case Account(k, outcome) => DoAccount(s, k, outcome)
    case Crash => DoCrash(s)
  }

  function Run(s: Machine, steps: seq<Step>): Machine
    decreases |steps|
  {
    if steps == [] then s else Run(Next(s, steps[0]), steps[1..])
  }

  lemma {:induction false} RunConcat(s: Machine, a: seq<Step>, b: seq<Step>)
    ensures Run(s, a + b) == Run(Run(s, a), b)
    decreases |a|
  {
    if a == [] {
      assert a + b == b;
    } else {
      assert (a + b)[1..] == a[1..] + b;
      RunConcat(Next(s, a[0]), a[1..], b);
    }
  }
}

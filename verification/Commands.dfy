/**
 * The life of a command: its row, the sender that waits for the answer, the sweeper, and restarts.
 * Time is part of the state. Every live sender has a deadline that time cannot pass, given by the
 * limits on how late the insert, the timer and the final update can be.
 */
module Commands {
  import opened Wrappers
  import opened Events
  import opened CommandErrors
  import P = PendingRequests

  const SWEEP_MARGIN_MS: int := 60_000

  /**
   * timeout is the configured response timeout. insert, timer and finish bound how long the insert
   * takes to return, how late an expiry fires and how long the final update takes; skew bounds how
   * far the database clock, which stamps sentAt, is behind.
   */
  datatype Limits = Limits(timeout: nat, insert: nat, timer: nat, finish: nat, skew: nat)

  /** A row of ocpp_command_result. `writes` counts terminal statuses written; `answered` tells a sender wrote it. */
  datatype Row = Row(stationId: StationId, status: Status, sentAt: int, errorCode: Option<string>, writes: nat,
                     answered: bool)

  /**
   * Where a sendCommand call is: its insert is on the way back, it waits for promise `handle`, or its
   * final update runs.
   */
  datatype Sender =
    | Inserting(stationId: StationId, since: int)
    | Waiting(stationId: StationId, handle: nat, due: int)
    | Finishing(stationId: StationId, since: int, outcome: P.Outcome)

  datatype Phase = Down | Booting | Serving

  datatype Machine = Machine(now: int, phase: Phase, rows: map<string, Row>, waiters: P.State,
                             senders: map<string, Sender>, used: set<string>, outbox: seq<Event>)

  const Init := Machine(0, Down, map[], P.Init, map[], {}, [])

  datatype Step =
    | Boot
    | Cleanup(ok: bool)
    | Crash
    | Advance(now: int)
    | Insert(id: string, stationId: StationId, stamp: int, ok: bool)
    | Register(id: string)
    | Reply(id: string, status: Option<string>)
    | CallError(id: string, code: string, description: string)
    | Expire(id: string)
    | Finish(id: string, ok: bool)
    | Sweep(ok: bool)

  // ----- Writes of terminal statuses -----

  function TimedOut(row: Row): Row {
    row.(status := Timeout, writes := row.writes + 1)
  }

  /** bootstrapCleanup: no row of the previous instance stays pending, and no other row changes. */
  function Cleaned(rows: map<string, Row>): (r: map<string, Row>)
    ensures r.Keys == rows.Keys
    ensures forall id :: id in rows ==> r[id].status != Pending && (rows[id].status != Pending ==> r[id] == rows[id])
  {
    map id | id in rows :: if rows[id].status == Pending then TimedOut(rows[id]) else rows[id]
  }

  predicate Stale(lim: Limits, now: int, row: Row) {
    row.status == Pending && row.sentAt < now - lim.timeout - SWEEP_MARGIN_MS
  }

  /** sweepStalePending: no stale row is left, and only stale rows change. */
  function Swept(lim: Limits, now: int, rows: map<string, Row>): (r: map<string, Row>)
    ensures r.Keys == rows.Keys
    ensures forall id :: id in rows ==> !Stale(lim, now, r[id]) && (r[id] != rows[id] ==> Stale(lim, now, rows[id]))
  {
    map id | id in rows :: if Stale(lim, now, rows[id]) then TimedOut(rows[id]) else rows[id]
  }

  function Answered(row: Row, outcome: P.Outcome): Row {
    match outcome
    case Resolved(_) => row.(status := Completed, writes := row.writes + 1, answered := true)
    case Failed(message) =>
      row.(status := Read(message).status, errorCode := Read(message).errorCode, writes := row.writes + 1,
           answered := true)
  }

  function StatusName(status: Status): string {
    if status == Timeout then "timeout" else "error"
  }

  function ResultEvent(id: string, stationId: StationId, outcome: P.Outcome): Event {
    match outcome
    case Resolved(status) => OcppCommandResultReceived(stationId, id, status.GetOr("Accepted"))
    case Failed(message) => OcppCommandResultReceived(stationId, id, StatusName(Read(message).status))
  }

  // ----- Steps -----

  /** The latest moment by which the sender must have moved on. */
  function Deadline(lim: Limits, sender: Sender): int {
    match sender
    case Inserting(_, since) => since + lim.insert
    case Waiting(_, _, due) => due + lim.timer
    case Finishing(_, since, _) => since + lim.finish
  }

  ghost predicate OnTime(lim: Limits, senders: map<string, Sender>, now: int) {
    forall id :: id in senders ==> now <= Deadline(lim, senders[id])
  }

  /** A settled promise resumes its sender. */
  function Settle(s: Machine, id: string, outcome: P.Outcome): Machine {
    var waiters := P.DoSettle(s.waiters, id, outcome);
    if id in s.waiters.pending && id in s.senders && s.senders[id].Waiting? then
      s.(waiters := waiters, senders := s.senders[id := Finishing(s.senders[id].stationId, s.now, outcome)])
    else s.(waiters := waiters)
  }

  function DoExpire(s: Machine, id: string): Machine {
    if id in s.senders && s.senders[id].Waiting? && s.senders[id].due <= s.now then
      s.(waiters := P.DoExpire(s.waiters, s.senders[id].handle),
         senders := s.senders[id := Finishing(s.senders[id].stationId, s.now, P.Failed(P.TimeoutMessage(id)))])
    else s
  }

  function DoFinish(s: Machine, id: string, ok: bool): Machine {
    if id in s.senders && s.senders[id].Finishing? then
      var sender := s.senders[id];
      var done := s.(senders := s.senders - {id});
      if ok && id in s.rows then
        done.(rows := s.rows[id := Answered(s.rows[id], sender.outcome)],
              outbox := s.outbox + [ResultEvent(id, sender.stationId, sender.outcome)])
      else done
    else s
  }

  ghost function Next(lim: Limits, s: Machine, step: Step): Machine {
    match step
    case Boot => if s.phase == Down then s.(phase := Booting) else s
    case Cleanup(ok) =>
      if s.phase != Booting then s
      else s.(phase := Serving, rows := if ok then Cleaned(s.rows) else s.rows)
    case Crash => s.(phase := Down, waiters := P.Init, senders := map[])
    case Advance(now) => if s.now <= now && OnTime(lim, s.senders, now) then s.(now := now) else s
    case Insert(id, stationId, stamp, ok) =>
      if s.phase != Serving || id in s.used || stamp < s.now - lim.skew then s
      else s.(used := s.used + {id}, senders := s.senders[id := Inserting(stationId, s.now)],
              rows := if ok then s.rows[id := Row(stationId, Pending, stamp, None, 0, false)] else s.rows)
    case Register(id) =>
      if id in s.senders && s.senders[id].Inserting? then
        s.(waiters := P.DoWait(s.waiters, id),
           senders := s.senders[id := Waiting(s.senders[id].stationId, |s.waiters.promises|, s.now + lim.timeout)])
      else s
    case Reply(id, status) => Settle(s, id, P.Resolved(status))
    case CallError(id, code, description) => Settle(s, id, P.Failed(CallErrorMessage(code, description)))
    case Expire(id) => DoExpire(s, id)
    case Finish(id, ok) => DoFinish(s, id, ok)
    case Sweep(ok) => if s.phase == Serving && ok then s.(rows := Swept(lim, s.now, s.rows)) else s
  }

  ghost function Run(lim: Limits, s: Machine, steps: seq<Step>): Machine
    decreases |steps|
  {
    if steps == [] then s else Run(lim, Next(lim, s, steps[0]), steps[1..])
  }

  lemma {:induction false} RunConcat(lim: Limits, s: Machine, a: seq<Step>, b: seq<Step>)
    ensures Run(lim, s, a + b) == Run(lim, Run(lim, s, a), b)
    decreases |a|
  {
    if a == [] {
      assert a + b == b;
    } else {
      assert (a + b)[1..] == a[1..] + b;
      RunConcat(lim, Next(lim, s, a[0]), a[1..], b);
    }
  }

  // ----- The invariant -----

  /** The answers written for a message id. */
  function ResultCount(outbox: seq<Event>, id: string): nat {
    if outbox == [] then 0
    else
      var last := outbox[|outbox| - 1];
      ResultCount(outbox[..|outbox| - 1], id)
      + (if last.OcppCommandResultReceived? && last.messageId == id then 1 else 0)
  }

  /** The waiting senders are exactly the waiters, each with its own promise. */
  ghost predicate WaitersMatch(s: Machine) {
    && P.Inv(s.waiters)
    && (forall id :: id in s.waiters.pending ==> id in s.senders && s.senders[id].Waiting?)
    && (forall id :: id in s.senders && s.senders[id].Waiting? ==>
          id in s.waiters.pending && s.waiters.pending[id] == s.senders[id].handle)
  }

  ghost predicate RowOk(s: Machine, id: string)
    requires id in s.rows
  {
    var row := s.rows[id];
    && (row.status == Pending <==> row.writes == 0)
    && (row.answered ==> row.status != Pending)
    && ResultCount(s.outbox, id) == (if row.answered then 1 else 0)
    && id in s.used
  }

  ghost predicate Inv(s: Machine) {
    && WaitersMatch(s)
    && (s.phase != Serving ==> s.senders == map[])
    && (forall id :: id in s.senders ==> id in s.used)
    && (forall id :: id in s.rows ==> RowOk(s, id))
    && (forall id :: id !in s.rows ==> ResultCount(s.outbox, id) == 0)
    && (forall id :: id in s.rows && id in s.senders ==> !s.rows[id].answered)
  }

  /** A live sender has got no further than the limits allow since its row was stamped. */
  ghost predicate Timely(lim: Limits, sentAt: int, sender: Sender) {
    match sender
    case Inserting(_, since) => since <= sentAt + lim.skew
    case Waiting(_, _, due) => due <= sentAt + lim.skew + lim.insert + lim.timeout
    case Finishing(_, since, _) => since <= sentAt + lim.skew + lim.insert + lim.timeout + lim.timer
  }

  /** With a wide enough margin, rows of live senders are pending, and no row has been written twice. */
  ghost predicate Safe(lim: Limits, s: Machine) {
    && OnTime(lim, s.senders, s.now)
    && (forall id :: id in s.rows && id in s.senders ==>
          Timely(lim, s.rows[id].sentAt, s.senders[id]) && s.rows[id].status == Pending)
    && (forall id :: id in s.rows ==> s.rows[id].writes <= 1)
  }

  predicate MarginCovers(lim: Limits) {
    lim.skew + lim.insert + lim.timer + lim.finish <= 60_000
  }

  // ----- Preservation -----

  lemma RegisterWaits(lim: Limits, s: Machine, id: string)
    requires Inv(s)
    ensures WaitersMatch(Next(lim, s, Register(id)))
  {
    P.WaitKeepsIff(s.waiters, id);
    hide P.Inv;
  }

  lemma SettleWaits(s: Machine, id: string, outcome: P.Outcome)
    requires Inv(s)
    ensures WaitersMatch(Settle(s, id, outcome))
  {
    P.SettleKeeps(s.waiters, id, outcome);
    hide P.Inv;
  }

  lemma ExpireWaits(s: Machine, id: string)
    requires Inv(s)
    ensures WaitersMatch(DoExpire(s, id))
  {
    if id in s.senders && s.senders[id].Waiting? {
      var h := s.senders[id].handle;
      assert s.waiters.pending[id] == h && P.WaiterOk(s.waiters, h);
      P.ExpireKeeps(s.waiters, h);
    }
    hide P.Inv;
  }

  lemma WaitersKeep(lim: Limits, s: Machine, step: Step)
    requires Inv(s)
    ensures WaitersMatch(Next(lim, s, step))
  {
    match step
    case Register(id) => RegisterWaits(lim, s, id);
    case Reply(id, status) => SettleWaits(s, id, P.Resolved(status));
    case CallError(id, code, description) => SettleWaits(s, id, P.Failed(CallErrorMessage(code, description)));
    case Expire(id) => ExpireWaits(s, id);
    case Boot =>
    case Cleanup(ok) =>
    case Crash =>
    case Advance(now) =>
    case Insert(id, stationId, stamp, ok) => hide P.Inv;
    case Finish(id, ok) => hide P.Inv;
    case Sweep(ok) =>
  }

  lemma FinishKeeps(lim: Limits, s: Machine, id: string, ok: bool)
    requires Inv(s)
    ensures Inv(DoFinish(s, id, ok))
  {
  }

  /** The sweep, the cleanup and the insert only add rows or write timeouts. */
  lemma RowsKeep(s: Machine, rows: map<string, Row>)
    requires Inv(s)
    requires forall id :: id in s.rows ==> id in rows
    requires forall id :: id in rows ==>
               if id !in s.rows then
                 && id in s.used && id !in s.senders
                 && rows[id].status == Pending && rows[id].writes == 0 && !rows[id].answered
               else rows[id] == s.rows[id] || (s.rows[id].status == Pending && rows[id] == TimedOut(s.rows[id]))
    ensures Inv(s.(rows := rows))
  {
  }

  /** Senders may come and go, as long as no row with a live sender has been answered. */
  lemma SameRowsKeep(s: Machine, s': Machine)
    requires Inv(s) && s'.rows == s.rows && s'.outbox == s.outbox && s.used <= s'.used
    requires WaitersMatch(s') && (s'.phase != Serving ==> s'.senders == map[])
    requires forall id :: id in s'.senders ==>
               id in s'.used && (id in s.senders || id !in s.rows || !s.rows[id].answered)
    ensures Inv(s')
  {
  }

  lemma SenderKeeps(lim: Limits, s: Machine, step: Step)
    requires Inv(s) && (step.Register? || step.Reply? || step.CallError? || step.Expire?)
    ensures Inv(Next(lim, s, step))
  {
    WaitersKeep(lim, s, step);
    SameRowsKeep(s, Next(lim, s, step));
  }

  lemma InsertKeeps(lim: Limits, s: Machine, step: Step)
    requires Inv(s) && step.Insert?
    ensures Inv(Next(lim, s, step))
  {
  }

  lemma ProcessKeeps(lim: Limits, s: Machine, step: Step)
    requires Inv(s) && (step.Boot? || step.Cleanup? || step.Crash? || step.Advance? || step.Sweep?)
    ensures Inv(Next(lim, s, step))
  {
    var s' := Next(lim, s, step);
    RowsKeep(s, s'.rows);
    SameRowsKeep(s.(rows := s'.rows), s');
  }

  lemma NextKeeps(lim: Limits, s: Machine, step: Step)
    requires Inv(s)
    ensures Inv(Next(lim, s, step))
  {
    hide Inv;
    if step.Finish? {
      FinishKeeps(lim, s, step.id, step.ok);
    } else if step.Insert? {
      InsertKeeps(lim, s, step);
    } else if step.Register? || step.Reply? || step.CallError? || step.Expire? {
      SenderKeeps(lim, s, step);
    } else {
      ProcessKeeps(lim, s, step);
    }
  }

  /** Row writers: the sweep spares rows of live senders, the cleanup meets none, the final update ends one. */
  lemma WritersSafe(lim: Limits, s: Machine, step: Step)
    requires Inv(s) && Safe(lim, s) && MarginCovers(lim)
    requires step.Cleanup? || step.Sweep? || step.Finish? || step.Insert?
    ensures Safe(lim, Next(lim, s, step))
  {
  }

  /** The other steps move senders, within the limits. */
  lemma MoversSafe(lim: Limits, s: Machine, step: Step)
    requires Safe(lim, s)
    requires !(step.Cleanup? || step.Sweep? || step.Finish? || step.Insert?)
    ensures Safe(lim, Next(lim, s, step))
  {
  }

  lemma NextSafe(lim: Limits, s: Machine, step: Step)
    requires Inv(s) && Safe(lim, s) && MarginCovers(lim)
    ensures Safe(lim, Next(lim, s, step))
  {
    hide *;
    if step.Cleanup? || step.Sweep? || step.Finish? || step.Insert? {
      WritersSafe(lim, s, step);
    } else {
      MoversSafe(lim, s, step);
    }
  }
}

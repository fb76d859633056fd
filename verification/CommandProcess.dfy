/** The command segments between awaits, the sweeper service and its scheduler, over mutable state. */
module CommandProcess {
  import opened Wrappers
  import opened Events
  import opened CommandErrors
  import opened Commands
  import P = PendingRequests
  import W = Sweeper

  class Process {
    const lim: Limits
    var now: int
    var phase: Phase
    var rows: map<string, Row>
    var waiters: P.Waiters
    var senders: map<string, Sender>
    var used: set<string>
    var outbox: seq<Event>
    // ocppCommandSweeper.scheduler: its timer variable, starts under way, timers that tick
    var timer: bool
    ghost var starting: nat
    ghost var intervals: int

    constructor (lim: Limits)
      ensures State() == Init && Scheduler() == W.Init && this.lim == lim && fresh(waiters)
    {
      this.lim := lim;
      now, phase, rows, senders, used, outbox := 0, Down, map[], map[], {}, [];
      timer, starting, intervals := false, 0, 0;
      waiters := new P.Waiters();
    }

    function State(): Machine
      reads this, waiters
    {
      Machine(now, phase, rows, waiters.Current(), senders, used, outbox)
    }

    ghost function Scheduler(): W.State
      reads this
    {
      W.State(timer, starting, intervals)
    }

    // ----- sendCommand, segment by segment -----

    method InsertPending(id: string, stationId: StationId, stamp: int, ok: bool)
      requires phase == Serving && id !in used && stamp >= now - lim.skew
      modifies this
      ensures waiters == old(waiters)
      ensures State() == Next(lim, old(State()), Insert(id, stationId, stamp, ok))
    {
      used := used + {id};
      if ok {
        rows := rows[id := Row(stationId, Pending, stamp, None, 0, false)];
      }
      senders := senders[id := Inserting(stationId, now)];
    }

    method RegisterAndSend(id: string)
      requires id in senders && senders[id].Inserting?
      modifies this, waiters
      ensures waiters == old(waiters)
      ensures State() == Next(lim, old(State()), Register(id))
    {
      var handle := waiters.WaitFor(id);
      senders := senders[id := Waiting(senders[id].stationId, handle, now + lim.timeout)];
    }

    method OnCallResult(id: string, status: Option<string>)
      requires Inv(State())
      modifies this, waiters
      ensures waiters == old(waiters)
      ensures State() == Next(lim, old(State()), Reply(id, status))
    {
      var awaited := id in waiters.pending;
      waiters.ResolveReply(id, status);
      if awaited && id in senders && senders[id].Waiting? {
        senders := senders[id := Finishing(senders[id].stationId, now, P.Resolved(status))];
      }
    }

    method OnCallError(id: string, code: string, description: string)
      requires Inv(State())
      modifies this, waiters
      ensures waiters == old(waiters)
      ensures State() == Next(lim, old(State()), CallError(id, code, description))
    {
      var message := CallErrorMessage(code, description);
      var awaited := id in waiters.pending;
      waiters.RejectReply(id, message);
      if awaited && id in senders && senders[id].Waiting? {
        senders := senders[id := Finishing(senders[id].stationId, now, P.Failed(message))];
      }
    }

    method OnTimer(id: string)
      requires Inv(State()) && id in senders && senders[id].Waiting? && senders[id].due <= now
      modifies this, waiters
      ensures waiters == old(waiters)
      ensures State() == Next(lim, old(State()), Expire(id))
    {
      var handle := senders[id].handle;
      assert waiters.pending[id] == handle && P.WaiterOk(waiters.Current(), handle);
      waiters.TimerFires(handle);
      senders := senders[id := Finishing(senders[id].stationId, now, P.Failed(P.TimeoutMessage(id)))];
    }

    /** The final transaction: the row and its event together, or neither. */
    method FinishCommand(id: string, ok: bool)
      requires id in senders && senders[id].Finishing?
      modifies this
      ensures waiters == old(waiters)
      ensures State() == Next(lim, old(State()), Finish(id, ok))
    {
      var sender := senders[id];
      senders := senders - {id};
      if !ok || id !in rows { return; }
      match sender.outcome {
        case Resolved(status) =>
          rows := rows[id := rows[id].(status := Completed, writes := rows[id].writes + 1, answered := true)];
          outbox := outbox + [OcppCommandResultReceived(sender.stationId, id, status.GetOr("Accepted"))];
        case Failed(message) =>
          var r := ReadError(message);
          rows := rows[id := rows[id].(status := r.status, errorCode := r.errorCode, writes := rows[id].writes + 1,
                                       answered := true)];
          outbox := outbox + [OcppCommandResultReceived(sender.stationId, id, StatusName(r.status))];
      }
    }

    // ----- ocppCommandResultService -----

    method BootstrapCleanup() returns (count: nat)
      modifies this`rows
      ensures rows == Cleaned(old(rows))
      ensures count == |set id | id in old(rows) && old(rows)[id].status == Pending|
    {
      count := |set id | id in rows && rows[id].status == Pending|;
      rows := Cleaned(rows);
    }

    method SweepStalePending(ok: bool) returns (count: nat)
      requires phase == Serving
      modifies this`rows
      ensures State() == Next(lim, old(State()), Sweep(ok))
      ensures count == if ok then |set id | id in old(rows) && rows[id] != old(rows)[id]| else 0
    {
      if !ok { return 0; }
      ghost var before := rows;
      count := |set id | id in rows && Stale(lim, now, rows[id])|;
      rows := Swept(lim, now, rows);
      assert (set id | id in before && rows[id] != before[id]) ==
        (set id | id in before && Stale(lim, now, before[id]));
    }

    // ----- The scheduler, and the boot order -----

    /** startOcppCommandSweeper up to its await; the answer says whether it goes on. */
    method EnterStart() returns (goesOn: bool)
      modifies this`starting
      ensures Scheduler() == W.Next(old(Scheduler()), W.EnterStart)
      ensures goesOn == !timer && (goesOn ==> starting > 0)
    {
      if timer { return false; }
      starting := starting + 1;
      return true;
    }

    /** The cleanup, whose failure is logged and ignored, and then the timer. */
    method FinishStart(ok: bool)
      requires starting > 0
      modifies this`rows, this`timer, this`starting, this`intervals
      ensures Scheduler() == W.Next(old(Scheduler()), W.FinishStart)
      ensures rows == if ok then Cleaned(old(rows)) else old(rows)
    {
      if ok {
        var _ := BootstrapCleanup();
      }
      timer := true;
      starting, intervals := starting - 1, intervals + 1;
    }

    method StopSweeper()
      modifies this`timer, this`intervals
      ensures Scheduler() == W.Next(old(Scheduler()), W.Stop) && !timer
    {
      if timer {
        timer := false;
        intervals := intervals - 1;
      }
    }

    /** One timer, and no pending row of the previous instance, before the server listens. */
    method BootAndListen(ok: bool)
      requires phase == Down && Scheduler() == W.Init
      modifies this
      ensures waiters == old(waiters) && Scheduler() == W.State(true, 0, 1)
      ensures State() == Next(lim, Next(lim, old(State()), Boot), Cleanup(ok))
    {
      phase := Booting;
      var goesOn := EnterStart();
      if goesOn { FinishStart(ok); }
      phase := Serving;
    }

    /** Everything in memory is gone; the tables stay. */
    method CrashProcess()
      modifies this
      ensures fresh(waiters) && Scheduler() == W.Init
      ensures State() == Next(lim, old(State()), Crash)
    {
      phase, senders, timer := Down, map[], false;
      starting, intervals := 0, 0;
      waiters := new P.Waiters();
    }
  }
}

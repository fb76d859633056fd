/** Replies awaited by message id: a map of waiters, each with a promise and a timer. */
module PendingRequests {
  import opened Wrappers

  /** What a promise settles with: the `status` field of the reply, if it has one, or an error message. */
  datatype Outcome = Resolved(status: Option<string>) | Failed(message: string)

  /** `calls` counts how often the promise's resolve or reject was called; only the first call has an effect. */
  datatype Promise = Promise(id: string, outcome: Option<Outcome>, armed: bool, calls: nat)

  datatype State = State(pending: map<string, nat>, promises: seq<Promise>)

  const Init := State(map[], [])

  datatype Step =
    | Wait(id: string)
    | Resolve(id: string, status: Option<string>)
    | Reject(id: string, message: string)
    | Expire(handle: nat)

  function TimeoutMessage(id: string): string {
    "OCPP response timeout for messageId: " + id
  }

  function Called(p: Promise, outcome: Outcome): Promise {
    p.(armed := false, calls := p.calls + 1, outcome := if p.outcome.None? then Some(outcome) else p.outcome)
  }

  function DoWait(s: State, id: string): State {
    State(s.pending[id := |s.promises|], s.promises + [Promise(id, None, true, 0)])
  }

  /** resolve and reject: only a waiter still in the map is answered, and it leaves the map. */
  function DoSettle(s: State, id: string, outcome: Outcome): State {
    if id in s.pending && s.pending[id] < |s.promises| then
      var h := s.pending[id];
      State(s.pending - {id}, s.promises[h := Called(s.promises[h], outcome)])
    else s
  }

  /** The timer callback deletes whatever entry its id has and rejects its own promise. */
  function DoExpire(s: State, h: nat): State {
    if h < |s.promises| && s.promises[h].armed then
      var id := s.promises[h].id;
      State(s.pending - {id}, s.promises[h := Called(s.promises[h], Failed(TimeoutMessage(id)))])
    else s
  }

  function Next(s: State, step: Step): State {
    match step
    case Wait(id) => DoWait(s, id)
    case Resolve(id, status) => DoSettle(s, id, Resolved(status))
    case Reject(id, message) => DoSettle(s, id, Failed(message))
    case Expire(h) => DoExpire(s, h)
  }

  function Run(s: State, steps: seq<Step>): State
    decreases |steps|
  {
    if steps == [] then s else Run(Next(s, steps[0]), steps[1..])
  }

  // ----- Exactly once -----

  /** A waiter is in the map exactly while its promise is unsettled, which is exactly while its timer is armed. */
  ghost predicate WaiterOk(s: State, h: nat)
    requires h < |s.promises|
  {
    var p := s.promises[h];
    && (p.armed <==> p.outcome.None?)
    && (p.armed <==> p.id in s.pending && s.pending[p.id] == h)
    && p.calls == (if p.armed then 0 else 1)
  }

  ghost predicate Inv(s: State) {
    && (forall h: nat :: h < |s.promises| ==> WaiterOk(s, h))
    && (forall id :: id in s.pending ==> s.pending[id] < |s.promises| && s.promises[s.pending[id]].id == id)
  }

  /** Waiting keeps this exactly when the id is not awaited already. */
  lemma WaitKeepsIff(s: State, id: string)
    requires Inv(s)
    ensures Inv(DoWait(s, id)) <==> id !in s.pending
  {
    var s' := DoWait(s, id);
    forall h: nat | h < |s.promises| && id !in s.pending ensures WaiterOk(s', h) {
      assert WaiterOk(s, h);
    }
    if id in s.pending {
      var h := s.pending[id];
      assert WaiterOk(s, h) && !WaiterOk(s', h);
    }
  }

  lemma SettleKeeps(s: State, id: string, outcome: Outcome)
    requires Inv(s)
    ensures Inv(DoSettle(s, id, outcome))
    ensures var s' := DoSettle(s, id, outcome);
            if id !in s.pending then s' == s
            else s'.promises[s.pending[id]].outcome == Some(outcome) && s'.pending == s.pending - {id}
  {
    var s' := DoSettle(s, id, outcome);
    assert id in s.pending ==> WaiterOk(s, s.pending[id]);
    forall h: nat | h < |s'.promises| ensures WaiterOk(s', h) {
      assert WaiterOk(s, h);
    }
  }

  /** An expiry rejects its own promise with the timeout message; a cleared timer does nothing. */
  lemma ExpireKeeps(s: State, handle: nat)
    requires Inv(s)
    ensures Inv(DoExpire(s, handle))
    ensures var s' := DoExpire(s, handle);
            if handle >= |s.promises| || s.promises[handle].outcome.Some? then s' == s
            else
              var id := s.promises[handle].id;
              s'.promises[handle].outcome == Some(Failed("OCPP response timeout for messageId: " + id))
              && s'.pending == s.pending - {id}
  {
    var s' := DoExpire(s, handle);
    assert handle < |s.promises| ==> WaiterOk(s, handle);
    forall h: nat | h < |s'.promises| ensures WaiterOk(s', h) {
      assert WaiterOk(s, h);
    }
  }

  /** Along the run no id is awaited while it is awaited already; fresh ids give this. */
  predicate NoOverlap(s: State, steps: seq<Step>)
    decreases |steps|
  {
    steps == [] || ((steps[0].Wait? ==> steps[0].id !in s.pending) && NoOverlap(Next(s, steps[0]), steps[1..]))
  }

  lemma {:induction false} RunKeeps(s: State, steps: seq<Step>)
    requires Inv(s) && NoOverlap(s, steps)
    ensures Inv(Run(s, steps))
    decreases |steps|
  {
    if steps != [] {
      NextKeeps(s, steps[0]);
      RunKeeps(Next(s, steps[0]), steps[1..]);
    }
  }

  lemma NextKeeps(s: State, step: Step)
    requires Inv(s) && (step.Wait? ==> step.id !in s.pending)
    ensures Inv(Next(s, step))
  {
    match step
    case Wait(id) => WaitKeepsIff(s, id);
    case Resolve(id, status) => SettleKeeps(s, id, Resolved(status));
    case Reject(id, message) => SettleKeeps(s, id, Failed(message));
    case Expire(h) => ExpireKeeps(s, h);
  }

  /**
   * Over any interleaving of replies, errors and expiries a promise is settled by one call, and an
   * unsettled promise is still in the map with its timer armed, so that it will be.
   */
  lemma SettledExactlyOnce(steps: seq<Step>, h: nat)
    requires NoOverlap(Init, steps) && h < |Run(Init, steps).promises|
    ensures var s := Run(Init, steps);
            var p := s.promises[h];
            if p.outcome.Some? then p.calls == 1 && !p.armed
            else p.calls == 0 && p.armed && p.id in s.pending && s.pending[p.id] == h
  {
    RunKeeps(Init, steps);
    assert WaiterOk(Run(Init, steps), h);
  }

  /** Later answers change nothing about a settled promise. */
  lemma {:induction false} SettledStays(s: State, steps: seq<Step>, h: nat)
    requires Inv(s) && NoOverlap(s, steps) && h < |s.promises| && s.promises[h].outcome.Some?
    ensures h < |Run(s, steps).promises| && Run(s, steps).promises[h] == s.promises[h]
    decreases |steps|
  {
    if steps != [] {
      var s1 := Next(s, steps[0]);
      assert WaiterOk(s, h);
      NextKeeps(s, steps[0]);
      assert s1.promises[h] == s.promises[h] by {
        if steps[0].Resolve? || steps[0].Reject? {
          assert steps[0].id in s.pending ==> WaiterOk(s, s.pending[steps[0].id]);
        }
      }
      SettledStays(s1, steps[1..], h);
    }
  }

  /** An id awaited twice at once: the first timer removes the second waiter, whose reply then gets lost. */
  lemma ReusedIdLosesReply(id: string, status: Option<string>)
    ensures var s := Run(Init, [Wait(id), Wait(id), Expire(0), Resolve(id, status)]);
            |s.promises| == 2 && s.promises[1].outcome.None? && id !in s.pending
  {
    var a, b, c, d := Wait(id), Wait(id), Expire(0), Resolve(id, status);
    var s3 := Next(Next(Next(Init, a), b), c);
    assert [a, b, c, d][1..] == [b, c, d] && [b, c, d][1..] == [c, d] && [c, d][1..] == [d] && [d][1..] == [];
    assert Run(s3, [d]) == Next(s3, d);
    assert Run(Next(Next(Init, a), b), [c, d]) == Run(s3, [d]);
    assert Run(Next(Init, a), [b, c, d]) == Run(Next(Next(Init, a), b), [c, d]);
    assert s3.promises[1] == Promise(id, None, true, 0);
  }

  // ----- The class -----

  class Waiters {
    var pending: map<string, nat>
    var promises: seq<Promise>

    constructor ()
      ensures Current() == Init
    {
      pending, promises := map[], [];
    }

    function Current(): State
      reads this
    {
      State(pending, promises)
    }

    method WaitFor(messageId: string) returns (handle: nat)
      modifies this
      ensures Current() == DoWait(old(Current()), messageId) && handle == |old(promises)|
    {
      handle := |promises|;
      promises := promises + [Promise(messageId, None, true, 0)];
      pending := pending[messageId := handle];
    }

    method ResolveReply(messageId: string, status: Option<string>)
      requires Inv(Current())
      modifies this
      ensures Current() == DoSettle(old(Current()), messageId, Resolved(status)) && Inv(Current())
    {
      SettleKeeps(Current(), messageId, Resolved(status));
      if messageId in pending {
        var handle := pending[messageId];
        pending := pending - {messageId};
        promises := promises[handle := Called(promises[handle], Resolved(status))];
      }
    }

    method RejectReply(messageId: string, message: string)
      requires Inv(Current())
      modifies this
      ensures Current() == DoSettle(old(Current()), messageId, Failed(message)) && Inv(Current())
    {
      SettleKeeps(Current(), messageId, Failed(message));
      if messageId in pending {
        var handle := pending[messageId];
        pending := pending - {messageId};
        promises := promises[handle := Called(promises[handle], Failed(message))];
      }
    }

    /** The callback of a timer; a cleared timer has none. */
    method TimerFires(handle: nat)
      requires Inv(Current()) && handle < |promises| && promises[handle].armed
      modifies this
      ensures Current() == DoExpire(old(Current()), handle) && Inv(Current())
    {
      ExpireKeeps(Current(), handle);
      var messageId := promises[handle].id;
      pending := pending - {messageId};
      promises := promises[handle := Called(promises[handle], Failed(TimeoutMessage(messageId)))];
    }
  }
}

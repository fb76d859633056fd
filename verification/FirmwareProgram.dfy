/** The campaign service and the notification handler over mutable tables. */
module FirmwareProgram {
  import opened Wrappers
  import opened Events
  import opened Firmware

  /** What happens to one target: how the send ends, whether its row update succeeds, and when. */
  datatype Attempt = Attempt(outcome: Dispatched, stored: bool, now: int)

  /** The steps of a dispatch loop over targets i to n. */
  function DispatchSteps(c: int, i: nat, n: nat, io: nat -> Attempt): seq<Step>
    decreases n - i
  {
    if i >= n then [] else [Dispatch(c, io(i).outcome, io(i).stored, io(i).now)] + DispatchSteps(c, i + 1, n, io)
  }

  lemma DispatchUnfolds(s: State, c: int, i: nat, n: nat, io: nat -> Attempt)
    requires i < n
    ensures Run(s, DispatchSteps(c, i, n, io))
            == Run(Next(s, Dispatch(c, io(i).outcome, io(i).stored, io(i).now)), DispatchSteps(c, i + 1, n, io))
  {
  }

  datatype StartReply = Refused | Started(totalTargets: nat)

  class FirmwareCampaigns {
    var campaigns: map<int, Campaign>
    var progress: map<Key, Row>
    var unlinked: set<Key>
    var counting: multiset<int>
    var cancelling: multiset<int>
    ghost var lost: set<Key>

    constructor ()
      ensures Current() == Init
    {
      campaigns, progress, unlinked := map[], map[], {};
      counting, cancelling, lost := multiset{}, multiset{}, {};
    }

    ghost function Current(): State
      reads this
    {
      State(campaigns, progress, unlinked, counting, cancelling, lost)
    }

    method StartCampaign(c: int, active: bool, targets: seq<StationId>, now: int) returns (reply: StartReply)
      requires c !in campaigns
      modifies this
      ensures Current() == Next(old(Current()), Start(c, active, targets, now))
      ensures reply == if active && targets != [] && Distinct(targets) then Started(|targets|) else Refused
    {
      if !active { return Refused; }
      if |targets| == 0 { return Refused; }
      if !Distinct(targets) { return Refused; }
      campaigns := campaigns[c := Campaign(Running, targets, 0, true)];
      progress := progress + map i | 0 <= i < |targets| :: (c, targets[i]) := Row(Queued, now, None, None);
      return Started(|targets|);
    }

    /** updateMany on one progress row; a failed update is swallowed, and an unlinked row is not found. */
    method UpdateProgress(key: Key, outcome: Dispatched, a: Attempt)
      modifies this`progress, this`lost
      ensures progress == if a.stored && key !in unlinked && key in old(progress)
                          then old(progress)[key := Sending(old(progress)[key], outcome, a.now)] else old(progress)
      ensures lost == if a.stored && key !in unlinked then old(lost) else old(lost) + {key}
    {
      if !a.stored || key in unlinked {
        lost := lost + {key};
      } else if key in progress {
        progress := progress[key := Sending(progress[key], outcome, a.now)];
      }
    }

    /** The body of the dispatch loop. */
    method DispatchTarget(c: int, stationId: StationId, a: Attempt)
      requires c in campaigns && campaigns[c].alive && campaigns[c].next < |campaigns[c].targets|
      requires stationId == campaigns[c].targets[campaigns[c].next]
      modifies this
      ensures Current() == Next(old(Current()), Dispatch(c, a.outcome, a.stored, a.now))
      ensures c in campaigns && campaigns[c] == old(campaigns)[c].(next := old(campaigns)[c].next + 1)
    {
      var key := (c, stationId);
      if a.outcome.Offline? {
        UpdateProgress(key, Offline, a);
      } else if a.outcome.Accepted? {
        UpdateProgress(key, Accepted, a);
      } else {
        UpdateProgress(key, SendFailed(a.outcome.message), a);
      }
      campaigns := campaigns[c := campaigns[c].(next := campaigns[c].next + 1)];
    }

    /** The dispatch loop, undisturbed from the first target to the last. */
    method DispatchAll(c: int, io: nat -> Attempt)
      requires c in campaigns && campaigns[c].alive && campaigns[c].next == 0
      modifies this
      ensures Current() == Run(old(Current()), DispatchSteps(c, 0, |old(campaigns)[c].targets|, io))
    {
      var stationIds := campaigns[c].targets;
      ghost var s0 := Current();
      ghost var all := DispatchSteps(c, 0, |stationIds|, io);
      var i := 0;
      while i < |stationIds|
        invariant 0 <= i <= |stationIds|
        invariant c in campaigns && campaigns[c].alive && campaigns[c].targets == stationIds && campaigns[c].next == i
        invariant Run(s0, all) == Run(Current(), DispatchSteps(c, i, |stationIds|, io))
      {
        DispatchUnfolds(Current(), c, i, |stationIds|, io);
        hide Run, DispatchSteps;
        DispatchTarget(c, stationIds[i], io(i));
        i := i + 1;
      }
    }

    /**
     * The row update of the handler, for the open row its lookup found; the answer says whether a
     * count for that row's campaign follows.
     */
    method HandleNotification(stationId: StationId, raw: string, open: Option<Key>, stored: bool, now: int)
      returns (final: bool)
      requires LatestOpen(Current(), stationId, open)
      modifies this`progress, this`counting
      ensures Current() == Next(old(Current()), Notify(stationId, raw, open, stored, now))
      ensures final == (open.Some? && (raw == "Installed" || raw == "DownloadFailed" || raw == "InstallationFailed"))
    {
      var mapped := Mapped(raw);
      if mapped.None? || open.None? { return false; }
      var status := mapped.value;
      var isFinal := status == Installed || status == Failed;
      if stored {
        progress := progress[open.value := Row(status, now, if isFinal then Some(now) else None,
                                               if status == Failed then Some("OCPP status: " + raw) else None)];
      }
      if isFinal {
        counting := counting + multiset{open.value.0};
      }
      return isFinal;
    }

    /** The count after a final notification, and the automatic completion. */
    method CountAndComplete(c: int, counted: bool, stored: bool)
      requires c in counting
      modifies this`campaigns, this`counting
      ensures Current() == Next(old(Current()), CountRemaining(c, counted, stored))
    {
      counting := counting - multiset{c};
      var remaining: int := -1;
      if counted {
        remaining := |set key | key in progress && key.0 == c && !Done(progress[key].status)|;
        assert remaining == |Remaining(Current(), c)|;
      }
      if remaining == 0 && stored && c in campaigns {
        campaigns := campaigns[c := campaigns[c].(status := Completed)];
      }
    }

    /** The part of a station's deletion that concerns campaigns. */
    method UnlinkStation(stationId: StationId)
      modifies this`unlinked
      ensures Current() == Next(old(Current()), DeleteStation(stationId))
    {
      unlinked := unlinked + set key | key in progress && key.1 == stationId;
    }

    /** cancel up to its update: a campaign that is not running is refused. */
    method BeginCancel(c: int) returns (running: bool)
      modifies this`cancelling
      ensures Current() == Next(old(Current()), ReadCancel(c))
      ensures running ==> c in cancelling && c in campaigns && campaigns[c].status == Running
      ensures !running ==> c !in campaigns || campaigns[c].status != Running
    {
      if c !in campaigns || campaigns[c].status != Running { return false; }
      cancelling := cancelling + multiset{c};
      return true;
    }

    /** The update of a cancellation that has read a running campaign. */
    method FinishCancel(c: int, stored: bool)
      requires c in cancelling
      modifies this`campaigns, this`cancelling
      ensures Current() == Next(old(Current()), WriteCancel(c, stored))
    {
      cancelling := cancelling - multiset{c};
      if stored && c in campaigns {
        campaigns := campaigns[c := campaigns[c].(status := Cancelled)];
      }
    }
  }
}

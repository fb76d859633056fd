/**
 * Firmware campaigns: the dispatch loop, the chargers' notifications, the automatic completion and
 * cancellation, all over shared progress rows. A notification is two steps, the row update and the
 * count that may complete the campaign; anything can happen between them.
 */
module Firmware {
  import opened Wrappers
  import opened Events

  datatype Status = Queued | Sent | Downloading | Downloaded | Installing | Installed | Failed | SendError

  datatype Row = Row(status: Status, updatedAt: int, completedAt: Option<int>, error: Option<string>)

  datatype CampaignStatus = Running | Completed | Cancelled

  /** `next` is the target that the dispatch loop handles next; `alive` tells that the loop still runs. */
  datatype Campaign = Campaign(status: CampaignStatus, targets: seq<StationId>, next: nat, alive: bool)

  type Key = (int, StationId)

  /**
   * A row's key is its campaign and target; `unlinked` holds the rows whose station has been deleted
   * since, which no update by station finds any more. `counting` holds, for each final notification
   * still in progress, its campaign, and `cancelling`, for each cancellation that has read a running
   * campaign and not yet written. `lost` records the dispatched rows that the loop's update did not
   * reach, because it failed or the row was unlinked; no step reads it.
   */
  datatype State = State(campaigns: map<int, Campaign>, progress: map<Key, Row>, unlinked: set<Key>,
                         counting: multiset<int>, cancelling: multiset<int>, lost: set<Key>)

  const Init := State(map[], map[], {}, multiset{}, multiset{}, {})

  datatype Dispatched = Offline | Accepted | SendFailed(message: string)

  datatype Step =
    | Start(campaign: int, active: bool, targets: seq<StationId>, now: int)
    | Dispatch(campaign: int, outcome: Dispatched, stored: bool, now: int)
    | Notify(stationId: StationId, status: string, open: Option<Key>, stored: bool, now: int)
    | CountRemaining(campaign: int, counted: bool, stored: bool)
    | ReadCancel(campaign: int)
    | WriteCancel(campaign: int, stored: bool)
    | DeleteStation(stationId: StationId)
    | Crash

  // ----- start -----

  predicate Distinct(targets: seq<StationId>) {
    forall i, j :: 0 <= i < j < |targets| ==> targets[i] != targets[j]
  }

  /** A duplicate target violates the unique key of the progress rows, and the transaction fails. */
  function DoStart(s: State, c: int, active: bool, targets: seq<StationId>, now: int): State {
    if !active || targets == [] || !Distinct(targets) || c in s.campaigns then s
    else
      var rows := map i | 0 <= i < |targets| :: (c, targets[i]) := Row(Queued, now, None, None);
      s.(campaigns := s.campaigns[c := Campaign(Running, targets, 0, true)], progress := s.progress + rows)
  }

  // ----- dispatchAll, one target -----

  function Sending(row: Row, outcome: Dispatched, now: int): Row {
    match outcome
    case Accepted => row.(status := Sent, updatedAt := now)
    case Offline => Row(SendError, now, Some(now), Some("station offline"))
    case SendFailed(message) => Row(SendError, now, Some(now), Some(message))
  }

  function DoDispatch(s: State, c: int, outcome: Dispatched, stored: bool, now: int): State {
    if c !in s.campaigns || !s.campaigns[c].alive || s.campaigns[c].next >= |s.campaigns[c].targets| then s
    else
      var campaign := s.campaigns[c];
      var key := (c, campaign.targets[campaign.next]);
      var moved := s.(campaigns := s.campaigns[c := campaign.(next := campaign.next + 1)]);
      if !stored || key in s.unlinked then moved.(lost := s.lost + {key})
      else if key in s.progress then moved.(progress := s.progress[key := Sending(s.progress[key], outcome, now)])
      else moved
  }

  // ----- FirmwareStatusNotification -----

  /** STATUS_MAP; an unknown status counts as Idle, which maps to nothing. */
  function Mapped(status: string): Option<Status> {
    if status == "Downloading" then Some(Downloading)
    else if status == "Downloaded" then Some(Downloaded)
    else if status == "Installing" then Some(Installing)
    else if status == "Installed" then Some(Installed)
    else if status == "DownloadFailed" || status == "InstallationFailed" then Some(Failed)
    else None
  }

  predicate Final(status: Status) {
    status == Installed || status == Failed
  }

  predicate Open(status: Status) {
    status == Sent || status == Downloading || status == Downloaded || status == Installing
  }

  predicate Done(status: Status) {
    status == Installed || status == Failed || status == SendError
  }

  predicate OpenAt(s: State, stationId: StationId, key: Key) {
    key in s.progress && key !in s.unlinked && key.1 == stationId && Open(s.progress[key].status)
  }

  /** The row that the lookup may return: an open row of the station, updated last; any of them on a tie. */
  ghost predicate LatestOpen(s: State, stationId: StationId, open: Option<Key>) {
    match open
    case None => forall key :: !OpenAt(s, stationId, key)
    case Some(key) =>
      OpenAt(s, stationId, key)
      && forall other :: OpenAt(s, stationId, other) ==> s.progress[other].updatedAt <= s.progress[key].updatedAt
  }

  /** The lookup always has an answer. */
  lemma LatestOpenExists(s: State, stationId: StationId) returns (open: Option<Key>)
    ensures LatestOpen(s, stationId, open)
  {
    open := None;
    var keys := s.progress.Keys;
    while keys != {}
      invariant keys <= s.progress.Keys
      invariant match open
                case None => forall key :: OpenAt(s, stationId, key) ==> key in keys
                case Some(best) =>
                  && OpenAt(s, stationId, best)
                  && forall key :: OpenAt(s, stationId, key) ==>
                       key in keys || s.progress[key].updatedAt <= s.progress[best].updatedAt
      decreases keys
    {
      var key :| key in keys;
      keys := keys - {key};
      if OpenAt(s, stationId, key) && (open.None? || s.progress[open.value].updatedAt < s.progress[key].updatedAt) {
        open := Some(key);
      }
    }
  }

  function Reported(status: Status, raw: string, now: int): Row {
    Row(status, now, if Final(status) then Some(now) else None,
        if status == Failed then Some("OCPP status: " + raw) else None)
  }

  ghost function DoNotify(s: State, stationId: StationId, status: string, open: Option<Key>, stored: bool,
                          now: int): State {
    if Mapped(status).None? || open.None? || !LatestOpen(s, stationId, open) then s
    else
      WriteReport(s, open.value, Mapped(status).value, status, stored, now)
  }

  /** The update by row id, which does not look at the row's status again. */
  function WriteReport(s: State, key: Key, to: Status, raw: string, stored: bool, now: int): State {
    s.(progress := if stored then s.progress[key := Reported(to, raw, now)] else s.progress,
       counting := if Final(to) then s.counting + multiset{key.0} else s.counting)
  }

  /** The rows of the campaign that are not installed, failed or send_error. */
  function Remaining(s: State, c: int): set<Key> {
    set key | key in s.progress && key.0 == c && !Done(s.progress[key].status)
  }

  function DoCount(s: State, c: int, counted: bool, stored: bool): State {
    if c !in s.counting then s
    else
      var rest := s.(counting := s.counting - multiset{c});
      if counted && stored && Remaining(s, c) == {} && c in s.campaigns then
        rest.(campaigns := s.campaigns[c := s.campaigns[c].(status := Completed)])
      else rest
  }

  // ----- cancel, station deletion, crash -----

  /** Only a running campaign is cancelled, going by its status at the read. */
  function DoReadCancel(s: State, c: int): State {
    if c in s.campaigns && s.campaigns[c].status == Running then s.(cancelling := s.cancelling + multiset{c}) else s
  }

  /** The write does not look at the status again. */
  function DoWriteCancel(s: State, c: int, stored: bool): State {
    if c !in s.cancelling then s
    else
      var rest := s.(cancelling := s.cancelling - multiset{c});
      if stored && c in s.campaigns then rest.(campaigns := s.campaigns[c := s.campaigns[c].(status := Cancelled)])
      else rest
  }

  /** Deleting a station keeps its progress rows without their station. */
  function DoDeleteStation(s: State, stationId: StationId): State {
    s.(unlinked := s.unlinked + set key | key in s.progress && key.1 == stationId)
  }

  function DoCrash(s: State): State {
    s.(counting := multiset{}, cancelling := multiset{},
       campaigns := map c | c in s.campaigns :: s.campaigns[c].(alive := false))
  }

  ghost function Next(s: State, step: Step): State {
    match step
    case Start(c, active, targets, now) => DoStart(s, c, active, targets, now)
    case Dispatch(c, outcome, stored, now) => DoDispatch(s, c, outcome, stored, now)
    case Notify(stationId, status, open, stored, now) => DoNotify(s, stationId, status, open, stored, now)
    case CountRemaining(c, counted, stored) => DoCount(s, c, counted, stored)
    case ReadCancel(c) => DoReadCancel(s, c)
    case WriteCancel(c, stored) => DoWriteCancel(s, c, stored)
    case DeleteStation(stationId) => DoDeleteStation(s, stationId)
    case Crash => DoCrash(s)
  }

  ghost function Run(s: State, steps: seq<Step>): State
    decreases |steps|
  {
    if steps == [] then s else Run(Next(s, steps[0]), steps[1..])
  }

  // ----- The invariant -----

  /** End time and error are set exactly in the states that have them. */
  predicate RowOk(row: Row) {
    && (row.completedAt.Some? <==> Done(row.status))
    && (row.error.Some? <==> row.status == Failed || row.status == SendError)
  }

  /**
   * The loop index splits the targets: not reached means queued, reached means not queued unless its
   * update was lost.
   */
  ghost predicate Split(s: State, c: int)
    requires c in s.campaigns
  {
    var campaign := s.campaigns[c];
    && Distinct(campaign.targets) && campaign.next <= |campaign.targets|
    && forall i :: 0 <= i < |campaign.targets| ==>
         var key := (c, campaign.targets[i]);
         && key in s.progress
         && (i >= campaign.next ==> s.progress[key].status == Queued && key !in s.lost)
         && (i < campaign.next ==> (s.progress[key].status == Queued <==> key in s.lost))
  }

  ghost predicate Finished(s: State, c: int)
    requires c in s.campaigns
  {
    s.campaigns[c].next == |s.campaigns[c].targets| && Remaining(s, c) == {}
  }

  ghost predicate Inv(s: State) {
    && (forall key :: key in s.progress ==>
        RowOk(s.progress[key]) && key.0 in s.campaigns && key.1 in s.campaigns[key.0].targets)
    && (forall key :: key in s.lost ==> key in s.progress)
    && (forall c :: c in s.campaigns ==> Split(s, c))
    && (forall c :: c in s.campaigns && s.campaigns[c].status == Completed ==> Finished(s, c))
  }

  /** A campaign whose own rows are untouched keeps its share of the invariant. */
  lemma Elsewhere(s: State, s': State, c: int)
    requires c in s.campaigns && Split(s, c) && c in s'.campaigns && s'.campaigns[c] == s.campaigns[c]
    requires forall key: Key :: key.0 == c ==>
               (key in s.progress <==> key in s'.progress) && (key in s.lost <==> key in s'.lost)
    requires forall key: Key :: key.0 == c && key in s.progress ==> s'.progress[key] == s.progress[key]
    ensures Split(s', c) && (Finished(s, c) ==> Finished(s', c))
  {
  }

  lemma CampaignHolds(s: State, c: int)
    requires Inv(s) && c in s.campaigns
    ensures Split(s, c) && (s.campaigns[c].status == Completed ==> Finished(s, c))
  {
    hide Split, Finished;
  }

  lemma StartedSplit(s: State, c: int, targets: seq<StationId>, now: int)
    requires Inv(s) && targets != [] && Distinct(targets) && c !in s.campaigns
    ensures Split(DoStart(s, c, true, targets, now), c)
  {
  }

  lemma StartedRows(s: State, c: int, targets: seq<StationId>, now: int)
    requires Inv(s) && targets != [] && Distinct(targets) && c !in s.campaigns
    ensures var s' := DoStart(s, c, true, targets, now);
            && s'.campaigns == s.campaigns[c := Campaign(Running, targets, 0, true)] && s'.lost == s.lost
            && (forall key: Key :: key.0 != c ==> (key in s'.progress <==> key in s.progress))
            && (forall key: Key :: key.0 != c && key in s.progress ==> s'.progress[key] == s.progress[key])
            && (forall key: Key :: key.0 == c && key in s'.progress ==> RowOk(s'.progress[key]) && key.1 in targets)
            && (forall key :: key in s.progress ==> key in s'.progress)
  {
    hide Split, Finished;
  }

  lemma StartedElsewhere(s: State, c: int, targets: seq<StationId>, now: int, other: int)
    requires Inv(s) && targets != [] && Distinct(targets) && c !in s.campaigns && other in s.campaigns
    ensures var s' := DoStart(s, c, true, targets, now);
            other in s'.campaigns && Split(s', other)
            && (s'.campaigns[other].status == Completed ==> Finished(s', other))
  {
    hide DoStart, Inv, Split, Finished, RowOk, Distinct;
    StartedRows(s, c, targets, now);
    CampaignHolds(s, other);
    assert other != c;
    Elsewhere(s, DoStart(s, c, true, targets, now), other);
  }

  lemma StartKeeps(s: State, c: int, active: bool, targets: seq<StationId>, now: int)
    requires Inv(s)
    ensures Inv(DoStart(s, c, active, targets, now))
  {
    if DoStart(s, c, active, targets, now) != s {
      StartRefused(s, c, active, targets, now);
      assert DoStart(s, c, active, targets, now) == DoStart(s, c, true, targets, now);
      hide DoStart, Split, Finished, RowOk, Distinct;
      StartedSplit(s, c, targets, now);
      StartedRows(s, c, targets, now);
      forall other | other in s.campaigns
        ensures var s' := DoStart(s, c, true, targets, now);
                Split(s', other) && (s'.campaigns[other].status == Completed ==> Finished(s', other))
      {
        StartedElsewhere(s, c, targets, now, other);
      }
    }
  }

  lemma StartRefused(s: State, c: int, active: bool, targets: seq<StationId>, now: int)
    ensures DoStart(s, c, active, targets, now) == s
            || (active && targets != [] && Distinct(targets) && c !in s.campaigns)
  {
  }

  lemma DispatchedSplit(s: State, c: int, outcome: Dispatched, stored: bool, now: int)
    requires Inv(s) && DoDispatch(s, c, outcome, stored, now) != s
    ensures Split(DoDispatch(s, c, outcome, stored, now), c)
    ensures s.campaigns[c].status != Completed
  {
  }

  lemma DispatchKeeps(s: State, c: int, outcome: Dispatched, stored: bool, now: int)
    requires Inv(s)
    ensures Inv(DoDispatch(s, c, outcome, stored, now))
  {
    var s' := DoDispatch(s, c, outcome, stored, now);
    if s' != s {
      DispatchedSplit(s, c, outcome, stored, now);
      hide Split, Finished;
      forall c' | c' in s'.campaigns
        ensures Split(s', c') && (s'.campaigns[c'].status == Completed ==> Finished(s', c'))
      {
        hide Inv;
        if c' != c {
          CampaignHolds(s, c');
          Elsewhere(s, s', c');
        }
      }
    }
  }

  lemma NotifyKeeps(s: State, stationId: StationId, status: string, open: Option<Key>, stored: bool, now: int)
    requires Inv(s)
    ensures Inv(DoNotify(s, stationId, status, open, stored, now))
  {
    var s' := DoNotify(s, stationId, status, open, stored, now);
    if s' != s {
      forall c | c in s'.campaigns
        ensures Split(s', c) && (s'.campaigns[c].status == Completed ==> Finished(s', c))
      {
        assert Split(s, c);
        if s.campaigns[c].status == Completed {
          assert open.value !in Remaining(s, c);
          assert Remaining(s', c) == Remaining(s, c);
        }
      }
    }
  }

  lemma UnreachedRemains(s: State, c: int)
    requires c in s.campaigns && Split(s, c)
    ensures Remaining(s, c) == {} ==> s.campaigns[c].next == |s.campaigns[c].targets|
  {
    var campaign := s.campaigns[c];
    if campaign.next < |campaign.targets| {
      assert (c, campaign.targets[campaign.next]) in Remaining(s, c);
    }
  }

  lemma CountKeeps(s: State, c: int, counted: bool, stored: bool)
    requires Inv(s)
    ensures Inv(DoCount(s, c, counted, stored))
  {
    var s' := DoCount(s, c, counted, stored);
    forall c' | c' in s'.campaigns
      ensures Split(s', c') && (s'.campaigns[c'].status == Completed ==> Finished(s', c'))
    {
      assert Split(s, c') && Remaining(s', c') == Remaining(s, c');
      UnreachedRemains(s, c');
    }
  }

  /** The progress rows and the loops are as before. */
  ghost predicate SameRows(s: State, s': State) {
    && s'.progress == s.progress && s'.lost == s.lost && s'.campaigns.Keys == s.campaigns.Keys
    && forall c :: c in s.campaigns ==>
         s'.campaigns[c].targets == s.campaigns[c].targets && s'.campaigns[c].next == s.campaigns[c].next
  }

  predicate MovesRows(step: Step) {
    step.Start? || step.Dispatch? || step.Notify?
  }

  lemma CountSameRows(s: State, c: int, counted: bool, stored: bool)
    ensures SameRows(s, DoCount(s, c, counted, stored))
  {
    hide Remaining;
  }

  lemma CrashSameRows(s: State)
    ensures SameRows(s, DoCrash(s)) && DoCrash(s).cancelling == multiset{}
    ensures forall c :: c in s.campaigns ==> DoCrash(s).campaigns[c].status == s.campaigns[c].status
  {
  }

  lemma WriteSameRows(s: State, c: int, stored: bool)
    ensures SameRows(s, DoWriteCancel(s, c, stored))
    ensures var s' := DoWriteCancel(s, c, stored);
            forall other :: other in s.campaigns && s'.campaigns[other] != s.campaigns[other] ==>
                              other == c && c in s.cancelling && s'.campaigns[c].status == Cancelled
  {
  }

  /** All other steps leave the rows alone, and only the count completes a campaign. */
  lemma OtherSteps(s: State, step: Step)
    requires !MovesRows(step)
    ensures SameRows(s, Next(s, step))
    ensures step.CountRemaining? ||
            forall c :: c in s.campaigns && Next(s, step).campaigns[c].status == Completed ==>
              s.campaigns[c].status == Completed
  {
    hide DoStart, DoDispatch, DoNotify, DoCount, DoCrash, DoWriteCancel;
    match step
    case CountRemaining(c, counted, stored) => CountSameRows(s, c, counted, stored);
    case WriteCancel(c, stored) => WriteSameRows(s, c, stored);
    case ReadCancel(_) =>
    case DeleteStation(_) =>
    case Crash => CrashSameRows(s);
  }

  lemma NextKeeps(s: State, step: Step)
    requires Inv(s)
    ensures Inv(Next(s, step))
  {
    hide Inv, DoStart, DoDispatch, DoNotify, DoCount;
    match step
    case Start(c, active, targets, now) => StartKeeps(s, c, active, targets, now);
    case Dispatch(c, outcome, stored, now) => DispatchKeeps(s, c, outcome, stored, now);
    case Notify(stationId, status, open, stored, now) => NotifyKeeps(s, stationId, status, open, stored, now);
    case CountRemaining(c, counted, stored) => CountKeeps(s, c, counted, stored);
    case _ =>
      hide Next;
      OtherSteps(s, step);
      SameRowsKeep(s, Next(s, step));
  }

  lemma SameRowsKeep(s: State, s': State)
    requires Inv(s) && SameRows(s, s')
    requires forall c :: c in s.campaigns && s'.campaigns[c].status == Completed ==> s.campaigns[c].status == Completed
    ensures Inv(s')
  {
    forall c | c in s'.campaigns
      ensures Split(s', c) && (s'.campaigns[c].status == Completed ==> Finished(s', c))
    {
      assert Split(s, c) && Remaining(s', c) == Remaining(s, c);
    }
    forall key | key in s'.progress
      ensures RowOk(s'.progress[key]) && key.0 in s'.campaigns && key.1 in s'.campaigns[key.0].targets
    {
      var c := key.0;
      assert c in s.campaigns && key.1 in s.campaigns[c].targets;
      assert s'.campaigns[c].targets == s.campaigns[c].targets;
    }
  }

  lemma {:induction false} RunKeeps(s: State, steps: seq<Step>)
    requires Inv(s)
    ensures Inv(Run(s, steps))
    decreases |steps|
  {
    if steps != [] {
      NextKeeps(s, steps[0]);
      RunKeeps(Next(s, steps[0]), steps[1..]);
    }
  }

  // ----- Theorems about every run -----

  /**
   * A row is queued exactly while the dispatch loop has not reached it, or if the loop's update did not
   * reach the row.
   */
  lemma QueuedIffUnreached(steps: seq<Step>, c: int, i: nat)
    requires var s := Run(Init, steps); c in s.campaigns && i < |s.campaigns[c].targets|
    ensures var s := Run(Init, steps);
            var key := (c, s.campaigns[c].targets[i]);
            key in s.progress && (s.progress[key].status == Queued <==> i >= s.campaigns[c].next || key in s.lost)
  {
    RunKeeps(Init, steps);
    assert Split(Run(Init, steps), c);
  }

  /** A completed campaign has dispatched to every target, and every row is installed, failed or send_error. */
  lemma CompletedMeansDone(steps: seq<Step>, c: int)
    requires var s := Run(Init, steps); c in s.campaigns && s.campaigns[c].status == Completed
    ensures var s := Run(Init, steps);
            && s.campaigns[c].next == |s.campaigns[c].targets|
            && forall i :: 0 <= i < |s.campaigns[c].targets| ==>
                 (c, s.campaigns[c].targets[i]) in s.progress && Done(s.progress[(c, s.campaigns[c].targets[i])].status)
  {
    RunKeeps(Init, steps);
    var s := Run(Init, steps);
    assert Finished(s, c) && Split(s, c);
    forall i | 0 <= i < |s.campaigns[c].targets|
      ensures (c, s.campaigns[c].targets[i]) in s.progress && Done(s.progress[(c, s.campaigns[c].targets[i])].status)
    {
      assert (c, s.campaigns[c].targets[i]) !in Remaining(s, c);
    }
  }

  /** A finished row never changes, and a campaign whose rows are all finished stays so. */
  ghost predicate Frozen(s: State, s': State) {
    && (forall key :: key in s.progress && Done(s.progress[key].status) ==>
        key in s'.progress && s'.progress[key] == s.progress[key])
    && (forall c :: c in s.campaigns && Finished(s, c) ==> c in s'.campaigns && Finished(s', c))
  }

  lemma SameRowsFreeze(s: State, s': State)
    requires SameRows(s, s')
    ensures Frozen(s, s')
  {
    forall c | c in s.campaigns ensures Remaining(s', c) == Remaining(s, c) {
    }
  }

  lemma StartFreezes(s: State, c: int, active: bool, targets: seq<StationId>, now: int)
    requires Inv(s)
    ensures Frozen(s, DoStart(s, c, active, targets, now))
  {
    var s' := DoStart(s, c, active, targets, now);
    forall other | other in s.campaigns ensures Remaining(s', other) == Remaining(s, other) {
    }
  }

  lemma DispatchFreezes(s: State, c: int, outcome: Dispatched, stored: bool, now: int)
    requires Inv(s)
    ensures Frozen(s, DoDispatch(s, c, outcome, stored, now))
  {
    var s' := DoDispatch(s, c, outcome, stored, now);
    if c in s.campaigns { assert Split(s, c); }
    forall other | other in s.campaigns && other != c ensures Remaining(s', other) == Remaining(s, other) {
    }
  }

  lemma NotifyFreezes(s: State, stationId: StationId, status: string, open: Option<Key>, stored: bool, now: int)
    ensures Frozen(s, DoNotify(s, stationId, status, open, stored, now))
  {
    var s' := DoNotify(s, stationId, status, open, stored, now);
    forall c | c in s.campaigns && Remaining(s, c) == {} ensures Remaining(s', c) == {} {
      forall key | key in s'.progress && key.0 == c ensures Done(s'.progress[key].status) {
        assert key !in Remaining(s, c);
      }
    }
  }

  lemma StepFrozen(s: State, step: Step)
    requires Inv(s)
    ensures Frozen(s, Next(s, step))
  {
    hide Inv, Frozen, DoStart, DoDispatch, DoNotify;
    match step
    case Start(c, active, targets, now) => StartFreezes(s, c, active, targets, now);
    case Dispatch(c, outcome, stored, now) => DispatchFreezes(s, c, outcome, stored, now);
    case Notify(stationId, status, open, stored, now) => NotifyFreezes(s, stationId, status, open, stored, now);
    case _ =>
      hide Next;
      OtherSteps(s, step);
      SameRowsFreeze(s, Next(s, step));
  }

  lemma {:induction false} RunFrozen(s: State, steps: seq<Step>)
    requires Inv(s)
    ensures Frozen(s, Run(s, steps))
    decreases |steps|
  {
    if steps != [] {
      StepFrozen(s, steps[0]);
      NextKeeps(s, steps[0]);
      hide Inv, Next, Finished, Done;
      RunFrozen(Next(s, steps[0]), steps[1..]);
    }
  }

  /**
   * Installed, failed and send_error rows never change again, and once a campaign is completed, its
   * dispatch is over and all its rows are done in all later states, whatever its status becomes.
   */
  lemma FinishedIsForever(before: seq<Step>, after: seq<Step>, key: Key)
    ensures var s, s' := Run(Init, before), Run(Run(Init, before), after);
            && (key in s.progress && Done(s.progress[key].status) ==>
                key in s'.progress && s'.progress[key] == s.progress[key])
            && (key.0 in s.campaigns && s.campaigns[key.0].status == Completed ==>
                key.0 in s'.campaigns && Finished(s', key.0))
  {
    RunKeeps(Init, before);
    var s := Run(Init, before);
    RunFrozen(s, after);
    assert key.0 in s.campaigns && s.campaigns[key.0].status == Completed ==> Finished(s, key.0);
    hide Inv, Run, Finished;
  }

  // ----- The status of a completed campaign -----

  ghost predicate CompletedAt(s: State, c: int) {
    c in s.campaigns && s.campaigns[c].status == Completed
  }

  lemma StartSpares(s: State, c: int, active: bool, targets: seq<StationId>, now: int)
    ensures DoStart(s, c, active, targets, now).cancelling == s.cancelling
    ensures var s' := DoStart(s, c, active, targets, now);
            forall other :: other in s.campaigns ==> other in s'.campaigns && s'.campaigns[other] == s.campaigns[other]
  {
  }

  lemma DispatchSpares(s: State, c: int, outcome: Dispatched, stored: bool, now: int)
    ensures DoDispatch(s, c, outcome, stored, now).cancelling == s.cancelling
    ensures var s' := DoDispatch(s, c, outcome, stored, now);
            forall other :: other in s.campaigns ==>
              other in s'.campaigns && s'.campaigns[other].status == s.campaigns[other].status
  {
    hide Sending;
  }

  lemma CompletedStep(s: State, step: Step, c: int)
    requires CompletedAt(s, c) && c !in s.cancelling
    ensures CompletedAt(Next(s, step), c) && c !in Next(s, step).cancelling
  {
    hide DoStart, DoDispatch, DoCrash, LatestOpen, Remaining, Distinct;
    match step
    case Start(other, active, targets, now) => StartSpares(s, other, active, targets, now);
    case Dispatch(other, outcome, stored, now) => DispatchSpares(s, other, outcome, stored, now);
    case Crash =>
      CrashSameRows(s);
    case _ =>
  }

  lemma {:induction false} CompletedStays(s: State, steps: seq<Step>, c: int)
    requires CompletedAt(s, c) && c !in s.cancelling
    ensures CompletedAt(Run(s, steps), c)
    decreases |steps|
  {
    if steps != [] {
      CompletedStep(s, steps[0], c);
      hide Next, CompletedAt;
      CompletedStays(Next(s, steps[0]), steps[1..], c);
    }
  }

  /** A completed campaign keeps its status if and only if no cancellation that saw it running is still to write. */
  lemma CompletedIsPermanentIff(before: seq<Step>, c: int)
    requires CompletedAt(Run(Init, before), c)
    ensures var s := Run(Init, before);
            c !in s.cancelling <==> forall after :: CompletedAt(Run(s, after), c)
  {
    var s := Run(Init, before);
    if c in s.cancelling {
      var after := [WriteCancel(c, true)];
      assert Run(s, after) == Next(s, after[0]);
      assert !CompletedAt(Run(s, after), c);
    } else {
      forall after ensures CompletedAt(Run(s, after), c) {
        CompletedStays(s, after, c);
      }
    }
  }

  /** So a count between the read and the write of a cancellation leaves a finished campaign cancelled. */
  lemma LateCancelOverwrites(s: State, c: int)
    requires c in s.campaigns && s.campaigns[c].status == Running && c in s.counting && Remaining(s, c) == {}
    ensures var counted := Next(Next(s, ReadCancel(c)), CountRemaining(c, true, true));
            var late := Next(counted, WriteCancel(c, true));
            CompletedAt(counted, c) && c in late.campaigns && late.campaigns[c].status == Cancelled
  {
    var read := Next(s, ReadCancel(c));
    assert Remaining(read, c) == Remaining(s, c);
  }

  /** Such a state is reachable: one charger, dispatched to and installed. */
  lemma LateCancelReachable(c: int, station: StationId)
    ensures var s := Run(Init, [Start(c, true, [station], 0), Dispatch(c, Accepted, true, 1),
                                Notify(station, "Installed", Some((c, station)), true, 2)]);
            c in s.campaigns && s.campaigns[c].status == Running && c in s.counting && Remaining(s, c) == {}
  {
    var key := (c, station);
    var a, b := Start(c, true, [station], 0), Dispatch(c, Accepted, true, 1);
    var d := Notify(station, "Installed", Some(key), true, 2);
    assert [a, b, d][1..] == [b, d] && [b, d][1..] == [d];
    var s1, s2 := Next(Init, a), Next(Next(Init, a), b);
    assert s1.progress == map[key := Row(Queued, 0, None, None)] && s1.unlinked == {};
    assert s2.progress == map[key := Row(Sent, 1, None, None)] && s2.unlinked == {};
    assert OpenAt(s2, station, key) && LatestOpen(s2, station, Some(key));
    var s3 := Next(s2, d);
    assert s3.progress == map[key := Reported(Installed, "Installed", 2)];
    assert Run(s2, [d]) == s3;
    assert Run(s1, [b, d]) == s3;
  }

  /**
   * The split that the atomic row update rules out: an update whose lookup ran before the station
   * reported its row as installed, and which is written afterwards, reopens the row, even in a campaign
   * that has been completed since.
   */
  lemma StaleReportReopens(s: State, key: Key, now: int)
    requires LatestOpen(s, key.1, Some(key)) && key.0 in s.campaigns && Remaining(s, key.0) == {key}
    ensures var installed := DoNotify(s, key.1, "Installed", Some(key), true, now);
            var counted := DoCount(installed, key.0, true, true);
            var late := WriteReport(counted, key, Installing, "Installing", true, now);
            && key in counted.progress && counted.progress[key].status == Installed && CompletedAt(counted, key.0)
            && late.progress[key].status == Installing && CompletedAt(late, key.0) && !Finished(late, key.0)
  {
    var installed := DoNotify(s, key.1, "Installed", Some(key), true, now);
    forall k | k in installed.progress && k.0 == key.0 ensures Done(installed.progress[k].status) {
      assert k != key ==> k !in Remaining(s, key.0);
    }
    assert Remaining(installed, key.0) == {};
    var late := WriteReport(DoCount(installed, key.0, true, true), key, Installing, "Installing", true, now);
    assert key in Remaining(late, key.0);
  }

  /** End time and error message of a row agree with its status in every run. */
  lemma RowsConsistent(steps: seq<Step>, key: Key)
    requires key in Run(Init, steps).progress
    ensures var row := Run(Init, steps).progress[key];
            && (row.completedAt.Some? <==> Done(row.status))
            && (row.error.Some? <==> row.status == Failed || row.status == SendError)
  {
    RunKeeps(Init, steps);
  }
}

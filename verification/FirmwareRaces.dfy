/**
 * Firmware notifications with the lookup of the open row split from its update: what can still happen to
 * an installed, failed or send_error row, and exactly when nothing can.
 */
module FirmwareRaces {
  import opened Wrappers
  import opened Events
  import F = Firmware

  /** An update that its handler has still to write, for the row that its lookup found open. */
  datatype Report = Report(key: F.Key, to: F.Status, raw: string, now: int)

  datatype State = State(base: F.State, reports: map<nat, Report>)

  const Init := State(F.Init, map[])

  /** Whole is any step of the campaigns with its lookup, if it has one, just before its update. */
  datatype Step =
    | Whole(step: F.Step)
    | LookUp(w: nat, stationId: StationId, status: string, open: Option<F.Key>, now: int)
    | Write(w: nat, stored: bool)

  ghost function Next(s: State, step: Step): State {
    match step
    case Whole(step) => State(F.Next(s.base, step), if step.Crash? then map[] else s.reports)
    case LookUp(w, stationId, status, open, now) =>
      var to := F.Mapped(status);
      if w in s.reports || to.None? || open.None? || !F.LatestOpen(s.base, stationId, open) then s
      else s.(reports := s.reports[w := Report(open.value, to.value, status, now)])
    case Write(w, stored) =>
      if w !in s.reports then s
      else
        var r := s.reports[w];
        State(F.WriteReport(s.base, r.key, r.to, r.raw, stored, r.now), s.reports - {w})
  }

  ghost function Run(s: State, steps: seq<Step>): State
    decreases |steps|
  {
    if steps == [] then s else Run(Next(s, steps[0]), steps[1..])
  }

  // ----- What survives even with races -----

  /** The dispatch loop of the campaign has still to reach the row. */
  predicate Ahead(s: F.State, key: F.Key) {
    key.0 in s.campaigns && s.campaigns[key.0].next <= |s.campaigns[key.0].targets| &&
    key.1 in s.campaigns[key.0].targets[s.campaigns[key.0].next..]
  }

  predicate QueuedAt(s: F.State, key: F.Key) {
    key in s.progress && s.progress[key].status == F.Queued
  }

  ghost predicate BaseOk(s: F.State) {
    && (forall key :: key in s.progress ==> key.0 in s.campaigns)
    && (forall c :: c in s.campaigns ==>
        F.Distinct(s.campaigns[c].targets) && s.campaigns[c].next <= |s.campaigns[c].targets|)
    && forall key :: Ahead(s, key) ==> QueuedAt(s, key)
  }

  predicate ReportOk(s: F.State, key: F.Key) {
    key in s.progress && !Ahead(s, key)
  }

  ghost predicate Inv(s: State) {
    BaseOk(s.base) && forall w :: w in s.reports ==> ReportOk(s.base, s.reports[w].key)
  }

  /** Rows stay, the loops only advance, and done rows are as before. */
  ghost predicate Onward(s: F.State, s': F.State) {
    && BaseOk(s')
    && (forall key :: ReportOk(s, key) ==> ReportOk(s', key))
    && forall key :: key in s.progress && F.Done(s.progress[key].status) ==>
         key in s'.progress && s'.progress[key] == s.progress[key]
  }

  lemma StartOnward(s: F.State, c: int, active: bool, targets: seq<StationId>, now: int)
    requires BaseOk(s)
    ensures Onward(s, F.DoStart(s, c, active, targets, now))
  {
    var s' := F.DoStart(s, c, active, targets, now);
    if s' != s {
      forall key | Ahead(s', key) ensures QueuedAt(s', key) {
        if key.0 != c { assert Ahead(s, key); }
      }
      forall key | ReportOk(s, key) ensures ReportOk(s', key) {
        assert key.0 != c;
      }
    }
  }

  lemma DispatchOnward(s: F.State, c: int, outcome: F.Dispatched, stored: bool, now: int)
    requires BaseOk(s)
    ensures Onward(s, F.DoDispatch(s, c, outcome, stored, now))
  {
    var s' := F.DoDispatch(s, c, outcome, stored, now);
    if s' != s {
      var campaign := s.campaigns[c];
      var rest := campaign.targets[campaign.next + 1..];
      var sent := (c, campaign.targets[campaign.next]);
      assert campaign.targets[campaign.next..] == [sent.1] + rest;
      assert Ahead(s, sent) && QueuedAt(s, sent);
      forall key | Ahead(s', key) ensures Ahead(s, key) && QueuedAt(s', key) {
        if key.0 == c { assert key.1 in rest && key.1 != sent.1; }
        assert Ahead(s, key) && QueuedAt(s, key);
      }
    }
  }

  /** An update of a row that the loop has passed, and of no done row when it is made with its lookup. */
  lemma WriteKeepsBase(s: F.State, key: F.Key, to: F.Status, raw: string, stored: bool, now: int)
    requires BaseOk(s) && ReportOk(s, key)
    ensures var s' := F.WriteReport(s, key, to, raw, stored, now);
            BaseOk(s') && forall k :: ReportOk(s, k) ==> ReportOk(s', k)
  {
    var s' := F.WriteReport(s, key, to, raw, stored, now);
    assert forall k :: Ahead(s', k) <==> Ahead(s, k);
    forall k | Ahead(s', k) ensures QueuedAt(s', k) {
      assert QueuedAt(s, k);
    }
  }

  lemma OpenIsPassed(s: F.State, key: F.Key)
    requires BaseOk(s) && F.OpenAt(s, key.1, key)
    ensures ReportOk(s, key)
  {
    assert Ahead(s, key) ==> QueuedAt(s, key);
  }

  lemma NotifyOnward(s: F.State, stationId: StationId, status: string, open: Option<F.Key>, stored: bool, now: int)
    requires BaseOk(s)
    ensures Onward(s, F.DoNotify(s, stationId, status, open, stored, now))
  {
    if F.Mapped(status).Some? && open.Some? && F.LatestOpen(s, stationId, open) {
      OpenIsPassed(s, open.value);
      WriteKeepsBase(s, open.value, F.Mapped(status).value, status, stored, now);
    }
  }

  /** The rows and the loops' positions are as before. */
  lemma SameOnward(s: F.State, s': F.State)
    requires BaseOk(s) && F.SameRows(s, s')
    ensures Onward(s, s')
  {
    forall key: F.Key ensures Ahead(s', key) <==> Ahead(s, key) {
      assert key.0 in s'.campaigns.Keys <==> key.0 in s.campaigns;
      if key.0 in s.campaigns {
        var c := key.0;
        assert s'.campaigns[c].next == s.campaigns[c].next && s'.campaigns[c].targets == s.campaigns[c].targets;
      }
    }
    assert forall key :: QueuedAt(s', key) <==> QueuedAt(s, key);
  }

  lemma WholeOnward(s: F.State, step: F.Step)
    requires BaseOk(s)
    ensures Onward(s, F.Next(s, step))
  {
    hide BaseOk, Onward, F.DoStart, F.DoDispatch, F.DoNotify, F.SameRows;
    match step
    case Start(c, active, targets, now) => StartOnward(s, c, active, targets, now);
    case Dispatch(c, outcome, stored, now) => DispatchOnward(s, c, outcome, stored, now);
    case Notify(stationId, status, open, stored, now) => NotifyOnward(s, stationId, status, open, stored, now);
    case _ =>
      hide F.Next;
      F.OtherSteps(s, step);
      SameOnward(s, F.Next(s, step));
  }

  lemma NextKeeps(s: State, step: Step)
    requires Inv(s)
    ensures Inv(Next(s, step))
  {
    hide BaseOk, ReportOk, F.Next, F.WriteReport;
    match step
    case Whole(step) => WholeOnward(s.base, step);
    case LookUp(w, stationId, status, open, now) =>
      if open.Some? && F.LatestOpen(s.base, stationId, open) { OpenIsPassed(s.base, open.value); }
    case Write(w, stored) =>
      if w in s.reports {
        var r := s.reports[w];
        WriteKeepsBase(s.base, r.key, r.to, r.raw, stored, r.now);
      }
  }

  lemma {:induction false} RunKeeps(s: State, steps: seq<Step>)
    requires Inv(s)
    ensures Inv(Run(s, steps))
    decreases |steps|
  {
    if steps != [] {
      NextKeeps(s, steps[0]);
      hide Next, Inv;
      RunKeeps(Next(s, steps[0]), steps[1..]);
    }
  }

  // ----- When a done row keeps its status -----

  ghost predicate DoneAs(s: State, key: F.Key, status: F.Status) {
    F.Done(status) && key in s.base.progress && s.base.progress[key].status == status
  }

  /** An update of the row to another status is still to be written. */
  ghost predicate Threatened(s: State, key: F.Key, status: F.Status) {
    exists w :: w in s.reports && Threatens(s.reports[w], key, status)
  }

  predicate Threatens(r: Report, key: F.Key, status: F.Status) {
    r.key == key && r.to != status
  }

  lemma DoneStep(s: State, step: Step, key: F.Key, status: F.Status)
    requires Inv(s) && DoneAs(s, key, status) && !Threatened(s, key, status)
    ensures DoneAs(Next(s, step), key, status) && !Threatened(Next(s, step), key, status)
  {
    hide F.Next, BaseOk, ReportOk, Threatens;
    var s' := Next(s, step);
    match step {
      case Whole(step) => WholeOnward(s.base, step);
      case LookUp(w, _, _, open, _) => if w !in s.reports { FoundIsOther(s, step, key, status); }
      case Write(w, stored) =>
        if w in s.reports {
          var r := s.reports[w];
          assert !Threatens(r, key, status);
          WriteSpares(s.base, r, stored, key, status);
        }
    }
    forall w | w in s'.reports ensures !Threatens(s'.reports[w], key, status) {
      if w in s.reports { assert !Threatens(s.reports[w], key, status); }
    }
  }

  lemma FoundIsOther(s: State, step: Step, key: F.Key, status: F.Status)
    requires DoneAs(s, key, status) && step.LookUp? && step.w !in s.reports
    ensures var s' := Next(s, step); step.w in s'.reports ==> !Threatens(s'.reports[step.w], key, status)
  {
  }

  lemma WriteSpares(s: F.State, r: Report, stored: bool, key: F.Key, status: F.Status)
    requires key in s.progress && s.progress[key].status == status && !Threatens(r, key, status)
    ensures var s' := F.WriteReport(s, r.key, r.to, r.raw, stored, r.now);
            key in s'.progress && s'.progress[key].status == status
  {
  }

  lemma {:induction false} DoneStays(s: State, steps: seq<Step>, key: F.Key, status: F.Status)
    requires Inv(s) && DoneAs(s, key, status) && !Threatened(s, key, status)
    ensures DoneAs(Run(s, steps), key, status)
    decreases |steps|
  {
    if steps != [] {
      DoneStep(s, steps[0], key, status);
      NextKeeps(s, steps[0]);
      hide Next, Inv, DoneAs, Threatened;
      DoneStays(Next(s, steps[0]), steps[1..], key, status);
    }
  }

  lemma WriteReopens(s: State, w: nat, key: F.Key, status: F.Status)
    requires w in s.reports && Threatens(s.reports[w], key, status)
    ensures !DoneAs(Run(s, [Write(w, true)]), key, status)
  {
    var after := [Write(w, true)];
    assert Run(s, after) == Next(s, after[0]);
  }

  /** A crash forgets every update still to be written, so that from then on a done row keeps its status. */
  lemma CrashSettles(before: seq<Step>, key: F.Key, status: F.Status, after: seq<Step>)
    requires DoneAs(Run(Init, before), key, status)
    ensures DoneAs(Run(Next(Run(Init, before), Whole(F.Crash)), after), key, status)
  {
    var s := Run(Init, before);
    RunKeeps(Init, before);
    NextKeeps(s, Whole(F.Crash));
    WholeOnward(s.base, F.Crash);
    assert !Threatened(Next(s, Whole(F.Crash)), key, status);
    DoneStays(Next(s, Whole(F.Crash)), after, key, status);
    hide Run, Inv;
  }

  /**
   * An installed, failed or send_error row keeps its status in all later runs if and only if no update
   * of it to another status, looked up while the row was open, is still to be written.
   */
  lemma DoneStaysIff(before: seq<Step>, key: F.Key, status: F.Status)
    requires DoneAs(Run(Init, before), key, status)
    ensures var s := Run(Init, before);
            !Threatened(s, key, status) <==> forall after :: DoneAs(Run(s, after), key, status)
  {
    var s := Run(Init, before);
    RunKeeps(Init, before);
    if Threatened(s, key, status) {
      var w :| w in s.reports && Threatens(s.reports[w], key, status);
      WriteReopens(s, w, key, status);
      hide *;
      assert !DoneAs(Run(s, [Write(w, true)]), key, status);
    } else {
      forall after ensures DoneAs(Run(s, after), key, status) {
        DoneStays(s, after, key, status);
      }
    }
  }
}

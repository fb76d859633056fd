/**
 * What progress rows say: in every run each row is exactly what the last thing that happened to its target
 * made it, a start, a dispatch or a charger's report.
 */
module FirmwareStories {
  import opened Wrappers
  import opened Events
  import opened Firmware

  lemma {:induction false} RunSnoc(s: State, steps: seq<Step>)
    requires steps != []
    ensures var n := |steps| - 1; Run(s, steps) == Next(Run(s, steps[..n]), steps[n])
    decreases |steps|
  {
    hide Next;
    if |steps| > 1 {
      RunSnoc(Next(s, steps[0]), steps[1..]);
      assert steps[1..][..|steps| - 2] == steps[..|steps| - 1][1..];
    } else {
      assert steps[..0] == [] && Run(Next(s, steps[0]), steps[1..]) == Next(s, steps[0]);
    }
  }

  // ----- What happens to a target -----

  /** The reports that move a row; all others, such as Idle, say nothing about it. */
  const REPORTS: seq<string> :=
    ["Downloading", "Downloaded", "Installing", "Installed", "DownloadFailed", "InstallationFailed"]

  datatype Word = Started(now: int) | Tried(outcome: Dispatched, now: int) | Said(raw: string, now: int)

  /** The row as the word describes it. */
  predicate Fits(row: Row, word: Word) {
    match word
    case Started(now) => row == Row(Queued, now, None, None)
    case Tried(Accepted, now) => row == Row(Sent, now, None, None)
    case Tried(Offline, now) => row == Row(SendError, now, Some(now), Some("station offline"))
    case Tried(SendFailed(message), now) => row == Row(SendError, now, Some(now), Some(message))
    case Said(raw, now) =>
      if raw == "Downloading" then row == Row(Downloading, now, None, None)
      else if raw == "Downloaded" then row == Row(Downloaded, now, None, None)
      else if raw == "Installing" then row == Row(Installing, now, None, None)
      else if raw == "Installed" then row == Row(Installed, now, Some(now), None)
      else row == Row(Failed, now, Some(now), Some("OCPP status: " + raw))
  }

  /** The step starts the campaign with the key's station among its targets. */
  predicate StartsRow(s: State, step: Step, key: Key) {
    step.Start? && step.active && Distinct(step.targets) && step.campaign !in s.campaigns
    && key.0 == step.campaign && key.1 in step.targets
  }

  /** The loop of the campaign is at the target, and its update reaches the row. */
  predicate SendsTo(s: State, step: Step, key: Key) {
    step.Dispatch? && step.stored && key.0 == step.campaign && key.0 in s.campaigns && s.campaigns[key.0].alive
    && s.campaigns[key.0].next < |s.campaigns[key.0].targets|
    && key.1 == s.campaigns[key.0].targets[s.campaigns[key.0].next] && key !in s.unlinked
  }

  /** The row is the station's, has been sent to it, and has not been settled since. */
  predicate Awaits(s: State, stationId: StationId, key: Key) {
    key.1 == stationId && key in s.progress && key !in s.unlinked
    && s.progress[key].status !in {Queued, Installed, Failed, SendError}
  }

  /** The station reports, of its rows that wait, about one updated last, and the update is stored. */
  ghost predicate Hears(s: State, step: Step, key: Key) {
    step.Notify? && step.stored && step.status in REPORTS && step.open == Some(key)
    && Awaits(s, step.stationId, key)
    && forall other :: Awaits(s, step.stationId, other) ==> s.progress[other].updatedAt <= s.progress[key].updatedAt
  }

  ghost function WordOf(s: State, step: Step, key: Key): Option<Word> {
    if StartsRow(s, step, key) then Some(Started(step.now))
    else if SendsTo(s, step, key) then Some(Tried(step.outcome, step.now))
    else if Hears(s, step, key) then Some(Said(step.status, step.now))
    else None
  }

  ghost function LastWord(steps: seq<Step>, key: Key): Option<Word> {
    if steps == [] then None
    else
      var n := |steps| - 1;
      var word := WordOf(Run(Init, steps[..n]), steps[n], key);
      if word.Some? then word else LastWord(steps[..n], key)
  }

  // ----- One step -----

  /** The step makes the row fit its word, and leaves it alone if it has none for it. */
  ghost predicate Obeys(s: State, step: Step, key: Key, s': State) {
    match WordOf(s, step, key)
    case Some(word) => key in s'.progress && Fits(s'.progress[key], word)
    case None => (key in s'.progress <==> key in s.progress)
                 && (key in s.progress ==> s'.progress[key] == s.progress[key])
  }

  lemma StartObeys(s: State, step: Step, key: Key)
    requires step.Start?
    ensures Obeys(s, step, key, Next(s, step))
  {
    var targets := step.targets;
    if key.1 in targets {
      var i :| 0 <= i < |targets| && targets[i] == key.1;
      assert targets != [];
    }
  }

  lemma DispatchObeys(s: State, step: Step, key: Key)
    requires Inv(s) && step.Dispatch?
    ensures Obeys(s, step, key, Next(s, step))
  {
    if key.0 in s.campaigns { assert Split(s, key.0); }
    if SendsTo(s, step, key) {
      var next := s.campaigns[key.0].next;
      assert key == (key.0, s.campaigns[key.0].targets[next]);
      assert key in s.progress && s.progress[key].status == Queued && RowOk(s.progress[key]);
    }
    hide Split, Finished;
  }

  lemma LookupMeans(s: State, stationId: StationId, key: Key)
    ensures LatestOpen(s, stationId, Some(key)) <==>
            Awaits(s, stationId, key) && forall other :: Awaits(s, stationId, other) ==>
              s.progress[other].updatedAt <= s.progress[key].updatedAt
  {
    forall other ensures Awaits(s, stationId, other) <==> OpenAt(s, stationId, other) {
    }
    hide Awaits, OpenAt;
  }

  lemma ReportMeans(raw: string, now: int)
    ensures Mapped(raw).Some? <==> raw in REPORTS
    ensures Mapped(raw).Some? ==> Fits(Firmware.Reported(Mapped(raw).value, raw, now), Said(raw, now))
  {
  }

  lemma NotifyObeys(s: State, step: Step, key: Key)
    requires step.Notify?
    ensures Obeys(s, step, key, Next(s, step))
  {
    ReportMeans(step.status, step.now);
    if step.open.Some? { LookupMeans(s, step.stationId, step.open.value); }
    assert !StartsRow(s, step, key) && !SendsTo(s, step, key);
    hide Awaits, LatestOpen, Mapped, Fits, Firmware.Reported, StartsRow, SendsTo;
  }

  lemma StepObeys(s: State, step: Step, key: Key)
    requires Inv(s)
    ensures Obeys(s, step, key, Next(s, step))
  {
    hide Inv, DoStart, DoDispatch, DoNotify;
    match step
    case Start(_, _, _, _) => StartObeys(s, step, key);
    case Dispatch(_, _, _, _) => DispatchObeys(s, step, key);
    case Notify(_, _, _, _, _) => NotifyObeys(s, step, key);
    case _ =>
      hide Next;
      OtherSteps(s, step);
  }

  // ----- Every run -----

  /** In every run, a target has a row exactly if something was said about it, and the row is the last of it. */
  lemma {:induction false} RowIsLastWord(steps: seq<Step>, key: Key)
    ensures var s := Run(Init, steps);
            match LastWord(steps, key)
            case None => key !in s.progress
            case Some(word) => key in s.progress && Fits(s.progress[key], word)
  {
    if steps != [] {
      var n := |steps| - 1;
      RowIsLastWord(steps[..n], key);
      RunSnoc(Init, steps);
      RunKeeps(Init, steps[..n]);
      StepObeys(Run(Init, steps[..n]), steps[n], key);
      hide Next, Run, Inv, WordOf, Fits;
    }
  }

  /** At step i of the run the station reported this about the row, and it was stored. */
  ghost predicate Reported(steps: seq<Step>, i: nat, key: Key, raw: string) {
    i < |steps| && steps[i].Notify? && steps[i].status == raw && Hears(Run(Init, steps[..i]), steps[i], key)
  }

  lemma {:induction false} WordWasReported(steps: seq<Step>, key: Key) returns (i: nat)
    requires LastWord(steps, key).Some? && LastWord(steps, key).value.Said?
    ensures Reported(steps, i, key, LastWord(steps, key).value.raw) && LastWord(steps, key).value.raw in REPORTS
  {
    var n := |steps| - 1;
    i := n;
    if WordOf(Run(Init, steps[..n]), steps[n], key).None? {
      i := WordWasReported(steps[..n], key);
      assert steps[..n][..i] == steps[..i];
    }
    hide Hears, Run, Next;
  }

  /** Right after the report the row is as it says. */
  lemma ReportTells(steps: seq<Step>, i: nat, key: Key, raw: string)
    requires Reported(steps, i, key, raw)
    ensures var s := Run(Init, steps[..i + 1]); key in s.progress && Fits(s.progress[key], Said(raw, steps[i].now))
  {
    var upTo := steps[..i + 1];
    assert upTo[..i] == steps[..i];
    RowIsLastWord(upTo, key);
    assert WordOf(Run(Init, steps[..i]), steps[i], key) == Some(Said(raw, steps[i].now));
    hide Run, Fits, Hears, WordOf;
  }

  /** A row that is done stays as the report made it. */
  lemma ReportSettles(steps: seq<Step>, i: nat, key: Key, raw: string)
    requires Reported(steps, i, key, raw)
             && (raw == "Installed" || raw == "DownloadFailed" || raw == "InstallationFailed")
    ensures var s := Run(Init, steps); key in s.progress && Fits(s.progress[key], Said(raw, steps[i].now))
  {
    ReportTells(steps, i, key, raw);
    var upTo := steps[..i + 1];
    FinishedIsForever(upTo, steps[i + 1..], key);
    RunConcat(Init, upTo, steps[i + 1..]);
    assert upTo + steps[i + 1..] == steps;
    hide Run, Reported;
  }

  lemma {:induction false} RunConcat(s: State, a: seq<Step>, b: seq<Step>)
    ensures Run(s, a + b) == Run(Run(s, a), b)
    decreases |a|
  {
    if a == [] {
      assert a + b == b;
    } else {
      assert (a + b)[1..] == a[1..] + b;
      RunConcat(Next(s, a[0]), a[1..], b);
    }
  }

  /** A row is installed exactly if the station has reported it installed. */
  lemma InstalledIff(steps: seq<Step>, key: Key)
    requires key in Run(Init, steps).progress
    ensures Run(Init, steps).progress[key].status == Installed
            <==> exists i: nat :: Reported(steps, i, key, "Installed")
  {
    RowIsLastWord(steps, key);
    hide Run;
    if Run(Init, steps).progress[key].status == Installed {
      var i := WordWasReported(steps, key);
    }
    if i: nat :| Reported(steps, i, key, "Installed") { ReportSettles(steps, i, key, "Installed"); }
  }

  /** A row has failed exactly after a report of a failed download or installation, and its error says which. */
  lemma FailedIff(steps: seq<Step>, key: Key, raw: string)
    requires key in Run(Init, steps).progress && (raw == "DownloadFailed" || raw == "InstallationFailed")
    ensures var row := Run(Init, steps).progress[key];
            && (row.status == Failed && row.error == Some("OCPP status: " + raw) <==>
                  exists i: nat :: Reported(steps, i, key, raw))
            && (row.status == Failed ==>
                  exists i: nat :: Reported(steps, i, key, "DownloadFailed")
                                   || Reported(steps, i, key, "InstallationFailed"))
  {
    RowIsLastWord(steps, key);
    hide Run, Reported, Hears;
    if Run(Init, steps).progress[key].status == Failed {
      var i := WordWasReported(steps, key);
      var said := LastWord(steps, key).value.raw;
      assert ("OCPP status: " + raw)[13..] == raw && ("OCPP status: " + said)[13..] == said;
    }
    if i: nat :| Reported(steps, i, key, raw) { ReportSettles(steps, i, key, raw); }
  }

  /** Any other report changes nothing at all, and nor does one from a station without a row that waits. */
  lemma OtherReportsChangeNothing(s: State, stationId: StationId, raw: string, open: Option<Key>, stored: bool,
                                  now: int)
    requires raw !in REPORTS || forall key :: !Awaits(s, stationId, key)
    ensures Next(s, Notify(stationId, raw, open, stored, now)) == s
  {
    if open.Some? && OpenAt(s, stationId, open.value) { assert Awaits(s, stationId, open.value); }
  }

  lemma {:induction false} UnlinkedRowsStay(s: State, steps: seq<Step>, key: Key)
    requires Inv(s) && key in s.unlinked && key in s.progress
    ensures key in Run(s, steps).progress && Run(s, steps).progress[key] == s.progress[key]
    decreases |steps|
  {
    if steps != [] {
      StepObeys(s, steps[0], key);
      UnlinkedStep(s, steps[0], key);
      NextKeeps(s, steps[0]);
      hide Next, Inv, WordOf;
      UnlinkedRowsStay(Next(s, steps[0]), steps[1..], key);
    }
  }

  /**
   * Deleting a station unlinks its rows and no others, and changes no row; from then on its rows never change
   * again.
   */
  lemma DeletionFreezesRows(before: seq<Step>, stationId: StationId, after: seq<Step>, key: Key)
    requires key in Run(Init, before).progress
    ensures var s := Run(Init, before);
            var s' := Next(s, DeleteStation(stationId));
            && s' == s.(unlinked := s'.unlinked)
            && (key in s'.unlinked <==> key in s.unlinked || key.1 == stationId)
            && (key.1 == stationId ==>
                  key in Run(s', after).progress && Run(s', after).progress[key] == s.progress[key])
  {
    var s := Run(Init, before);
    RunKeeps(Init, before);
    NextKeeps(s, DeleteStation(stationId));
    if key.1 == stationId { UnlinkedRowsStay(Next(s, DeleteStation(stationId)), after, key); }
    hide Run, Inv;
  }

  lemma UnlinkedStep(s: State, step: Step, key: Key)
    requires Inv(s) && key in s.unlinked && key in s.progress
    ensures WordOf(s, step, key).None? && key in Next(s, step).unlinked
  {
    UnlinkedOnlyGrows(s, step);
    hide Next, Split, Finished;
  }

  lemma UnlinkedOnlyGrows(s: State, step: Step)
    ensures s.unlinked <= Next(s, step).unlinked
  {
    hide Remaining, LatestOpen, Sending;
  }

  // ----- Completion and cancellation -----

  /** Every row of the campaign is installed, failed or send_error. */
  ghost predicate AllSettled(s: State, c: int) {
    forall key :: key in s.progress && key.0 == c ==> s.progress[key].status in {Installed, Failed, SendError}
  }

  /**
   * A final report is followed by one count, which completes the campaign exactly if count and update
   * succeed and all rows are settled, and touches nothing else.
   */
  lemma CompletesIff(s: State, c: int, counted: bool, stored: bool)
    requires c in s.counting && c in s.campaigns && s.campaigns[c].status != Completed
    ensures var s' := Next(s, CountRemaining(c, counted, stored));
            && c in s'.campaigns
            && (s'.campaigns[c].status == Completed <==> counted && stored && AllSettled(s, c))
            && (s'.campaigns[c].status == Completed || s'.campaigns[c] == s.campaigns[c])
            && s' == s.(counting := s.counting - multiset{c}, campaigns := s.campaigns[c := s'.campaigns[c]])
  {
    assert Remaining(s, c) == {} ==> forall key :: key in s.progress && key.0 == c ==> key !in Remaining(s, c);
    assert s.campaigns[c := s.campaigns[c]] == s.campaigns;
  }

  /** An undisturbed cancellation cancels exactly a running campaign, if its update succeeds, and nothing else. */
  lemma CancelsIff(s: State, c: int, stored: bool)
    requires c !in s.cancelling
    ensures var s' := Next(Next(s, ReadCancel(c)), WriteCancel(c, stored));
            if c in s.campaigns && s.campaigns[c].status == Running && stored then
              s' == s.(campaigns := s.campaigns[c := s.campaigns[c].(status := Cancelled)])
            else s' == s
  {
  }

  // ----- Interrupted campaigns -----

  /** The dispatch loop of the campaign is gone, with this many targets handled. */
  predicate StoppedAt(s: State, c: int, next: nat) {
    c in s.campaigns && !s.campaigns[c].alive && s.campaigns[c].next == next
  }

  lemma StatusSteps(s: State, step: Step, c: int)
    requires step.CountRemaining? || step.WriteCancel?
    requires c in s.campaigns
    ensures c in Next(s, step).campaigns
    ensures Next(s, step).campaigns[c] == s.campaigns[c].(status := Next(s, step).campaigns[c].status)
  {
    hide Remaining;
  }

  lemma StoppedStep(s: State, step: Step, c: int, next: nat, targets: seq<StationId>)
    requires StoppedAt(s, c, next) && s.campaigns[c].targets == targets
    ensures StoppedAt(Next(s, step), c, next) && Next(s, step).campaigns[c].targets == targets
  {
    hide DoStart, DoCount, DoWriteCancel, LatestOpen, Sending;
    match step
    case Start(other, active, ids, now) => StartSpares(s, other, active, ids, now);
    case CountRemaining(_, _, _) =>
      StatusSteps(s, step, c);
      hide *;
    case WriteCancel(_, _) =>
      StatusSteps(s, step, c);
      hide *;
    case Dispatch(_, _, _, _) =>
    case _ => hide DoDispatch;
  }

  lemma {:induction false} StaysStopped(s: State, steps: seq<Step>, c: int, next: nat, targets: seq<StationId>)
    requires StoppedAt(s, c, next) && s.campaigns[c].targets == targets
    ensures StoppedAt(Run(s, steps), c, next) && Run(s, steps).campaigns[c].targets == targets
    decreases |steps|
  {
    if steps != [] {
      StoppedStep(s, steps[0], c, next, targets);
      hide Next;
      StaysStopped(Next(s, steps[0]), steps[1..], c, next, targets);
    }
  }

  /**
   * A crash ends every dispatch for good: in all later runs the targets not handled by then stay queued, so
   * that a campaign with any of them never completes.
   */
  lemma InterruptedNeverCompletes(before: seq<Step>, c: int, after: seq<Step>)
    requires var s := Run(Init, before); c in s.campaigns && s.campaigns[c].next < |s.campaigns[c].targets|
    ensures Next(Run(Init, before), Crash).counting == multiset{}
    ensures Next(Run(Init, before), Crash).cancelling == multiset{}
    ensures var s, s' := Run(Init, before), Run(Next(Run(Init, before), Crash), after);
            && c in s'.campaigns && s'.campaigns[c].status != Completed
            && forall i :: s.campaigns[c].next <= i < |s.campaigns[c].targets| ==>
                 var key := (c, s.campaigns[c].targets[i]);
                 key in s'.progress && s'.progress[key].status == Queued
  {
    var s := Run(Init, before);
    var campaign := s.campaigns[c];
    RunKeeps(Init, before);
    NextKeeps(s, Crash);
    StaysStopped(Next(s, Crash), after, c, campaign.next, campaign.targets);
    RunKeeps(Next(s, Crash), after);
    var s' := Run(Next(s, Crash), after);
    assert Split(s', c);
    assert s'.campaigns[c].status == Completed ==> Finished(s', c);
  }
}

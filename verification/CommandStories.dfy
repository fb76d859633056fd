/** What is recorded about a command: in every run its row and its result event say how it was answered. */
module CommandStories {
  import opened Wrappers
  import opened Events
  import opened Strings
  import opened CommandErrors
  import opened Commands
  import Safety = CommandSafety
  import P = PendingRequests

  lemma {:induction false} RunSnoc(lim: Limits, s: Machine, steps: seq<Step>)
    requires steps != []
    ensures var n := |steps| - 1; Run(lim, s, steps) == Next(lim, Run(lim, s, steps[..n]), steps[n])
    decreases |steps|
  {
    hide Next;
    if |steps| > 1 {
      RunSnoc(lim, Next(lim, s, steps[0]), steps[1..]);
      assert steps[1..][..|steps| - 2] == steps[..|steps| - 1][1..];
    } else {
      assert steps[..0] == [] && Run(lim, Next(lim, s, steps[0]), steps[1..]) == Next(lim, s, steps[0]);
    }
  }

  // ----- The answer to a command -----

  predicate AwaitsAnswer(s: Machine, id: string) {
    id in s.senders && s.senders[id].Waiting?
  }

  /** The step answers the command: a reply, an error or the expiry of its timer, while its sender waits. */
  predicate Answers(s: Machine, step: Step, id: string) {
    && AwaitsAnswer(s, id)
    && match step
       case Reply(i, _) => i == id
       case CallError(i, _, _) => i == id
       case Expire(i) => i == id && s.senders[id].due <= s.now
       case _ => false
  }

  /** How the command was answered in the run, if it was. */
  ghost function Answer(lim: Limits, steps: seq<Step>, id: string): Option<Step> {
    if steps == [] then None
    else
      var n := |steps| - 1;
      if Answers(Run(lim, Init, steps[..n]), steps[n], id) then Some(steps[n]) else Answer(lim, steps[..n], id)
  }

  /** The message that the answer rejects the sender with; none for a reply. */
  function Rejection(answer: Step, id: string): Option<string> {
    match answer
    case CallError(_, code, description) => Some(code + ": " + description)
    case Expire(_) => Some("OCPP response timeout for messageId: " + id)
    case _ => None
  }

  predicate OutcomeFits(answer: Step, id: string, outcome: P.Outcome) {
    match Rejection(answer, id)
    case Some(message) => outcome == P.Failed(message)
    case None => answer.Reply? && outcome == P.Resolved(answer.status)
  }

  /** The row and the event of an answered command. */
  predicate Records(answer: Step, id: string, row: Row, resultStatus: string) {
    match Rejection(answer, id)
    case None =>
      row.status == Completed && row.errorCode == None && answer.Reply?
      && resultStatus == (if answer.status.Some? then answer.status.value else "Accepted")
    case Some(message) =>
      if Includes(ToLower(message), "timeout") then
        row.status == Timeout && row.errorCode == None && resultStatus == "timeout"
      else
        && row.status == Error && resultStatus == "error"
        && (forall k :: 0 < k < |message| && message[k] == ':' && ':' !in message[..k] ==>
              row.errorCode == Some(Trim(message[..k])))
        && (message == "" || message[0] == ':' || ':' !in message ==> row.errorCode.None?)
  }

  // ----- The invariant that ties senders, rows and events to the answers -----

  ghost predicate SenderFits(s: Machine, answer: Option<Step>, id: string) {
    id in s.senders ==>
      match s.senders[id]
      case Inserting(_, _) => answer.None?
      case Waiting(_, _, _) => answer.None?
      case Finishing(_, _, outcome) => answer.Some? && OutcomeFits(answer.value, id, outcome)
  }

  /** Row and sender belong to the same charger. */
  predicate SameStation(s: Machine, id: string) {
    id in s.rows && id in s.senders ==> s.senders[id].stationId == s.rows[id].stationId
  }

  ghost predicate RowFits(s: Machine, answer: Option<Step>, id: string) {
    id in s.rows ==>
      if s.rows[id].answered then
        answer.Some? && exists resultStatus ::
          Records(answer.value, id, s.rows[id], resultStatus)
          && OcppCommandResultReceived(s.rows[id].stationId, id, resultStatus) in s.outbox
      else s.rows[id].errorCode.None? && (s.rows[id].status == Pending || s.rows[id].status == Timeout)
  }

  ghost predicate Fits(s: Machine, answer: Option<Step>, id: string) {
    SenderFits(s, answer, id) && SameStation(s, id) && RowFits(s, answer, id) && (id !in s.used ==> answer.None?)
  }

  lemma AnsweringFits(lim: Limits, s: Machine, step: Step, answer: Option<Step>, id: string)
    requires Inv(s) && Fits(s, answer, id) && Answers(s, step, id)
    ensures Fits(Next(lim, s, step), Some(step), id)
  {
    assert id in s.waiters.pending;
    assert id in s.rows ==> !s.rows[id].answered;
    hide P.Inv, P.DoSettle, P.DoExpire, Records;
  }

  lemma OutcomeRecords(answer: Step, id: string, row: Row, outcome: P.Outcome)
    requires OutcomeFits(answer, id, outcome) && row.errorCode.None?
    ensures var event := ResultEvent(id, row.stationId, outcome);
            event.OcppCommandResultReceived? && event.stationId == row.stationId && event.messageId == id
            && Records(answer, id, Answered(row, outcome), event.resultStatus)
  {
  }

  lemma FinishFits(lim: Limits, s: Machine, ok: bool, answer: Option<Step>, id: string, other: string)
    requires Inv(s) && Fits(s, answer, id)
    ensures Fits(Next(lim, s, Finish(other, ok)), answer, id)
  {
    hide WaitersMatch, Records, OutcomeFits, Answered, ResultEvent;
    if other == id && id in s.senders && s.senders[id].Finishing? && id in s.rows {
      OutcomeRecords(answer.value, id, s.rows[id], s.senders[id].outcome);
      var e := ResultEvent(id, s.rows[id].stationId, s.senders[id].outcome);
      assert ok ==> e in Next(lim, s, Finish(other, ok)).outbox;
      AnsweredIs(s.rows[id], s.senders[id].outcome);
    }
  }

  lemma AnsweredIs(row: Row, outcome: P.Outcome)
    ensures Answered(row, outcome).answered && Answered(row, outcome).stationId == row.stationId
  {
  }

  /** Steps that neither answer nor finish this command. */
  lemma OtherFits(lim: Limits, s: Machine, step: Step, answer: Option<Step>, id: string)
    requires Inv(s) && Fits(s, answer, id) && !Answers(s, step, id) && !step.Finish?
    ensures Fits(Next(lim, s, step), answer, id)
  {
    hide WaitersMatch, Records, OutcomeFits, P.DoSettle, P.DoExpire;
  }

  lemma StepFits(lim: Limits, s: Machine, step: Step, answer: Option<Step>, id: string)
    requires Inv(s) && Fits(s, answer, id)
    ensures Fits(Next(lim, s, step), if Answers(s, step, id) then Some(step) else answer, id)
  {
    hide Inv, Fits, Next;
    if Answers(s, step, id) {
      AnsweringFits(lim, s, step, answer, id);
    } else if step.Finish? {
      FinishFits(lim, s, step.ok, answer, id, step.id);
    } else {
      OtherFits(lim, s, step, answer, id);
    }
  }

  lemma {:induction false} RunFits(lim: Limits, steps: seq<Step>, id: string)
    ensures Fits(Run(lim, Init, steps), Answer(lim, steps, id), id)
  {
    if steps != [] {
      var n := |steps| - 1;
      RunFits(lim, steps[..n], id);
      RunSnoc(lim, Init, steps);
      Safety.Reachable(lim, steps[..n]);
      StepFits(lim, Run(lim, Init, steps[..n]), steps[n], Answer(lim, steps[..n], id), id);
      hide Next, Run, Inv, Fits, Answers;
    }
  }

  // ----- Theorems about every run -----

  /**
   * In every run, a row that its sender has written says how the command was answered, and so does its
   * event: Completed, with the status of the reply, exactly for a reply, and otherwise Timeout or Error by
   * the message. A row that no sender has written is pending, or was ended as Timeout, and has no event.
   */
  lemma RowTellsAnswer(lim: Limits, steps: seq<Step>, id: string)
    requires id in Run(lim, Init, steps).rows
    ensures var s := Run(lim, Init, steps);
            var row, answer := s.rows[id], Answer(lim, steps, id);
            if row.answered then
              && answer.Some? && (row.status == Completed <==> answer.value.Reply?)
              && exists resultStatus :: Records(answer.value, id, row, resultStatus)
                   && OcppCommandResultReceived(row.stationId, id, resultStatus) in s.outbox
            else
              && (row.status == Pending || row.status == Timeout) && row.errorCode.None?
              && forall e :: e in s.outbox && e.OcppCommandResultReceived? ==> e.messageId != id
  {
    RunFits(lim, steps, id);
    Safety.ResultEventOnce(lim, steps, id);
    AnswerAnswers(lim, steps, id);
    hide Run;
    var s := Run(lim, Init, steps);
    if !s.rows[id].answered { NoEvents(s.outbox, id); }
  }

  lemma {:induction false} AnswerAnswers(lim: Limits, steps: seq<Step>, id: string)
    ensures var answer := Answer(lim, steps, id);
            answer.Some? ==> answer.value.Reply? || answer.value.CallError? || answer.value.Expire?
  {
    if steps != [] { AnswerAnswers(lim, steps[..|steps| - 1], id); }
    hide Run;
  }

  lemma {:induction false} NoEvents(outbox: seq<Event>, id: string)
    requires ResultCount(outbox, id) == 0
    ensures forall e :: e in outbox && e.OcppCommandResultReceived? ==> e.messageId != id
  {
    if outbox != [] { NoEvents(outbox[..|outbox| - 1], id); }
  }

  /** In every run, a row was inserted for its charger with its stamp. */
  lemma {:induction false} RowWasInserted(lim: Limits, steps: seq<Step>, id: string)
    requires id in Run(lim, Init, steps).rows
    ensures var row := Run(lim, Init, steps).rows[id]; Insert(id, row.stationId, row.sentAt, true) in steps
  {
    if steps == [] { assert false; }
    var n := |steps| - 1;
    var s := Run(lim, Init, steps[..n]);
    RunSnoc(lim, Init, steps);
    if id in s.rows {
      RowWasInserted(lim, steps[..n], id);
      RowKeepsOrigin(lim, s, steps[n], id);
    } else {
      RowsComeByInsert(lim, s, steps[n], id);
    }
    hide Next, Run;
  }

  lemma RowKeepsOrigin(lim: Limits, s: Machine, step: Step, id: string)
    requires id in s.rows
    ensures var rows := Next(lim, s, step).rows;
            id in rows && (step == Insert(id, rows[id].stationId, rows[id].sentAt, true)
                           || (rows[id].stationId, rows[id].sentAt) == (s.rows[id].stationId, s.rows[id].sentAt))
  {
    hide OnTime, Stale, P.DoSettle, P.DoExpire;
  }

  lemma RowsComeByInsert(lim: Limits, s: Machine, step: Step, id: string)
    requires id !in s.rows && id in Next(lim, s, step).rows
    ensures var row := Next(lim, s, step).rows[id]; step == Insert(id, row.stationId, row.sentAt, true)
  {
    hide OnTime, Stale, P.DoSettle, P.DoExpire;
  }

  /**
   * An answer resumes the sender and takes its waiter away; then the sender's final update records it, once.
   * Without a waiting sender an answer changes nothing.
   */
  lemma AnswerResumes(lim: Limits, before: seq<Step>, step: Step, id: string)
    requires match step
             case Reply(i, _) => i == id
             case CallError(i, _, _) => i == id
             case Expire(i) => i == id
             case _ => false
    ensures var s := Run(lim, Init, before);
            var s1 := Next(lim, s, step);
            if !Answers(s, step, id) then s1 == s
            else
              && id !in s1.waiters.pending && !AwaitsAnswer(s1, id) && id in s1.senders
              && var s2 := Next(lim, s1, Finish(id, true));
                 id !in s2.senders && (id in s.rows ==>
                   s2.rows[id].answered && |s2.outbox| == |s.outbox| + 1 && s.outbox <= s2.outbox)
  {
    Safety.Reachable(lim, before);
    var s := Run(lim, Init, before);
    assert id in s.waiters.pending ==> AwaitsAnswer(s, id);
    if AwaitsAnswer(s, id) {
      var h := s.senders[id].handle;
      assert s.waiters.pending[id] == h && P.WaiterOk(s.waiters, h);
    }
    hide Run, CallErrorMessage, P.TimeoutMessage, ResultEvent, Answered;
    forall row: Row, outcome: P.Outcome ensures Answered(row, outcome).answered { AnsweredIs(row, outcome); }
  }
}

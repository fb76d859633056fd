/**
 * How far apart the executions of one idempotency key are: the exact guarantee, as a function of what
 * the environment may do.
 */
module IdempotencySpacing {
  import opened Wrappers
  import opened Idempotency

  // ----- What the environment may do -----

  /**
   * overlap: a read of the key may fall between another request's read and mark of it. readDown, markDown:
   * the cache may fail for a read or a mark of the key. window bounds how long a mark follows its read,
   * answer how long the handler starts after its mark.
   */
  datatype Rules = Rules(overlap: bool, readDown: bool, markDown: bool, window: nat, answer: nat)

  /** The request has read the cache for the key in vain, and not yet marked it. */
  predicate MissedAt(s: State, r: nat, key: string) {
    r in s.requests && s.requests[r].Missed? && s.requests[r].key == key
  }

  ghost predicate NoneMissed(s: State, key: string) {
    forall r :: r in s.requests ==> !MissedAt(s, r, key)
  }

  /** If the request waits for the answer to its mark, it made the mark at that moment or later. */
  predicate MarkedSince(s: State, r: nat, moment: int) {
    r in s.requests && s.requests[r].Marked? && s.requests[r].mark < |s.marks| ==>
      moment <= s.marks[s.requests[r].mark].at
  }

  ghost predicate Follows(rules: Rules, s: State, step: Step, key: string) {
    match step
    case Arrive(_, k, up) => k == key ==> (up || rules.readDown) && (rules.overlap || NoneMissed(s, key))
    case SetMark(r, up) =>
      MissedAt(s, r, key) ==> (up || rules.markDown) && s.now <= s.requests[r].at + rules.window
    case Start(r) => r in s.requests && s.requests[r].key == key ==> MarkedSince(s, r, s.now - rules.answer)
    case _ => true
  }

  /** Along the run, everything that concerns the key follows the rules; other keys and time are free. */
  ghost predicate FollowRun(rules: Rules, s: State, steps: seq<Step>, key: string)
    decreases |steps|
  {
    steps == [] || (Follows(rules, s, steps[0], key) && FollowRun(rules, Next(s, steps[0]), steps[1..], key))
  }

  predicate Strict(rules: Rules) {
    !rules.overlap && !rules.readDown && !rules.markDown
  }

  /**
   * How long a mark keeps the key blocked. A late mark can meet an entry that it does not replace, a
   * response stored since its read, of which a day less the window is left.
   */
  function Block(window: nat): int {
    if window <= 86_280_000 then 120_000
    else if window < 86_400_000 then 86_400_000 - window
    else 1
  }

  // ----- Marks are apart -----

  /** Marks of the key are `b` apart, and each blocks the key for as long. */
  ghost predicate Spaced(s: State, key: string, b: int) {
    && (forall i, j :: 0 <= i < j < |s.marks| && s.marks[i].key == key && s.marks[j].key == key ==>
          s.marks[j].at >= s.marks[i].at + b)
    && (forall m :: m in s.marks && m.key == key && s.now < m.at + b ==>
          key in s.redis && s.redis[key].expiresAt >= m.at + b)
  }

  /** What a miss has seen stays true until its mark: old marks only, and no entry but a later response. */
  ghost predicate MissHolds(s: State, key: string, b: int, at: int) {
    && (forall m :: m in s.marks && m.key == key ==> m.at + b <= at)
    && (key in s.redis ==> s.redis[key].expiresAt <= at || s.redis[key].expiresAt >= at + IDEMPOTENCY_TTL)
    && at <= s.now
  }

  ghost predicate MissesOk(s: State, key: string, b: int) {
    && (forall r :: r in s.requests && MissedAt(s, r, key) ==> MissHolds(s, key, b, s.requests[r].at))
    && (forall r, q :: r in s.requests && q in s.requests && MissedAt(s, r, key) && MissedAt(s, q, key) ==> r == q)
  }

  ghost predicate Guarded(s: State, key: string, b: int) {
    Spaced(s, key, b) && MissesOk(s, key, b)
  }

  lemma ArriveGuards(rules: Rules, s: State, r: nat, k: string, up: bool, key: string)
    requires Strict(rules) && Guarded(s, key, Block(rules.window)) && Follows(rules, s, Arrive(r, k, up), key)
    ensures Guarded(DoArrive(s, r, k, up), key, Block(rules.window))
  {
  }

  lemma MarkSpaces(rules: Rules, s: State, r: nat, up: bool, key: string)
    requires Strict(rules) && Guarded(s, key, Block(rules.window)) && Follows(rules, s, SetMark(r, up), key)
    ensures Spaced(DoMark(s, r, up), key, Block(rules.window))
  {
    var s', b := DoMark(s, r, up), Block(rules.window);
    if MissedAt(s, r, key) {
      assert MissHolds(s, key, b, s.requests[r].at);
      forall i, j | 0 <= i < j < |s'.marks| && s'.marks[i].key == key && s'.marks[j].key == key
        ensures s'.marks[j].at >= s'.marks[i].at + b
      {
        assert s.marks[i] in s.marks;
      }
    }
    hide MissesOk;
  }

  lemma MarkEndsMiss(rules: Rules, s: State, r: nat, up: bool, key: string)
    requires Strict(rules) && Guarded(s, key, Block(rules.window)) && Follows(rules, s, SetMark(r, up), key)
    ensures MissesOk(DoMark(s, r, up), key, Block(rules.window))
  {
    hide Spaced, Block;
  }

  lemma MarkGuards(rules: Rules, s: State, r: nat, up: bool, key: string)
    requires Strict(rules) && Guarded(s, key, Block(rules.window)) && Follows(rules, s, SetMark(r, up), key)
    ensures Guarded(DoMark(s, r, up), key, Block(rules.window))
  {
    hide Spaced, MissesOk, DoMark, Follows;
    MarkSpaces(rules, s, r, up, key);
    MarkEndsMiss(rules, s, r, up, key);
  }

  lemma RespondGuards(s: State, r: nat, response: Response, key: string, b: int)
    requires Guarded(s, key, b)
    ensures Guarded(DoRespond(s, r, response), key, b)
  {
  }

  lemma StartGuards(s: State, r: nat, key: string, b: int)
    requires Guarded(s, key, b)
    ensures Guarded(DoStart(s, r), key, b)
  {
  }

  /** A response outlives every mark made so far. */
  lemma StoreGuards(s: State, r: nat, up: bool, key: string, b: int)
    requires Guarded(s, key, b) && MarksPast(s) && 1 <= b <= IN_PROGRESS_TTL
    ensures Guarded(DoStore(s, r, up), key, b)
  {
  }

  ghost predicate MarksPast(s: State) {
    forall m :: m in s.marks ==> m.at <= s.now
  }

  lemma PastKeeps(s: State, step: Step)
    requires MarksPast(s)
    ensures MarksPast(Next(s, step))
  {
  }

  /** Time passes, or the process crashes. */
  lemma IdleGuards(s: State, s': State, key: string, b: int)
    requires Guarded(s, key, b) && s.now <= s'.now && s'.requests.Keys <= s.requests.Keys
    requires s' == s.(now := s'.now, requests := s'.requests)
    requires forall r :: r in s'.requests ==> s'.requests[r] == s.requests[r]
    ensures Guarded(s', key, b)
  {
  }

  lemma NextGuards(rules: Rules, s: State, step: Step, key: string)
    requires Strict(rules) && MarksPast(s) && Guarded(s, key, Block(rules.window)) && Follows(rules, s, step, key)
    ensures Guarded(Next(s, step), key, Block(rules.window)) && MarksPast(Next(s, step))
  {
    PastKeeps(s, step);
    hide Guarded, MarksPast, DoArrive, DoMark, DoStart, DoRespond, DoStore;
    var b := Block(rules.window);
    match step
    case Arrive(r, k, up) => ArriveGuards(rules, s, r, k, up, key);
    case SetMark(r, up) => MarkGuards(rules, s, r, up, key);
    case Start(r) => StartGuards(s, r, key, b);
    case Respond(r, response) => RespondGuards(s, r, response, key, b);
    case Store(r, up) => StoreGuards(s, r, up, key, b);
    case Advance(_) => IdleGuards(s, Next(s, step), key, b);
    case Crash => IdleGuards(s, Next(s, step), key, b);
  }

  // ----- Each execution has its own mark -----

  /** Executions and marked requests have different marks, of their own key; executions follow their marks. */
  ghost predicate Linked(s: State) {
    && (forall e :: e in s.executions ==> e.mark < |s.marks| && s.marks[e.mark].key == e.key && e.at <= s.now)
    && (forall i, j :: 0 <= i < j < |s.executions| ==> s.executions[i].mark != s.executions[j].mark
                                                       && s.executions[i].at <= s.executions[j].at)
    && (forall r :: r in s.requests && s.requests[r].Marked? ==> MarkOwned(s, r))
    && (forall r, q :: r in s.requests && q in s.requests && r != q ==>
          !s.requests[r].Marked? || !s.requests[q].Marked? || s.requests[r].mark != s.requests[q].mark)
  }

  ghost predicate MarkOwned(s: State, r: nat)
    requires r in s.requests && s.requests[r].Marked?
  {
    var request := s.requests[r];
    && request.mark < |s.marks| && s.marks[request.mark].key == request.key
    && forall e :: e in s.executions ==> e.mark != request.mark
  }

  /** Executions of the key start between their mark and `answer` after it. */
  ghost predicate Answered(s: State, key: string, answer: int) {
    && MarksPast(s)
    && forall e :: e in s.executions && e.key == key && e.mark < |s.marks| ==>
         s.marks[e.mark].at <= e.at <= s.marks[e.mark].at + answer
  }

  lemma StartLinks(s: State, r: nat)
    requires Linked(s)
    ensures Linked(DoStart(s, r))
  {
    var s' := DoStart(s, r);
    if s' != s {
      assert MarkOwned(s, r);
      forall q | q in s'.requests && s'.requests[q].Marked? ensures MarkOwned(s', q) {
        assert MarkOwned(s, q);
      }
    }
  }

  lemma MarkLinks(s: State, r: nat, up: bool)
    requires Linked(s)
    ensures Linked(DoMark(s, r, up))
  {
    var s' := DoMark(s, r, up);
    forall q | q in s'.requests && s'.requests[q].Marked? ensures MarkOwned(s', q) {
      if q in s.requests && s.requests[q].Marked? { assert MarkOwned(s, q); }
    }
  }

  /** Steps that neither mark nor start may only end requests and let time pass. */
  lemma OtherLinks(s: State, s': State)
    requires Linked(s) && s'.marks == s.marks && s'.executions == s.executions && s.now <= s'.now
    requires forall r :: r in s'.requests && s'.requests[r].Marked? ==>
               r in s.requests && s'.requests[r] == s.requests[r]
    ensures Linked(s')
  {
    forall r | r in s'.requests && s'.requests[r].Marked? ensures MarkOwned(s', r) {
      assert MarkOwned(s, r);
    }
    hide MarkOwned;
  }

  lemma NextLinks(s: State, step: Step)
    requires Linked(s)
    ensures Linked(Next(s, step))
  {
    hide Linked;
    match step
    case Start(r) => StartLinks(s, r);
    case SetMark(r, up) => MarkLinks(s, r, up);
    case _ => OtherLinks(s, Next(s, step));
  }

  lemma NextAnswers(rules: Rules, s: State, step: Step, key: string)
    requires Linked(s) && Answered(s, key, rules.answer) && Follows(rules, s, step, key)
    ensures Answered(Next(s, step), key, rules.answer)
  {
    if step.Start? && step.request in s.requests && s.requests[step.request].Marked? {
      assert MarkOwned(s, step.request);
    }
  }

  lemma {:induction false} RunGuards(rules: Rules, s: State, steps: seq<Step>, key: string)
    requires Strict(rules) && Guarded(s, key, Block(rules.window)) && Linked(s) && Answered(s, key, rules.answer)
    requires FollowRun(rules, s, steps, key)
    ensures var s' := Run(s, steps);
            Guarded(s', key, Block(rules.window)) && Linked(s') && Answered(s', key, rules.answer)
    decreases |steps|
  {
    if steps != [] {
      NextGuards(rules, s, steps[0], key);
      NextLinks(s, steps[0]);
      NextAnswers(rules, s, steps[0], key);
      hide Next, Guarded, Linked, Answered, Follows, Block;
      RunGuards(rules, Next(s, steps[0]), steps[1..], key);
    }
  }

  // ----- The guarantee -----

  ghost predicate Apart(executions: seq<Execution>, key: string, gap: int) {
    forall i, j :: 0 <= i < j < |executions| && executions[i].key == key && executions[j].key == key ==>
                     executions[j].at >= executions[i].at + gap
  }

  /** Marks of the key are two minutes apart, or less if they can be very late. */
  lemma MarksSpaced(rules: Rules, steps: seq<Step>, key: string, i: nat, j: nat)
    requires Strict(rules) && FollowRun(rules, Init, steps, key) && i < j < |Run(Init, steps).marks|
    requires Run(Init, steps).marks[i].key == key && Run(Init, steps).marks[j].key == key
    ensures Run(Init, steps).marks[j].at >= Run(Init, steps).marks[i].at + Block(rules.window)
  {
    RunGuards(rules, Init, steps, key);
  }

  /** So executions start that far apart, less the longest wait for the answer to a mark. */
  lemma ExecutionsSpaced(rules: Rules, steps: seq<Step>, key: string)
    requires Strict(rules) && FollowRun(rules, Init, steps, key)
    ensures Apart(Run(Init, steps).executions, key, Block(rules.window) - rules.answer)
  {
    RunGuards(rules, Init, steps, key);
    var s := Run(Init, steps);
    forall i, j | 0 <= i < j < |s.executions| && s.executions[i].key == key && s.executions[j].key == key
      ensures s.executions[j].at >= s.executions[i].at + Block(rules.window) - rules.answer
    {
      var a, b := s.executions[i], s.executions[j];
      assert a in s.executions && b in s.executions;
      assert a.mark < b.mark || b.mark < a.mark;
      hide Run, Block;
    }
  }

  // ----- The guarantee is exact -----

  /** The steps follow the rules and lead from one state to the other. */
  ghost predicate Path(rules: Rules, key: string, s: State, steps: seq<Step>, s': State) {
    FollowRun(rules, s, steps, key) && Run(s, steps) == s'
  }

  lemma OneStep(rules: Rules, key: string, s: State, step: Step)
    requires Follows(rules, s, step, key)
    ensures Path(rules, key, s, [step], Next(s, step))
  {
    assert Run(Next(s, step), [step][1..]) == Next(s, step);
    assert FollowRun(rules, Next(s, step), [step][1..], key);
  }

  lemma {:induction false} Join(rules: Rules, key: string, s: State, a: seq<Step>, s1: State, b: seq<Step>, s2: State)
    requires Path(rules, key, s, a, s1) && Path(rules, key, s1, b, s2)
    ensures Path(rules, key, s, a + b, s2)
    decreases |a|
  {
    if a == [] {
      assert a + b == b;
    } else {
      assert (a + b)[1..] == a[1..] + b;
      Join(rules, key, Next(s, a[0]), a[1..], s1, b, s2);
    }
  }

  lemma TwoSteps(rules: Rules, key: string, s: State, a: Step, b: Step)
    requires Follows(rules, s, a, key) && Follows(rules, Next(s, a), b, key)
    ensures Path(rules, key, s, [a, b], Next(Next(s, a), b))
  {
    hide Next, Follows, Path;
    OneStep(rules, key, s, a);
    OneStep(rules, key, Next(s, a), b);
    Join(rules, key, s, [a], Next(s, a), [b], Next(Next(s, a), b));
    assert [a] + [b] == [a, b];
  }

  /** No entry of the key is alive, and no request has missed it. */
  ghost predicate Free(s: State, key: string) {
    Lookup(s, key, true).None? && NoneMissed(s, key)
  }

  /** The state after request r has been admitted, its mark answered after `delay`. */
  function Admitted(s: State, r: nat, key: string, delay: nat): State {
    s.(now := s.now + delay, redis := s.redis[key := Entry(InProgress, s.now + IN_PROGRESS_TTL)],
       requests := s.requests[r := Executing(key)], used := s.used + {r},
       marks := s.marks + [Mark(key, s.now)],
       executions := s.executions + [Execution(key, |s.marks|, s.now + delay)])
  }

  lemma Admit(rules: Rules, key: string, s: State, r: nat, delay: nat) returns (steps: seq<Step>)
    requires Free(s, key) && r !in s.used && delay <= rules.answer
    ensures Path(rules, key, s, steps, Admitted(s, r, key, delay))
  {
    var a, b, c, d := Arrive(r, key, true), SetMark(r, true), Advance(s.now + delay), Start(r);
    var s1 := Next(s, a);
    assert s1 == s.(used := s.used + {r}, requests := s.requests[r := Missed(key, s.now)]);
    var s2 := Next(s1, b);
    assert s2 == s1.(redis := s.redis[key := Entry(InProgress, s.now + IN_PROGRESS_TTL)],
                     requests := s1.requests[r := Marked(key, |s.marks|)], marks := s.marks + [Mark(key, s.now)]);
    var s3 := s2.(now := s.now + delay);
    assert Next(s2, c) == s3;
    var s4 := Next(s3, d);
    assert s4.requests == s.requests[r := Executing(key)];
    assert s4 == Admitted(s, r, key, delay);
    assert Follows(rules, s, a, key) && Follows(rules, s1, b, key);
    assert Follows(rules, s2, c, key) && Follows(rules, s3, d, key);
    hide Next, Follows, Admitted, Path;
    TwoSteps(rules, key, s, a, b);
    TwoSteps(rules, key, s2, c, d);
    Join(rules, key, s, [a, b], s2, [c, d], s4);
    steps := [a, b] + [c, d];
  }

  /** A run that the rules allow has executions that are not `gap` apart. */
  ghost predicate Breaks(rules: Rules, key: string, gap: int, steps: seq<Step>) {
    FollowRun(rules, Init, steps, key) && !Apart(Run(Init, steps).executions, key, gap)
  }

  lemma BreaksBy(rules: Rules, key: string, gap: int, steps: seq<Step>, s: State, i: nat, j: nat)
    requires Path(rules, key, Init, steps, s) && i < j < |s.executions|
    requires s.executions[i].key == key && s.executions[j].key == key && s.executions[j].at < s.executions[i].at + gap
    ensures Breaks(rules, key, gap, steps)
  {
    hide Run, FollowRun;
  }

  function Min(a: int, b: int): int {
    if a <= b then a else b
  }

  /** Two requests in turn, the first one's mark answered late, the second as soon as the marker has expired. */
  lemma SlowAnswer(rules: Rules, key: string, gap: int) returns (steps: seq<Step>)
    requires gap > 0 && gap > IN_PROGRESS_TTL - rules.answer
    ensures Breaks(rules, key, gap, steps)
  {
    var delay := Min(rules.answer, IN_PROGRESS_TTL);
    var first := Admit(rules, key, Init, 0, delay);
    var s1 := Admitted(Init, 0, key, delay);
    var wait := Advance(IN_PROGRESS_TTL);
    OneStep(rules, key, s1, wait);
    var s2 := s1.(now := IN_PROGRESS_TTL);
    assert Next(s1, wait) == s2 && Free(s2, key);
    var second := Admit(rules, key, s2, 1, 0);
    var s3 := Admitted(s2, 1, key, 0);
    assert s3.executions == [Execution(key, 0, delay), Execution(key, 1, IN_PROGRESS_TTL)];
    hide Path, Admitted, Next;
    Join(rules, key, Init, first, s1, [wait], s2);
    Join(rules, key, Init, first + [wait], s2, second, s3);
    steps := first + [wait] + second;
    BreaksBy(rules, key, gap, steps, s3, 0, 1);
  }

  lemma Extend(rules: Rules, key: string, s: State, steps: seq<Step>, s1: State, step: Step, s2: State)
    requires Path(rules, key, s, steps, s1) && Follows(rules, s1, step, key) && Next(s1, step) == s2
    ensures Path(rules, key, s, steps + [step], s2)
  {
    hide Next, Follows, Path;
    OneStep(rules, key, s1, step);
    Join(rules, key, s, steps, s1, [step], s2);
  }

  /** A second read before the first request's mark: both run. */
  lemma OverlapBreaks(rules: Rules, key: string, gap: int) returns (steps: seq<Step>)
    requires gap > 0 && rules.overlap
    ensures Breaks(rules, key, gap, steps)
  {
    var a, b, c, d := Arrive(0, key, true), Arrive(1, key, true), SetMark(0, true), SetMark(1, true);
    var e, f := Start(0), Start(1);
    TwoSteps(rules, key, Init, a, b);
    var s2 := Next(Next(Init, a), b);
    assert s2.requests == map[0 := Missed(key, 0), 1 := Missed(key, 0)];
    TwoSteps(rules, key, s2, c, d);
    var s4 := Next(Next(s2, c), d);
    assert s4.requests == map[0 := Marked(key, 0), 1 := Marked(key, 1)] && s4.marks == [Mark(key, 0), Mark(key, 0)];
    TwoSteps(rules, key, s4, e, f);
    var s6 := Next(Next(s4, e), f);
    assert s6.executions == [Execution(key, 0, 0), Execution(key, 1, 0)];
    hide Path, Next;
    Join(rules, key, Init, [a, b], s2, [c, d], s4);
    Join(rules, key, Init, [a, b] + [c, d], s4, [e, f], s6);
    steps := [a, b] + [c, d] + [e, f];
    BreaksBy(rules, key, gap, steps, s6, 0, 1);
  }

  /** A read that the cache does not answer counts as a miss: the request runs beside the one that marked. */
  lemma ReadDownBreaks(rules: Rules, key: string, gap: int) returns (steps: seq<Step>)
    requires gap > 0 && rules.readDown
    ensures Breaks(rules, key, gap, steps)
  {
    var first := Admit(rules, key, Init, 0, 0);
    var s1 := Admitted(Init, 0, key, 0);
    var a, b, c := Arrive(1, key, false), SetMark(1, true), Start(1);
    TwoSteps(rules, key, s1, a, b);
    var s3 := Next(Next(s1, a), b);
    assert s3.requests[1] == Marked(key, 1) && s3.marks == [Mark(key, 0), Mark(key, 0)];
    OneStep(rules, key, s3, c);
    var s4 := Next(s3, c);
    assert s4.executions == [Execution(key, 0, 0), Execution(key, 1, 0)];
    hide Path, Next, Admitted;
    Join(rules, key, Init, first, s1, [a, b], s3);
    Join(rules, key, Init, first + [a, b], s3, [c], s4);
    steps := first + [a, b] + [c];
    BreaksBy(rules, key, gap, steps, s4, 0, 1);
  }

  /** A mark that the cache does not take blocks nobody. */
  lemma MarkDownBreaks(rules: Rules, key: string, gap: int) returns (steps: seq<Step>)
    requires gap > 0 && rules.markDown
    ensures Breaks(rules, key, gap, steps)
  {
    var a, b, c := Arrive(0, key, true), SetMark(0, false), Start(0);
    TwoSteps(rules, key, Init, a, b);
    var s2 := Next(Next(Init, a), b);
    assert s2.requests == map[0 := Marked(key, 0)] && s2.marks == [Mark(key, 0)] && s2.redis == map[];
    OneStep(rules, key, s2, c);
    var s3 := Next(s2, c);
    assert s3.requests == map[0 := Executing(key)] && Free(s3, key);
    var second := Admit(rules, key, s3, 1, 0);
    var s4 := Admitted(s3, 1, key, 0);
    assert s4.executions == [Execution(key, 0, 0), Execution(key, 1, 0)];
    hide Path, Next, Admitted;
    Join(rules, key, Init, [a, b], s2, [c], s3);
    Join(rules, key, Init, [a, b] + [c], s3, second, s4);
    steps := [a, b] + [c] + second;
    BreaksBy(rules, key, gap, steps, s4, 0, 1);
  }

  /** After a first execution and its expired marker: a read misses, and then the first response is stored. */
  function Overtaken(key: string): State {
    State(IN_PROGRESS_TTL, map[key := Entry(Completed(Response(200, "")), IN_PROGRESS_TTL + IDEMPOTENCY_TTL)],
          map[1 := Missed(key, IN_PROGRESS_TTL)], {0, 1}, [Mark(key, 0)], [Execution(key, 0, 0)],
          {Answer(key, Response(200, ""))}, [])
  }

  function StillRunning(key: string): State {
    State(IN_PROGRESS_TTL, map[key := Entry(InProgress, IN_PROGRESS_TTL)],
          map[0 := Executing(key), 1 := Missed(key, IN_PROGRESS_TTL)], {0, 1}, [Mark(key, 0)],
          [Execution(key, 0, 0)], {}, [])
  }

  lemma StillRunningPath(rules: Rules, key: string)
    ensures Path(rules, key, Admitted(Init, 0, key, 0), [Advance(IN_PROGRESS_TTL), Arrive(1, key, true)],
                 StillRunning(key))
  {
    var s1 := Admitted(Init, 0, key, 0);
    var wait, read := Advance(IN_PROGRESS_TTL), Arrive(1, key, true);
    var s2 := s1.(now := IN_PROGRESS_TTL);
    assert Next(s1, wait) == s2 && Free(s2, key);
    assert Next(s2, read) == StillRunning(key);
    TwoSteps(rules, key, s1, wait, read);
  }

  lemma StoredPath(rules: Rules, key: string)
    ensures Path(rules, key, StillRunning(key), [Respond(0, Response(200, "")), Store(0, true)], Overtaken(key))
  {
    var s1, answer, store := StillRunning(key), Respond(0, Response(200, "")), Store(0, true);
    var s2 := s1.(requests := map[0 := Storing(key, Response(200, "")), 1 := Missed(key, IN_PROGRESS_TTL)],
                  produced := {Answer(key, Response(200, ""))});
    assert Next(s1, answer) == s2;
    assert Next(s2, store) == Overtaken(key);
    TwoSteps(rules, key, s1, answer, store);
  }

  lemma OvertakenPath(rules: Rules, key: string) returns (steps: seq<Step>)
    ensures Path(rules, key, Init, steps, Overtaken(key))
  {
    hide Path, Overtaken, StillRunning, Admitted;
    var first := Admit(rules, key, Init, 0, 0);
    var wait := [Advance(IN_PROGRESS_TTL), Arrive(1, key, true)];
    var finish := [Respond(0, Response(200, "")), Store(0, true)];
    StillRunningPath(rules, key);
    Join(rules, key, Init, first, Admitted(Init, 0, key, 0), wait, StillRunning(key));
    StoredPath(rules, key);
    Join(rules, key, Init, first + wait, StillRunning(key), finish, Overtaken(key));
    steps := first + wait + finish;
  }

  /** A very late mark meets that response, which soon expires: the next request runs as soon as it has. */
  lemma LateMarkBreaks(rules: Rules, key: string, gap: int) returns (steps: seq<Step>)
    requires gap > 0 && Block(rules.window) < IN_PROGRESS_TTL && gap > Block(rules.window) - rules.answer
    ensures Breaks(rules, key, gap, steps)
  {
    var b, end := Block(rules.window), IN_PROGRESS_TTL + IDEMPOTENCY_TTL;
    var delay := Min(rules.answer, b);
    var first := OvertakenPath(rules, key);
    var s1 := Overtaken(key);
    var s2 := s1.(now := end - b);
    var s3 := s2.(requests := map[1 := Marked(key, 1)], marks := [Mark(key, 0), Mark(key, end - b)]);
    var s4 := s3.(now := end - b + delay);
    var s5 := s4.(requests := map[1 := Executing(key)],
                  executions := [Execution(key, 0, 0), Execution(key, 1, end - b + delay)]);
    var s6 := s5.(now := end);
    LateSteps(rules, key, b, delay);
    assert Free(s6, key);
    var last := Admit(rules, key, s6, 2, 0);
    var s7 := Admitted(s6, 2, key, 0);
    assert s7.executions[1] == Execution(key, 1, end - b + delay) && s7.executions[2] == Execution(key, 2, end);
    hide Path, Overtaken;
    var middle := [Advance(end - b), SetMark(1, true), Advance(end - b + delay), Start(1), Advance(end)];
    Join(rules, key, Init, first, s1, middle, s6);
    Join(rules, key, Init, first + middle, s6, last, s7);
    steps := first + middle + last;
    BreaksBy(rules, key, gap, steps, s7, 1, 2);
  }

  lemma LateSteps(rules: Rules, key: string, b: int, delay: nat)
    requires 1 <= b < IN_PROGRESS_TTL && IDEMPOTENCY_TTL - b <= rules.window && delay <= b && delay <= rules.answer
    ensures var s1, end := Overtaken(key), IN_PROGRESS_TTL + IDEMPOTENCY_TTL;
            Path(rules, key, s1, [Advance(end - b), SetMark(1, true), Advance(end - b + delay), Start(1), Advance(end)],
                 s1.(now := end, requests := map[1 := Executing(key)], marks := [Mark(key, 0), Mark(key, end - b)],
                     executions := [Execution(key, 0, 0), Execution(key, 1, end - b + delay)]))
  {
    var s1, end := Overtaken(key), IN_PROGRESS_TTL + IDEMPOTENCY_TTL;
    var s2 := s1.(now := end - b);
    var s3 := s2.(requests := map[1 := Marked(key, 1)], marks := [Mark(key, 0), Mark(key, end - b)]);
    var s4 := s3.(now := end - b + delay);
    var s5 := s4.(requests := map[1 := Executing(key)],
                  executions := [Execution(key, 0, 0), Execution(key, 1, end - b + delay)]);
    var s6 := s5.(now := end);
    assert Next(s1, Advance(end - b)) == s2 && Next(s2, SetMark(1, true)) == s3;
    assert Next(s3, Advance(end - b + delay)) == s4 && Next(s4, Start(1)) == s5 && Next(s5, Advance(end)) == s6;
    assert Follows(rules, s2, SetMark(1, true), key) && Follows(rules, s4, Start(1), key);
    OneStep(rules, key, s1, Advance(end - b));
    hide Path, Next, Overtaken;
    Extend(rules, key, s1, [Advance(end - b)], s2, SetMark(1, true), s3);
    Extend(rules, key, s1, [Advance(end - b)] + [SetMark(1, true)], s3, Advance(end - b + delay), s4);
    Extend(rules, key, s1, [Advance(end - b)] + [SetMark(1, true)] + [Advance(end - b + delay)], s4, Start(1), s5);
    Extend(rules, key, s1, [Advance(end - b)] + [SetMark(1, true)] + [Advance(end - b + delay)] + [Start(1)], s5,
           Advance(end), s6);
    assert [Advance(end - b)] + [SetMark(1, true)] + [Advance(end - b + delay)] + [Start(1)] + [Advance(end)]
           == [Advance(end - b), SetMark(1, true), Advance(end - b + delay), Start(1), Advance(end)];
  }

  /**
   * The guarantee is exact: under given rules the executions of a key start `gap` apart in all runs if and
   * only if reads and marks do not overlap, the cache is up for both, and `gap` is at most two minutes,
   * less for very late marks, minus the longest wait for the answer to a mark.
   */
  lemma SpacingIff(rules: Rules, key: string, gap: int)
    requires gap > 0
    ensures (forall steps :: !Breaks(rules, key, gap, steps))
            <==> Strict(rules) && gap <= Block(rules.window) - rules.answer
  {
    if Strict(rules) && gap <= Block(rules.window) - rules.answer {
      forall steps ensures !Breaks(rules, key, gap, steps) {
        if FollowRun(rules, Init, steps, key) { ExecutionsSpaced(rules, steps, key); }
      }
    } else {
      var steps;
      if rules.overlap {
        steps := OverlapBreaks(rules, key, gap);
      } else if rules.readDown {
        steps := ReadDownBreaks(rules, key, gap);
      } else if rules.markDown {
        steps := MarkDownBreaks(rules, key, gap);
      } else if Block(rules.window) == IN_PROGRESS_TTL {
        steps := SlowAnswer(rules, key, gap);
      } else {
        steps := LateMarkBreaks(rules, key, gap);
      }
      assert Breaks(rules, key, gap, steps);
    }
  }
}

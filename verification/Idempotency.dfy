/** The idempotency middleware over a cache whose entries expire. Times are in milliseconds. */
module Idempotency {
  import opened Wrappers

  const IDEMPOTENCY_TTL: int := 86_400_000
  const IN_PROGRESS_TTL: int := 120_000

  datatype Response = Response(status: int, body: string)

  datatype Cached = InProgress | Completed(response: Response)

  datatype Entry = Entry(value: Cached, expiresAt: int)

  /**
   * A request whose read has missed, one whose mark has been made and awaits its answer, one that
   * executes, and one whose response is on its way into the cache. `mark` is the number of its mark.
   */
  datatype Request =
    | Missed(key: string, at: int)
    | Marked(key: string, mark: nat)
    | Executing(key: string)
    | Storing(key: string, response: Response)

  /** The moment at which a mark reached the cache, or failed to. */
  datatype Mark = Mark(key: string, at: int)

  /** The start of a request's handler, once its mark was answered. */
  datatype Execution = Execution(key: string, mark: nat, at: int)

  datatype Answer = Answer(key: string, response: Response)

  /** marks, executions, produced and replayed record what happened; no step reads them. */
  datatype State = State(now: int, redis: map<string, Entry>, requests: map<nat, Request>, used: set<nat>,
                         marks: seq<Mark>, executions: seq<Execution>, produced: set<Answer>, replayed: seq<Answer>)

  const Init := State(0, map[], map[], {}, [], [], {}, [])

  /** `up` says whether a read is answered, or a write applied; the middleware goes on in any case. */
  datatype Step =
    | Arrive(request: nat, key: string, up: bool)
    | SetMark(request: nat, up: bool)
    | Start(request: nat)
    | Respond(request: nat, response: Response)
    | Store(request: nat, up: bool)
    | Advance(now: int)
    | Crash

  /** getCached. */
  function Lookup(s: State, key: string, up: bool): Option<Cached> {
    if up && key in s.redis && s.now < s.redis[key].expiresAt then Some(s.redis[key].value) else None
  }

  function DoArrive(s: State, r: nat, key: string, up: bool): State {
    if r in s.used then s
    else
      var seen := s.(used := s.used + {r});
      match Lookup(s, key, up)
      case Some(InProgress) => seen
      case Some(Completed(response)) => seen.(replayed := s.replayed + [Answer(key, response)])
      case None => seen.(requests := s.requests[r := Missed(key, s.now)])
  }

  /** setInProgress, which never overwrites a live entry. */
  function DoMark(s: State, r: nat, up: bool): State {
    if r in s.requests && s.requests[r].Missed? then
      var key := s.requests[r].key;
      var marker := Entry(InProgress, s.now + IN_PROGRESS_TTL);
      s.(redis := if up && Lookup(s, key, true).None? then s.redis[key := marker] else s.redis,
         requests := s.requests[r := Marked(key, |s.marks|)],
         marks := s.marks + [Mark(key, s.now)])
    else s
  }

  /** The answer to the mark is there, and the handler starts. */
  function DoStart(s: State, r: nat): State {
    if r in s.requests && s.requests[r].Marked? then
      var request := s.requests[r];
      s.(requests := s.requests[r := Executing(request.key)],
         executions := s.executions + [Execution(request.key, request.mark, s.now)])
    else s
  }

  /** Responses with a 5xx status are not cached. */
  function DoRespond(s: State, r: nat, response: Response): State {
    if r in s.requests && s.requests[r].Executing? then
      var key := s.requests[r].key;
      s.(requests := if response.status < 500 then s.requests[r := Storing(key, response)] else s.requests - {r},
         produced := s.produced + {Answer(key, response)})
    else s
  }

  /** setCompleted. */
  function DoStore(s: State, r: nat, up: bool): State {
    if r in s.requests && s.requests[r].Storing? then
      var request := s.requests[r];
      var completed := Entry(Completed(request.response), s.now + IDEMPOTENCY_TTL);
      s.(redis := if up then s.redis[request.key := completed] else s.redis,
         requests := s.requests - {r})
    else s
  }

  function Next(s: State, step: Step): State {
    match step
    case Arrive(r, key, up) => DoArrive(s, r, key, up)
    case SetMark(r, up) => DoMark(s, r, up)
    case Start(r) => DoStart(s, r)
    case Respond(r, response) => DoRespond(s, r, response)
    case Store(r, up) => DoStore(s, r, up)
    case Advance(now) => if s.now <= now then s.(now := now) else s
    case Crash => s.(requests := map[])
  }

  function Run(s: State, steps: seq<Step>): State
    decreases |steps|
  {
    if steps == [] then s else Run(Next(s, steps[0]), steps[1..])
  }

  // ----- Replays -----

  ghost predicate Cacheable(s: State, key: string, response: Response) {
    response.status < 500 && Answer(key, response) in s.produced && exists e :: e in s.executions && e.key == key
  }

  ghost predicate Inv(s: State) {
    && (forall key :: key in s.redis && s.redis[key].value.Completed? ==>
        Cacheable(s, key, s.redis[key].value.response))
    && (forall r :: r in s.requests && s.requests[r].Storing? ==>
        Cacheable(s, s.requests[r].key, s.requests[r].response))
    && (forall r :: r in s.requests && s.requests[r].Executing? ==>
        exists e :: e in s.executions && e.key == s.requests[r].key)
    && (forall a :: a in s.replayed ==> Cacheable(s, a.key, a.response))
    && (forall r :: r in s.requests ==> r in s.used)
    && (forall e :: e in s.executions ==> e.at <= s.now)
  }

  lemma NextKeeps(s: State, step: Step)
    requires Inv(s)
    ensures Inv(Next(s, step))
  {
    hide DoArrive, DoMark, DoStart, DoRespond, DoStore;
    match step
    case Arrive(r, key, up) => ArriveKeeps(s, r, key, up);
    case SetMark(r, up) => MarkKeeps(s, r, up);
    case Start(r) => StartKeeps(s, r);
    case Respond(r, response) => RespondKeeps(s, r, response);
    case Store(r, up) => StoreKeeps(s, r, up);
    case Advance(now) =>
    case Crash =>
  }

  lemma ArriveKeeps(s: State, r: nat, key: string, up: bool)
    requires Inv(s)
    ensures Inv(DoArrive(s, r, key, up))
  {
  }

  lemma StoreKeeps(s: State, r: nat, up: bool)
    requires Inv(s)
    ensures Inv(DoStore(s, r, up))
  {
  }

  lemma MarkKeeps(s: State, r: nat, up: bool)
    requires Inv(s)
    ensures Inv(DoMark(s, r, up))
  {
  }

  lemma StartKeeps(s: State, r: nat)
    requires Inv(s)
    ensures Inv(DoStart(s, r))
  {
    var s' := DoStart(s, r);
    if s' != s {
      assert s'.executions[|s.executions|] in s'.executions;
      assert forall key, x :: Cacheable(s, key, x) ==> Cacheable(s', key, x);
    }
  }

  lemma RespondKeeps(s: State, r: nat, response: Response)
    requires Inv(s)
    ensures Inv(DoRespond(s, r, response))
  {
  }

  lemma {:induction false} RunKeeps(s: State, steps: seq<Step>)
    requires Inv(s)
    ensures Inv(Run(s, steps))
    decreases |steps|
  {
    if steps != [] {
      NextKeeps(s, steps[0]);
      RunKeeps(Next(s, steps[0]), steps[1..]);
    }
  }

  /**
   * Under every interleaving, cache failure and crash, a replayed response is one that an execution of the same key
   * produced.
   */
  lemma ReplaysAreGenuine(steps: seq<Step>, i: nat)
    requires i < |Run(Init, steps).replayed|
    ensures var s := Run(Init, steps);
            var a := s.replayed[i];
            a.response.status < 500 && a in s.produced && exists e :: e in s.executions && e.key == a.key
  {
    RunKeeps(Init, steps);
    var s := Run(Init, steps);
    assert s.replayed[i] in s.replayed;
  }

  // ----- Retrying after a 5xx response -----

  /** No request of the key but r marks or stores it, and r, if it responds, does so with a 5xx status. */
  predicate LeavesMarker(s: State, step: Step, key: string, r: nat) {
    match step
    case SetMark(q, _) => q in s.requests && q != r ==> s.requests[q].key != key
    case Store(q, _) => q in s.requests && q != r ==> s.requests[q].key != key
    case Respond(q, response) => q == r ==> response.status >= 500
    case _ => true
  }

  predicate LeaveMarker(s: State, steps: seq<Step>, key: string, r: nat)
    decreases |steps|
  {
    steps == [] || (LeavesMarker(s, steps[0], key, r) && LeaveMarker(Next(s, steps[0]), steps[1..], key, r))
  }

  /** Request r has marked, executes or is over, and its marker is the entry of the key. */
  ghost predicate Blocks(s: State, key: string, r: nat, until: int) {
    && r in s.used
    && (r in s.requests ==> s.requests[r].key == key && (s.requests[r].Marked? || s.requests[r].Executing?))
    && key in s.redis && s.redis[key] == Entry(InProgress, until)
  }

  lemma {:induction false} MarkerStays(s: State, steps: seq<Step>, key: string, r: nat, until: int)
    requires Blocks(s, key, r, until) && LeaveMarker(s, steps, key, r)
    ensures Blocks(Run(s, steps), key, r, until)
    decreases |steps|
  {
    if steps != [] {
      assert Blocks(Next(s, steps[0]), key, r, until);
      hide Next, Blocks;
      MarkerStays(Next(s, steps[0]), steps[1..], key, r, until);
    }
  }

  /**
   * A response with a 5xx status is not cached, but its marker stays: in every run in which no other
   * request of the key marks or stores in between, a retry is refused as a duplicate for two minutes
   * after the mark, and goes on to run from then on.
   */
  lemma RetryAfterServerError(before: seq<Step>, r: nat, between: seq<Step>, retry: nat)
    requires var s := Run(Init, before);
             r in s.requests && s.requests[r].Missed? && Lookup(s, s.requests[r].key, true).None?
    requires var s := Run(Init, before);
             LeaveMarker(Next(s, SetMark(r, true)), between, s.requests[r].key, r)
    requires retry !in Run(Next(Run(Init, before), SetMark(r, true)), between).used
    ensures var s := Run(Init, before);
            var key := s.requests[r].key;
            var s1 := Run(Next(s, SetMark(r, true)), between);
            var s2 := Next(s1, Arrive(retry, key, true));
            && s2.replayed == s1.replayed && s2.executions == s1.executions
            && (if s1.now < s.now + 120_000 then s2.requests == s1.requests
                else s2.requests == s1.requests[retry := Missed(key, s1.now)])
  {
    RunKeeps(Init, before);
    var s := Run(Init, before);
    var marked := Next(s, SetMark(r, true));
    MarkerStays(marked, between, s.requests[r].key, r, s.now + IN_PROGRESS_TTL);
    hide Run, Inv;
  }

  // ----- Replaying a response -----

  /** The step does not store another response of the key. */
  predicate LeavesResponse(s: State, step: Step, key: string) {
    step.Store? && step.request in s.requests ==> s.requests[step.request].key != key
  }

  predicate LeaveResponse(s: State, steps: seq<Step>, key: string)
    decreases |steps|
  {
    steps == [] || (LeavesResponse(s, steps[0], key) && LeaveResponse(Next(s, steps[0]), steps[1..], key))
  }

  predicate Holds(s: State, key: string, response: Response, until: int) {
    key in s.redis && s.redis[key] == Entry(Completed(response), until)
  }

  lemma {:induction false} ResponseStays(s: State, steps: seq<Step>, key: string, response: Response, until: int)
    requires Holds(s, key, response, until) && LeaveResponse(s, steps, key) && Run(s, steps).now < until
    ensures Holds(Run(s, steps), key, response, until)
    decreases |steps|
  {
    if steps != [] {
      TimeOnlyPasses(Next(s, steps[0]), steps[1..]);
      ResponseStep(s, steps[0], key, response, until);
      hide Next, Holds;
      ResponseStays(Next(s, steps[0]), steps[1..], key, response, until);
    }
  }

  lemma ResponseStep(s: State, step: Step, key: string, response: Response, until: int)
    requires Holds(s, key, response, until) && LeavesResponse(s, step, key) && Next(s, step).now < until
    ensures Holds(Next(s, step), key, response, until) && s.now <= Next(s, step).now
  {
  }

  lemma {:induction false} TimeOnlyPasses(s: State, steps: seq<Step>)
    ensures s.now <= Run(s, steps).now
    decreases |steps|
  {
    if steps != [] {
      assert s.now <= Next(s, steps[0]).now;
      hide Next;
      TimeOnlyPasses(Next(s, steps[0]), steps[1..]);
    }
  }

  /**
   * A response below 500, once stored, answers every request of its key for a day: the request gets exactly
   * that response and runs nothing, whatever other steps happen in between, unless another response of the
   * key is stored over it.
   */
  lemma StoredIsReplayed(s: State, r: nat, response: Response, between: seq<Step>, retry: nat)
    requires r in s.requests && s.requests[r].Executing? && response.status < 500
    requires var s1 := Next(Next(s, Respond(r, response)), Store(r, true));
             && LeaveResponse(s1, between, s.requests[r].key)
             && retry !in Run(s1, between).used && Run(s1, between).now < s.now + 86_400_000
    ensures var key := s.requests[r].key;
            var s1 := Next(Next(s, Respond(r, response)), Store(r, true));
            var s2 := Run(s1, between);
            var s3 := Next(s2, Arrive(retry, key, true));
            && s3.replayed == s2.replayed + [Answer(key, response)]
            && s3.requests == s2.requests && s3.executions == s2.executions && s3.redis == s2.redis
  {
    var key := s.requests[r].key;
    var s1 := Next(Next(s, Respond(r, response)), Store(r, true));
    assert Holds(s1, key, response, s.now + 86_400_000);
    ResponseStays(s1, between, key, response, s.now + 86_400_000);
    hide Run, LeaveResponse;
  }

  // ----- Outages and crashes -----

  /** With the cache down a request goes on as if nothing were stored, and neither marks nor stores anything. */
  lemma OutageFailsOpen(s: State, r: nat, key: string)
    ensures var s' := Next(s, Arrive(r, key, false));
            s'.redis == s.redis && s'.replayed == s.replayed
            && (r !in s.used ==> s'.requests == s.requests[r := Missed(key, s.now)])
    ensures Next(s, SetMark(r, false)).redis == s.redis && Next(s, Store(r, false)).redis == s.redis
    ensures r in s.requests && s.requests[r].Missed? ==>
              var s' := Next(s, SetMark(r, false)); r in s'.requests && s'.requests[r].Marked?
  {
  }

  /** Requests whose marks are older than the n-th neither wait nor run any more. */
  ghost predicate Forgotten(s: State, n: nat, k: nat) {
    && n <= |s.marks| && k <= |s.executions|
    && (forall r :: r in s.requests && s.requests[r].Marked? ==> s.requests[r].mark >= n)
    && (forall i :: k <= i < |s.executions| ==> s.executions[i].mark >= n)
  }

  lemma {:induction false} StaysForgotten(s: State, steps: seq<Step>, n: nat, k: nat)
    requires Forgotten(s, n, k)
    ensures Forgotten(Run(s, steps), n, k)
    decreases |steps|
  {
    if steps != [] {
      assert Forgotten(Next(s, steps[0]), n, k);
      hide Next, Forgotten;
      StaysForgotten(Next(s, steps[0]), steps[1..], n, k);
    }
  }

  /** A crash ends every request: what has not started by then never does, and the cache keeps its entries. */
  lemma CrashEndsRequests(s: State, after: seq<Step>, i: nat)
    requires |s.executions| <= i < |Run(Next(s, Crash), after).executions|
    ensures Run(Next(s, Crash), after).executions[i].mark >= |s.marks|
    ensures Next(s, Crash).redis == s.redis && Next(s, Crash).requests == map[]
  {
    StaysForgotten(Next(s, Crash), after, |s.marks|, |s.executions|);
  }

  // ----- The middleware -----

  datatype Reply = PassThrough | Duplicate | Replay(response: Response)

  class Middleware {
    var now: int
    var redis: map<string, Entry>
    ghost var requests: map<nat, Request>
    ghost var used: set<nat>
    ghost var marks: seq<Mark>
    ghost var executions: seq<Execution>
    ghost var produced: set<Answer>
    ghost var replayed: seq<Answer>

    constructor ()
      ensures Current() == Init
    {
      now, redis := 0, map[];
      requests, used, marks, executions, produced, replayed := map[], {}, [], [], {}, [];
    }

    ghost function Current(): State
      reads this
    {
      State(now, redis, requests, used, marks, executions, produced, replayed)
    }

    method GetCached(key: string, up: bool) returns (cached: Option<Cached>)
      ensures cached == Lookup(Current(), key, up)
    {
      if !up || key !in redis || redis[key].expiresAt <= now { return None; }
      return Some(redis[key].value);
    }

    method SetInProgress(key: string, up: bool)
      modifies this`redis
      ensures redis == if up && Lookup(old(Current()), key, true).None?
                       then old(redis)[key := Entry(InProgress, now + IN_PROGRESS_TTL)] else old(redis)
    {
      if up && (key !in redis || redis[key].expiresAt <= now) {
        redis := redis[key := Entry(InProgress, now + IN_PROGRESS_TTL)];
      }
    }

    method SetCompleted(key: string, response: Response, up: bool)
      modifies this`redis
      ensures redis == if up then old(redis)[key := Entry(Completed(response), now + IDEMPOTENCY_TTL)] else old(redis)
    {
      if up {
        redis := redis[key := Entry(Completed(response), now + IDEMPOTENCY_TTL)];
      }
    }

    /** Up to the cache read: a replay or a refusal ends the request, a miss goes on. */
    method Receive(r: nat, key: string, up: bool) returns (reply: Reply)
      requires Inv(Current()) && r !in used
      modifies this`used, this`requests, this`replayed
      ensures Current() == Next(old(Current()), Arrive(r, key, up)) && Inv(Current())
      ensures match reply
              case PassThrough => requests == old(requests)[r := Missed(key, now)]
              case Duplicate => Lookup(Current(), key, up) == Some(InProgress) && requests == old(requests)
              case Replay(response) => replayed == old(replayed) + [Answer(key, response)] && response.status < 500
    {
      NextKeeps(Current(), Arrive(r, key, up));
      var cached := GetCached(key, up);
      used := used + {r};
      if cached == Some(InProgress) { return Duplicate; }
      if cached.Some? {
        replayed := replayed + [Answer(key, cached.value.response)];
        return Replay(cached.value.response);
      }
      requests := requests[r := Missed(key, now)];
      return PassThrough;
    }

    /** The mark, whose answer the middleware awaits. */
    method SetMarker(r: nat, key: string, up: bool)
      requires r in requests && requests[r].Missed? && requests[r].key == key
      modifies this`redis, this`requests, this`marks
      ensures Current() == Next(old(Current()), SetMark(r, up))
    {
      SetInProgress(key, up);
      requests := requests[r := Marked(key, |marks|)];
      marks := marks + [Mark(key, now)];
    }

    /** The answer to the mark, or its failure, and then the request's own handler. */
    method Continue(r: nat, key: string)
      requires r in requests && requests[r].Marked? && requests[r].key == key
      modifies this`requests, this`executions
      ensures Current() == Next(old(Current()), Start(r))
    {
      executions := executions + [Execution(key, requests[r].mark, now)];
      requests := requests[r := Executing(key)];
    }

    /** The wrapped res.json; the answer says whether the response will be cached. */
    method Json(r: nat, key: string, response: Response) returns (caching: bool)
      requires r in requests && requests[r] == Executing(key)
      modifies this`requests, this`produced
      ensures Current() == Next(old(Current()), Respond(r, response))
      ensures caching == (response.status < 500)
    {
      produced := produced + {Answer(key, response)};
      if response.status < 500 {
        requests := requests[r := Storing(key, response)];
        return true;
      }
      requests := requests - {r};
      return false;
    }

    /** The caching that Json left to finish on its own. */
    method FinishCaching(r: nat, key: string, response: Response, up: bool)
      requires r in requests && requests[r] == Storing(key, response)
      modifies this`redis, this`requests
      ensures Current() == Next(old(Current()), Store(r, up))
    {
      SetCompleted(key, response, up);
      requests := requests - {r};
    }
  }
}

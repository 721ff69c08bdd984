/**
 * The request/response scheduler of bin/pipeline_run.py `main` (lines 107-189)
 * as a transition system over values.
 *
 * Every `run_pipeline` call the program makes is a task in `tasks` (an asyncio
 * task stays alive, and in flight, whatever the program's variables point to);
 * `request` and `response` are the variables `request_task` and `response_task`,
 * holding an index into `tasks`; `waitSet` is `aws`; `held` is `pipeline_result`;
 * `output` is the sequence of records written to stdout.
 *
 * The steps are the stretches of code between two suspension points:
 * a single-shot run returning (lines 109-127), the start of a turn (lines 131-146),
 * one return of `asyncio.wait` (lines 149-167), and reading the request result
 * (lines 169-189). The runtime's choices (which tasks are done, and how each
 * ended) arrive as the events' parameters.
 */
module Scheduler {
  import opened Wrappers
  import opened Pipeline

  /** The two task variables the scheduler waits on. */
  datatype Role = RequestRole | ResponseRole

  /** The life of one task: in flight (possibly asked to cancel), or done in one of three ways. */
  datatype TaskState = Pending | CancelRequested | Finished(result: RunResult) | Failed(error: RunError) | Cancelled
  {
    /** asyncio's `Task.done()`. */
    predicate Done() {
      Finished? || Failed? || Cancelled?
    }
  }

  /** Which call site of `run_pipeline` created a task. */
  datatype TaskKind = SingleShotRun | RequestRun | ResponseRun

  /** One `run_pipeline` call: where it was made, with which arguments, and how far it got. */
  datatype Task = Task(kind: TaskKind, args: RunArgs, state: TaskState)

  /** Where control is in `main`. */
  datatype Phase =
    | SingleShot          // at the await of line 109
    | Starting            // at line 131, about to create the request task
    | Waiting             // at the await of line 149
    | Collecting          // at line 169, the inner loop has ended
    | Stopped(error: RunError)  // an exception escaped from `main`

  datatype State = State(
    opts: Options,
    phase: Phase,
    tasks: seq<Task>,
    request: Option<nat>,
    response: Option<nat>,
    waitSet: set<Role>,
    held: Option<RunResult>,
    output: seq<RunResult>)

  /** What one return of `asyncio.wait` reports: for each task in `done`, how it ended. */
  datatype Completion = Completion(request: Option<TaskState>, response: Option<TaskState>)

  /** The `done` half of what `asyncio.wait` returns. */
  function DoneSet(c: Completion): (done: set<Role>)
    ensures RequestRole in done <==> c.request.Some?
    ensures ResponseRole in done <==> c.response.Some?
  {
    (if c.request.Some? then {RequestRole} else {}) + (if c.response.Some? then {ResponseRole} else {})
  }

  /**
   * What `asyncio.wait(aws, FIRST_COMPLETED)` can return: `done` is a non-empty
   * part of `aws` and its tasks have ended. A response may end cancelled whether
   * or not `cancel()` was called on it. A request that ends cancelled re-raises
   * at `request_task.result()` just as a failed one does, so it is reported as
   * `Failed`.
   */
  predicate ValidCompletion(s: State, c: Completion) {
    s.phase == Waiting && DoneSet(c) != {} && DoneSet(c) <= s.waitSet &&
    (c.request.Some? ==> c.request.value.Finished? || c.request.value.Failed?) &&
    (c.response.Some? ==> c.response.value.Done())
  }

  /** A task's arguments are those its call site builds from the command line (and, for a response, from a transcript). */
  predicate TaskFollowsOptions(o: Options, t: Task) {
    match t.kind
    case SingleShotRun => t.args == SingleShotArgs(o) && t.state.Done()
    case RequestRun => t.args == RequestArgs(o)
    case ResponseRun => t.args == ResponseArgs(o, t.args.wakeDetection, t.args.asrTranscript) && t.args.asrTranscript.Some?
  }

  /** The two variables point at tasks of their own call sites. */
  predicate SlotsWellFormed(s: State) {
    (s.request.Some? ==> s.request.value < |s.tasks| && s.tasks[s.request.value].kind == RequestRun) &&
    (s.response.Some? ==> s.response.value < |s.tasks| && s.tasks[s.response.value].kind == ResponseRun)
  }

  function RequestState(s: State): TaskState
    requires SlotsWellFormed(s) && s.request.Some?
  {
    s.tasks[s.request.value].state
  }

  function ResponseState(s: State): TaskState
    requires SlotsWellFormed(s) && s.response.Some?
  {
    s.tasks[s.response.value].state
  }

  /** No task is in flight unless one of the two variables still points at it. */
  predicate OnlySlotsInFlight(s: State) {
    forall i | 0 <= i < |s.tasks| :: !s.tasks[i].state.Done() ==> s.request == Some(i) || s.response == Some(i)
  }

  /** A response task exists only together with the request result that seeded it, held in `pipeline_result`. */
  predicate ResponseSeeded(s: State)
    requires SlotsWellFormed(s) && s.response.Some?
  {
    s.held.Some? && s.held.value.asrTranscript.Some? && s.tasks[s.response.value].args == SeededBy(s.opts, s.held.value)
  }

  /** The scheduler's invariant, by phase. */
  predicate Inv(s: State) {
    SlotsWellFormed(s) && OnlySlotsInFlight(s) &&
    (forall i | 0 <= i < |s.tasks| :: TaskFollowsOptions(s.opts, s.tasks[i])) &&
    (s.response.Some? ==> ResponseSeeded(s)) &&
    match s.phase
    case SingleShot =>
      s.request.None? && s.response.None? && s.waitSet == {}
    case Starting =>
      s.waitSet == {} &&
      (s.request.Some? ==> RequestState(s).Finished?) &&
      (s.response.Some? ==> ResponseState(s) == Pending)
    case Waiting =>
      s.request.Some? &&
      (ResponseRole in s.waitSet <==> s.response.Some?) &&
      (RequestRole in s.waitSet ==>
         RequestState(s) == Pending && (s.response.Some? ==> ResponseState(s) == Pending)) &&
      (RequestRole !in s.waitSet ==>
         (RequestState(s).Finished? || RequestState(s).Failed?) &&
         s.response.Some? && ResponseState(s) == CancelRequested)
    case Collecting =>
      s.request.Some? && (RequestState(s).Finished? || RequestState(s).Failed?) &&
      s.response.None? && s.waitSet == {}
    case Stopped(_) => true
  }

  lemma NonEmptyRoles(w: set<Role>)
    ensures w != {} ==> RequestRole in w || ResponseRole in w
  {
    if w != {} {
      var r :| r in w;
      match r
      case RequestRole =>
      case ResponseRole =>
    }
  }

  function SetState(tasks: seq<Task>, i: nat, st: TaskState): (r: seq<Task>)
    requires i < |tasks|
    ensures |r| == |tasks| && r[i].state == st && r[i].kind == tasks[i].kind && r[i].args == tasks[i].args
    ensures forall j | 0 <= j < |tasks| && j != i :: r[j] == tasks[j]
  {
    tasks[i := tasks[i].(state := st)]
  }

  /** `main` after parsing: the single-shot block if its guard holds (line 107), else line 129. */
  function Init(opts: Options): (s: State)
    ensures Inv(s) && s.tasks == [] && s.output == []
    ensures s.phase == (if SingleShotMode(opts) then SingleShot else Starting)
  {
    State(opts, if SingleShotMode(opts) then SingleShot else Starting, [], None, None, {}, None, [])
  }

  /**
   * Lines 109-127: one awaited run with every pre-supplied result; a returned
   * result is printed; without `--loop` the block breaks and control falls
   * through to the overlap loop, with `--loop` the block runs again.
   */
  function RunSingleShot(s: State, outcome: TaskState): (t: State)
    requires Inv(s) && s.phase == SingleShot && (outcome.Finished? || outcome.Failed?)
    ensures Inv(t)
    ensures t.tasks == s.tasks + [Task(SingleShotRun, SingleShotArgs(s.opts), outcome)]
    ensures t.request == s.request && t.response == s.response && t.waitSet == s.waitSet
    ensures outcome.Failed? ==> t.phase == Stopped(outcome.error) && t.output == s.output && t.held == s.held
    ensures outcome.Finished? ==>
      t.output == s.output + [outcome.result] && t.held == Some(outcome.result) &&
      t.phase == (if s.opts.loop then SingleShot else Starting)
  {
    var tasks := s.tasks + [Task(SingleShotRun, SingleShotArgs(s.opts), outcome)];
    assert tasks[|s.tasks|].kind == SingleShotRun;
    match outcome
    case Failed(e) => s.(phase := Stopped(e), tasks := tasks)
    case Finished(r) =>
      s.(phase := if s.opts.loop then SingleShot else Starting, tasks := tasks, held := Some(r), output := s.output + [r])
  }

  /**
   * Lines 131-146: create the request task and wait on it, together with the
   * response task if there is one and it is not done.
   */
  function StartTurn(s: State): (t: State)
    requires Inv(s) && s.phase == Starting
    ensures Inv(t) && t.phase == Waiting
    ensures |t.tasks| == |s.tasks| + 1 && t.tasks[..|s.tasks|] == s.tasks
    ensures t.tasks[|s.tasks|] == Task(RequestRun, RequestArgs(s.opts), Pending)
    ensures t.request == Some(|s.tasks|) && RequestRole in t.waitSet
    ensures ResponseRole in t.waitSet <==> s.response.Some?
    ensures t.response == s.response && t.output == s.output && t.held == s.held
  {
    var awaited :=
      if s.response.Some? && !s.tasks[s.response.value].state.Done() then {RequestRole, ResponseRole} else {RequestRole};
    var tasks := s.tasks + [Task(RequestRun, RequestArgs(s.opts), Pending)];
    assert tasks[..|s.tasks|] == s.tasks;
    s.(phase := Waiting, tasks := tasks, request := Some(|s.tasks|), waitSet := awaited)
  }

  /**
   * Lines 149-167: one return of `asyncio.wait`. A done response is printed
   * (its own result, or the held `pipeline_result` if it was cancelled) and
   * dropped; a failed one re-raises. A done request with a still pending
   * response cancels it. The inner loop ends once nothing is pending.
   */
  function Wait(s: State, c: Completion): (t: State)
    requires Inv(s) && ValidCompletion(s, c)
    ensures Inv(t)
    ensures t.phase == Waiting ==> t.waitSet < s.waitSet
    ensures |t.tasks| == |s.tasks| && t.request == s.request
    // the outcomes `asyncio.wait` reports are recorded on their tasks
    ensures c.request.Some? ==> t.tasks[s.request.value].state == c.request.value
    ensures c.response.Some? ==> s.response.Some? && t.tasks[s.response.value].state == c.response.value
  {
    var pending := s.waitSet - DoneSet(c);
    var next := if pending == {} then Collecting else Waiting;
    NonEmptyRoles(pending);
    var tasks := if c.request.Some? then SetState(s.tasks, s.request.value, c.request.value) else s.tasks;
    if c.response.None? then
      var bargeIn := c.request.Some? && s.response.Some? && ResponseRole in pending;
      var tasks := if bargeIn then SetState(tasks, s.response.value, CancelRequested) else tasks;
      s.(phase := next, tasks := tasks, waitSet := pending)
    else
      assert s.tasks[s.request.value].kind != s.tasks[s.response.value].kind;
      var tasks := SetState(tasks, s.response.value, c.response.value);
      match c.response.value
      case Failed(e) => s.(phase := Stopped(e), tasks := tasks, waitSet := pending)
      case Finished(r) =>
        assert RequestRole in s.waitSet && RequestRole !in pending ==> RequestRole in DoneSet(c);
        assert c.request.Some? ==> tasks[s.request.value].state == c.request.value;
        s.(phase := next, tasks := tasks, waitSet := pending, response := None, held := Some(r), output := s.output + [r])
      case Cancelled =>
        s.(phase := next, tasks := tasks, waitSet := pending, response := None, output := s.output + [s.held.value])
  }

  /**
   * Lines 169-189: read the request result (re-raising its failure). Without a
   * transcript it is printed; with one, a response task is created from it
   * instead. Either way the outer loop starts over.
   */
  function Collect(s: State): (t: State)
    requires Inv(s) && s.phase == Collecting
    ensures Inv(t)
    ensures t.request == s.request && t.waitSet == s.waitSet
  {
    match RequestState(s)
    case Failed(e) => s.(phase := Stopped(e))
    case Finished(r) =>
      if r.asrTranscript.None? then
        s.(phase := Starting, held := Some(r), output := s.output + [r])
      else
        var tasks := s.tasks + [Task(ResponseRun, SeededBy(s.opts, r), Pending)];
        assert tasks[|s.tasks|].kind == ResponseRun;
        s.(phase := Starting, tasks := tasks, response := Some(|s.tasks|), held := Some(r))
  }

  /** One thing that can happen next. */
  datatype Event =
    | SingleShotReturned(outcome: TaskState)
    | TurnStarts
    | WaitReturns(done: Completion)
    | RequestCollected

  predicate Enabled(s: State, e: Event) {
    match e
    case SingleShotReturned(o) => s.phase == SingleShot && (o.Finished? || o.Failed?)
    case TurnStarts => s.phase == Starting
    case WaitReturns(c) => ValidCompletion(s, c)
    case RequestCollected => s.phase == Collecting
  }

  function Step(s: State, e: Event): (t: State)
    requires Inv(s) && Enabled(s, e)
    ensures Inv(t)
  {
    match e
    case SingleShotReturned(o) => RunSingleShot(s, o)
    case TurnStarts => StartTurn(s)
    case WaitReturns(c) => Wait(s, c)
    case RequestCollected => Collect(s)
  }

  /** A finite run of `main`: every event is one that can happen where it happens. */
  predicate ValidTrace(s: State, es: seq<Event>)
    requires Inv(s)
    decreases |es|
  {
    es == [] || (Enabled(s, es[0]) && ValidTrace(Step(s, es[0]), es[1..]))
  }

  function RunTrace(s: State, es: seq<Event>): (t: State)
    requires Inv(s) && ValidTrace(s, es)
    ensures Inv(t)
    decreases |es|
  {
    if es == [] then s else RunTrace(Step(s, es[0]), es[1..])
  }
}

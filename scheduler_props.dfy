/**
 * What the overlap loop of bin/pipeline_run.py guarantees, stated over the
 * transition system of module Scheduler: the bound on tasks in flight, the
 * barge-in rule, what is printed when, and the scenarios of a few turns.
 */
module SchedulerProperties {
  import opened Wrappers
  import opened Pipeline
  import opened Scheduler

  /** The tasks that have been created and are not done. */
  function InFlight(s: State): set<nat> {
    set i | 0 <= i < |s.tasks| && !s.tasks[i].state.Done()
  }

  /** The tasks the two variables point at. */
  function Referenced(s: State): set<nat> {
    (if s.request.Some? then {s.request.value} else {}) + (if s.response.Some? then {s.response.value} else {})
  }

  /**
   * At most two tasks are ever in flight, and never two of the same call site:
   * one request and one response at most.
   */
  lemma InFlightBound(s: State)
    requires Inv(s)
    ensures InFlight(s) <= Referenced(s)
    ensures |InFlight(s)| <= 2
    ensures forall i, j | i in InFlight(s) && j in InFlight(s) :: s.tasks[i].kind == s.tasks[j].kind ==> i == j
    ensures forall i | i in InFlight(s) :: s.tasks[i].kind != SingleShotRun
  {
    var f, r := InFlight(s), Referenced(s);
    forall i | i in f ensures i in r {
      assert !s.tasks[i].state.Done();
    }
    SubsetCard(f, r);
  }

  lemma SubsetCard(a: set<nat>, b: set<nat>)
    requires a <= b
    ensures |a| <= |b|
  {
    assert b == a + (b - a);
  }

  /** When the inner loop has ended, nothing is in flight: a cancelled response has finished before the request result is read. */
  lemma NothingInFlightWhenCollecting(s: State)
    requires Inv(s) && s.phase == Collecting
    ensures InFlight(s) == {}
  {
    forall i | 0 <= i < |s.tasks| ensures s.tasks[i].state.Done() {
      if s.request == Some(i) {
        assert RequestState(s) == s.tasks[i].state;
      }
    }
  }

  /** `cancel()` is called on exactly one task, the response, exactly when the request is done and the response is still pending. */
  lemma BargeIn(s: State, c: Completion)
    requires Inv(s) && ValidCompletion(s, c)
    ensures forall i | 0 <= i < |s.tasks| ::
              (Wait(s, c).tasks[i].state == CancelRequested && s.tasks[i].state != CancelRequested)
              <==> (s.response == Some(i) && c.request.Some? && c.response.None?)
  {
    var t := Wait(s, c);
    forall i | 0 <= i < |s.tasks|
      ensures (t.tasks[i].state == CancelRequested && s.tasks[i].state != CancelRequested)
              <==> (s.response == Some(i) && c.request.Some? && c.response.None?)
    {
      if s.response == Some(i) && c.request.Some? && c.response.None? {
        assert RequestRole in s.waitSet;
        assert ResponseRole in s.waitSet - DoneSet(c);
      }
    }
  }

  /**
   * A done response that did not fail prints one record and leaves the slot
   * empty. After a cancellation that record is the held `pipeline_result`, which
   * is the very request result whose transcript seeded the cancelled response.
   */
  lemma ResponseDonePrints(s: State, c: Completion)
    requires Inv(s) && ValidCompletion(s, c) && c.response.Some? && !c.response.value.Failed?
    ensures s.response.Some? && s.held.Some?
    ensures var printed := if c.response == Some(Cancelled) then s.held.value else c.response.value.result;
            var t := Wait(s, c);
            t.response.None? && t.output == s.output + [printed] && t.held == Some(printed) &&
            (c.response == Some(Cancelled) ==>
               printed.asrTranscript.Some? && SeededBy(s.opts, printed) == s.tasks[s.response.value].args)
  {
  }

  /** A response that fails stops the loop, whether or not it had been asked to cancel; nothing is printed for it. */
  lemma ResponseFailureStops(s: State, c: Completion)
    requires Inv(s) && ValidCompletion(s, c) && c.response.Some? && c.response.value.Failed?
    ensures Wait(s, c).phase == Stopped(c.response.value.error) && Wait(s, c).output == s.output
  {
  }

  /** When only the request finishes, nothing is printed and `pipeline_result` is untouched. */
  lemma RequestDoneAlonePrintsNothing(s: State, c: Completion)
    requires Inv(s) && ValidCompletion(s, c) && c.response.None?
    ensures Wait(s, c).output == s.output && Wait(s, c).held == s.held
  {
  }

  /** The inner loop ends exactly when every awaited task is done (and no response failed). */
  lemma InnerLoopEnds(s: State, c: Completion)
    requires Inv(s) && ValidCompletion(s, c)
    ensures Wait(s, c).phase == Collecting <==> s.waitSet == DoneSet(c) && !(c.response.Some? && c.response.value.Failed?)
  {
  }

  /**
   * Reading the request result: a failure stops the loop; a result without a
   * transcript is printed and creates nothing; a result with one is not
   * printed and creates exactly one response task, seeded from it.
   */
  lemma CollectOutcome(s: State)
    requires Inv(s) && s.phase == Collecting
    ensures var t := Collect(s);
            match RequestState(s)
            case Failed(e) =>
              t.phase == Stopped(e) && t.output == s.output && t.tasks == s.tasks
            case Finished(r) =>
              t.phase == Starting && t.held == Some(r) &&
              (t.output != s.output <==> r.asrTranscript.None?) &&
              (t.response.Some? <==> r.asrTranscript.Some?) &&
              (r.asrTranscript.None? ==> t.output == s.output + [r] && t.tasks == s.tasks) &&
              (r.asrTranscript.Some? ==>
                 t.output == s.output && t.response == Some(|s.tasks|) &&
                 t.tasks == s.tasks + [Task(ResponseRun, ResponseArgs(s.opts, r.wakeDetection, r.asrTranscript), Pending)])
            case _ => false
  {
  }

  /** A step appends to the output, appends tasks, and never changes a done task or what any task was created with. */
  predicate Extends(s: State, t: State) {
    s.opts == t.opts && s.output <= t.output && |s.tasks| <= |t.tasks| &&
    (forall i | 0 <= i < |s.tasks| ::
       t.tasks[i].kind == s.tasks[i].kind && t.tasks[i].args == s.tasks[i].args &&
       (s.tasks[i].state.Done() ==> t.tasks[i].state == s.tasks[i].state))
  }

  lemma StepExtends(s: State, e: Event)
    requires Inv(s) && Enabled(s, e)
    ensures Extends(s, Step(s, e))
  {
    match e
    case SingleShotReturned(o) =>
    case TurnStarts =>
    case WaitReturns(c) => WaitExtends(s, c);
    case RequestCollected =>
  }

  /** `asyncio.wait` only reports tasks that had not ended, so no done task changes. */
  lemma WaitExtends(s: State, c: Completion)
    requires Inv(s) && ValidCompletion(s, c)
    ensures Extends(s, Wait(s, c))
  {
    var t := Wait(s, c);
    if c.request.Some? {
      assert RequestRole in s.waitSet;
      assert !RequestState(s).Done();
    }
    if c.response.Some? {
      assert ResponseRole in s.waitSet && s.response.Some?;
      assert !ResponseState(s).Done();
    }
    forall i | 0 <= i < |s.tasks|
      ensures t.tasks[i].kind == s.tasks[i].kind && t.tasks[i].args == s.tasks[i].args
      ensures s.tasks[i].state.Done() ==> t.tasks[i].state == s.tasks[i].state
    {
    }
  }

  /** Over any run: the output only grows, and a task once done stays done with the same outcome. */
  lemma {:induction false} TraceExtends(s: State, es: seq<Event>)
    requires Inv(s) && ValidTrace(s, es)
    ensures Extends(s, RunTrace(s, es))
    decreases |es|
  {
    if es != [] {
      var s1 := Step(s, es[0]);
      StepExtends(s, es[0]);
      TraceExtends(s1, es[1..]);
    }
  }

  /** Over any run from the start: every request run is made with the command-line wake/ASR skips and stops after ASR. */
  lemma EveryRequestUsesCommandLine(o: Options, es: seq<Event>)
    requires ValidTrace(Init(o), es)
    ensures var t := RunTrace(Init(o), es);
            forall i | 0 <= i < |t.tasks| && t.tasks[i].kind == RequestRun ::
              t.tasks[i].args == RequestArgs(o) && t.tasks[i].args.stopAfter == Some(AsrStage)
  {
    var t := RunTrace(Init(o), es);
    TraceExtends(Init(o), es);
    forall i | 0 <= i < |t.tasks| && t.tasks[i].kind == RequestRun ensures t.tasks[i].args == RequestArgs(o) {
      assert TaskFollowsOptions(t.opts, t.tasks[i]);
    }
  }

  /** Over any run from the start: every response run is seeded with a transcript and carries the user's intent/handle/TTS skips and stop-after. */
  lemma EveryResponseIsSeeded(o: Options, es: seq<Event>)
    requires ValidTrace(Init(o), es)
    ensures var t := RunTrace(Init(o), es);
            forall i | 0 <= i < |t.tasks| && t.tasks[i].kind == ResponseRun ::
              t.tasks[i].args.asrTranscript.Some? && t.tasks[i].args.asrWavIn.None? &&
              t.tasks[i].args.intentResult == o.intentResult && t.tasks[i].args.handleResult == o.handleResult &&
              t.tasks[i].args.ttsWavIn == o.ttsWavIn && t.tasks[i].args.stopAfter == o.stopAfter
  {
    var t := RunTrace(Init(o), es);
    TraceExtends(Init(o), es);
    forall i | 0 <= i < |t.tasks| && t.tasks[i].kind == ResponseRun
      ensures t.tasks[i].args == ResponseArgs(o, t.tasks[i].args.wakeDetection, t.tasks[i].args.asrTranscript)
      ensures t.tasks[i].args.asrTranscript.Some?
    {
      assert TaskFollowsOptions(t.opts, t.tasks[i]);
    }
  }

  /** Only single-shot runs are made and their phase never changes. */
  predicate SingleShotOnly(s: State) {
    (s.phase == SingleShot || s.phase.Stopped?) &&
    forall i | 0 <= i < |s.tasks| :: s.tasks[i].kind == SingleShotRun
  }

  /** With `--loop` and a stop after wake or ASR, the single-shot block repeats forever: no request or response task is ever created. */
  lemma {:induction false} LoopingEarlyStopNeverOverlaps(s: State, es: seq<Event>)
    requires Inv(s) && ValidTrace(s, es) && SingleShotOnly(s)
    requires s.opts.loop && (s.opts.stopAfter == Some(WakeStage) || s.opts.stopAfter == Some(AsrStage))
    ensures SingleShotOnly(RunTrace(s, es))
    decreases |es|
  {
    if es != [] {
      var s1 := Step(s, es[0]);
      assert s.phase == SingleShot;
      assert SingleShotOnly(s1);
      LoopingEarlyStopNeverOverlaps(s1, es[1..]);
    }
  }

  /** The results of the tasks that finished, in creation order. */
  function FinishedResults(tasks: seq<Task>): seq<RunResult> {
    if tasks == [] then []
    else
      var last := tasks[|tasks| - 1].state;
      FinishedResults(tasks[..|tasks| - 1]) + (if last.Finished? then [last.result] else [])
  }

  /**
   * With `--loop` and a stop after wake or ASR, every single-shot run that
   * returns prints exactly its own record, in order, and nothing else is printed.
   */
  lemma {:induction false} LoopingEarlyStopPrintsEachRun(s: State, es: seq<Event>)
    requires Inv(s) && ValidTrace(s, es) && SingleShotOnly(s) && s.output == FinishedResults(s.tasks)
    requires s.opts.loop && (s.opts.stopAfter == Some(WakeStage) || s.opts.stopAfter == Some(AsrStage))
    ensures RunTrace(s, es).output == FinishedResults(RunTrace(s, es).tasks)
    decreases |es|
  {
    if es != [] {
      var s1 := Step(s, es[0]);
      assert s.phase == SingleShot;
      assert SingleShotOnly(s1);
      assert s1.tasks[..|s.tasks|] == s.tasks;
      LoopingEarlyStopPrintsEachRun(s1, es[1..]);
    }
  }

  /** From the start, in that mode: the records printed are the results of the runs that returned. */
  lemma LoopingEarlyStopOutput(o: Options, es: seq<Event>)
    requires ValidTrace(Init(o), es)
    requires o.loop && (o.stopAfter == Some(WakeStage) || o.stopAfter == Some(AsrStage))
    ensures RunTrace(Init(o), es).output == FinishedResults(RunTrace(Init(o), es).tasks)
  {
    LoopingEarlyStopPrintsEachRun(Init(o), es);
  }

  /** Without `--loop`, the single-shot block prints its one record and then control reaches the overlap loop, which creates a request task. */
  lemma NoLoopFallsThrough(o: Options, r: RunResult)
    requires !o.loop
    ensures var s1 := RunSingleShot(Init(o), Finished(r));
            s1.phase == Starting && s1.output == [r] &&
            StartTurn(s1).tasks == [Task(SingleShotRun, SingleShotArgs(o), Finished(r)), Task(RequestRun, RequestArgs(o), Pending)]
  {
  }

  /** Silence: a request result without a transcript is printed, no response is created, and the next turn's request starts alone. */
  lemma SilenceScenario(o: Options, r1: RunResult)
    requires !SingleShotMode(o) && r1.asrTranscript.None?
    ensures var s1 := StartTurn(Init(o));
            ValidCompletion(s1, Completion(Some(Finished(r1)), None)) &&
            var s2 := Wait(s1, Completion(Some(Finished(r1)), None));
            s2.phase == Collecting &&
            var s3 := Collect(s2);
            s3.output == [r1] && s3.response.None? &&
            var s4 := StartTurn(s3);
            s4.waitSet == {RequestRole} && |s4.tasks| == 2 && s4.tasks[1].kind == RequestRun
  {
  }

  /** Running two traces one after the other is running their concatenation. */
  lemma {:induction false} TraceAppend(s: State, a: seq<Event>, b: seq<Event>)
    requires Inv(s)
    ensures ValidTrace(s, a + b) <==> ValidTrace(s, a) && ValidTrace(RunTrace(s, a), b)
    ensures ValidTrace(s, a + b) ==> RunTrace(s, a + b) == RunTrace(RunTrace(s, a), b)
    decreases |a|
  {
    if a == [] {
      assert a + b == b;
    } else {
      assert (a + b)[0] == a[0];
      assert (a + b)[1..] == a[1..] + b;
      if Enabled(s, a[0]) {
        TraceAppend(Step(s, a[0]), a[1..], b);
      }
    }
  }

  /** A trace of one event. */
  lemma TraceOne(s: State, e: Event)
    requires Inv(s) && Enabled(s, e)
    ensures ValidTrace(s, [e]) && RunTrace(s, [e]) == Step(s, e)
  {
    assert [e][1..] == [];
  }

  /** The state after a first turn whose request yields a transcript: response 1 is in flight, seeded by `r1`, and nothing is printed. */
  function AfterFirstTurn(o: Options, r1: RunResult): State {
    State(o, Starting,
          [Task(RequestRun, RequestArgs(o), Finished(r1)), Task(ResponseRun, SeededBy(o, r1), Pending)],
          Some(0), Some(1), {}, Some(r1), [])
  }

  lemma FirstTurnWithTranscript(o: Options, r1: RunResult)
    requires !SingleShotMode(o) && r1.asrTranscript.Some?
    ensures var es := [TurnStarts, WaitReturns(Completion(Some(Finished(r1)), None)), RequestCollected];
            ValidTrace(Init(o), es) && RunTrace(Init(o), es) == AfterFirstTurn(o, r1)
  {
    var ra := RequestArgs(o);
    var e1, e2, e3 := TurnStarts, WaitReturns(Completion(Some(Finished(r1)), None)), RequestCollected;
    var s0 := Init(o);
    var s1 := Step(s0, e1);
    assert s1 == State(o, Waiting, [Task(RequestRun, ra, Pending)], Some(0), None, {RequestRole}, None, []);
    var s2 := Step(s1, e2);
    assert s2 == State(o, Collecting, [Task(RequestRun, ra, Finished(r1))], Some(0), None, {}, None, []);
    TraceOne(s0, e1);
    TraceOne(s1, e2);
    TraceOne(s2, e3);
    TraceAppend(s0, [e1], [e2]);
    TraceAppend(s0, [e1, e2], [e3]);
    assert [e1] + [e2] == [e1, e2];
    assert [e1, e2] + [e3] == [e1, e2, e3];
  }

  /** Turn 2 is listening while response 1 is still in flight. */
  function ListeningOverResponse(o: Options, r1: RunResult): State {
    State(o, Waiting,
          [Task(RequestRun, RequestArgs(o), Finished(r1)), Task(ResponseRun, SeededBy(o, r1), Pending),
           Task(RequestRun, RequestArgs(o), Pending)],
          Some(2), Some(1), {RequestRole, ResponseRole}, Some(r1), [])
  }

  /** Request 2 has returned; response 1 has been asked to cancel and is still awaited. */
  function CancelInFlight(o: Options, r1: RunResult, r2: RunResult): State {
    State(o, Waiting,
          [Task(RequestRun, RequestArgs(o), Finished(r1)), Task(ResponseRun, SeededBy(o, r1), CancelRequested),
           Task(RequestRun, RequestArgs(o), Finished(r2))],
          Some(2), Some(1), {ResponseRole}, Some(r1), [])
  }

  /** Response 1 has ended cancelled; its record (the held request 1 result) has been printed. */
  function CancelSettled(o: Options, r1: RunResult, r2: RunResult): State {
    State(o, Collecting,
          [Task(RequestRun, RequestArgs(o), Finished(r1)), Task(ResponseRun, SeededBy(o, r1), Cancelled),
           Task(RequestRun, RequestArgs(o), Finished(r2))],
          Some(2), None, {}, Some(r1), [r1])
  }

  lemma SecondTurnStarts(o: Options, r1: RunResult)
    requires !SingleShotMode(o) && r1.asrTranscript.Some?
    ensures Inv(AfterFirstTurn(o, r1)) && Enabled(AfterFirstTurn(o, r1), TurnStarts)
    ensures Step(AfterFirstTurn(o, r1), TurnStarts) == ListeningOverResponse(o, r1)
  {
    FirstTurnWithTranscript(o, r1);
  }

  /**
   * A response that ends cancelled without `cancel()` having been called, while
   * the next request is still listening: the held request 1 result is printed
   * and the request is awaited alone.
   */
  lemma UnrequestedCancelPrintsStale(o: Options, r1: RunResult)
    requires !SingleShotMode(o) && r1.asrTranscript.Some?
    ensures Inv(ListeningOverResponse(o, r1))
    ensures ValidCompletion(ListeningOverResponse(o, r1), Completion(None, Some(Cancelled)))
    ensures var t := Wait(ListeningOverResponse(o, r1), Completion(None, Some(Cancelled)));
            t.output == [r1] && t.response.None? && t.phase == Waiting && t.waitSet == {RequestRole}
  {
    SecondTurnStarts(o, r1);
  }

  lemma SecondRequestReturns(o: Options, r1: RunResult, r2: RunResult)
    requires !SingleShotMode(o) && r1.asrTranscript.Some? && r2.asrTranscript.Some?
    ensures Inv(ListeningOverResponse(o, r1))
    ensures Enabled(ListeningOverResponse(o, r1), WaitReturns(Completion(Some(Finished(r2)), None)))
    ensures Step(ListeningOverResponse(o, r1), WaitReturns(Completion(Some(Finished(r2)), None))) == CancelInFlight(o, r1, r2)
  {
    SecondTurnStarts(o, r1);
  }

  lemma CancelledResponseReturns(o: Options, r1: RunResult, r2: RunResult)
    requires !SingleShotMode(o) && r1.asrTranscript.Some? && r2.asrTranscript.Some?
    ensures Inv(CancelInFlight(o, r1, r2))
    ensures Enabled(CancelInFlight(o, r1, r2), WaitReturns(Completion(None, Some(Cancelled))))
    ensures Step(CancelInFlight(o, r1, r2), WaitReturns(Completion(None, Some(Cancelled)))) == CancelSettled(o, r1, r2)
  {
    SecondRequestReturns(o, r1, r2);
  }

  /** After the barge-in: response 2 is in flight from request 2's transcript; the only record printed is request 1's result. */
  function AfterBargeIn(o: Options, r1: RunResult, r2: RunResult): State {
    State(o, Starting,
          [Task(RequestRun, RequestArgs(o), Finished(r1)), Task(ResponseRun, SeededBy(o, r1), Cancelled),
           Task(RequestRun, RequestArgs(o), Finished(r2)), Task(ResponseRun, SeededBy(o, r2), Pending)],
          Some(2), Some(3), {}, Some(r2), [r1])
  }

  lemma SecondResponseStarts(o: Options, r1: RunResult, r2: RunResult)
    requires !SingleShotMode(o) && r1.asrTranscript.Some? && r2.asrTranscript.Some?
    ensures Inv(CancelSettled(o, r1, r2)) && Enabled(CancelSettled(o, r1, r2), RequestCollected)
    ensures Step(CancelSettled(o, r1, r2), RequestCollected) == AfterBargeIn(o, r1, r2)
  {
    CancelledResponseReturns(o, r1, r2);
  }

  /** Prepending an event that can happen to a trace that can follow it. */
  lemma TraceCons(s: State, e: Event, es: seq<Event>)
    requires Inv(s) && Enabled(s, e) && ValidTrace(Step(s, e), es)
    ensures ValidTrace(s, [e] + es) && RunTrace(s, [e] + es) == RunTrace(Step(s, e), es)
  {
    assert ([e] + es)[0] == e && ([e] + es)[1..] == es;
  }

  /** The second turn of the barge-in scenario, from response 1 in flight to response 2 in flight. */
  lemma BargeInTurn(o: Options, r1: RunResult, r2: RunResult)
    requires !SingleShotMode(o) && r1.asrTranscript.Some? && r2.asrTranscript.Some?
    ensures Inv(AfterFirstTurn(o, r1))
    ensures var es := [TurnStarts, WaitReturns(Completion(Some(Finished(r2)), None)),
                       WaitReturns(Completion(None, Some(Cancelled))), RequestCollected];
            ValidTrace(AfterFirstTurn(o, r1), es) && RunTrace(AfterFirstTurn(o, r1), es) == AfterBargeIn(o, r1, r2)
  {
    var e4, e5 := TurnStarts, WaitReturns(Completion(Some(Finished(r2)), None));
    var e6, e7 := WaitReturns(Completion(None, Some(Cancelled))), RequestCollected;
    SecondTurnStarts(o, r1);
    SecondRequestReturns(o, r1, r2);
    CancelledResponseReturns(o, r1, r2);
    SecondResponseStarts(o, r1, r2);
    var s3, s4, s5, s6 := AfterFirstTurn(o, r1), ListeningOverResponse(o, r1), CancelInFlight(o, r1, r2), CancelSettled(o, r1, r2);
    TraceOne(s6, e7);
    TraceCons(s5, e6, [e7]);
    assert [e6] + [e7] == [e6, e7];
    TraceCons(s4, e5, [e6, e7]);
    assert [e5] + [e6, e7] == [e5, e6, e7];
    TraceCons(s3, e4, [e5, e6, e7]);
    assert [e4] + [e5, e6, e7] == [e4, e5, e6, e7];
  }

  /**
   * Barge-in: request 1 yields a transcript and response 1 starts; request 2
   * yields a transcript while response 1 is still in flight, so response 1 is
   * asked to cancel; once it has ended cancelled, the record printed for it is
   * request 1's result (the held `pipeline_result`), and response 2 starts from
   * request 2's transcript.
   */
  lemma BargeInScenario(o: Options, r1: RunResult, r2: RunResult)
    requires !SingleShotMode(o) && r1.asrTranscript.Some? && r2.asrTranscript.Some?
    ensures var es := [TurnStarts, WaitReturns(Completion(Some(Finished(r1)), None)), RequestCollected,
                       TurnStarts, WaitReturns(Completion(Some(Finished(r2)), None)),
                       WaitReturns(Completion(None, Some(Cancelled))), RequestCollected];
            ValidTrace(Init(o), es) && RunTrace(Init(o), es) == AfterBargeIn(o, r1, r2)
  {
    var first := [TurnStarts, WaitReturns(Completion(Some(Finished(r1)), None)), RequestCollected];
    var rest := [TurnStarts, WaitReturns(Completion(Some(Finished(r2)), None)),
                 WaitReturns(Completion(None, Some(Cancelled))), RequestCollected];
    FirstTurnWithTranscript(o, r1);
    BargeInTurn(o, r1, r2);
    TraceAppend(Init(o), first, rest);
    assert first + rest == [TurnStarts, WaitReturns(Completion(Some(Finished(r1)), None)), RequestCollected,
                            TurnStarts, WaitReturns(Completion(Some(Finished(r2)), None)),
                            WaitReturns(Completion(None, Some(Cancelled))), RequestCollected];
  }
}

/**
 * The scheduler of bin/pipeline_run.py `main` in its own imperative form: the
 * local variables `request_task`, `response_task`, `aws` and `pipeline_result`,
 * the tasks created so far and the records written to stdout are fields, and
 * each stretch of code between two suspension points is a method that updates
 * them step by step. Each method is proved to move the object's state exactly
 * as the matching step of module Scheduler does, so everything proved there
 * holds of this object.
 */
module PipelineRun {
  import opened Wrappers
  import opened Pipeline
  import opened Scheduler

  class OverlapScheduler {
    const opts: Options
    var phase: Phase
    /** Every `run_pipeline` call made so far, with its state. */
    var tasks: seq<Task>
    var requestTask: Option<nat>
    var responseTask: Option<nat>
    var aws: set<Role>
    var pipelineResult: Option<RunResult>
    /** The records written to stdout, in order. */
    var output: seq<RunResult>

    function Snapshot(): State
      reads this
    {
      State(opts, phase, tasks, requestTask, responseTask, aws, pipelineResult, output)
    }

    ghost predicate Valid()
      reads this
    {
      Inv(Snapshot())
    }

    /** `main` once the options are parsed: at line 107 if the single-shot guard holds, else at line 129. */
    constructor (opts: Options)
      ensures Snapshot() == Init(opts)
      ensures Valid()
    {
      this.opts := opts;
      phase := if SingleShotMode(opts) then SingleShot else Starting;
      tasks, requestTask, responseTask, aws := [], None, None, {};
      pipelineResult, output := None, [];
    }

    /** Lines 109-127, after the awaited run has returned or raised. */
    method SingleShotDone(outcome: TaskState)
      requires Valid() && phase == SingleShot && (outcome.Finished? || outcome.Failed?)
      modifies this
      ensures Snapshot() == RunSingleShot(old(Snapshot()), outcome)
      ensures Valid()
    {
      tasks := tasks + [Task(SingleShotRun, SingleShotArgs(opts), outcome)];
      if outcome.Failed? {
        phase := Stopped(outcome.error);
        return;
      }
      pipelineResult := Some(outcome.result);
      output := output + [outcome.result];
      if !opts.loop {
        // `break`: control falls through to line 129
        phase := Starting;
      }
    }

    /** Lines 131-146: create the request task and build the wait set. */
    method StartTurn()
      requires Valid() && phase == Starting
      modifies this
      ensures Snapshot() == Scheduler.StartTurn(old(Snapshot()))
      ensures Valid()
    {
      requestTask := Some(|tasks|);
      tasks := tasks + [Task(RequestRun, RequestArgs(opts), Pending)];
      aws := {RequestRole};
      if responseTask.Some? && !tasks[responseTask.value].state.Done() {
        aws := aws + {ResponseRole};
      }
      phase := Waiting;
    }

    /** Lines 149-167: `asyncio.wait` has returned `c`. */
    method AwaitReturned(c: Completion)
      requires Valid() && ValidCompletion(Snapshot(), c)
      modifies this
      ensures Snapshot() == Wait(old(Snapshot()), c)
      ensures Valid()
    {
      var done := DoneSet(c);
      var pending := aws - done;
      if c.request.Some? {
        tasks := SetState(tasks, requestTask.value, c.request.value);
      }
      if c.response.Some? {
        tasks := SetState(tasks, responseTask.value, c.response.value);
      }
      if responseTask.Some? && ResponseRole in done {
        var ended := c.response.value;
        if !ended.Cancelled? {
          if ended.Failed? {
            // `response_task.result()` re-raises
            phase, aws := Stopped(ended.error), pending;
            return;
          }
          pipelineResult := Some(ended.result);
        }
        output := output + [pipelineResult.value];
        responseTask := None;
      }
      if RequestRole in done && responseTask.Some? && ResponseRole in pending {
        tasks := SetState(tasks, responseTask.value, CancelRequested);
      }
      aws := pending;
      phase := if aws == {} then Collecting else Waiting;
    }

    /** Lines 169-189: read the request result and, given a transcript, create the response task. */
    method RequestResultRead()
      requires Valid() && phase == Collecting
      modifies this
      ensures Snapshot() == Collect(old(Snapshot()))
      ensures Valid()
    {
      var ended := tasks[requestTask.value].state;
      if ended.Failed? {
        // `request_task.result()` re-raises
        phase := Stopped(ended.error);
        return;
      }
      pipelineResult := Some(ended.result);
      if ended.result.asrTranscript.None? {
        output := output + [ended.result];
        phase := Starting;
        return;
      }
      responseTask := Some(|tasks|);
      tasks := tasks + [Task(ResponseRun, SeededBy(opts, ended.result), Pending)];
      phase := Starting;
    }

    /** Runs `main` through a finite prefix of its execution, one event at a time. */
    method Run(events: seq<Event>)
      requires Valid() && ValidTrace(Snapshot(), events)
      modifies this
      ensures Snapshot() == RunTrace(old(Snapshot()), events)
      ensures Valid()
    {
      var i := 0;
      while i < |events|
        invariant 0 <= i <= |events|
        invariant Valid() && ValidTrace(Snapshot(), events[i..])
        invariant RunTrace(old(Snapshot()), events) == RunTrace(Snapshot(), events[i..])
      {
        var e := events[i];
        assert events[i..][0] == e && events[i..][1..] == events[i + 1..];
        match e {
          case SingleShotReturned(o) => SingleShotDone(o);
          case TurnStarts => StartTurn();
          case WaitReturns(c) => AwaitReturned(c);
          case RequestCollected => RequestResultRead();
        }
        i := i + 1;
      }
    }
  }

  /** `main` from the parsed options through the given events: what it writes to stdout. */
  method RunMain(opts: Options, events: seq<Event>) returns (records: seq<RunResult>)
    requires ValidTrace(Init(opts), events)
    ensures records == RunTrace(Init(opts), events).output
  {
    var scheduler := new OverlapScheduler(opts);
    scheduler.Run(events);
    records := scheduler.output;
  }
}

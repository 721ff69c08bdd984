# Rhasspy 3 pipeline runner and speak driver in Dafny

This project models two command-line drivers of Rhasspy 3 and proves properties of them.

`bin/pipeline_run.py` runs a voice pipeline:
- wake word detection, then speech-to-text (ASR), intent recognition, handling, and text-to-speech (TTS).
- In its overlap mode, it splits every turn into two runs. A *request* run stops after ASR. A *response* run is seeded with the request's wake detection and transcript and runs the rest.
- The next turn's request starts listening while the previous response may still be speaking.
- When the new request is done and the old response is still pending, the response is cancelled. This is barge-in.
- In its single-shot mode (no `--loop`, or `--stop-after wake|asr`), it awaits one full run at a time.

`bin/tts_speak.py` works in three steps:
1. It resolves the TTS and sound programs. An explicit program wins; otherwise the pipeline's own programs are used.
2. It picks the source of lines: positional words, or stdin.
3. For each line, it strips the line and skips blank ones. It synthesizes the line into a fresh in-memory WAV buffer, rewinds the buffer, and plays it.

## Modules

- `Wrappers`: `Option` and `Result`.
- `Pipeline`: the values passed to and returned by `run_pipeline`:
  - the parsed options;
  - the keyword arguments of each of the three call sites: single-shot, request and response;
  - a result record, of which the scheduler only inspects `wake_detection` and `asr_transcript`;
  - the `--intent-json` classification.
- `Scheduler`: `main`'s scheduling as a transition system over a `State`. The state holds:
  - every task created, with its kind, arguments and state (`Pending`, `CancelRequested`, `Finished`, `Failed`, `Cancelled`);
  - the `request_task` and `response_task` slots, and the wait set `aws`;
  - the held `pipeline_result`, and the records written to stdout.

  The events are:
  - a single-shot run returning;
  - a turn starting;
  - one return of `asyncio.wait`, given as the nondeterministic subset of awaited tasks that are done, with their outcomes;
  - the request result being read.

  `Inv` is the invariant that every step preserves.
- `SchedulerProperties`: what the overlap loop guarantees, over single steps and over whole traces, plus a worked barge-in scenario.
- `PipelineRun`: `main` in its own imperative form. The class `OverlapScheduler` has one field per local variable. Its methods update those fields as the code between two suspension points does. Each method is proved to move the object's state exactly as the matching step of `Scheduler`; `Run` drives a finite prefix of the `while True` loops.
- `TtsSpeak`:
  - Python's `str.strip()`;
  - the program resolution, as a reference function and as the imperative code;
  - the line source;
  - the `io.BytesIO` buffer, as a class;
  - the speak loop, as a `for` loop with `continue`.

  What the driver asks of the TTS and sound programs is recorded as a sequence of `Action`s. The audio a program synthesizes for a line is a function parameter.

## Behaviour of the code worth knowing

- A request result that has a transcript is not printed when it is read (bin/pipeline_run.py:169-189). It is printed only as the stale record of the response it seeded, if that response ends cancelled; otherwise only the response's result is printed.
- When a cancelled response is in `done`, a record is still printed. That record is the stale `pipeline_result`, which is the request result that seeded the cancelled response (bin/pipeline_run.py:151-156).
- A response that fails stops the program, even after it was asked to cancel: `result()` re-raises (bin/pipeline_run.py:153).
- Without `--loop`, the single-shot block `break`s and control falls through into the overlap loop (bin/pipeline_run.py:126-129).
- `--wake-name`, `--asr-wav` and `--asr-text` go to every request run, not only to the first (bin/pipeline_run.py:137-139).
- Positional text is not joined: each positional word is stripped and spoken as a line of its own (bin/tts_speak.py:58-59, 65).

## Model

| member | source | states |
|---|---|---|
| Pipeline.IntentOverride | bin/pipeline_run.py:86-93 | The result is set exactly when the event's type is an intent or a not-recognized type. It is `Recognized` exactly for the intent type, `NotRecognized` exactly for a not-recognized type that is not an intent, and it carries the given event. |
| Scheduler.Init | bin/pipeline_run.py:107 | The start state satisfies the invariant, with no tasks and no output. It is in the single-shot block exactly when the guard holds, and otherwise at the overlap loop. |
| Scheduler.RunSingleShot | bin/pipeline_run.py:108-127 | The run is appended as a done single-shot task. A failure stops with its error and prints nothing. A returned result prints exactly its own record and is held; the block then runs again with `--loop` and otherwise falls through to the overlap loop. The slots and the wait set are untouched, and the invariant is preserved. |
| Scheduler.StartTurn | bin/pipeline_run.py:131-146 | It appends exactly one request task, created with the command-line wake/ASR skips and stopping after ASR. The wait set holds the request, and holds the response exactly when one exists. Output, held result and response slot are unchanged, and the invariant is preserved. |
| Scheduler.Wait | bin/pipeline_run.py:148-167 | One `asyncio.wait` return preserves the invariant, strictly shrinks the wait set while the inner loop continues, and creates no task. The outcome reported for the request, and for the response, is recorded on that task, which is what line 169 later reads. |
| Scheduler.Collect | bin/pipeline_run.py:169-189 | Reading the request result preserves the invariant, and leaves the request slot and the (empty) wait set as they were. |
| Scheduler.Step | bin/pipeline_run.py:107-189 | Every enabled event preserves the invariant. |
| Scheduler.RunTrace | bin/pipeline_run.py:107-189 | A finite run from a state satisfying the invariant ends in a state that satisfies it. |
| SchedulerProperties.InFlightBound | bin/pipeline_run.py:144-146 | Every unfinished task is one of the two slots, so at most two are in flight. No two unfinished tasks come from the same call site, and no single-shot run is unfinished. |
| SchedulerProperties.NothingInFlightWhenCollecting | bin/pipeline_run.py:165-169 | When the inner loop has ended, every task is done, including a cancelled response. |
| SchedulerProperties.BargeIn | bin/pipeline_run.py:158-163 | A task is newly asked to cancel exactly when it is the response task, the request is in `done`, and the response is not. Otherwise nothing is cancelled. |
| SchedulerProperties.ResponseDonePrints | bin/pipeline_run.py:151-156 | A done response that did not fail prints exactly one record and clears the slot. The record is its result, or the held result if it was cancelled. In the cancelled case, that held result has a transcript and is the very result that seeded the cancelled response. |
| SchedulerProperties.ResponseFailureStops | bin/pipeline_run.py:152-153 | A response that fails stops the loop with its error, and nothing is printed. |
| SchedulerProperties.RequestDoneAlonePrintsNothing | bin/pipeline_run.py:149-167 | When the response is not in `done`, nothing is printed and `pipeline_result` is unchanged. |
| SchedulerProperties.InnerLoopEnds | bin/pipeline_run.py:165-167 | The inner loop ends exactly when every awaited task is done and no response failed. |
| SchedulerProperties.CollectOutcome | bin/pipeline_run.py:169-189 | A failed request stops the loop. A result without a transcript is printed and creates nothing. A result with a transcript prints nothing and creates exactly one response task, seeded with its wake detection and transcript. Either way the result is held, and a record is printed iff there is no transcript. |
| SchedulerProperties.StepExtends | bin/pipeline_run.py:107-189 | A step only appends output and tasks, never changes a task's arguments, and never changes a done task's outcome. |
| SchedulerProperties.WaitExtends | bin/pipeline_run.py:149-167 | `asyncio.wait` reports only tasks that had not yet ended, so one return never changes a done task's outcome or any task's arguments. |
| SchedulerProperties.TraceExtends | bin/pipeline_run.py:107-189 | The same holds over any finite run. |
| SchedulerProperties.EveryRequestUsesCommandLine | bin/pipeline_run.py:131-142 | In any run from the start, every request task carries the command-line wake/ASR skips and stops after ASR. |
| SchedulerProperties.EveryResponseIsSeeded | bin/pipeline_run.py:176-189 | In any run from the start, every response task has a transcript and no ASR WAV input. It carries the command-line intent/handle/TTS skips and the user's stop-after. |
| SchedulerProperties.LoopingEarlyStopNeverOverlaps | bin/pipeline_run.py:107-127 | With `--loop` and stop-after wake or ASR, only single-shot runs are ever made. |
| SchedulerProperties.LoopingEarlyStopPrintsEachRun | bin/pipeline_run.py:107-127 | In that mode, over any run, the records printed are exactly the results of the single-shot runs that returned, one each, in order. |
| SchedulerProperties.LoopingEarlyStopOutput | bin/pipeline_run.py:107-127 | The same from the start of `main`. |
| SchedulerProperties.NoLoopFallsThrough | bin/pipeline_run.py:126-131 | Without `--loop`, one record is printed, and then the overlap loop starts a request task. |
| SchedulerProperties.SilenceScenario | bin/pipeline_run.py:144-174 | A request result without a transcript is printed. No response is created, and the next request is awaited alone. |
| SchedulerProperties.TraceAppend | bin/pipeline_run.py:129-189 | Running two traces one after the other is the same as running their concatenation, for validity and for the final state. |
| SchedulerProperties.FirstTurnWithTranscript | bin/pipeline_run.py:131-189 | A first turn with a transcript ends with response 1 pending, seeded by request 1, and nothing printed. |
| SchedulerProperties.SecondTurnStarts | bin/pipeline_run.py:131-146 | The second request is awaited together with the still-pending response 1. |
| SchedulerProperties.UnrequestedCancelPrintsStale | bin/pipeline_run.py:149-167 | A response that ends cancelled while the next request is still listening, with no `cancel()` called, still prints the held request result. The request is then awaited alone. |
| SchedulerProperties.SecondRequestReturns | bin/pipeline_run.py:149-167 | When request 2 returns first, response 1 is asked to cancel and is still awaited. |
| SchedulerProperties.CancelledResponseReturns | bin/pipeline_run.py:149-167 | When response 1 returns cancelled, request 1's result is printed and the inner loop ends. |
| SchedulerProperties.SecondResponseStarts | bin/pipeline_run.py:169-189 | Request 2's transcript seeds response 2. |
| SchedulerProperties.BargeInTurn | bin/pipeline_run.py:131-189 | The whole second turn, from response 1 in flight to response 2 in flight. |
| SchedulerProperties.BargeInScenario | bin/pipeline_run.py:129-189 | The full barge-in trace from the start is valid. Its end state is: response 1 cancelled, request 1's result the only record printed, response 2 pending from request 2's transcript. |
| PipelineRun.OverlapScheduler.constructor | bin/pipeline_run.py:107 | The object starts in `Scheduler.Init`. |
| PipelineRun.OverlapScheduler.SingleShotDone | bin/pipeline_run.py:108-127 | The fields change exactly as `Scheduler.RunSingleShot`: the run becomes a done task, and then either a failure stops, or the record is printed and `break` leads to line 129. |
| PipelineRun.OverlapScheduler.StartTurn | bin/pipeline_run.py:131-146 | The fields change exactly as `Scheduler.StartTurn`. |
| PipelineRun.OverlapScheduler.AwaitReturned | bin/pipeline_run.py:149-167 | The fields change exactly as `Scheduler.Wait`. |
| PipelineRun.OverlapScheduler.RequestResultRead | bin/pipeline_run.py:169-189 | The fields change exactly as `Scheduler.Collect`. |
| PipelineRun.OverlapScheduler.Run | bin/pipeline_run.py:107-189 | Driving the object through a valid trace leaves it in `Scheduler.RunTrace` of that trace. |
| PipelineRun.RunMain | bin/pipeline_run.py:107-189 | What `main` writes to stdout over a trace is the output of `Scheduler.RunTrace` from the start. |
| TtsSpeak.LeadingSpace | bin/tts_speak.py:66 | The prefix it counts is all whitespace, and the next character is not. |
| TtsSpeak.TrailingStart | bin/tts_speak.py:66 | The suffix it cuts is all whitespace, and the character before it is not. |
| TtsSpeak.Strip | bin/tts_speak.py:66 | The result has no whitespace at either end, and it is empty exactly when the line is all whitespace. |
| TtsSpeak.StripRemovesOnlySpace | bin/tts_speak.py:66 | The line is its stripped form with only whitespace on both sides. |
| TtsSpeak.StripPadding | bin/tts_speak.py:66 | Stripping whitespace padding around a trimmed string gives back exactly that string. |
| TtsSpeak.StripIdempotent | bin/tts_speak.py:66 | Stripping a second time changes nothing. |
| TtsSpeak.Configured | bin/tts_speak.py:47-53 | A pipeline's program entry becomes a program that Python treats as true exactly when it is set. |
| TtsSpeak.FromArgument | bin/tts_speak.py:43-44 | A command-line option becomes a program that Python treats as true exactly when it is set and not empty, and the name is kept unchanged. |
| TtsSpeak.Resolution | bin/tts_speak.py:43-56 | Explicit programs are used unchanged and need no pipeline. Falling back to a missing pipeline fails. Otherwise the pipeline's own programs are used. An unset program fails, and the TTS program is checked first. Each failure is stated iff its cause. |
| TtsSpeak.ResolvePrograms | bin/tts_speak.py:43-56 | The imperative code, with its reassignment on fallback and its asserts, returns exactly `Resolution`. |
| TtsSpeak.LineSource | bin/tts_speak.py:58-61 | Positional text, when there is any, wins over stdin. |
| TtsSpeak.SpokenLines | bin/tts_speak.py:65-68 | Every spoken line is non-empty with no surrounding whitespace, and there are no more of them than lines read. Which lines are spoken, and in what order, is fixed by `SpokenLine` and `SpokenLinesAppend`. |
| TtsSpeak.SpokenLinesAppend | bin/tts_speak.py:65-68 | The lines spoken for two consecutive inputs are those of each input in turn. |
| TtsSpeak.SpokenLine | bin/tts_speak.py:66-68 | A single line is skipped exactly when it is all whitespace, and is otherwise spoken stripped. |
| TtsSpeak.SpokenLinesNoneBlank | bin/tts_speak.py:65-68 | When no line is blank, every line is spoken, in order, in its stripped form. |
| TtsSpeak.SpokenLinesOfTrimmed | bin/tts_speak.py:65-68 | Lines that are non-empty and have no surrounding whitespace are spoken exactly as given. |
| TtsSpeak.WavBuffer.constructor | bin/tts_speak.py:70 | A fresh buffer is empty, positioned at 0. |
| TtsSpeak.WavBuffer.Write | bin/tts_speak.py:71 | Writing overwrites from the position, extends the buffer as needed, and advances the position. |
| TtsSpeak.WavBuffer.Rewind | bin/tts_speak.py:72 | `seek(0)` resets the position and keeps the contents. |
| TtsSpeak.WavBuffer.ReadToEnd | bin/tts_speak.py:73 | Reading returns everything from the position on, and moves the position to the end. |
| TtsSpeak.Utterances | bin/tts_speak.py:65-73 | There are exactly two actions per spoken line. |
| TtsSpeak.UtteranceOrder | bin/tts_speak.py:70-73 | Spoken line k is synthesized by the TTS program at position 2k. Exactly the audio synthesized for it is then played by the sound program, with the requested chunk size. |
| TtsSpeak.SpeakLine | bin/tts_speak.py:70-73 | One line is synthesized into a fresh buffer, which is rewound and played. What is played is exactly what was synthesized. |
| TtsSpeak.SpeakLines | bin/tts_speak.py:65-73 | The loop, including its `continue`, performs exactly the utterances of the spoken lines. |
| TtsSpeak.Speak | bin/tts_speak.py:43-73 | A failed assertion returns its error before any line is spoken. Otherwise the actions are exactly the utterances of the spoken lines of the chosen source, made with the resolved programs. |

## Left out

- Argument parsing and logging setup (bin/pipeline_run.py:27-69, bin/tts_speak.py:19-40): the parsed options are plain inputs (`Pipeline.Options` and the parameters of `TtsSpeak.Speak`).
- Opening the WAV files, `Rhasspy.load`, `json.loads` and `Event.from_dict` (bin/pipeline_run.py:71-105), because they are I/O and foreign parsing. The opened files are opaque `AudioSource` values; the decoded event is an input to `IntentOverride`.
- `Intent.is_type` / `NotRecognized.is_type`, because they are foreign. They are parameters of `IntentOverride`, and `from_event` is represented by carrying the event.
- The file positions of the shared opened streams, because the runs that consume them are foreign. The `--asr-wav` stream goes to every single-shot run (bin/pipeline_run.py:115) and to every request run (138). The `--tts-wav` stream goes to every single-shot run (119) and to every response run (186). Each call receives the same `AudioSource` value.
- TtsSpeak.Speak: assumes that `synthesize` and `play` always return (bin/tts_speak.py:71, 73), because their internals are foreign. In the code, an exception from either ends `main`, and the remaining lines are never spoken; the model has no such failure outcome.
- The internals of `run_pipeline`, `synthesize` and `play`, and JSON serialization (`to_dict`, `json.dump`), because they are foreign calls:
  - a run's outcome is the nondeterministic input of the event that returns it;
  - a printed record is the `RunResult` value appended to the output;
  - the audio synthesized for a line is the parameter `audio`.
- The asyncio runtime, because its scheduling is not modelled:
  - task scheduling and the actual delivery of cancellation;
  - `KeyboardInterrupt` (bin/pipeline_run.py:192-196).

  `asyncio.wait` is a nondeterministic choice of the non-empty done subset of the wait set. A response may end cancelled whether or not `cancel()` was called on it, and one asked to cancel may still end finished or failed.
- A request run that ends cancelled on its own is reported as `Failed`, because `request_task.result()` re-raises for it exactly as for a failure (bin/pipeline_run.py:169). The model has no separate outcome for it.
- The endless `while True` loops. They are modelled through finite traces (`Scheduler.RunTrace`, `PipelineRun.OverlapScheduler.Run`), because termination is not a property of this program.
- The `isatty` prompt on stderr (bin/tts_speak.py:62-63), because it is terminal output only. How stdin is split into lines is left out too: stdin is the sequence of lines read.
- The result record beyond `wake_detection` and `asr_transcript`, because the scheduler never inspects it. It is the opaque field `RunResult.other`.

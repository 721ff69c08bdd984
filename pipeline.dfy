/**
 * Values that bin/pipeline_run.py hands to and receives from `run_pipeline`:
 * the parsed command-line options, the keyword arguments of each run, and the
 * result record of a run. The pipeline itself is foreign; only the parts of a
 * result the scheduler inspects (`wake_detection`, `asr_transcript`) are modelled,
 * everything else a run produced is an opaque identity.
 */
module Pipeline {
  import opened Wrappers

  /** The `--stop-after` choices: the last stage a run executes. */
  datatype Stage = WakeStage | AsrStage | IntentStage | HandleStage | TtsStage

  /** A wake-word detection (from `--wake-name`, or produced by a run). */
  datatype Detection = Detection(name: string)

  /** A speech-to-text transcript (from `--asr-text`, or produced by a run). */
  datatype Transcript = Transcript(text: string)

  /** An event decoded from `--intent-json`: its type tag and its (opaque) payload. */
  datatype IntentEvent = IntentEvent(eventType: string, data: string)

  /** A pre-supplied intent recognition outcome. */
  datatype IntentResult = Recognized(event: IntentEvent) | NotRecognized(event: IntentEvent)

  /** A pre-supplied handle outcome (`--handle-text`). */
  datatype HandleResult = Handled(text: string)

  /** An opened WAV file (`--asr-wav`, `--tts-wav`). */
  datatype AudioSource = AudioSource(path: string)

  /**
   * The record a run returns. `other` stands for everything else the run
   * produced (intent, handle and TTS outputs), which the scheduler never inspects.
   */
  datatype RunResult = RunResult(wakeDetection: Option<Detection>, asrTranscript: Option<Transcript>, other: nat)

  /** An exception raised by a run. */
  datatype RunError = RunError(code: nat)

  /** The keyword arguments of one `run_pipeline` call. */
  datatype RunArgs = RunArgs(
    pipeline: string,
    samplesPerChunk: int,
    asrChunksToBuffer: int,
    wakeDetection: Option<Detection>,
    asrWavIn: Option<AudioSource>,
    asrTranscript: Option<Transcript>,
    intentResult: Option<IntentResult>,
    handleResult: Option<HandleResult>,
    ttsWavIn: Option<AudioSource>,
    stopAfter: Option<Stage>)

  /** The parsed command line, with the pre-supplied stage results already built. */
  datatype Options = Options(
    pipeline: string,
    samplesPerChunk: int,
    asrChunksToBuffer: int,
    loop: bool,
    stopAfter: Option<Stage>,
    wakeDetection: Option<Detection>,
    asrWavIn: Option<AudioSource>,
    asrTranscript: Option<Transcript>,
    intentResult: Option<IntentResult>,
    handleResult: Option<HandleResult>,
    ttsWavIn: Option<AudioSource>)

  /** The guard of the single-shot block: no `--loop`, or stopping after wake or ASR. */
  predicate SingleShotMode(o: Options) {
    !o.loop || o.stopAfter == Some(WakeStage) || o.stopAfter == Some(AsrStage)
  }

  /** A single-shot run: every pre-supplied result and the user's stop-after. */
  function SingleShotArgs(o: Options): RunArgs {
    RunArgs(o.pipeline, o.samplesPerChunk, o.asrChunksToBuffer, o.wakeDetection, o.asrWavIn,
            o.asrTranscript, o.intentResult, o.handleResult, o.ttsWavIn, o.stopAfter)
  }

  /** A request run: the command-line wake/ASR skips, stopping after ASR. */
  function RequestArgs(o: Options): RunArgs {
    RunArgs(o.pipeline, o.samplesPerChunk, o.asrChunksToBuffer, o.wakeDetection, o.asrWavIn,
            o.asrTranscript, None, None, None, Some(AsrStage))
  }

  /**
   * A response run seeded from a request result's detection and transcript,
   * with the command-line intent/handle/TTS skips and the user's stop-after.
   */
  function ResponseArgs(o: Options, wake: Option<Detection>, transcript: Option<Transcript>): RunArgs {
    RunArgs(o.pipeline, o.samplesPerChunk, o.asrChunksToBuffer, wake, None,
            transcript, o.intentResult, o.handleResult, o.ttsWavIn, o.stopAfter)
  }

  /** The arguments of a response run seeded by `r`. */
  function SeededBy(o: Options, r: RunResult): RunArgs {
    ResponseArgs(o, r.wakeDetection, r.asrTranscript)
  }

  /**
   * The intent skip built from `--intent-json`: an intent event becomes a
   * recognized intent, else a not-recognized event becomes a not-recognized
   * result, and an event of any other type is silently dropped. The type tests
   * (`Intent.is_type`, `NotRecognized.is_type`) are foreign and given as parameters.
   */
  function IntentOverride(event: Option<IntentEvent>, isIntent: string -> bool, isNotRecognized: string -> bool)
    : (r: Option<IntentResult>)
    ensures r.Some? <==> event.Some? && (isIntent(event.value.eventType) || isNotRecognized(event.value.eventType))
    ensures r.Some? ==> r.value.event == event.value
    ensures r.Some? && r.value.Recognized? <==> event.Some? && isIntent(event.value.eventType)
    ensures r.Some? && r.value.NotRecognized? <==>
              event.Some? && !isIntent(event.value.eventType) && isNotRecognized(event.value.eventType)
  {
    match event
    case None => None
    case Some(e) =>
      if isIntent(e.eventType) then Some(Recognized(e))
      else if isNotRecognized(e.eventType) then Some(NotRecognized(e))
      else None
  }
}

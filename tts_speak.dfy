/**
 * The text-to-speech driver of bin/tts_speak.py `main`: which TTS and sound
 * programs are used, which text is the source of lines, and the per-line loop
 * that synthesizes each non-blank stripped line into a fresh in-memory WAV
 * buffer, rewinds it and plays it. `synthesize` and `play` are opaque; the
 * audio a TTS program produces for a line is the parameter `audio`, and what
 * the driver does is recorded as a sequence of actions.
 */
module TtsSpeak {
  import opened Wrappers

  // ---------------------------------------------------------------------------
  // Python's str.strip() with no argument
  // ---------------------------------------------------------------------------

  /** The characters for which Python's str.isspace() holds. */
  predicate IsSpace(c: char) {
    ('\t' <= c <= '\r') || ('\U{1C}' <= c <= '\U{1F}') || c == ' ' || c == '\U{85}' || c == '\U{A0}'
    || c == '\U{1680}' || ('\U{2000}' <= c <= '\U{200A}') || c == '\U{2028}' || c == '\U{2029}'
    || c == '\U{202F}' || c == '\U{205F}' || c == '\U{3000}'
  }

  predicate AllSpace(s: string) {
    forall i | 0 <= i < |s| :: IsSpace(s[i])
  }

  /** Neither end of `s` is whitespace. */
  predicate Trimmed(s: string) {
    s == [] || (!IsSpace(s[0]) && !IsSpace(s[|s| - 1]))
  }

  /** The length of the longest whitespace prefix of `s`. */
  function LeadingSpace(s: string): (n: nat)
    ensures n <= |s| && AllSpace(s[..n])
    ensures n < |s| ==> !IsSpace(s[n])
  {
    if s == [] || !IsSpace(s[0]) then 0 else 1 + LeadingSpace(s[1..])
  }

  /** The length of `s` without its longest whitespace suffix. */
  function TrailingStart(s: string): (n: nat)
    ensures n <= |s| && AllSpace(s[n..])
    ensures n > 0 ==> !IsSpace(s[n - 1])
  {
    if s == [] || !IsSpace(s[|s| - 1]) then |s|
    else
      var n := TrailingStart(s[..|s| - 1]);
      assert s[n..] == s[..|s| - 1][n..] + [s[|s| - 1]];
      n
  }

  /** `s.strip()`: `s` with its whitespace prefix and suffix removed. */
  function Strip(s: string): (r: string)
    ensures Trimmed(r)
    ensures r == [] <==> AllSpace(s)
  {
    var head := LeadingSpace(s);
    var rest := s[head..];
    var r := rest[..TrailingStart(rest)];
    assert s == s[..head] + r + rest[TrailingStart(rest)..];
    assert r == [] ==> s == s[..head] + rest[TrailingStart(rest)..];
    r
  }

  /** strip() removes whitespace only: the line is its stripped form with whitespace on both sides. */
  lemma StripRemovesOnlySpace(s: string)
    ensures exists p, q :: AllSpace(p) && AllSpace(q) && s == p + Strip(s) + q
  {
    var head := LeadingSpace(s);
    var rest := s[head..];
    assert s == s[..head] + Strip(s) + rest[TrailingStart(rest)..];
  }

  lemma AllSpaceConcat(a: string, b: string)
    requires AllSpace(a) && AllSpace(b)
    ensures AllSpace(a + b)
  {
    assert forall i | 0 <= i < |a + b| :: (a + b)[i] == if i < |a| then a[i] else b[i - |a|];
  }

  /** Whitespace padding around a trimmed string is exactly what strip() removes. */
  lemma {:induction false} StripPadding(p: string, s: string, q: string)
    requires AllSpace(p) && AllSpace(q) && Trimmed(s)
    ensures Strip(p + s + q) == s
  {
    var x := p + s + q;
    if s == [] {
      AllSpaceConcat(p, q);
      assert x == p + q;
    } else {
      assert LeadingSpace(x) == |p| by {
        assert x[..|p|] == p;
        LeadingSpaceOfPrefix(x, |p|);
      }
      var rest := x[|p|..];
      assert rest == s + q;
      assert TrailingStart(rest) == |s| by {
        assert rest[|s|..] == q;
        TrailingStartOfSuffix(rest, |s|);
      }
      assert rest[..|s|] == s;
    }
  }

  lemma LeadingSpaceOfPrefix(s: string, n: nat)
    requires n < |s| && AllSpace(s[..n]) && !IsSpace(s[n])
    ensures LeadingSpace(s) == n
  {
  }

  lemma TrailingStartOfSuffix(s: string, n: nat)
    requires 0 < n <= |s| && AllSpace(s[n..]) && !IsSpace(s[n - 1])
    ensures TrailingStart(s) == n
  {
  }

  /** Stripping twice changes nothing more. */
  lemma StripIdempotent(s: string)
    ensures Strip(Strip(s)) == Strip(s)
  {
    StripPadding([], Strip(s), []);
    assert [] + Strip(s) + [] == Strip(s);
  }

  // ---------------------------------------------------------------------------
  // Program resolution (bin/tts_speak.py:43-56)
  // ---------------------------------------------------------------------------

  /** A program entry of a pipeline's configuration. */
  datatype ProgramConfig = ProgramConfig(name: string)

  /** A program as passed to `synthesize` / `play`: a name from the command line, or the pipeline's entry. */
  datatype Program = NamedProgram(name: string) | ConfiguredProgram(config: ProgramConfig)

  /** The parts of a pipeline's configuration this driver reads. */
  datatype PipelineConfig = PipelineConfig(tts: Option<ProgramConfig>, snd: Option<ProgramConfig>)

  /** The three assertions of lines 47-56. */
  datatype SpeakError = NoPipeline(name: string) | NoTtsProgram | NoSndProgram

  /** A `--tts-program` / `--snd-program` value that Python treats as true: set and not empty. */
  predicate Given(arg: Option<string>) {
    arg.Some? && arg.value != ""
  }

  /** Python truthiness of a program variable: None and the empty name are false. */
  predicate Truthy(p: Option<Program>) {
    p.Some? && (p.value.NamedProgram? ==> p.value.name != "")
  }

  /** The program a pipeline configures for one role, as a program variable. */
  function Configured(entry: Option<ProgramConfig>): (p: Option<Program>)
    ensures Truthy(p) <==> entry.Some?
    ensures entry.Some? ==> p == Some(ConfiguredProgram(entry.value))
  {
    if entry.Some? then Some(ConfiguredProgram(entry.value)) else None
  }

  /** The program variable as parsed from its command-line option. */
  function FromArgument(arg: Option<string>): (p: Option<Program>)
    ensures Truthy(p) <==> Given(arg)
    ensures p.Some? <==> arg.Some?
    ensures p.Some? ==> p.value == NamedProgram(arg.value)
  {
    if arg.Some? then Some(NamedProgram(arg.value)) else None
  }

  /**
   * Reference definition of lines 43-56: the pair (TTS program, sound
   * program), or the assertion that fails first.
   */
  function Resolution(pipelines: map<string, PipelineConfig>, name: string,
                      ttsArg: Option<string>, sndArg: Option<string>): (r: Result<(Program, Program), SpeakError>)
    // an explicit program is used unchanged, and then no pipeline is needed
    ensures r.Success? && Given(ttsArg) ==> r.value.0 == NamedProgram(ttsArg.value)
    ensures r.Success? && Given(sndArg) ==> r.value.1 == NamedProgram(sndArg.value)
    ensures Given(ttsArg) && Given(sndArg) ==> r.Success?
    // falling back to a missing pipeline fails
    ensures r == Failure(NoPipeline(name)) <==> name !in pipelines && !(Given(ttsArg) && Given(sndArg))
    // otherwise the pipeline's own entries are the fallback
    ensures r.Success? && !Given(ttsArg) ==>
      name in pipelines && pipelines[name].tts.Some? && r.value.0 == ConfiguredProgram(pipelines[name].tts.value)
    ensures r.Success? && !Given(sndArg) ==>
      name in pipelines && pipelines[name].snd.Some? && r.value.1 == ConfiguredProgram(pipelines[name].snd.value)
    // an unset program fails, the TTS program being checked first
    ensures r == Failure(NoTtsProgram) <==> name in pipelines && !Given(ttsArg) && pipelines[name].tts.None?
    ensures r == Failure(NoSndProgram) <==>
      name in pipelines && !Given(sndArg) && pipelines[name].snd.None? && (Given(ttsArg) || pipelines[name].tts.Some?)
  {
    if !(Given(ttsArg) && Given(sndArg)) && name !in pipelines then Failure(NoPipeline(name))
    else
      var tts := if Given(ttsArg) then FromArgument(ttsArg) else Configured(pipelines[name].tts);
      var snd := if Given(sndArg) then FromArgument(sndArg) else Configured(pipelines[name].snd);
      if !Truthy(tts) then Failure(NoTtsProgram)
      else if !Truthy(snd) then Failure(NoSndProgram)
      else Success((tts.value, snd.value))
  }

  /** Lines 43-56 as written: the program variables are reassigned on fallback, then asserted. */
  method ResolvePrograms(pipelines: map<string, PipelineConfig>, name: string,
                         ttsArg: Option<string>, sndArg: Option<string>) returns (r: Result<(Program, Program), SpeakError>)
    ensures r == Resolution(pipelines, name, ttsArg, sndArg)
  {
    var ttsProgram := FromArgument(ttsArg);
    var sndProgram := FromArgument(sndArg);
    var pipeline: Option<PipelineConfig> := if name in pipelines then Some(pipelines[name]) else None;

    if !Truthy(ttsProgram) {
      if pipeline.None? {
        return Failure(NoPipeline(name));
      }
      ttsProgram := Configured(pipeline.value.tts);
    }

    if !Truthy(sndProgram) {
      if pipeline.None? {
        return Failure(NoPipeline(name));
      }
      sndProgram := Configured(pipeline.value.snd);
    }

    if !Truthy(ttsProgram) {
      return Failure(NoTtsProgram);
    }
    if !Truthy(sndProgram) {
      return Failure(NoSndProgram);
    }
    return Success((ttsProgram.value, sndProgram.value));
  }

  // ---------------------------------------------------------------------------
  // Lines to speak (bin/tts_speak.py:58-68)
  // ---------------------------------------------------------------------------

  /**
   * The line source of lines 58-61: the positional words when there are any,
   * each one a line of its own, otherwise the lines read from stdin.
   */
  function LineSource(text: seq<string>, stdin: seq<string>): (lines: seq<string>)
    ensures text != [] ==> lines == text
    ensures text == [] ==> lines == stdin
  {
    if text != [] then text else stdin
  }

  /** The stripped lines that are spoken, in input order; blank ones are skipped. */
  function SpokenLines(lines: seq<string>): (spoken: seq<string>)
    ensures |spoken| <= |lines|
    ensures forall k | 0 <= k < |spoken| :: spoken[k] != [] && Trimmed(spoken[k])
  {
    if lines == [] then []
    else
      var line := Strip(lines[|lines| - 1]);
      SpokenLines(lines[..|lines| - 1]) + (if line == [] then [] else [line])
  }

  lemma {:induction false} SpokenLinesAppend(a: seq<string>, b: seq<string>)
    ensures SpokenLines(a + b) == SpokenLines(a) + SpokenLines(b)
    decreases |b|
  {
    if b == [] {
      assert a + b == a;
    } else {
      var last := Strip(b[|b| - 1]);
      var tail := if last == [] then [] else [last];
      assert (a + b)[..|a + b| - 1] == a + b[..|b| - 1];
      SpokenLinesAppend(a, b[..|b| - 1]);
      calc {
        SpokenLines(a + b);
        SpokenLines(a + b[..|b| - 1]) + tail;
        SpokenLines(a) + SpokenLines(b[..|b| - 1]) + tail;
        SpokenLines(a) + SpokenLines(b);
      }
    }
  }

  /** One input line is spoken iff it is not blank, and then in its stripped form. */
  lemma SpokenLine(line: string)
    ensures AllSpace(line) ==> SpokenLines([line]) == []
    ensures !AllSpace(line) ==> SpokenLines([line]) == [Strip(line)]
  {
    assert [line][..0] == [];
  }

  /** When no line is blank, every line is spoken, in order, in its stripped form. */
  lemma {:induction false} SpokenLinesNoneBlank(lines: seq<string>)
    requires forall k | 0 <= k < |lines| :: !AllSpace(lines[k])
    ensures |SpokenLines(lines)| == |lines|
    ensures forall k | 0 <= k < |lines| :: SpokenLines(lines)[k] == Strip(lines[k])
    decreases |lines|
  {
    if lines != [] {
      var n := |lines| - 1;
      SpokenLinesNoneBlank(lines[..n]);
      assert SpokenLines(lines) == SpokenLines(lines[..n]) + [Strip(lines[n])];
    }
  }

  /** Lines that are non-empty and have no surrounding whitespace are spoken exactly as given. */
  lemma SpokenLinesOfTrimmed(lines: seq<string>)
    requires forall k | 0 <= k < |lines| :: lines[k] != [] && Trimmed(lines[k])
    ensures SpokenLines(lines) == lines
  {
    forall k | 0 <= k < |lines| ensures !AllSpace(lines[k]) && Strip(lines[k]) == lines[k] {
      StripPadding([], lines[k], []);
      assert [] + lines[k] + [] == lines[k];
    }
    SpokenLinesNoneBlank(lines);
  }

  // ---------------------------------------------------------------------------
  // The speak loop (bin/tts_speak.py:65-73)
  // ---------------------------------------------------------------------------

  /** What the driver asks of the TTS and sound programs. */
  datatype Action =
    | Synthesize(program: Program, text: string)
    | Play(program: Program, wav: seq<bv8>, samplesPerChunk: int)

  /** The `io.BytesIO` buffer one line is synthesized into. */
  class WavBuffer {
    var data: seq<bv8>
    var pos: nat

    ghost predicate Valid()
      reads this
    {
      pos <= |data|
    }

    constructor ()
      ensures Valid() && data == [] && pos == 0
    {
      data, pos := [], 0;
    }

    /** `write(bytes)`: overwrite from the current position, extending the buffer as needed. */
    method Write(bytes: seq<bv8>)
      requires Valid()
      modifies this
      ensures Valid() && pos == old(pos) + |bytes|
      ensures data == old(data)[..old(pos)] + bytes
                      + (if old(pos) + |bytes| < old(|data|) then old(data)[old(pos) + |bytes|..] else [])
    {
      var end := pos + |bytes|;
      data := data[..pos] + bytes + (if end < |data| then data[end..] else []);
      pos := end;
    }

    /** `seek(0)`. */
    method Rewind()
      requires Valid()
      modifies this
      ensures Valid() && pos == 0 && data == old(data)
    {
      pos := 0;
    }

    /** `read()`: everything from the current position to the end. */
    method ReadToEnd() returns (bytes: seq<bv8>)
      requires Valid()
      modifies this
      ensures Valid() && bytes == old(data[pos..]) && pos == |data| && data == old(data)
    {
      bytes := data[pos..];
      pos := |data|;
    }
  }

  /** The actions for the given spoken lines: each one synthesized, then its audio played. */
  function Utterances(tts: Program, snd: Program, samplesPerChunk: int,
                      audio: (Program, string) -> seq<bv8>, spoken: seq<string>): (log: seq<Action>)
    ensures |log| == 2 * |spoken|
  {
    if spoken == [] then []
    else
      var line := spoken[|spoken| - 1];
      Utterances(tts, snd, samplesPerChunk, audio, spoken[..|spoken| - 1])
        + [Synthesize(tts, line), Play(snd, audio(tts, line), samplesPerChunk)]
  }

  /**
   * Line k is synthesized by the TTS program at position 2k, and exactly the
   * audio produced for it is played by the sound program right after.
   */
  lemma {:induction false} UtteranceOrder(tts: Program, snd: Program, samplesPerChunk: int,
                                          audio: (Program, string) -> seq<bv8>, spoken: seq<string>, k: nat)
    requires k < |spoken|
    ensures Utterances(tts, snd, samplesPerChunk, audio, spoken)[2 * k] == Synthesize(tts, spoken[k])
    ensures Utterances(tts, snd, samplesPerChunk, audio, spoken)[2 * k + 1] == Play(snd, audio(tts, spoken[k]), samplesPerChunk)
    decreases |spoken|
  {
    var n := |spoken| - 1;
    if k < n {
      UtteranceOrder(tts, snd, samplesPerChunk, audio, spoken[..n], k);
    }
  }

  lemma UtterancesSnoc(tts: Program, snd: Program, samplesPerChunk: int,
                       audio: (Program, string) -> seq<bv8>, spoken: seq<string>, line: string)
    ensures Utterances(tts, snd, samplesPerChunk, audio, spoken + [line])
      == Utterances(tts, snd, samplesPerChunk, audio, spoken) + [Synthesize(tts, line), Play(snd, audio(tts, line), samplesPerChunk)]
  {
    assert (spoken + [line])[..|spoken|] == spoken;
  }

  /**
   * Lines 70-73 for one line: synthesize into a fresh buffer, rewind it and
   * play it; what is played is exactly what was synthesized.
   */
  method SpeakLine(tts: Program, snd: Program, samplesPerChunk: int,
                   audio: (Program, string) -> seq<bv8>, line: string) returns (actions: seq<Action>)
    ensures actions == [Synthesize(tts, line), Play(snd, audio(tts, line), samplesPerChunk)]
  {
    var wavIo := new WavBuffer();
    wavIo.Write(audio(tts, line));
    assert wavIo.data == audio(tts, line);
    actions := [Synthesize(tts, line)];
    wavIo.Rewind();
    var wav := wavIo.ReadToEnd();
    assert wav == wavIo.data[0..] == audio(tts, line);
    actions := actions + [Play(snd, wav, samplesPerChunk)];
  }

  /** Lines 65-73: walk the lines, skip blank ones, synthesize into a fresh buffer, rewind, play. */
  method SpeakLines(tts: Program, snd: Program, samplesPerChunk: int,
                    audio: (Program, string) -> seq<bv8>, lines: seq<string>) returns (log: seq<Action>)
    ensures log == Utterances(tts, snd, samplesPerChunk, audio, SpokenLines(lines))
  {
    log := [];
    for i := 0 to |lines|
      invariant log == Utterances(tts, snd, samplesPerChunk, audio, SpokenLines(lines[..i]))
    {
      var line := Strip(lines[i]);
      ghost var before := SpokenLines(lines[..i]);
      assert lines[..i + 1][..i] == lines[..i];
      assert SpokenLines(lines[..i + 1]) == before + (if line == [] then [] else [line]);
      assert line == [] ==> before + [] == before;
      if line == [] {
        continue;
      }
      var actions := SpeakLine(tts, snd, samplesPerChunk, audio, line);
      log := log + actions;
      UtterancesSnoc(tts, snd, samplesPerChunk, audio, before, line);
    }
    assert lines[..|lines|] == lines;
  }

  /**
   * Lines 43-73: resolve the programs, then speak the chosen lines. An
   * assertion that fails does so before any line is spoken.
   */
  method Speak(pipelines: map<string, PipelineConfig>, name: string, ttsArg: Option<string>, sndArg: Option<string>,
               text: seq<string>, stdin: seq<string>, samplesPerChunk: int,
               audio: (Program, string) -> seq<bv8>) returns (r: Result<seq<Action>, SpeakError>)
    ensures Resolution(pipelines, name, ttsArg, sndArg).Failure? ==>
      r == Failure(Resolution(pipelines, name, ttsArg, sndArg).error)
    ensures Resolution(pipelines, name, ttsArg, sndArg).Success? ==>
      var programs := Resolution(pipelines, name, ttsArg, sndArg).value;
      r == Success(Utterances(programs.0, programs.1, samplesPerChunk, audio, SpokenLines(LineSource(text, stdin))))
  {
    var programs := ResolvePrograms(pipelines, name, ttsArg, sndArg);
    if programs.Failure? {
      return Failure(programs.error);
    }
    var lines := if text != [] then text else stdin;
    var log := SpeakLines(programs.value.0, programs.value.1, samplesPerChunk, audio, lines);
    return Success(log);
  }
}

/** The AudioEngine class: the countdown, capture and full-session
    orchestration, with every device, disk and library call that can raise
    described by an environment `Env`. What the engine does to the outside
    world (status updates, waits, playback, recording, file writes) is
    appended to `trace`; log lines and their timestamps are not modelled. */
module Engine {
  import opened Samples
  import opened Tone
  import opened Conditioning
  import opened Synthesis
  import opened Capture
  import opened Paths

  type Hertz = n: int | n > 0 witness 8000

  /** The constructor's defaults. */
  const DefaultSampleRate: Hertz := 8000
  const DefaultOutputFolder: string := "./output"

  const WarmUpSeconds: real := 0.3
  const VisualTickSeconds: real := 0.8
  const AudibleTickSeconds: real := 0.6
  const Language: string := "es-MX"

  /** The phases the engine reports to the status callback. */
  datatype Phase = Preparing(count: nat) | Recording | Processing

  datatype Event =
    | Status(phase: Phase)            // _update_status
    | Wait(seconds: real)             // threading.Event().wait
    | WarmedUp(seconds: real)         // the silent warm-up stream held open
    | Play(samples: seq<real>)        // sd.play followed by sd.wait
    | Recorded(frames: nat)           // sd.rec followed by sd.wait
    | WroteAudio(path: string, samples: seq<real>)
    | WroteMatrix(path: string, samples: seq<real>)
    | WroteText(path: string, text: string)

  /** Where a run can stop: the operation that raised. */
  datatype Stage =
    | AtWarmUp | AtCountdown | AtCapture | AtProcessing | AtSaveWav
    | AtSaveCsv | AtSaveTxt | AtSynthesis | AtSaveSynth | AtPlayback

  /** Everything outside the engine's own code. `fault` names the device,
      disk or library call that raises (the first one reached, if any);
      `sine(f, t)` is sin(2 pi f t); `microphone(k)` is the k-th captured
      sample; `highPass` is butter/filtfilt; `trim` gives the kept bounds;
      `transcribe(path, language)` is the recogniser, None when it fails;
      `pitchShift` is librosa's +2 semitone shift; `dither(i)` is the i-th
      uniform draw. */
  datatype Env = Env(
    fault: Option<Stage>,
    sine: (real, real) -> real,
    microphone: nat -> real,
    highPass: seq<real> -> seq<real>,
    trim: seq<real> -> (int, int),
    transcribe: (string, string) -> Option<string>,
    pitchShift: seq<real> -> seq<real>,
    dither: nat -> real)
  {
    /** What the collaborators promise: the sine stays in [-1, 1], trim
        keeps a slice, the pitch shift keeps the duration, the dither stays
        within half an 8-bit step. */
    ghost predicate WellFormed()
    {
      && SineLike(sine)
      && (forall y :: TrimIsSlice(trim(y), |y|))
      && (forall y :: |pitchShift(y)| == |y|)
      && DitherBounded(dither)
    }

    predicate FailsAt(s: Stage)
    {
      fault == Some(s)
    }
  }

  /** The dictionary proceso_completo returns. */
  datatype SessionResult =
    | Success(wav: string, csv: string, txt: string, synth: string,
              processed: seq<real>, seconds: real, onsetMs: real)
    | Failure(error: Stage, lastProcessed: Option<seq<real>>)

  /** Events of a step and whether it returned normally. */
  datatype Steps = Steps(events: seq<Event>, completed: bool)

  /** Phase 1 of cuenta_regresiva: three `preparing` ticks 0.8 s apart. */
  function VisualPhase(): seq<Event>
  {
    [ Status(Preparing(3)), Wait(VisualTickSeconds),
      Status(Preparing(2)), Wait(VisualTickSeconds),
      Status(Preparing(1)), Wait(VisualTickSeconds) ]
  }

  /** Phase 2: the 600 Hz beep played three times, 0.6 s apart. */
  function AudiblePhase(tick: seq<real>): seq<Event>
  {
    [ Play(tick), Wait(AudibleTickSeconds),
      Play(tick), Wait(AudibleTickSeconds),
      Play(tick), Wait(AudibleTickSeconds) ]
  }

  /** cuenta_regresiva, given what generar_beep returns for the 600 Hz tick
      and the 1000 Hz / 0.2 s cue. It stops after phase 1 if the tick cannot
      be built or its first playback raises (`playFails`), and after the
      `recording` status if the cue cannot be built. */
  function CountdownSteps(tick: Option<seq<real>>, cue: Option<seq<real>>, playFails: bool): Steps
  {
    if tick.None? || playFails then Steps(VisualPhase(), false)
    else
      var cued := VisualPhase() + AudiblePhase(tick.value) + [Status(Recording)];
      if cue.None? then Steps(cued, false) else Steps(cued + [Play(cue.value)], true)
  }

  /** The two beeps of the countdown at `fs` Hz. */
  function Tick(fs: Hertz, sine: (real, real) -> real): Option<seq<real>>
  {
    Beep(fs, 600.0, 0.15, sine)
  }

  function Cue(fs: Hertz, sine: (real, real) -> real): Option<seq<real>>
  {
    Beep(fs, 1000.0, 0.2, sine)
  }

  /** A full run: its events, its result, and the final values of
      current_audio_processed and is_recording. */
  datatype Run = Run(events: seq<Event>, result: SessionResult, stored: Option<seq<real>>, recording: bool)

  /** What a step did and, if it raised, where. */
  datatype Outcome = Outcome(events: seq<Event>, failed: Option<Stage>)

  /** Steps 1-2 of proceso_completo: warm up the output stream, then count
      down; `failed` names the step that raised. */
  function Prelude(fs: Hertz, env: Env): Outcome
  {
    PreludeSteps(Tick(fs, env.sine), Cue(fs, env.sine), env.FailsAt(AtWarmUp), env.FailsAt(AtCountdown))
  }

  /** Steps 1-2 given the two beeps (None where synthesising one raises)
      and whether warming up or playing a tick raises. */
  function PreludeSteps(tick: Option<seq<real>>, cue: Option<seq<real>>, warmUpFails: bool, playFails: bool): Outcome
  {
    if warmUpFails then Outcome([], Some(AtWarmUp))
    else
      var countdown := CountdownSteps(tick, cue, playFails);
      Outcome([WarmedUp(WarmUpSeconds)] + countdown.events, if countdown.completed then None else Some(AtCountdown))
  }

  /** proceso_completo at `fs` Hz, starting from the stored buffer `stored`
      and the recording flag `recording`. Every raise ends in the catch-all
      branch, which returns whatever current_audio_processed holds then. */
  function Session(fs: Hertz, paths: OutputPaths, seconds: real, env: Env,
                   stored: Option<seq<real>>, recording: bool): Run
    requires env.WellFormed()
  {
    var prelude := Prelude(fs, env);
    if prelude.failed.Some? then Run(prelude.events, Failure(prelude.failed.value, stored), stored, recording)
    else
      var rest := AfterCountdown(fs, paths, seconds, env, stored);
      Run(prelude.events + rest.events, rest.result, rest.stored, rest.recording)
  }

  /** What procesar_audio returns for this run's capture, if the capture
      and the processing both return; None when either raises. It repeats
      the capture's own failure test so that lemmas can name the
      conditioned buffer of a run on its own. */
  function Processed(fs: Hertz, seconds: real, env: Env): Option<Conditioned>
    requires env.WellFormed()
  {
    var n := TotalSamples(fs, seconds);
    if n < 0 || env.FailsAt(AtCapture) || env.FailsAt(AtProcessing) then None
    else Condition(fs, Captured(n, env.microphone), env.highPass, env.trim)
  }

  /** proceso_completo from the capture on. */
  function AfterCountdown(fs: Hertz, paths: OutputPaths, seconds: real, env: Env,
                          stored: Option<seq<real>>): Run
    requires env.WellFormed()
  {
    var n := TotalSamples(fs, seconds);
    if n < 0 || env.FailsAt(AtCapture) then Run([], Failure(AtCapture, stored), stored, true)
    else AfterCapture(n, paths, Processed(fs, seconds, env), env, stored)
  }

  /** Steps 4-10 of proceso_completo once grabar_audio has returned `n`
      samples and procesar_audio has returned `conditioned` (None where it
      raises). */
  function AfterCapture(n: nat, paths: OutputPaths, conditioned: Option<Conditioned>, env: Env,
                        stored: Option<seq<real>>): Run
  {
    var e2 := [Recorded(n), Status(Processing)];
    if conditioned.None? then Run(e2, Failure(AtProcessing, stored), stored, false)
    else
      var rest := Delivered(paths, conditioned.value, env);
      Run(e2 + rest.events, rest.result, rest.stored, rest.recording)
  }

  /** Steps 4-10 of proceso_completo once procesar_audio has returned `c`:
      store its buffer as current_audio_processed, then deliver it. */
  function Delivered(paths: OutputPaths, c: Conditioned, env: Env): Run
  {
    var delivery := Delivery(paths, c.audio, env, Synthesized(c.audio, env));
    var result := if delivery.failed.Some? then Failure(delivery.failed.value, Some(c.audio))
                  else Success(paths.wav, paths.csv, paths.txt, paths.synth, c.audio, c.seconds, c.onsetMs);
    Run(delivery.events, result, Some(c.audio), false)
  }

  /** `if texto:` holds for a transcription that succeeded with a
      non-empty text. */
  predicate Truthy(text: Option<string>)
  {
    text.Some? && |text.value| > 0
  }

  /** What sintetizar_voz returns for the stored buffer: None where it
      raises (a library fault, or np.max of an empty shifted buffer). */
  function Synthesized(audio: seq<real>, env: Env): Option<seq<real>>
  {
    if env.FailsAt(AtSynthesis) then None else Synthesize(env.pitchShift(audio), env.dither)
  }

  /** Steps 5-10 of proceso_completo, once the conditioned buffer is stored,
      given what the synthesiser returns (`synth`): save the buffer and its
      sample matrix, transcribe (writing the text only when it is
      non-empty), then save and play the synthesis. */
  function Delivery(paths: OutputPaths, audio: seq<real>, env: Env, synth: Option<seq<real>>): Outcome
  {
    if env.FailsAt(AtSaveWav) then Outcome([], Some(AtSaveWav))
    else
      var e3 := [WroteAudio(paths.wav, audio)];
      if env.FailsAt(AtSaveCsv) then Outcome(e3, Some(AtSaveCsv))
      else
        var e4 := e3 + [WroteMatrix(paths.csv, audio)];
        var text := env.transcribe(paths.wav, Language);
        if Truthy(text) && env.FailsAt(AtSaveTxt) then Outcome(e4, Some(AtSaveTxt))
        else
          var e5 := if Truthy(text) then e4 + [WroteText(paths.txt, text.value)] else e4;
          if synth.None? then Outcome(e5, Some(AtSynthesis))
          else if env.FailsAt(AtSaveSynth) then Outcome(e5, Some(AtSaveSynth))
          else
            var e6 := e5 + [WroteAudio(paths.synth, synth.value)];
            if env.FailsAt(AtPlayback) then Outcome(e6, Some(AtPlayback))
            else Outcome(e6 + [Play(synth.value)], None)
  }

  lemma AppendAssociates<T>(a: seq<T>, b: seq<T>, c: seq<T>)
    ensures (a + b) + c == a + (b + c)
  {
  }

  class AudioEngine {
    const fs: Hertz
    const outputFolder: string
    var isRecording: bool
    var currentAudioProcessed: Option<seq<real>>
    var trace: seq<Event>

    constructor (sampleRate: Hertz, folder: string)
      ensures fs == sampleRate && outputFolder == folder
      ensures !isRecording && currentAudioProcessed == None && trace == []
    {
      fs := sampleRate;
      outputFolder := folder;
      isRecording := false;
      currentAudioProcessed := None;
      trace := [];
    }

    /** `AudioEngine()` with both arguments left at their defaults. */
    constructor Default()
      ensures fs == DefaultSampleRate && outputFolder == DefaultOutputFolder
      ensures !isRecording && currentAudioProcessed == None && trace == []
    {
      fs := DefaultSampleRate;
      outputFolder := DefaultOutputFolder;
      isRecording := false;
      currentAudioProcessed := None;
      trace := [];
    }

    /** `beep[:fade] *= np.linspace(0, 1, fade)`, where it fits. */
    static method FadeInPlace(a: array<real>, fade: nat)
      requires FadeInFits(a.Length, fade)
      modifies a
      ensures a[..] == FadeIn(old(a[..]), fade)
    {
      ghost var s := a[..];
      var m := if fade <= a.Length then fade else a.Length;
      var k := 0;
      while k < m
        invariant 0 <= k <= m && a.Length == |s|
        invariant forall i :: 0 <= i < k ==> a[i] == FadeIn(s, fade)[i]
        invariant forall i :: k <= i < a.Length ==> a[i] == s[i]
      {
        a[k] := a[k] * Linspace(0.0, 1.0, fade, k);
        k := k + 1;
      }
      assert a[..] == FadeIn(s, fade);
    }

    /** `beep[-fade:] *= np.linspace(1, 0, fade)`, where it fits. */
    static method FadeOutInPlace(a: array<real>, fade: nat)
      requires FadeOutFits(a.Length, fade)
      modifies a
      ensures a[..] == FadeOut(old(a[..]), fade)
    {
      ghost var s := a[..];
      var n := a.Length;
      var start := if fade <= n then n - fade else n;
      var k := 0;
      while start + k < n
        invariant 0 <= k <= n - start && n == |s|
        invariant forall i :: 0 <= i < start ==> a[i] == s[i]
        invariant forall i :: start <= i < start + k ==> a[i] == FadeOut(s, fade)[i]
        invariant forall i :: start + k <= i < n ==> a[i] == s[i]
      {
        a[start + k] := a[start + k] * Linspace(1.0, 0.0, fade, k);
        k := k + 1;
      }
      assert a[..] == FadeOut(s, fade);
    }

    /** generar_beep: build the carrier, then ramp the first and the last
        `fade` samples in place. */
    method GenerateBeep(frequency: real, seconds: real, sine: (real, real) -> real)
      returns (beep: Option<array<real>>)
      ensures beep.None? <==> Beep(fs, frequency, seconds, sine).None?
      ensures beep.Some? ==> fresh(beep.value) && beep.value[..] == Beep(fs, frequency, seconds, sine).value
    {
      var n := Frames(fs, seconds);
      var fade := FadeLength(fs);
      if n < 0 {
        return None;  // np.linspace refuses a negative sample count
      }
      var a := new real[n](k requires 0 <= k < n => Amplitude * sine(frequency, Linspace(0.0, seconds, n, k)));
      assert a[..] == Carrier(n, frequency, seconds, sine);
      if !FadeInFits(n, fade) {
        return None;
      }
      FadeInPlace(a, fade);
      if !FadeOutFits(n, fade) {
        return None;
      }
      FadeOutInPlace(a, fade);
      return Some(a);
    }

    /** cuenta_regresiva: two counting loops, then the start cue. */
    method Countdown(sine: (real, real) -> real, playFails: bool) returns (completed: bool)
      modifies this`trace
      ensures var steps := CountdownSteps(Tick(fs, sine), Cue(fs, sine), playFails);
        completed == steps.completed && trace == old(trace) + steps.events
    {
      var i := 3;
      while i > 0
        invariant 0 <= i <= 3
        invariant trace == old(trace) + VisualPhase()[..2 * (3 - i)]
      {
        trace := trace + [Status(Preparing(i)), Wait(VisualTickSeconds)];
        i := i - 1;
      }
      i := 3;
      while i > 0
        invariant 0 <= i <= 3
        invariant i < 3 ==> Tick(fs, sine).Some? && !playFails
        invariant i == 3 ==> trace == old(trace) + VisualPhase()
        invariant i < 3 ==> trace == old(trace) + VisualPhase() + AudiblePhase(Tick(fs, sine).value)[..2 * (3 - i)]
      {
        var tick := GenerateBeep(600.0, 0.15, sine);
        if tick.None? || playFails {
          return false;
        }
        trace := trace + [Play(tick.value[..]), Wait(AudibleTickSeconds)];
        i := i - 1;
      }
      trace := trace + [Status(Recording)];
      var cue := GenerateBeep(1000.0, 0.2, sine);
      if cue.None? {
        return false;
      }
      trace := trace + [Play(cue.value[..])];
      return true;
    }

    /** grabar_audio: the flag is raised before sd.rec and lowered only
        after it returns, so it stays raised when the capture raises. */
    method Record(seconds: real, microphone: nat -> real, deviceFails: bool) returns (raw: Option<seq<real>>)
      modifies this`isRecording, this`trace
      ensures raw.None? <==> TotalSamples(fs, seconds) < 0 || deviceFails
      ensures raw.Some? ==> raw.value == Captured(TotalSamples(fs, seconds), microphone)
      ensures isRecording == raw.None?
      ensures trace == if raw.None? then old(trace) else old(trace) + [Recorded(TotalSamples(fs, seconds))]
    {
      var n := TotalSamples(fs, seconds);
      isRecording := true;
      if n < 0 || deviceFails {
        return None;
      }
      raw := Some(Captured(n, microphone));
      trace := trace + [Recorded(n)];
      isRecording := false;
    }

    /** procesar_audio: report `processing`, then condition the capture. */
    method Process(raw: seq<real>, env: Env) returns (r: Option<Conditioned>)
      requires env.WellFormed()
      modifies this`trace
      ensures trace == old(trace) + [Status(Processing)]
      ensures r == if env.FailsAt(AtProcessing) then None else Condition(fs, raw, env.highPass, env.trim)
    {
      trace := trace + [Status(Processing)];
      if env.FailsAt(AtProcessing) {
        return None;
      }
      r := Condition(fs, raw, env.highPass, env.trim);
    }

    /** Steps 5-10 of proceso_completo. */
    method Deliver(paths: OutputPaths, audio: seq<real>, env: Env) returns (failed: Option<Stage>)
      modifies this`trace
      ensures trace == old(trace) + Delivery(paths, audio, env, Synthesized(audio, env)).events
      ensures failed == Delivery(paths, audio, env, Synthesized(audio, env)).failed
    {
      if env.FailsAt(AtSaveWav) {
        return Some(AtSaveWav);
      }
      trace := trace + [WroteAudio(paths.wav, audio)];
      if env.FailsAt(AtSaveCsv) {
        return Some(AtSaveCsv);
      }
      trace := trace + [WroteMatrix(paths.csv, audio)];
      var text := env.transcribe(paths.wav, Language);
      if Truthy(text) {
        if env.FailsAt(AtSaveTxt) {
          return Some(AtSaveTxt);
        }
        trace := trace + [WroteText(paths.txt, text.value)];
      }
      if env.FailsAt(AtSynthesis) {
        return Some(AtSynthesis);
      }
      var synth := Synthesize(env.pitchShift(audio), env.dither);
      if synth.None? {
        return Some(AtSynthesis);
      }
      if env.FailsAt(AtSaveSynth) {
        return Some(AtSaveSynth);
      }
      trace := trace + [WroteAudio(paths.synth, synth.value)];
      if env.FailsAt(AtPlayback) {
        return Some(AtPlayback);
      }
      trace := trace + [Play(synth.value)];
      return None;
    }

    /** warmup_audio_buffer, then cuenta_regresiva. */
    method Prepare(env: Env) returns (failed: Option<Stage>)
      modifies this`trace
      ensures trace == old(trace) + Prelude(fs, env).events
      ensures failed == Prelude(fs, env).failed
    {
      if env.FailsAt(AtWarmUp) {
        return Some(AtWarmUp);
      }
      ghost var t0 := trace;
      trace := trace + [WarmedUp(WarmUpSeconds)];
      var counted := Countdown(env.sine, env.FailsAt(AtCountdown));
      AppendAssociates(t0, [WarmedUp(WarmUpSeconds)], CountdownSteps(Tick(fs, env.sine), Cue(fs, env.sine), env.FailsAt(AtCountdown)).events);
      failed := if counted then None else Some(AtCountdown);
    }

    /** proceso_completo. */
    method RunFullSession(baseName: string, seconds: real, folder: Option<string>, env: Env)
      returns (result: SessionResult)
      requires env.WellFormed()
      modifies this`trace, this`isRecording, this`currentAudioProcessed
      ensures var run := Session(fs, PathsFor(if folder.Some? then folder.value else outputFolder, baseName),
                                 seconds, env, old(currentAudioProcessed), old(isRecording));
        && result == run.result && trace == old(trace) + run.events
        && currentAudioProcessed == run.stored && isRecording == run.recording
    {
      var paths := PathsFor(if folder.Some? then folder.value else outputFolder, baseName);
      ghost var t0, stored, recording := trace, currentAudioProcessed, isRecording;
      ghost var prelude := Prelude(fs, env);
      var failed := Prepare(env);
      if failed.Some? {
        result := Failure(failed.value, currentAudioProcessed);
        assert Session(fs, paths, seconds, env, stored, recording) == Run(prelude.events, result, stored, recording);
        return;
      }
      result := CaptureOnward(paths, seconds, env);
      ghost var rest := AfterCountdown(fs, paths, seconds, env, stored);
      AppendAssociates(t0, prelude.events, rest.events);
      assert Session(fs, paths, seconds, env, stored, recording) ==
        Run(prelude.events + rest.events, rest.result, rest.stored, rest.recording);
    }

    /** proceso_completo from grabar_audio on. */
    method CaptureOnward(paths: OutputPaths, seconds: real, env: Env) returns (result: SessionResult)
      requires env.WellFormed()
      modifies this`trace, this`isRecording, this`currentAudioProcessed
      ensures var run := AfterCountdown(fs, paths, seconds, env, old(currentAudioProcessed));
        && result == run.result && trace == old(trace) + run.events
        && currentAudioProcessed == run.stored && isRecording == run.recording
    {
      var raw := Record(seconds, env.microphone, env.FailsAt(AtCapture));
      if raw.None? {
        return Failure(AtCapture, currentAudioProcessed);
      }
      ghost var e2 := [Recorded(TotalSamples(fs, seconds)), Status(Processing)];
      var conditioned := Process(raw.value, env);
      assert trace == old(trace) + e2;
      if conditioned.None? {
        return Failure(AtProcessing, currentAudioProcessed);
      }
      result := StoreAndDeliver(paths, conditioned.value, env);
      AppendAssociates(old(trace), e2, Delivered(paths, conditioned.value, env).events);
    }

    /** Steps 4-10: store the conditioned buffer, then deliver it. */
    method StoreAndDeliver(paths: OutputPaths, c: Conditioned, env: Env) returns (result: SessionResult)
      modifies this`trace, this`currentAudioProcessed
      ensures var run := Delivered(paths, c, env);
        && result == run.result && trace == old(trace) + run.events && currentAudioProcessed == run.stored
    {
      currentAudioProcessed := Some(c.audio);
      var failed := Deliver(paths, c.audio, env);
      if failed.Some? {
        return Failure(failed.value, currentAudioProcessed);
      }
      return Success(paths.wav, paths.csv, paths.txt, paths.synth, c.audio, c.seconds, c.onsetMs);
    }
  }
}

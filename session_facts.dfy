/** What a whole proceso_completo run promises, read off the trace: the
    order in which the status callback sees the phases, the order in which
    files are written, when a run succeeds, what a failed run hands back,
    and what becomes of the recording flag. */
module SessionFacts {
  import opened Samples
  import opened Tone
  import opened Conditioning
  import opened Synthesis
  import opened Capture
  import opened Paths
  import opened Engine

  predicate IsWrite(e: Event)
  {
    e.WroteAudio? || e.WroteMatrix? || e.WroteText?
  }

  function StatusOf(e: Event): seq<Phase>
  {
    if e.Status? then [e.phase] else []
  }

  function WriteOf(e: Event): seq<string>
  {
    if IsWrite(e) then [e.path] else []
  }

  /** The phases reported to the status callback, in order. */
  function Statuses(events: seq<Event>): (r: seq<Phase>)
  {
    if |events| == 0 then [] else StatusOf(events[0]) + Statuses(events[1..])
  }

  /** The paths of the files written, in order. */
  function Writes(events: seq<Event>): (r: seq<string>)
  {
    if |events| == 0 then [] else WriteOf(events[0]) + Writes(events[1..])
  }

  /** Only status events contribute to the status sequence. */
  lemma {:induction false} StatusesOnlyFromStatus(events: seq<Event>)
    requires forall i :: 0 <= i < |events| ==> !events[i].Status?
    ensures Statuses(events) == []
  {
    if |events| > 0 {
      StatusesOnlyFromStatus(events[1..]);
    }
  }

  /** Only file writes contribute to the list of written paths. */
  lemma {:induction false} WritesOnlyFromWrites(events: seq<Event>)
    requires forall i :: 0 <= i < |events| ==> !IsWrite(events[i])
    ensures Writes(events) == []
  {
    if |events| > 0 {
      WritesOnlyFromWrites(events[1..]);
    }
  }

  lemma {:induction false} StatusesAppend(a: seq<Event>, b: seq<Event>)
    ensures Statuses(a + b) == Statuses(a) + Statuses(b)
  {
    if |a| == 0 {
      assert a + b == b;
    } else {
      assert (a + b)[1..] == a[1..] + b;
      StatusesAppend(a[1..], b);
    }
  }

  lemma {:induction false} WritesAppend(a: seq<Event>, b: seq<Event>)
    ensures Writes(a + b) == Writes(a) + Writes(b)
  {
    if |a| == 0 {
      assert a + b == b;
    } else {
      assert (a + b)[1..] == a[1..] + b;
      WritesAppend(a[1..], b);
    }
  }

  /** The status sequence of a complete run. */
  const StatusOrder: seq<Phase> := [Preparing(3), Preparing(2), Preparing(1), Recording, Processing]

  lemma StatusOrderPrefixes()
    ensures StatusOrder[..3] + [Recording] == StatusOrder[..4]
    ensures StatusOrder[..4] + [Processing] == StatusOrder
    ensures StatusOrder[..4] + [] == StatusOrder[..4]
  {
  }

  /** The files a complete run writes: the processed audio, its matrix, the
      transcription when there is one, and the synthesis. */
  function ExpectedWrites(paths: OutputPaths, env: Env): seq<string>
  {
    [paths.wav, paths.csv]
    + (if Truthy(env.transcribe(paths.wav, Language)) then [paths.txt] else [])
    + [paths.synth]
  }

  /** The order of the steps of proceso_completo. */
  function Order(s: Stage): nat
  {
    match s
    case AtWarmUp => 0
    case AtCountdown => 1
    case AtCapture => 2
    case AtProcessing => 3
    case AtSaveWav => 4
    case AtSaveCsv => 5
    case AtSaveTxt => 6
    case AtSynthesis => 7
    case AtSaveSynth => 8
    case AtPlayback => 9
  }

  lemma OneEvent(e: Event)
    ensures Statuses([e]) == StatusOf(e) && Writes([e]) == WriteOf(e)
  {
    assert [e][1..] == [];
  }

  lemma VisualTrace()
    ensures Statuses(VisualPhase()) == StatusOrder[..3] && Writes(VisualPhase()) == []
  {
    var v := VisualPhase();
    WritesOnlyFromWrites(v);
    assert v[1..][1..][1..][1..][1..][1..] == [];
  }

  lemma AudibleTrace(tick: seq<real>)
    ensures Statuses(AudiblePhase(tick)) == [] && Writes(AudiblePhase(tick)) == []
  {
    StatusesOnlyFromStatus(AudiblePhase(tick));
    WritesOnlyFromWrites(AudiblePhase(tick));
  }

  /** `events + [e]` projects to the projections of `events` followed by
      those of `e`. */
  lemma AppendOne(events: seq<Event>, e: Event)
    ensures Statuses(events + [e]) == Statuses(events) + StatusOf(e)
    ensures Writes(events + [e]) == Writes(events) + WriteOf(e)
  {
    OneEvent(e);
    StatusesAppend(events, [e]);
    WritesAppend(events, [e]);
  }

  /** The countdown reports `preparing` 3, 2, 1 and, once its ticks have
      played, `recording`; it writes no file. `recording` is reported
      exactly when the tick exists and its first playback does not raise. */
  lemma CountdownTrace(tick: Option<seq<real>>, cue: Option<seq<real>>, playFails: bool)
    ensures var c := CountdownSteps(tick, cue, playFails);
      && Writes(c.events) == []
      && (Statuses(c.events) == StatusOrder[..3] || Statuses(c.events) == StatusOrder[..4])
      && (c.completed ==> Statuses(c.events) == StatusOrder[..4])
      && (Statuses(c.events) == StatusOrder[..4] <==> tick.Some? && !playFails)
  {
    var c := CountdownSteps(tick, cue, playFails);
    var visual := VisualPhase();
    VisualTrace();
    if tick.None? || playFails {
      assert c.events == visual;
      assert |StatusOrder[..3]| != |StatusOrder[..4]|;
    } else {
      var audible := AudiblePhase(tick.value);
      AudibleTrace(tick.value);
      StatusesAppend(visual, audible);
      WritesAppend(visual, audible);
      var cued := visual + audible + [Status(Recording)];
      AppendOne(visual + audible, Status(Recording));
      StatusOrderPrefixes();
      assert Statuses(cued) == StatusOrder[..4] && Writes(cued) == [];
      if cue.None? {
        assert c.events == cued;
      } else {
        AppendOne(cued, Play(cue.value));
        assert c.events == cued + [Play(cue.value)];
      }
    }
  }

  /** At the engine's default 8000 Hz both beeps exist, so a countdown
      whose first playback does not raise always completes. */
  lemma CountdownAt8000(sine: (real, real) -> real)
    ensures CountdownSteps(Tick(8000, sine), Cue(8000, sine), false).completed
    ensures CountdownSteps(Tick(8000, sine), Cue(8000, sine), false).events ==
      VisualPhase() + AudiblePhase(Tick(8000, sine).value) + [Status(Recording), Play(Cue(8000, sine).value)]
    ensures |Tick(8000, sine).value| == 1200 && |Cue(8000, sine).value| == 1600
  {
    BeepAt8000(sine);
    BeepShape(8000, 1000.0, 0.2, sine);
    var cued := VisualPhase() + AudiblePhase(Tick(8000, sine).value) + [Status(Recording)];
    assert cued + [Play(Cue(8000, sine).value)] ==
      VisualPhase() + AudiblePhase(Tick(8000, sine).value) + [Status(Recording), Play(Cue(8000, sine).value)];
  }

  /** Steps 5-10 report no status, and a failure there is a failure of one
      of these steps. */
  lemma DeliveryQuiet(paths: OutputPaths, audio: seq<real>, env: Env, synth: Option<seq<real>>)
    ensures Statuses(Delivery(paths, audio, env, synth).events) == []
    ensures Delivery(paths, audio, env, synth).failed.Some? ==> Order(Delivery(paths, audio, env, synth).failed.value) >= 4
  {
    var d := Delivery(paths, audio, env, synth);
    var text := env.transcribe(paths.wav, Language);
    var e3 := [WroteAudio(paths.wav, audio)];
    OneEvent(WroteAudio(paths.wav, audio));
    var e4 := e3 + [WroteMatrix(paths.csv, audio)];
    AppendOne(e3, WroteMatrix(paths.csv, audio));
    var e5 := if Truthy(text) then e4 + [WroteText(paths.txt, text.value)] else e4;
    if Truthy(text) {
      AppendOne(e4, WroteText(paths.txt, text.value));
    }
    assert Statuses(e5) == [];
    if env.FailsAt(AtSaveWav) {
      assert d.events == [];
    } else if env.FailsAt(AtSaveCsv) {
      assert d.events == e3;
    } else if Truthy(text) && env.FailsAt(AtSaveTxt) {
      assert d.events == e4;
    } else if synth.None? || env.FailsAt(AtSaveSynth) {
      assert d.events == e5;
    } else {
      var e6 := e5 + [WroteAudio(paths.synth, synth.value)];
      AppendOne(e5, WroteAudio(paths.synth, synth.value));
      if env.FailsAt(AtPlayback) {
        assert d.events == e6;
      } else {
        AppendOne(e6, Play(synth.value));
        assert d.events == e6 + [Play(synth.value)];
      }
    }
  }

  /** The files steps 5-10 write are, in order, a prefix of the expected
      ones, and all of them when nothing raises. */
  lemma DeliveryWrites(paths: OutputPaths, audio: seq<real>, env: Env, synth: Option<seq<real>>)
    ensures var d := Delivery(paths, audio, env, synth);
      && Writes(d.events) <= ExpectedWrites(paths, env)
      && (d.failed.None? ==> Writes(d.events) == ExpectedWrites(paths, env))
  {
    var d := Delivery(paths, audio, env, synth);
    var text := env.transcribe(paths.wav, Language);
    var expected := ExpectedWrites(paths, env);
    var e3 := [WroteAudio(paths.wav, audio)];
    OneEvent(WroteAudio(paths.wav, audio));
    var e4 := e3 + [WroteMatrix(paths.csv, audio)];
    AppendOne(e3, WroteMatrix(paths.csv, audio));
    if env.FailsAt(AtSaveWav) {
      assert d.events == [];
    } else if env.FailsAt(AtSaveCsv) {
      assert d.events == e3;
    } else if Truthy(text) && env.FailsAt(AtSaveTxt) {
      assert d.events == e4;
    } else {
      var e5 := if Truthy(text) then e4 + [WroteText(paths.txt, text.value)] else e4;
      if Truthy(text) {
        AppendOne(e4, WroteText(paths.txt, text.value));
      }
      var writes5 := [paths.wav, paths.csv] + (if Truthy(text) then [paths.txt] else []);
      assert Writes(e5) == writes5;
      assert expected == writes5 + [paths.synth];
      if synth.None? || env.FailsAt(AtSaveSynth) {
        assert d.events == e5;
      } else {
        var e6 := e5 + [WroteAudio(paths.synth, synth.value)];
        AppendOne(e5, WroteAudio(paths.synth, synth.value));
        assert Writes(e6) == expected;
        if env.FailsAt(AtPlayback) {
          assert d.events == e6;
        } else {
          AppendOne(e6, Play(synth.value));
          assert d.events == e6 + [Play(synth.value)];
        }
      }
    }
  }

  /** Steps 5-10, when they complete, end by playing the synthesis. */
  lemma DeliveryEndsWithPlayback(paths: OutputPaths, audio: seq<real>, env: Env, synth: Option<seq<real>>)
    requires Delivery(paths, audio, env, synth).failed.None?
    ensures var d := Delivery(paths, audio, env, synth);
      && synth.Some? && |d.events| > 0 && d.events[|d.events| - 1] == Play(synth.value)
  {
  }

  /** The synthesiser returns a buffer for a non-empty input exactly when
      it does not raise. */
  lemma SynthesizedExists(audio: seq<real>, env: Env)
    requires env.WellFormed() && |audio| > 0
    ensures Synthesized(audio, env).Some? <==> !env.FailsAt(AtSynthesis)
  {
    assert |env.pitchShift(audio)| == |audio|;
  }

  /** Whether steps 5-10 complete: only a fault at one of them stops them
      (a fault at writing the text only when there is text to write), given
      a non-empty buffer and a pitch shift that keeps its length. */
  lemma DeliveryCompletes(paths: OutputPaths, audio: seq<real>, env: Env)
    requires env.WellFormed() && |audio| > 0
    ensures Delivery(paths, audio, env, Synthesized(audio, env)).failed.None? <==>
      && !env.FailsAt(AtSaveWav) && !env.FailsAt(AtSaveCsv)
      && !(env.FailsAt(AtSaveTxt) && Truthy(env.transcribe(paths.wav, Language)))
      && !env.FailsAt(AtSynthesis) && !env.FailsAt(AtSaveSynth) && !env.FailsAt(AtPlayback)
  {
    SynthesizedExists(audio, env);
  }

  /** Which transcript comes back changes nothing in steps 5-10 but the text
      file itself, unless writing that file raises. */
  lemma DeliveryIgnoresText(paths: OutputPaths, audio: seq<real>, env: Env, synth: Option<seq<real>>,
                            other: (string, string) -> Option<string>)
    requires !env.FailsAt(AtSaveTxt)
    ensures Delivery(paths, audio, env, synth).failed == Delivery(paths, audio, env.(transcribe := other), synth).failed
  {
  }

  /** Warm-up and countdown write nothing, report `preparing` 3, 2, 1 and,
      when they complete, `recording`; a failure there is at one of them. */
  lemma PreludeStepsTrace(tick: Option<seq<real>>, cue: Option<seq<real>>, warmUpFails: bool, playFails: bool)
    ensures var p := PreludeSteps(tick, cue, warmUpFails, playFails);
      && Writes(p.events) == []
      && (p.failed.None? ==> Statuses(p.events) == StatusOrder[..4])
      && (p.failed == Some(AtWarmUp) ==> Statuses(p.events) == [])
      && (Statuses(p.events) == [] || Statuses(p.events) == StatusOrder[..3] || Statuses(p.events) == StatusOrder[..4])
      && (p.failed.Some? ==> Order(p.failed.value) <= 1)
  {
    if !warmUpFails {
      var c := CountdownSteps(tick, cue, playFails);
      CountdownTrace(tick, cue, playFails);
      OneEvent(WarmedUp(WarmUpSeconds));
      StatusesAppend([WarmedUp(WarmUpSeconds)], c.events);
      WritesAppend([WarmedUp(WarmUpSeconds)], c.events);
      assert Statuses([WarmedUp(WarmUpSeconds)] + c.events) == Statuses(c.events);
      assert Writes([WarmedUp(WarmUpSeconds)] + c.events) == Writes(c.events);
    }
  }

  /** Storing and delivering a conditioned buffer reports no status,
      writes a prefix of the expected files (all of them on success), keeps
      the buffer as current_audio_processed with the flag lowered, and
      succeeds exactly when steps 5-10 complete. */
  lemma DeliveredTrace(paths: OutputPaths, c: Conditioned, env: Env)
    ensures var r := Delivered(paths, c, env);
      && Statuses(r.events) == []
      && Writes(r.events) <= ExpectedWrites(paths, env)
      && (r.result.Success? ==> Writes(r.events) == ExpectedWrites(paths, env))
      && r.stored == Some(c.audio) && !r.recording
      && (r.result.Failure? ==> Order(r.result.error) >= 4 && r.result.lastProcessed == r.stored)
      && (r.result.Success? ==> r.result == Success(paths.wav, paths.csv, paths.txt, paths.synth, c.audio, c.seconds, c.onsetMs))
      && (r.result.Success? <==> Delivery(paths, c.audio, env, Synthesized(c.audio, env)).failed.None?)
  {
    DeliveryQuiet(paths, c.audio, env, Synthesized(c.audio, env));
    DeliveryWrites(paths, c.audio, env, Synthesized(c.audio, env));
  }

  /** Once the capture returns: `processing` is reported, nothing is
      written before the buffer is conditioned, the recording flag is
      lowered, and a failure hands back the buffer stored at that moment. */
  lemma AfterCaptureTrace(n: nat, paths: OutputPaths, conditioned: Option<Conditioned>, env: Env,
                          stored: Option<seq<real>>)
    ensures var r := AfterCapture(n, paths, conditioned, env, stored);
      && Statuses(r.events) == [Processing]
      && Writes(r.events) <= ExpectedWrites(paths, env)
      && (r.result.Success? ==> Writes(r.events) == ExpectedWrites(paths, env))
      && (r.result.Failure? ==> Order(r.result.error) >= 3 && r.result.lastProcessed == r.stored)
      && (r.result.Failure? && Order(r.result.error) <= 3 ==> Writes(r.events) == [] && r.stored == stored)
      && (r.result.Failure? && Order(r.result.error) >= 4 ==>
            conditioned.Some? && r.stored == Some(conditioned.value.audio))
      && (r.result.Success? ==> r.stored == Some(r.result.processed))
      && !r.recording
  {
    var e2 := [Recorded(n), Status(Processing)];
    OneEvent(Recorded(n));
    AppendOne([Recorded(n)], Status(Processing));
    if conditioned.Some? {
      var rest := Delivered(paths, conditioned.value, env);
      DeliveredTrace(paths, conditioned.value, env);
      StatusesAppend(e2, rest.events);
      WritesAppend(e2, rest.events);
    }
  }

  /** From the capture on: `processing` is reported once the capture
      returns; nothing is written before the buffer is conditioned; the
      recording flag is left raised exactly when the capture raises; a
      failure hands back the buffer stored at that moment. */
  lemma AfterCountdownTrace(fs: Hertz, paths: OutputPaths, seconds: real, env: Env, stored: Option<seq<real>>)
    requires env.WellFormed()
    ensures var r := AfterCountdown(fs, paths, seconds, env, stored);
      && Statuses(r.events) == (if r.result.Failure? && r.result.error == AtCapture then [] else [Processing])
      && Writes(r.events) <= ExpectedWrites(paths, env)
      && (r.result.Success? ==> Writes(r.events) == ExpectedWrites(paths, env))
      && (r.result.Failure? ==> Order(r.result.error) >= 2 && r.result.lastProcessed == r.stored)
      && (r.result.Failure? && Order(r.result.error) <= 3 ==> Writes(r.events) == [] && r.stored == stored)
      && (r.result.Failure? && Order(r.result.error) >= 4 ==>
            Processed(fs, seconds, env).Some? && r.stored == Some(Processed(fs, seconds, env).value.audio))
      && (r.result.Success? ==> r.stored == Some(r.result.processed))
      && (r.recording <==> r.result.Failure? && r.result.error == AtCapture)
  {
    var n := TotalSamples(fs, seconds);
    if !(n < 0 || env.FailsAt(AtCapture)) {
      AfterCaptureTrace(n, paths, Processed(fs, seconds, env), env, stored);
    }
  }

  /** The status callback sees `preparing` 3, 2, 1, `recording`,
      `processing` in that order, cut short where the run fails: every run
      reports a prefix of that sequence, a run that gets past the capture
      reports all of it, and one whose capture raises all but `processing`. */
  lemma SessionStatuses(fs: Hertz, paths: OutputPaths, seconds: real, env: Env,
                        stored: Option<seq<real>>, recording: bool)
    requires env.WellFormed()
    ensures var run := Session(fs, paths, seconds, env, stored, recording);
      && Statuses(run.events) <= StatusOrder
      && (run.result.Success? ==> Statuses(run.events) == StatusOrder)
      && (run.result.Failure? && Order(run.result.error) >= 3 ==> Statuses(run.events) == StatusOrder)
      && (run.result.Failure? && run.result.error == AtCapture ==> Statuses(run.events) == StatusOrder[..4])
      && (run.result.Failure? && run.result.error == AtWarmUp ==> Statuses(run.events) == [])
  {
    var p := Prelude(fs, env);
    PreludeStepsTrace(Tick(fs, env.sine), Cue(fs, env.sine), env.FailsAt(AtWarmUp), env.FailsAt(AtCountdown));
    var run := Session(fs, paths, seconds, env, stored, recording);
    if p.failed.None? {
      var rest := AfterCountdown(fs, paths, seconds, env, stored);
      AfterCountdownTrace(fs, paths, seconds, env, stored);
      assert run == Run(p.events + rest.events, rest.result, rest.stored, rest.recording);
      StatusesAppend(p.events, rest.events);
      StatusOrderPrefixes();
    } else {
      assert run == Run(p.events, Failure(p.failed.value, stored), stored, recording);
    }
  }

  /** Files are written in the order processed audio, sample matrix,
      transcript (only when there is text), synthesis: every run writes a
      prefix of that list, a successful one all of it, and a run that fails
      before its buffer is conditioned writes nothing. */
  lemma SessionWrites(fs: Hertz, paths: OutputPaths, seconds: real, env: Env,
                      stored: Option<seq<real>>, recording: bool)
    requires env.WellFormed()
    ensures var run := Session(fs, paths, seconds, env, stored, recording);
      && Writes(run.events) <= ExpectedWrites(paths, env)
      && (run.result.Success? ==> Writes(run.events) == ExpectedWrites(paths, env))
      && (run.result.Failure? && Order(run.result.error) <= 3 ==> Writes(run.events) == [])
  {
    var p := Prelude(fs, env);
    PreludeStepsTrace(Tick(fs, env.sine), Cue(fs, env.sine), env.FailsAt(AtWarmUp), env.FailsAt(AtCountdown));
    if p.failed.None? {
      var rest := AfterCountdown(fs, paths, seconds, env, stored);
      AfterCountdownTrace(fs, paths, seconds, env, stored);
      WritesAppend(p.events, rest.events);
    }
  }

  /** What a run leaves behind. A failed run returns the buffer stored when
      it failed: the previous one if it failed before the new buffer was
      conditioned, the new one otherwise; a successful run stores what it
      returns. The recording flag is left raised when the capture raises,
      untouched when the run fails before the capture, and lowered
      otherwise. */
  lemma SessionState(fs: Hertz, paths: OutputPaths, seconds: real, env: Env,
                     stored: Option<seq<real>>, recording: bool)
    requires env.WellFormed()
    ensures var run := Session(fs, paths, seconds, env, stored, recording);
      && (run.result.Failure? ==> run.result.lastProcessed == run.stored)
      && (run.result.Failure? && Order(run.result.error) <= 3 ==> run.stored == stored)
      && (run.result.Failure? && Order(run.result.error) >= 4 ==>
            Processed(fs, seconds, env).Some? && run.stored == Some(Processed(fs, seconds, env).value.audio))
      && (run.result.Success? ==> run.stored == Some(run.result.processed))
      && (run.result.Failure? && Order(run.result.error) <= 1 ==> run.recording == recording)
      && (run.result.Failure? && run.result.error == AtCapture ==> run.recording)
      && (run.result.Success? || Order(run.result.error) >= 3 ==> !run.recording)
  {
    PreludeStepsTrace(Tick(fs, env.sine), Cue(fs, env.sine), env.FailsAt(AtWarmUp), env.FailsAt(AtCountdown));
    AfterCountdownTrace(fs, paths, seconds, env, stored);
  }

  /** From the capture on, a run succeeds exactly when the capture and
      procesar_audio return and steps 5-10 complete. */
  lemma AfterCountdownSucceeds(fs: Hertz, paths: OutputPaths, seconds: real, env: Env, stored: Option<seq<real>>)
    requires env.WellFormed()
    ensures AfterCountdown(fs, paths, seconds, env, stored).result.Success? <==>
      && Processed(fs, seconds, env).Some?
      && Delivery(paths, Processed(fs, seconds, env).value.audio, env,
                  Synthesized(Processed(fs, seconds, env).value.audio, env)).failed.None?
  {
    var c := Processed(fs, seconds, env);
    if c.Some? {
      DeliveredTrace(paths, c.value, env);
    }
  }

  /** Warm-up and countdown return exactly when neither raises and the
      countdown's beeps can be built. */
  lemma PreludeCompletes(fs: Hertz, env: Env)
    ensures Prelude(fs, env).failed.None? <==>
      !env.FailsAt(AtWarmUp) && !env.FailsAt(AtCountdown)
      && CountdownSteps(Tick(fs, env.sine), Cue(fs, env.sine), false).completed
  {
  }

  /** A run succeeds exactly when warm-up and countdown return and the rest
      of the run succeeds. */
  lemma SessionSucceeds(fs: Hertz, paths: OutputPaths, seconds: real, env: Env,
                        stored: Option<seq<real>>, recording: bool)
    requires env.WellFormed()
    ensures Session(fs, paths, seconds, env, stored, recording).result.Success? <==>
      Prelude(fs, env).failed.None? && AfterCountdown(fs, paths, seconds, env, stored).result.Success?
  {
  }

  /** A run succeeds exactly when no step raises (a fault at writing the
      transcript counts only when there is text to write), the countdown's
      beeps can be built, the sample rate is above the 160 Hz the filter
      design needs, the sample count is not negative and the conditioner
      accepts the capture. */
  lemma SuccessIff(fs: Hertz, paths: OutputPaths, seconds: real, env: Env,
                   stored: Option<seq<real>>, recording: bool)
    requires env.WellFormed()
    ensures Session(fs, paths, seconds, env, stored, recording).result.Success? <==>
      && (env.fault.None? || (env.fault.value == AtSaveTxt && !Truthy(env.transcribe(paths.wav, Language))))
      && CountdownSteps(Tick(fs, env.sine), Cue(fs, env.sine), false).completed
      && fs > MaxRejectedRate
      && TotalSamples(fs, seconds) >= 0
      && Condition(fs, Captured(TotalSamples(fs, seconds), env.microphone), env.highPass, env.trim).Some?
  {
    SessionSucceeds(fs, paths, seconds, env, stored, recording);
    PreludeCompletes(fs, env);
    AfterCountdownSucceeds(fs, paths, seconds, env, stored);
    var n := TotalSamples(fs, seconds);
    var c := Processed(fs, seconds, env);
    assert c.Some? <==> (n >= 0 && !env.FailsAt(AtCapture) && !env.FailsAt(AtProcessing)
                         && Condition(fs, Captured(n, env.microphone), env.highPass, env.trim).Some?);
    if c.Some? {
      var raw := Captured(n, env.microphone);
      ConditionShape(fs, raw, env.highPass, env.trim);
      DeliveryCompletes(paths, c.value.audio, env);
    }
  }

  /** A successful run returns the four paths and the conditioned buffer
      with its duration and onset; the buffer is non-empty, within 0.95 and
      peaks at 0.95 unless silent. */
  lemma SuccessResult(fs: Hertz, paths: OutputPaths, seconds: real, env: Env,
                      stored: Option<seq<real>>, recording: bool)
    requires env.WellFormed()
    requires Session(fs, paths, seconds, env, stored, recording).result.Success?
    ensures Processed(fs, seconds, env).Some?
    ensures var run, c := Session(fs, paths, seconds, env, stored, recording), Processed(fs, seconds, env).value;
      && run.result == Success(paths.wav, paths.csv, paths.txt, paths.synth, c.audio, c.seconds, c.onsetMs)
      && |c.audio| > 0
      && (forall i :: 0 <= i < |c.audio| ==> Abs(c.audio[i]) <= PeakTarget)
      && (Peak(c.audio) == PeakTarget || Silent(c.audio))
  {
    var n := TotalSamples(fs, seconds);
    var raw := Captured(n, env.microphone);
    assert Prelude(fs, env).failed.None?;
    ConditionLevel(fs, raw, env.highPass, env.trim);
  }

  lemma AfterCountdownEndsWithPlayback(fs: Hertz, paths: OutputPaths, seconds: real, env: Env, stored: Option<seq<real>>)
    requires env.WellFormed()
    requires AfterCountdown(fs, paths, seconds, env, stored).result.Success?
    ensures Processed(fs, seconds, env).Some?
    ensures var r, c := AfterCountdown(fs, paths, seconds, env, stored), Processed(fs, seconds, env).value;
      && Synthesize(env.pitchShift(c.audio), env.dither).Some?
      && |r.events| > 0
      && r.events[|r.events| - 1] == Play(Synthesize(env.pitchShift(c.audio), env.dither).value)
  {
    var c := Processed(fs, seconds, env).value;
    DeliveryEndsWithPlayback(paths, c.audio, env, Synthesized(c.audio, env));
  }

  /** A successful run ends by playing the synthesis of its buffer. */
  lemma SuccessEndsWithPlayback(fs: Hertz, paths: OutputPaths, seconds: real, env: Env,
                                stored: Option<seq<real>>, recording: bool)
    requires env.WellFormed()
    requires Session(fs, paths, seconds, env, stored, recording).result.Success?
    ensures Processed(fs, seconds, env).Some?
    ensures var run, c := Session(fs, paths, seconds, env, stored, recording), Processed(fs, seconds, env).value;
      && Synthesize(env.pitchShift(c.audio), env.dither).Some?
      && |run.events| > 0
      && run.events[|run.events| - 1] == Play(Synthesize(env.pitchShift(c.audio), env.dither).value)
  {
    var p := Prelude(fs, env);
    assert p.failed.None?;
    var rest := AfterCountdown(fs, paths, seconds, env, stored);
    AfterCountdownEndsWithPlayback(fs, paths, seconds, env, stored);
    var run := Session(fs, paths, seconds, env, stored, recording);
    assert run.events == p.events + rest.events;
  }

  /** At the default 8000 Hz a request of zero seconds or more records at
      least the 4000-frame pre-roll, so the filter always has enough input;
      with no fault the run succeeds exactly when the trim keeps something. */
  lemma SuccessAt8000(paths: OutputPaths, seconds: real, env: Env,
                      stored: Option<seq<real>>, recording: bool, n: nat)
    requires env.WellFormed() && env.fault.None? && seconds >= 0.0
    requires n == TotalSamples(8000, seconds)
    ensures n >= 4000
    ensures var b := env.trim(env.highPass(Captured(n, env.microphone)));
      Session(8000, paths, seconds, env, stored, recording).result.Success? <==> b.0 < b.1
  {
    PrerollOnlyAdds(8000, seconds);
    assert PrerollSeconds * 8000 as real == 4000.0;
    CountdownAt8000(env.sine);
    SuccessIff(8000, paths, seconds, env, stored, recording);
    ConditionFails(8000, Captured(n, env.microphone), env.highPass, env.trim);
  }

  /** A trim that keeps nothing makes procesar_audio raise (y[0] of an empty
      buffer): the run fails at processing, writes nothing, lowers the
      recording flag and hands back the buffer it started with. */
  lemma EmptyTrimFails(fs: Hertz, paths: OutputPaths, seconds: real, env: Env,
                       stored: Option<seq<real>>, recording: bool, n: nat)
    requires env.WellFormed()
    requires env.fault.None? || Order(env.fault.value) >= 3
    requires CountdownSteps(Tick(fs, env.sine), Cue(fs, env.sine), false).completed
    requires n == TotalSamples(fs, seconds)
    requires var b := env.trim(env.highPass(Captured(n, env.microphone))); b.0 == b.1
    ensures var run := Session(fs, paths, seconds, env, stored, recording);
      && run.result == Failure(AtProcessing, stored)
      && run.stored == stored && !run.recording
      && Writes(run.events) == []
  {
    var p := Prelude(fs, env);
    assert p.failed.None?;
    PreludeStepsTrace(Tick(fs, env.sine), Cue(fs, env.sine), env.FailsAt(AtWarmUp), env.FailsAt(AtCountdown));
    var e2 := EmptyTrimStops(fs, paths, seconds, env, stored, n);
    WritesAppend(p.events, e2);
  }

  /** Step 4 when the trim keeps nothing: the capture is logged, the
      status turns to processing, and conditioning fails. */
  lemma EmptyTrimStops(fs: Hertz, paths: OutputPaths, seconds: real, env: Env,
                       stored: Option<seq<real>>, n: nat) returns (e2: seq<Event>)
    requires env.WellFormed()
    requires env.fault.None? || Order(env.fault.value) >= 3
    requires n == TotalSamples(fs, seconds)
    requires var b := env.trim(env.highPass(Captured(n, env.microphone))); b.0 == b.1
    ensures Writes(e2) == []
    ensures AfterCountdown(fs, paths, seconds, env, stored) == Run(e2, Failure(AtProcessing, stored), stored, false)
  {
    ConditionFails(fs, Captured(n, env.microphone), env.highPass, env.trim);
    assert Processed(fs, seconds, env).None?;
    e2 := [Recorded(n), Status(Processing)];
    CaptureLogWritesNothing(n);
  }

  lemma CaptureLogWritesNothing(n: nat)
    ensures Writes([Recorded(n), Status(Processing)]) == []
  {
    AppendOne([Recorded(n)], Status(Processing));
    OneEvent(Recorded(n));
  }

  /** A failed or empty transcription is not an error: unless writing the
      transcript raises, what the recogniser returns changes neither the
      result, nor the stored buffer, nor the recording flag. */
  lemma TranscriptionNonFatal(fs: Hertz, paths: OutputPaths, seconds: real, env: Env,
                              stored: Option<seq<real>>, recording: bool,
                              other: (string, string) -> Option<string>)
    requires env.WellFormed() && !env.FailsAt(AtSaveTxt)
    ensures env.(transcribe := other).WellFormed()
    ensures var a, b := Session(fs, paths, seconds, env, stored, recording),
                        Session(fs, paths, seconds, env.(transcribe := other), stored, recording);
      a.result == b.result && a.stored == b.stored && a.recording == b.recording
  {
    var env' := env.(transcribe := other);
    assert Prelude(fs, env) == Prelude(fs, env');
    assert Processed(fs, seconds, env) == Processed(fs, seconds, env');
    var c := Processed(fs, seconds, env);
    if c.Some? {
      assert Synthesized(c.value.audio, env) == Synthesized(c.value.audio, env');
      DeliveryIgnoresText(paths, c.value.audio, env, Synthesized(c.value.audio, env), other);
    }
  }
}

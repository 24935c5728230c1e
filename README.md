# AudioEngine: a verified model of the capture-and-processing core

This project models the `AudioEngine` class of a telephony-grade (8 kHz /
8-bit) voice recorder and re-synthesiser, written in Python. It covers:

- the beep generator (`generar_beep`) and the countdown (`cuenta_regresiva`);
- the pre-roll arithmetic and recording flag of the capture (`grabar_audio`);
- the signal conditioner of `procesar_audio`: pre-emphasis and peak normalisation after an abstract high-pass filter and silence trim;
- the post-processing of the synthesiser (`sintetizar_voz`): normalisation to -1 dBFS, dither and clipping;
- the orchestration of a full session (`proceso_completo`): stage order, output file names, transcription as a non-fatal step, and the catch-all failure result.

Samples are Dafny `real`s. The project is organised by the engine's own
structure:

| module | what it holds |
|---|---|
| `Samples` | `int()` truncation, frame counts, the peak magnitude, peak normalisation |
| `Tone` | the beep: `np.linspace`, the carrier, both fade ramps, and when numpy's broadcasting raises |
| `Conditioning` | pre-emphasis and its inverse, and the conditioner with the filter and trim as parameters |
| `Synthesis` | normalise, dither, clip |
| `Capture` | the pre-rolled sample count and the captured buffer |
| `Paths` | `posixpath.join` and the four output paths |
| `Engine` | the environment, the event trace, spec functions for the countdown and the session, and the `AudioEngine` class |
| `SessionFacts` | properties of a whole run, read off its trace |

Everything outside the engine's own code is a field of `Engine.Env`:

- the sine;
- the microphone samples;
- the high-pass filter and the trim;
- the recogniser;
- the pitch shift;
- the dither draws;
- `fault`, the device, disk or library call that raises first, if any.

`Env.WellFormed` states what the model assumes of these collaborators:
|sin| <= 1, trim returns a slice, the pitch shift keeps the length, and each
dither draw lies within +-1/512.

The class `Engine.AudioEngine` keeps the engine's state in the fields
`isRecording`, `currentAudioProcessed` and `trace`. Its methods are tied to
the spec functions as follows:

- `GenerateBeep` (with its two in-place ramp loops) returns a fresh array holding `Beep` and updates none of the fields.
- `Countdown` (with its two counting loops) appends the events of `CountdownSteps` to `trace`.
- `Record` returns `Captured` and updates `isRecording` and `trace`.
- `Process` returns `Condition` and appends to `trace`.
- `Prepare` appends the events of `Prelude`, and `Deliver` those of `Delivery`.
- `StoreAndDeliver` updates `currentAudioProcessed` and `trace` as `Delivered` says.
- `CaptureOnward` and `RunFullSession` update all three fields as `AfterCountdown` and `Session` say.

The spec functions for later stages take the earlier stages' results as
parameters (`CountdownSteps` and `PreludeSteps` the two beeps,
`AfterCapture` the conditioner's result, `Delivery` the synthesis), so their
properties hold for any such result. The properties of those functions are
proved as lemmas.

Failures the source computes itself are modelled as `None` results rather
than preconditions:

- `generar_beep` raises when a ramp does not fit the buffer under numpy's broadcasting rules. With a fade length of 0, `beep[-0:]` is the whole buffer.
- `sd.rec` refuses a negative frame count.
- `butter` raises at a sample rate of 160 Hz or less, where the cutoff 80 / (fs / 2) is not below 1.
- `filtfilt` raises on 12 samples or fewer.
- `y[0]` raises on an empty trimmed buffer.
- `np.max` raises on an empty pitch-shifted buffer.

Three behaviours of the code are worth stating outright:

- An empty trimmed signal is not a successful run with empty audio: `y[0]` at src/audio_engine.py:193 raises, so the run ends in the failure branch (`SessionFacts.EmptyTrimFails`).
- The beep fades over `int(fs * 0.01)` samples with no minimum. Below 100 Hz this is 0, and a non-empty beep then raises (`Tone.NoFadeBelow100Hz`).
- When the capture raises, nothing is captured, yet the run hands back whatever `current_audio_processed` held before, and `is_recording` stays raised (`SessionFacts.SessionState`).

## Model

| member | source | states |
|---|---|---|
| Samples.Trunc | src/audio_engine.py:152 | `int()` of a float truncates toward zero: the result lies within one of x on the side of zero |
| Samples.PeakIsMax | src/audio_engine.py:197 | `np.max(np.abs(y))` bounds every magnitude and is attained by some sample |
| Samples.PeakZeroIffSilent | src/audio_engine.py:197 | the peak is 0 exactly when every sample is 0 |
| Samples.NormalizeIsGain | src/audio_engine.py:197-198 | with a positive peak every sample is multiplied by the same gain, target / peak |
| Samples.NormalizeMeetsTarget | src/audio_engine.py:197-198 | for a positive peak every magnitude is at most the target and the new peak equals it; a silent buffer is returned unchanged |
| Tone.Linspace | src/audio_engine.py:76 | `np.linspace` starts at `start` and, with two or more points, ends at `stop` |
| Tone.BeepShape | src/audio_engine.py:76-82 | a beep exists exactly when its sample count is non-negative and both ramps fit, and it then has `int(fs * seconds)` samples |
| Tone.BeepAt8000 | src/audio_engine.py:76-80 | at 8000 Hz the ramps are 80 samples, the 0.15 s beep has 1200 samples and the 0.2 s cue 1600, and every countdown beep exists |
| Tone.NoFadeBelow100Hz | src/audio_engine.py:80-82 | below 100 Hz the ramp length is 0 and any non-empty beep raises |
| Tone.LinspaceEvenlySpaced | src/audio_engine.py:76-82 | consecutive `np.linspace` points differ by the same step (stop - start) / (num - 1), so the ramps are linear |
| Tone.RampsMonotone | src/audio_engine.py:81-82 | the fade-in ramp rises strictly from 0 to 1, the fade-out ramp falls strictly from 1 to 0 |
| Tone.RampBetweenZeroAndOne | src/audio_engine.py:81-82 | every ramp value lies in [0, 1] |
| Tone.CarrierBounded | src/audio_engine.py:77 | the carrier `0.3 * sin(...)` has magnitude at most 0.3 when the sine stays in [-1, 1] |
| Tone.FadeInBounded | src/audio_engine.py:81 | the fade-in never raises a sample's magnitude above a bound the input respects |
| Tone.FadeOutBounded | src/audio_engine.py:82 | the fade-out never raises a sample's magnitude above a bound the input respects |
| Tone.BeepBounded | src/audio_engine.py:76-82 | every beep sample has magnitude at most 0.3 when the sine stays in [-1, 1] |
| Tone.BeepEnvelope | src/audio_engine.py:79-82 | when the ramps do not overlap, the first `fade` samples carry the rising ramp, the last `fade` the falling one, and the middle is the carrier untouched |
| Conditioning.DeEmphasisRecurrence | src/audio_engine.py:193 | the inverse filter satisfies x[0] = e[0] and x[n] = e[n] + 0.97 * x[n-1] |
| Conditioning.PreEmphasisIs | src/audio_engine.py:193 | a buffer whose samples meet the pre-emphasis recurrence against `e` pre-emphasises to `e` |
| Conditioning.PreEmphasis | src/audio_engine.py:193 | fails exactly on an empty buffer; otherwise keeps the length and the first sample, and each later sample is `y[n] - 0.97 * y[n-1]` |
| Conditioning.DeEmphasisUndoesPreEmphasis | src/audio_engine.py:193 | de-emphasis recovers the input of pre-emphasis exactly |
| Conditioning.PreEmphasisUndoesDeEmphasis | src/audio_engine.py:193 | pre-emphasis of a de-emphasised buffer gives it back, so pre-emphasis is a bijection on non-empty buffers |
| Conditioning.CutoffInRange | src/audio_engine.py:180 | the normalised cutoff 80 / (fs / 2) lies strictly between 0 and 1, as `butter` requires, exactly when fs > 160 |
| Conditioning.ConditionFails | src/audio_engine.py:180-193 | conditioning fails exactly when the rate is 160 Hz or less (butter), the capture has at most 12 samples (filtfilt padding) or the trim keeps nothing |
| Conditioning.ConditionShape | src/audio_engine.py:184-189 | otherwise the output is as long as the kept slice and non-empty, its duration is length / fs and its onset is start / fs * 1000 ms |
| Conditioning.ConditionLevel | src/audio_engine.py:193-198 | otherwise every output magnitude is at most 0.95, and the peak is exactly 0.95 unless the output is silent |
| Conditioning.ConditionGain | src/audio_engine.py:193-198 | when the pre-emphasised slice has a positive peak, the output is that slice times the one gain 0.95 / peak |
| Conditioning.SilenceStaysSilent | src/audio_engine.py:193-198 | an all-zero slice stays all zero through pre-emphasis and is not rescaled |
| Synthesis.AddDither | src/audio_engine.py:280-286 | the dithered buffer has the length of its input |
| Synthesis.Clip | src/audio_engine.py:290 | `np.clip` keeps the length, lands in [-1, 1], leaves in-range samples unchanged, and saturates samples above 1 to 1 and below -1 to -1 |
| Synthesis.Synthesize | src/audio_engine.py:269-292 | fails exactly on an empty pitch-shifted buffer; otherwise keeps the length and every sample is in [-1, 1] |
| Synthesis.SynthesisLevel | src/audio_engine.py:269-275 | after normalisation every magnitude is at most 10^(-1/20) and the peak equals it, unless the buffer is silent, in which case it is unchanged |
| Synthesis.SynthesisGain | src/audio_engine.py:269-275 | with a positive peak the normalisation multiplies every sample by the same gain, 10^(-1/20) / peak |
| Synthesis.ClipNeverEngages | src/audio_engine.py:272-290 | with dither within +-1/512 the clip changes nothing |
| Synthesis.DitherWithinHalfStep | src/audio_engine.py:280-290 | each output sample differs from the normalised sample by exactly its dither draw, so by at most 1/512 |
| Synthesis.SilentInputYieldsDither | src/audio_engine.py:272-290 | a silent input comes out as the dither alone |
| Capture.Captured | src/audio_engine.py:159-165 | the flattened capture has exactly the requested number of samples |
| Capture.PrerollOnlyAdds | src/audio_engine.py:151-152 | the sample count is `floor((seconds + 0.5) * fs)` and at least `int(seconds * fs) + int(0.5 * fs)` |
| Capture.PrerollNeverShortens | src/audio_engine.py:151-152 | for every request, negative ones included, the padded count is at least `int(seconds * fs)` |
| Capture.NegativeCount | src/audio_engine.py:151-159 | the count is negative exactly when the padded duration is at most -1 frame, never for a request of -0.5 s or more |
| Capture.ThreeSecondsAt8000 | src/audio_engine.py:151-152 | 3 s at 8000 Hz records 28000 samples |
| Paths.Join | src/audio_engine.py:322-325 | `os.path.join` ends with the joined name |
| Paths.JoinAppends | src/audio_engine.py:322-325 | joining `stem + suffix` is joining `stem` and appending `suffix` |
| Paths.JoinUnderFolder | src/audio_engine.py:322-325 | `os.path.join` returns an absolute name as it is; otherwise the folder is a prefix and a `/` is inserted exactly when the folder is non-empty and does not already end in one |
| Paths.PathsUnderFolder | src/audio_engine.py:322-325 | for a relative base name all four output paths start with the output folder |
| Paths.PathsFromBase | src/audio_engine.py:322-325 | the paths are the joined base name plus `.wav`, `_matriz.csv`, `.txt` and `_synth.wav`, pairwise distinct |
| Engine.AudioEngine.constructor | src/audio_engine.py:22-34 | a new engine is not recording, holds no processed buffer and has an empty trace |
| Engine.AudioEngine.Default | src/audio_engine.py:22-34 | `AudioEngine()` runs at 8000 Hz into `./output`, not recording, with no processed buffer and an empty trace |
| Engine.AudioEngine.FadeInPlace | src/audio_engine.py:81 | the in-place loop leaves the array equal to `FadeIn` of its old contents |
| Engine.AudioEngine.FadeOutInPlace | src/audio_engine.py:82 | the in-place loop leaves the array equal to `FadeOut` of its old contents |
| Engine.AudioEngine.GenerateBeep | src/audio_engine.py:65-84 | returns a fresh array holding `Beep` exactly when `Beep` exists |
| Engine.AudioEngine.Countdown | src/audio_engine.py:111-135 | the two counting loops append exactly the events of `CountdownSteps` and report whether it completed |
| Engine.AudioEngine.Record | src/audio_engine.py:137-165 | returns the pre-rolled capture unless the count is negative or the device raises; the recording flag stays raised exactly on failure |
| Engine.AudioEngine.Process | src/audio_engine.py:167-200 | reports `processing`, then returns the conditioner's result |
| Engine.AudioEngine.Prepare | src/audio_engine.py:327-332 | warm-up then countdown, appending exactly the events of `Prelude` and reporting where it raised |
| Engine.AudioEngine.Deliver | src/audio_engine.py:341-361 | steps 5-10 append exactly the events of `Delivery` and report where they raised |
| Engine.AudioEngine.CaptureOnward | src/audio_engine.py:334-382 | from the capture on, result, trace, stored buffer and flag are those of `AfterCountdown` |
| Engine.AudioEngine.StoreAndDeliver | src/audio_engine.py:339-374 | storing the conditioned buffer and running steps 5-10 leave result, trace and stored buffer as `Delivered` says |
| Engine.AudioEngine.RunFullSession | src/audio_engine.py:305-382 | result, trace, stored buffer and recording flag are those of `Session` for the chosen folder and base name |
| SessionFacts.CountdownTrace | src/audio_engine.py:116-135 | the countdown writes nothing and reports `preparing` 3, 2, 1, then `recording` exactly when the tick exists and its playback does not raise |
| SessionFacts.CountdownAt8000 | src/audio_engine.py:111-135 | at 8000 Hz a countdown whose playback does not raise completes, and its trace is three `preparing` ticks with 0.8 s waits, three 1200-sample beeps with 0.6 s waits, `recording`, and the 1600-sample cue |
| SessionFacts.PreludeStepsTrace | src/audio_engine.py:327-332 | for any beeps and faults, warm-up and countdown write nothing, report a prefix of the statuses ending at `recording` when they complete, and fail only at one of those two steps |
| SessionFacts.PreludeCompletes | src/audio_engine.py:327-332 | warm-up and countdown complete exactly when neither raises and the countdown's beeps exist |
| SessionFacts.DeliveryQuiet | src/audio_engine.py:341-361 | steps 5-10 report no status, and a failure there is a failure of one of these steps |
| SessionFacts.DeliveryWrites | src/audio_engine.py:341-357 | steps 5-10 write a prefix of wav, csv, txt (only when there is text), synth, and all of it when nothing raises |
| SessionFacts.DeliveryEndsWithPlayback | src/audio_engine.py:353-361 | completed steps 5-10 end by playing the synthesis |
| SessionFacts.SynthesizedExists | src/audio_engine.py:269-292 | for a non-empty buffer the synthesis exists exactly when it does not raise |
| SessionFacts.DeliveryCompletes | src/audio_engine.py:341-361 | steps 5-10 complete exactly when none of wav, csv, synthesis, synth file and playback raises and writing the text does not raise while there is text |
| SessionFacts.DeliveryIgnoresText | src/audio_engine.py:347-351 | what the recogniser returns does not change whether or where steps 5-10 fail |
| SessionFacts.DeliveredTrace | src/audio_engine.py:339-374 | storing and delivering a buffer reports no status, writes a prefix of the expected files (all on success), stores the buffer with the flag lowered, fails only at steps 5-10, and succeeds exactly when they complete, returning the paths and the buffer's duration and onset |
| SessionFacts.AfterCaptureTrace | src/audio_engine.py:338-374 | once the capture returns: `processing` is reported, nothing is written before conditioning, the flag is lowered, and a failure hands back the buffer stored at that moment |
| SessionFacts.AfterCountdownTrace | src/audio_engine.py:334-382 | `processing` is reported once the capture returns; nothing is written before conditioning; the flag stays raised exactly when the capture raises; a failure hands back the buffer stored at that moment |
| SessionFacts.AfterCountdownEndsWithPlayback | src/audio_engine.py:353-374 | a successful run from the capture on ends by playing the synthesis of the conditioned buffer |
| SessionFacts.SessionStatuses | src/audio_engine.py:327-338 | statuses are a prefix of `preparing` 3, 2, 1, `recording`, `processing`; all of them once past the capture; all but `processing` when the capture raises |
| SessionFacts.SessionWrites | src/audio_engine.py:334-357 | written files are a prefix of wav, csv, txt (only with text), synth; all of them on success; none when the run fails before conditioning |
| SessionFacts.SessionState | src/audio_engine.py:334-382 | a failure returns the stored buffer: the old one before conditioning, the new one after; success stores what it returns; the flag is unchanged before the capture, raised when the capture raises, lowered otherwise |
| SessionFacts.AfterCountdownSucceeds | src/audio_engine.py:334-374 | from the capture on, a run succeeds exactly when the conditioner returns and steps 5-10 complete |
| SessionFacts.SessionSucceeds | src/audio_engine.py:327-374 | a run succeeds exactly when warm-up and countdown complete and the rest succeeds |
| SessionFacts.SuccessIff | src/audio_engine.py:327-374 | a run succeeds exactly when nothing raises, both countdown beeps exist, the rate is above 160 Hz, the sample count is non-negative and the conditioner accepts the capture |
| SessionFacts.SuccessResult | src/audio_engine.py:336-374 | success returns the four paths, including the txt path when no text was written, and the conditioned buffer with its duration and onset; the buffer is non-empty and within 0.95 |
| SessionFacts.SuccessEndsWithPlayback | src/audio_engine.py:353-374 | a successful run ends by playing the synthesis of its buffer |
| SessionFacts.SuccessAt8000 | src/audio_engine.py:151-193 | at 8000 Hz a request of 0 s or more records at least 4000 samples, and with no fault the run succeeds exactly when the trim keeps something |
| SessionFacts.EmptyTrimStops | src/audio_engine.py:184-193 | when the trim keeps nothing, the run from the capture on logs the capture, reports `processing`, writes nothing and fails at processing with the old buffer |
| SessionFacts.EmptyTrimFails | src/audio_engine.py:184-193 | an empty trim fails the run at processing, with no file written, the flag lowered and the old buffer returned |
| SessionFacts.TranscriptionNonFatal | src/audio_engine.py:236-245 | unless writing the transcript raises, the recogniser's answer (including `None`) changes neither the result, nor the stored buffer, nor the flag |

## Left out

- Device I/O (`sd.InputStream`, `sd.rec`, `sd.play`, `sd.wait`, the low-latency setting) is recorded as trace events (`WarmedUp`, `Recorded`, `Play`). The devices themselves and their timing are not modelled.
- Timed waits (`threading.Event().wait`) are trace entries carrying their durations, not real time.
- Log lines, their `datetime` timestamps and the text of the failure message (`str(e)`) are not modelled. A failure carries the stage that raised.
- `butter`/`filtfilt`, `librosa.effects.trim` and `librosa.effects.pitch_shift` are opaque functions. Only the facts in `Env.WellFormed` are assumed, and the filter's own numerics are not modelled.
- `np.random.uniform` is an arbitrary sequence of draws within +-1/512. The distribution is not modelled.
- `sf.write`, `np.savetxt`, the text file write and Google speech recognition are trace events or `Env` functions. File contents, 8-bit PCM quantisation and the network are not modelled.
- IEEE-754 rounding: samples are exact reals, and 10^(-1/20) is the decimal constant 0.8912509381337456. The proofs use that it is positive and that it plus the dither bound 1/512 is at most 1.
- `Engine.Env.fault` names only the first call that raises. Inside the countdown, a playback fault is placed at the first tick. Faults at later ticks end the run the same way and are not told apart. A fault at the start cue (src/audio_engine.py:134) also ends the run, but the source has then already reported `recording`; the modelled trace stops before it, so its statuses lack `recording` for that case.
- `os.path.join` is modelled as `posixpath.join`, on `/` separators. Windows `ntpath` semantics (drive letters, `\` separators) are not modelled.
- The requested duration is a finite real. A NaN or infinite value from `float()` at src/main.py:256 makes `int()` at src/audio_engine.py:152 raise before `is_recording` is raised at src/audio_engine.py:156; that path is not modelled.
- The sample rate is a positive integer (`Engine.Hertz`). `int(fs * seconds)` with a zero or negative rate is not modelled.
- The unused field `current_audio`, the callback setters and `reproducir_audio`'s device call beyond its trace event are not modelled.
- The GUI and its threading are not modelled.

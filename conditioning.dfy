/** The signal conditioner of procesar_audio: high-pass filter, silence trim,
    pre-emphasis and peak normalisation to 0.95. The Butterworth/filtfilt
    filter and librosa's trim are parameters: `highPass` is any function on
    buffers and `trim` returns the [start, end) bounds of the kept slice. */
module Conditioning {
  import opened Samples

  const PreEmphasisCoef: real := 0.97
  const PeakTarget: real := 0.95
  /** The high-pass corner of `butter(3, 80 / (fs / 2))`, in Hz. */
  const HighPassHz: real := 80.0
  /** The highest sample rate at which `butter` raises: scipy requires the
      normalised cutoff 80 / (fs / 2) to lie strictly between 0 and 1
      (`CutoffInRange`). */
  const MaxRejectedRate: int := 160

  /** The cutoff as a fraction of the Nyquist frequency, as passed to butter. */
  function CutoffRatio(fs: int): real
    requires fs > 0
  {
    HighPassHz / (fs as real / 2.0)
  }

  /** butter accepts the cutoff exactly above 160 Hz. */
  lemma CutoffInRange(fs: int)
    requires fs > 0
    ensures 0.0 < CutoffRatio(fs) < 1.0 <==> fs > MaxRejectedRate
  {
    var f := fs as real;
    assert CutoffRatio(fs) * f == 160.0;
    if fs > MaxRejectedRate {
      assert CutoffRatio(fs) * f < f;
    } else {
      assert CutoffRatio(fs) * f >= f;
    }
  }

  /** filtfilt(b, a, x) with the 4-tap third-order Butterworth pads by
      3 * 4 samples and raises unless len(x) exceeds that. */
  const FiltFiltPadLen: int := 12

  /** librosa.effects.trim keeps a contiguous slice of its input. */
  predicate TrimIsSlice(bounds: (int, int), n: int)
  {
    0 <= bounds.0 <= bounds.1 <= n
  }

  /** `np.append(y[0], y[1:] - 0.97 * y[:-1])`; indexing y[0] raises on an
      empty buffer. */
  function PreEmphasis(y: seq<real>): (r: Option<seq<real>>)
    ensures r.None? <==> |y| == 0
    ensures r.Some? ==> |r.value| == |y| && r.value[0] == y[0]
    ensures r.Some? ==> forall n :: 1 <= n < |y| ==> r.value[n] == y[n] - PreEmphasisCoef * y[n - 1]
  {
    if |y| == 0 then None
    else Some([y[0]] + seq(|y| - 1, k requires 0 <= k < |y| - 1 => y[k + 1] - PreEmphasisCoef * y[k]))
  }

  /** The inverse recurrence x[0] = e[0], x[n] = e[n] + 0.97 * x[n - 1]. */
  function DeEmphasis(e: seq<real>): (x: seq<real>)
    ensures |x| == |e|
  {
    if |e| <= 1 then e
    else
      var prev := DeEmphasis(e[..|e| - 1]);
      prev + [e[|e| - 1] + PreEmphasisCoef * prev[|prev| - 1]]
  }

  /** Sample n of the de-emphasised buffer, by the inverse recurrence. */
  lemma {:induction false} DeEmphasisRecurrence(e: seq<real>, n: nat)
    requires n < |e|
    ensures n == 0 ==> DeEmphasis(e)[0] == e[0]
    ensures n > 0 ==> DeEmphasis(e)[n] == e[n] + PreEmphasisCoef * DeEmphasis(e)[n - 1]
  {
    if |e| > 1 {
      var m := |e| - 1;
      var prev := DeEmphasis(e[..m]);
      assert DeEmphasis(e) == prev + [e[m] + PreEmphasisCoef * prev[m - 1]];
      if n < m {
        DeEmphasisRecurrence(e[..m], n);
      }
    }
  }

  /** De-emphasis recovers sample n of any buffer whose pre-emphasis
      recurrence yields `e`. */
  lemma {:induction false} DeEmphasisAgrees(e: seq<real>, y: seq<real>, n: nat)
    requires |e| == |y| && n < |y| && e[0] == y[0]
    requires forall k :: 1 <= k < |y| ==> e[k] == y[k] - PreEmphasisCoef * y[k - 1]
    ensures DeEmphasis(e)[n] == y[n]
  {
    DeEmphasisRecurrence(e, n);
    if n > 0 {
      DeEmphasisAgrees(e, y, n - 1);
    }
  }

  /** De-emphasis undoes pre-emphasis: the filter loses nothing. */
  lemma DeEmphasisUndoesPreEmphasis(y: seq<real>)
    requires |y| > 0
    ensures DeEmphasis(PreEmphasis(y).value) == y
  {
    var e := PreEmphasis(y).value;
    forall n | 0 <= n < |y|
      ensures DeEmphasis(e)[n] == y[n]
    {
      DeEmphasisAgrees(e, y, n);
    }
  }

  /** A buffer whose pre-emphasis recurrence yields `e` sample by sample
      pre-emphasises to `e`. */
  lemma PreEmphasisIs(x: seq<real>, e: seq<real>)
    requires |x| == |e| > 0 && x[0] == e[0]
    requires forall n :: 1 <= n < |x| ==> x[n] - PreEmphasisCoef * x[n - 1] == e[n]
    ensures PreEmphasis(x) == Some(e)
  {
    assert PreEmphasis(x).value == e;
  }

  /** Pre-emphasis undoes de-emphasis: every non-empty buffer is the
      pre-emphasis of exactly one buffer. */
  lemma PreEmphasisUndoesDeEmphasis(e: seq<real>)
    requires |e| > 0
    ensures PreEmphasis(DeEmphasis(e)) == Some(e)
  {
    var x := DeEmphasis(e);
    DeEmphasisRecurrence(e, 0);
    forall n | 1 <= n < |x|
      ensures x[n] - PreEmphasisCoef * x[n - 1] == e[n]
    {
      DeEmphasisRecurrence(e, n);
    }
    PreEmphasisIs(x, e);
  }

  /** The tuple procesar_audio returns: the conditioned buffer, its duration
      in seconds and the trimmed lead-in in milliseconds. */
  datatype Conditioned = Conditioned(audio: seq<real>, seconds: real, onsetMs: real)

  /** procesar_audio after its status update, at `fs` Hz; None where the
      source raises: butter on a rate of 160 Hz or less, filtfilt on too
      short an input, or y[0] on an empty trimmed signal. */
  function Condition(fs: int, raw: seq<real>, highPass: seq<real> -> seq<real>, trim: seq<real> -> (int, int)): (r: Option<Conditioned>)
    requires fs > 0
    requires TrimIsSlice(trim(highPass(raw)), |highPass(raw)|)
  {
    if fs <= MaxRejectedRate || |raw| <= FiltFiltPadLen then None
    else
      var y := highPass(raw);
      var bounds := trim(y);
      var kept := y[bounds.0..bounds.1];
      var onsetMs := bounds.0 as real / fs as real * 1000.0;
      var seconds := |kept| as real / fs as real;
      match PreEmphasis(kept)
      case None => None
      case Some(e) => Some(Conditioned(Normalize(e, PeakTarget), seconds, onsetMs))
  }

  /** Conditioning fails exactly when the rate is too low for the filter
      design, the raw capture is too short for the filter, or the trim
      keeps nothing. */
  lemma ConditionFails(fs: int, raw: seq<real>, highPass: seq<real> -> seq<real>, trim: seq<real> -> (int, int))
    requires fs > 0
    requires TrimIsSlice(trim(highPass(raw)), |highPass(raw)|)
    ensures var bounds := trim(highPass(raw));
      Condition(fs, raw, highPass, trim).None? <==> fs <= MaxRejectedRate || |raw| <= FiltFiltPadLen || bounds.0 == bounds.1
  {
  }

  /** Otherwise the output is as long as the kept slice, and its duration
      and onset are taken from the trim bounds. */
  lemma ConditionShape(fs: int, raw: seq<real>, highPass: seq<real> -> seq<real>, trim: seq<real> -> (int, int))
    requires fs > 0
    requires TrimIsSlice(trim(highPass(raw)), |highPass(raw)|)
    requires Condition(fs, raw, highPass, trim).Some?
    ensures var bounds, c := trim(highPass(raw)), Condition(fs, raw, highPass, trim).value;
      && |c.audio| == bounds.1 - bounds.0 > 0
      && c.seconds == |c.audio| as real / fs as real
      && c.onsetMs == bounds.0 as real / fs as real * 1000.0
  {
    var bounds := trim(highPass(raw));
    var kept := highPass(raw)[bounds.0..bounds.1];
    assert |kept| > 0;
  }

  /** The output is scaled to a 0.95 peak, or left silent. */
  lemma ConditionLevel(fs: int, raw: seq<real>, highPass: seq<real> -> seq<real>, trim: seq<real> -> (int, int))
    requires fs > 0
    requires TrimIsSlice(trim(highPass(raw)), |highPass(raw)|)
    requires Condition(fs, raw, highPass, trim).Some?
    ensures var c := Condition(fs, raw, highPass, trim).value;
      && |c.audio| > 0
      && (forall i :: 0 <= i < |c.audio| ==> Abs(c.audio[i]) <= PeakTarget)
      && (Peak(c.audio) == PeakTarget || Silent(c.audio))
  {
    var bounds := trim(highPass(raw));
    var kept := highPass(raw)[bounds.0..bounds.1];
    var e := PreEmphasis(kept).value;
    var c := Condition(fs, raw, highPass, trim).value;
    assert c.audio == Normalize(e, PeakTarget);
    NormalizeMeetsTarget(e, PeakTarget);
    PeakZeroIffSilent(e);
  }

  /** When the pre-emphasised slice `e` has a positive peak (it is not
      silent), the output is `e` times one gain, 0.95 over its peak. */
  lemma ConditionGain(fs: int, raw: seq<real>, highPass: seq<real> -> seq<real>, trim: seq<real> -> (int, int), e: seq<real>)
    requires fs > 0
    requires TrimIsSlice(trim(highPass(raw)), |highPass(raw)|)
    requires fs > MaxRejectedRate && |raw| > FiltFiltPadLen
    requires var b := trim(highPass(raw)); PreEmphasis(highPass(raw)[b.0..b.1]) == Some(e)
    requires Peak(e) > 0.0
    ensures Condition(fs, raw, highPass, trim).Some?
    ensures Condition(fs, raw, highPass, trim).value.audio == Scale(e, Gain(PeakTarget, Peak(e)))
  {
    assert Condition(fs, raw, highPass, trim).value.audio == Normalize(e, PeakTarget);
  }

  /** An all-zero kept slice stays all zero through pre-emphasis and
      normalisation: no division happens and nothing is re-expanded. */
  lemma SilenceStaysSilent(y: seq<real>)
    requires |y| > 0 && Silent(y)
    ensures Silent(PreEmphasis(y).value)
    ensures Normalize(PreEmphasis(y).value, PeakTarget) == PreEmphasis(y).value
  {
    NormalizeMeetsTarget(PreEmphasis(y).value, PeakTarget);
  }
}

/** Steps 2-4 of sintetizar_voz, applied to the pitch-shifted buffer:
    normalise to -1 dBFS, add dither of at most half an 8-bit step, and
    hard-clip to [-1, 1]. The uniform noise is a parameter `dither`, any
    sequence of values within the dither amplitude (element i is added to
    sample i). */
module Synthesis {
  import opened Samples

  /** 10 ** (-1.0 / 20.0), the -1 dBFS level, written as the double Python
      computes; the proofs use 0 < TargetLevel and, for the clip never to
      engage, TargetLevel + DitherAmplitude <= 1. */
  const TargetLevel: real := 0.8912509381337456
  /** 1.0 / (2 * 256): half the step of 8-bit unsigned PCM. */
  const DitherAmplitude: real := 1.0 / 512.0

  ghost predicate DitherBounded(dither: nat -> real)
  {
    forall i: nat :: -DitherAmplitude <= dither(i) <= DitherAmplitude
  }

  /** `y + np.random.uniform(-a, a, len(y))` with the draws given. */
  function AddDither(y: seq<real>, dither: nat -> real): (r: seq<real>)
    ensures |r| == |y|
  {
    seq(|y|, i requires 0 <= i < |y| => y[i] + dither(i))
  }

  /** np.clip(y, -1.0, 1.0). */
  function Clip(y: seq<real>): (r: seq<real>)
    ensures |r| == |y|
    ensures forall i :: 0 <= i < |y| ==> -1.0 <= r[i] <= 1.0
    ensures forall i :: 0 <= i < |y| && -1.0 <= y[i] <= 1.0 ==> r[i] == y[i]
    ensures forall i :: 0 <= i < |y| && y[i] > 1.0 ==> r[i] == 1.0
    ensures forall i :: 0 <= i < |y| && y[i] < -1.0 ==> r[i] == -1.0
  {
    seq(|y|, i requires 0 <= i < |y| => if y[i] < -1.0 then -1.0 else if y[i] > 1.0 then 1.0 else y[i])
  }

  /** The synthesizer after the pitch shift; None where np.max raises on an
      empty buffer. The result is as long as its input and in range. */
  function Synthesize(shifted: seq<real>, dither: nat -> real): (r: Option<seq<real>>)
    ensures r.None? <==> |shifted| == 0
    ensures r.Some? ==> |r.value| == |shifted|
    ensures r.Some? ==> forall i :: 0 <= i < |shifted| ==> -1.0 <= r.value[i] <= 1.0
  {
    if |shifted| == 0 then None
    else Some(Clip(AddDither(Normalize(shifted, TargetLevel), dither)))
  }

  /** After normalisation every magnitude is at most 10^(-1/20) and the peak
      is exactly that when the shifted buffer is not silent; a silent buffer
      passes unchanged. */
  lemma SynthesisLevel(shifted: seq<real>)
    requires |shifted| > 0
    ensures !Silent(shifted) ==> forall i :: 0 <= i < |shifted| ==> Abs(Normalize(shifted, TargetLevel)[i]) <= TargetLevel
    ensures !Silent(shifted) ==> Peak(Normalize(shifted, TargetLevel)) == TargetLevel
    ensures Silent(shifted) ==> Normalize(shifted, TargetLevel) == shifted
  {
    PeakZeroIffSilent(shifted);
    NormalizeMeetsTarget(shifted, TargetLevel);
  }

  /** The normalisation before the dither scales every sample of a buffer
      with a positive peak (a non-silent one) by the same gain, 10^(-1/20)
      over that peak. */
  lemma SynthesisGain(shifted: seq<real>)
    requires |shifted| > 0 && Peak(shifted) > 0.0
    ensures forall i :: 0 <= i < |shifted| ==>
      Normalize(shifted, TargetLevel)[i] == Gain(TargetLevel, Peak(shifted)) * shifted[i]
  {
    NormalizeIsGain(shifted, TargetLevel);
  }

  /** The clip never engages: a normalised sample plus at most 1/512 of
      dither is already inside [-1, 1]. */
  lemma ClipNeverEngages(shifted: seq<real>, dither: nat -> real)
    requires |shifted| > 0 && DitherBounded(dither)
    ensures Synthesize(shifted, dither).value == AddDither(Normalize(shifted, TargetLevel), dither)
  {
    var n := Normalize(shifted, TargetLevel);
    var d := AddDither(n, dither);
    PeakZeroIffSilent(shifted);
    NormalizeMeetsTarget(shifted, TargetLevel);
    forall i | 0 <= i < |d|
      ensures -1.0 <= d[i] <= 1.0
    {
      assert Abs(n[i]) <= TargetLevel;
      assert -DitherAmplitude <= dither(i) <= DitherAmplitude;
    }
    assert Clip(d) == d;
  }

  /** Each output sample differs from the normalised sample by the dither
      draw alone, so by at most 1/512. */
  lemma DitherWithinHalfStep(shifted: seq<real>, dither: nat -> real)
    requires |shifted| > 0 && DitherBounded(dither)
    ensures forall i :: 0 <= i < |shifted| ==>
      Synthesize(shifted, dither).value[i] - Normalize(shifted, TargetLevel)[i] == dither(i)
    ensures forall i :: 0 <= i < |shifted| ==>
      Abs(Synthesize(shifted, dither).value[i] - Normalize(shifted, TargetLevel)[i]) <= DitherAmplitude
  {
    ClipNeverEngages(shifted, dither);
  }

  /** A constant-zero input comes out as the dither alone, within +-1/512. */
  lemma SilentInputYieldsDither(shifted: seq<real>, dither: nat -> real)
    requires |shifted| > 0 && Silent(shifted) && DitherBounded(dither)
    ensures forall i :: 0 <= i < |shifted| ==> Synthesize(shifted, dither).value[i] == dither(i)
    ensures forall i :: 0 <= i < |shifted| ==> Abs(Synthesize(shifted, dither).value[i]) <= DitherAmplitude
  {
    ClipNeverEngages(shifted, dither);
    SynthesisLevel(shifted);
  }
}

/** Sample buffers as sequences of real amplitudes, and the arithmetic that
    the tone generator, the capture stage, the conditioner and the
    synthesizer share: Python's int() on a float, frame counts, the peak
    magnitude and peak normalisation. */
module Samples {

  datatype Option<+T> = None | Some(value: T)

  function Abs(x: real): (r: real)
    ensures r >= 0.0 && (r == x || r == -x)
  {
    if x < 0.0 then -x else x
  }

  /** Python's int() applied to a float: truncation toward zero. */
  function Trunc(x: real): (r: int)
    ensures x >= 0.0 ==> r >= 0 && r as real <= x < r as real + 1.0
    ensures x < 0.0 ==> r <= 0 && r as real - 1.0 < x <= r as real
  {
    if x >= 0.0 then x.Floor else -((-x).Floor)
  }

  /** int(seconds * fs): the number of frames in `seconds` at `fs` Hz. */
  function Frames(fs: int, seconds: real): int
  {
    Trunc(seconds * fs as real)
  }

  /** Every sample is exactly zero. */
  predicate Silent(y: seq<real>)
  {
    forall i :: 0 <= i < |y| ==> y[i] == 0.0
  }

  /** np.max(np.abs(y)) for a non-empty buffer (numpy raises on an empty one). */
  function Peak(y: seq<real>): (p: real)
    requires |y| > 0
    ensures p >= 0.0
  {
    if |y| == 1 then Abs(y[0])
    else
      var q := Peak(y[1..]);
      if Abs(y[0]) >= q then Abs(y[0]) else q
  }

  /** The peak bounds every magnitude and is attained by one of them. */
  lemma {:induction false} PeakIsMax(y: seq<real>)
    requires |y| > 0
    ensures forall i :: 0 <= i < |y| ==> Abs(y[i]) <= Peak(y)
    ensures exists i :: 0 <= i < |y| && Abs(y[i]) == Peak(y)
  {
    if |y| > 1 {
      var tail := y[1..];
      PeakIsMax(tail);
      var j :| 0 <= j < |tail| && Abs(tail[j]) == Peak(tail);
      forall i | 1 <= i < |y|
        ensures Abs(y[i]) <= Peak(y)
      {
        assert y[i] == tail[i - 1];
      }
      if Abs(y[0]) < Peak(tail) {
        assert Abs(y[j + 1]) == Peak(y);
      }
    }
  }

  /** The factor peak normalisation applies to every sample. */
  function Gain(target: real, peak: real): real
    requires peak > 0.0
  {
    target / peak
  }

  /** Every sample of `y` multiplied by the same factor `g`. */
  function Scale(y: seq<real>, g: real): seq<real>
  {
    seq(|y|, i requires 0 <= i < |y| => g * y[i])
  }

  lemma ScaleAt(y: seq<real>, g: real, i: nat)
    requires i < |y|
    ensures Scale(y, g)[i] == g * y[i]
  {
  }

  /** `y / peak * target` when `peak` is positive, that is every sample times
      the gain target / peak; else `y` itself. */
  function Rescale(y: seq<real>, peak: real, target: real): (r: seq<real>)
    ensures |r| == |y|
  {
    if peak > 0.0 then Scale(y, Gain(target, peak)) else y
  }

  /** `y / np.max(np.abs(y)) * target` when the peak is positive; the buffer
      itself when the peak is zero (no division takes place). */
  function Normalize(y: seq<real>, target: real): (r: seq<real>)
    requires |y| > 0
    ensures |r| == |y|
  {
    Rescale(y, Peak(y), target)
  }

  lemma MulMonotone(a: real, b: real, c: real)
    requires a <= b && c >= 0.0
    ensures a * c <= b * c
  {
  }

  lemma ScaledMagnitude(x: real, p: real, target: real)
    requires p > 0.0 && target >= 0.0 && Abs(x) <= p
    ensures Abs(Gain(target, p) * x) <= target
    ensures Abs(x) == p ==> Abs(Gain(target, p) * x) == target
  {
    var c := Gain(target, p);
    assert c >= 0.0;
    assert p * c == target;
    MulMonotone(Abs(x), p, c);
    assert Abs(c * x) == Abs(x) * c;
  }

  /** A zero peak means a silent buffer, and only then. */
  lemma PeakZeroIffSilent(y: seq<real>)
    requires |y| > 0
    ensures Peak(y) == 0.0 <==> Silent(y)
  {
    PeakIsMax(y);
    var p := Peak(y);
    var k :| 0 <= k < |y| && Abs(y[k]) == p;
    if p == 0.0 {
      forall i | 0 <= i < |y|
        ensures y[i] == 0.0
      {
        assert Abs(y[i]) <= p;
      }
    }
    if Silent(y) {
      assert y[k] == 0.0;
    }
  }

  lemma RescaleBounded(y: seq<real>, peak: real, target: real)
    requires peak > 0.0 && target >= 0.0
    requires forall i :: 0 <= i < |y| ==> Abs(y[i]) <= peak
    ensures forall i :: 0 <= i < |y| ==> Abs(Rescale(y, peak, target)[i]) <= target
    ensures forall i :: 0 <= i < |y| && Abs(y[i]) == peak ==> Abs(Rescale(y, peak, target)[i]) == target
  {
    forall i | 0 <= i < |y|
      ensures Abs(Rescale(y, peak, target)[i]) <= target
      ensures Abs(y[i]) == peak ==> Abs(Rescale(y, peak, target)[i]) == target
    {
      ScaledMagnitude(y[i], peak, target);
      ScaleAt(y, Gain(target, peak), i);
    }
  }

  /** Dividing a sample by the peak and multiplying it by the target is
      applying the one gain target / peak. */
  lemma RescaleAt(y: seq<real>, p: real, target: real, i: nat)
    requires p > 0.0 && i < |y|
    ensures Rescale(y, p, target)[i] == Gain(target, p) * y[i]
  {
    ScaleAt(y, Gain(target, p), i);
  }

  /** With a positive peak, normalisation multiplies every sample by the
      same gain, target / peak. */
  lemma NormalizeIsGain(y: seq<real>, target: real)
    requires |y| > 0 && Peak(y) > 0.0
    ensures forall i :: 0 <= i < |y| ==> Normalize(y, target)[i] == Gain(target, Peak(y)) * y[i]
  {
    var p := Peak(y);
    assert Normalize(y, target) == Rescale(y, p, target);
    forall i | 0 <= i < |y|
      ensures Rescale(y, p, target)[i] == Gain(target, p) * y[i]
    {
      RescaleAt(y, p, target, i);
    }
  }

  /** Peak normalisation never exceeds its target and, when there is
      anything to scale, reaches it exactly; a silent buffer is returned
      untouched. */
  lemma NormalizeMeetsTarget(y: seq<real>, target: real)
    requires |y| > 0 && target >= 0.0
    ensures Peak(y) > 0.0 ==> forall i :: 0 <= i < |y| ==> Abs(Normalize(y, target)[i]) <= target
    ensures Peak(y) > 0.0 ==> Peak(Normalize(y, target)) == target
    ensures Silent(y) ==> Normalize(y, target) == y
  {
    PeakZeroIffSilent(y);
    var p := Peak(y);
    if p > 0.0 {
      var r := Normalize(y, target);
      PeakIsMax(y);
      PeakIsMax(r);
      RescaleBounded(y, p, target);
      var j :| 0 <= j < |y| && Abs(y[j]) == p;
      var k :| 0 <= k < |r| && Abs(r[k]) == Peak(r);
      assert Abs(r[j]) <= Peak(r);
    }
  }
}

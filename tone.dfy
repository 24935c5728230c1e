/** The tone generator behind generar_beep: a 0.3-amplitude sine burst of
    int(fs * seconds) samples whose first and last int(fs * 0.01) samples are
    multiplied by linear ramps. The sine itself is a parameter
    `sine(f, t)`, standing for sin(2 * pi * f * t); all the model relies on
    is that it stays within [-1, 1]. numpy's broadcasting rules decide when
    the two in-place ramp multiplications raise; `Beep` is None exactly then. */
module Tone {
  import opened Samples

  const Amplitude: real := 0.3
  const FadeSeconds: real := 0.01

  /** sin(2 * pi * f * t) never leaves [-1, 1]. */
  ghost predicate SineLike(sine: (real, real) -> real)
  {
    forall f, t :: -1.0 <= sine(f, t) <= 1.0
  }

  /** np.linspace(start, stop, num)[k]. */
  function Linspace(start: real, stop: real, num: nat, k: nat): (r: real)
    requires k < num
    ensures k == 0 ==> r == start
    ensures k == num - 1 && num > 1 ==> r == stop
  {
    if num == 1 then start else start + k as real * (stop - start) / (num - 1) as real
  }

  /** int(fs * 0.01), the length of each ramp. */
  function FadeLength(fs: int): nat
    requires fs > 0
  {
    Frames(fs, FadeSeconds)
  }

  /** np.linspace spaces its points evenly: consecutive points differ by
      (stop - start) / (num - 1). */
  lemma LinspaceEvenlySpaced(start: real, stop: real, num: nat, k: nat)
    requires k + 1 < num
    ensures Linspace(start, stop, num, k + 1) - Linspace(start, stop, num, k) == (stop - start) / (num - 1) as real
  {
    var d := (num - 1) as real;
    assert (k + 1) as real * (stop - start) / d == k as real * (stop - start) / d + (stop - start) / d;
  }

  /** `beep[:fade] *= np.linspace(0, 1, fade)` raises unless the slice and the
      ramp have the same length or the ramp has length one. */
  predicate FadeInFits(n: int, fade: int)
  {
    fade <= n || fade == 1
  }

  /** `beep[-fade:] *= np.linspace(1, 0, fade)`: with fade == 0 the slice
      `beep[-0:]` is the whole buffer, which only an empty ramp fits when the
      buffer is empty; a ramp longer than the buffer fits only at length one. */
  predicate FadeOutFits(n: int, fade: int)
  {
    if fade == 0 then n == 0 else fade <= n || fade == 1
  }

  /** 0.3 * sin(2 * pi * f * t) at t = np.linspace(0, seconds, n). */
  function Carrier(n: nat, frequency: real, seconds: real, sine: (real, real) -> real): (r: seq<real>)
    ensures |r| == n
  {
    seq(n, k requires 0 <= k < n => Amplitude * sine(frequency, Linspace(0.0, seconds, n, k)))
  }

  /** The first min(fade, |s|) samples multiplied by the 0 -> 1 ramp. */
  function FadeIn(s: seq<real>, fade: nat): (r: seq<real>)
    ensures |r| == |s|
  {
    seq(|s|, i requires 0 <= i < |s| => if i < fade then s[i] * Linspace(0.0, 1.0, fade, i) else s[i])
  }

  /** The last `fade` samples multiplied by the 1 -> 0 ramp (nothing when the
      ramp is longer than the buffer, the one case in which that fits). */
  function FadeOut(s: seq<real>, fade: nat): (r: seq<real>)
    ensures |r| == |s|
  {
    seq(|s|, i requires 0 <= i < |s| =>
      if fade <= |s| && i >= |s| - fade then s[i] * Linspace(1.0, 0.0, fade, i - (|s| - fade)) else s[i])
  }

  /** generar_beep(frequency, seconds) at `fs` Hz; None where numpy raises. */
  function Beep(fs: int, frequency: real, seconds: real, sine: (real, real) -> real): Option<seq<real>>
    requires fs > 0
  {
    var n := Frames(fs, seconds);
    var fade := FadeLength(fs);
    if n < 0 || !FadeInFits(n, fade) || !FadeOutFits(n, fade) then None
    else Some(FadeOut(FadeIn(Carrier(n, frequency, seconds, sine), fade), fade))
  }

  /** The beep exists exactly when its sample count is non-negative and both
      ramps fit, and then it has int(fs * seconds) samples. */
  lemma BeepShape(fs: int, frequency: real, seconds: real, sine: (real, real) -> real)
    requires fs > 0
    ensures Beep(fs, frequency, seconds, sine).Some? <==>
      Frames(fs, seconds) >= 0 && FadeInFits(Frames(fs, seconds), FadeLength(fs)) && FadeOutFits(Frames(fs, seconds), FadeLength(fs))
    ensures Beep(fs, frequency, seconds, sine).Some? ==> |Beep(fs, frequency, seconds, sine).value| == Frames(fs, seconds)
  {
  }

  /** At the engine's 8000 Hz the default 800 Hz / 0.15 s beep has 1200
      samples with 80-sample ramps, and every beep the countdown plays
      exists. */
  lemma BeepAt8000(sine: (real, real) -> real)
    ensures FadeLength(8000) == 80
    ensures Frames(8000, 0.15) == 1200 && Frames(8000, 0.2) == 1600
    ensures Beep(8000, 800.0, 0.15, sine).Some? && |Beep(8000, 800.0, 0.15, sine).value| == 1200
    ensures Beep(8000, 600.0, 0.15, sine).Some? && Beep(8000, 1000.0, 0.2, sine).Some?
  {
    assert 0.15 * 8000 as real == 1200.0;
    assert 0.2 * 8000 as real == 1600.0;
    assert FadeSeconds * 8000 as real == 80.0;
  }

  /** Below 100 Hz int(fs * 0.01) is 0, and `beep[-0:]` is then the whole
      buffer, which the empty ramp cannot multiply: generar_beep raises for
      every non-empty beep. */
  lemma NoFadeBelow100Hz(fs: int, frequency: real, seconds: real, sine: (real, real) -> real)
    requires 0 < fs < 100 && Frames(fs, seconds) > 0
    ensures FadeLength(fs) == 0
    ensures Beep(fs, frequency, seconds, sine).None?
  {
    assert 0.0 < FadeSeconds * fs as real < 1.0;
  }

  /** The fade-in ramp rises strictly from 0 to 1, the fade-out ramp falls
      strictly from 1 to 0. */
  lemma RampsMonotone(fade: nat, k: nat)
    requires 2 <= fade && k + 1 < fade
    ensures Linspace(0.0, 1.0, fade, k) < Linspace(0.0, 1.0, fade, k + 1)
    ensures Linspace(1.0, 0.0, fade, k) > Linspace(1.0, 0.0, fade, k + 1)
    ensures Linspace(0.0, 1.0, fade, 0) == 0.0 && Linspace(0.0, 1.0, fade, fade - 1) == 1.0
    ensures Linspace(1.0, 0.0, fade, 0) == 1.0 && Linspace(1.0, 0.0, fade, fade - 1) == 0.0
  {
    var d := (fade - 1) as real;
    assert Linspace(0.0, 1.0, fade, k) == k as real / d;
    assert Linspace(0.0, 1.0, fade, k + 1) == (k + 1) as real / d;
    assert Linspace(1.0, 0.0, fade, k) == 1.0 - k as real / d;
    assert Linspace(1.0, 0.0, fade, k + 1) == 1.0 - (k + 1) as real / d;
    assert (k + 1) as real / d == k as real / d + 1.0 / d;
  }

  lemma RampBetweenZeroAndOne(start: real, stop: real, fade: nat, k: nat)
    requires k < fade
    requires (start == 0.0 && stop == 1.0) || (start == 1.0 && stop == 0.0)
    ensures 0.0 <= Linspace(start, stop, fade, k) <= 1.0
  {
    if fade > 1 {
      var d := (fade - 1) as real;
      var q := k as real / d;
      assert q * d == k as real;
      assert 0.0 <= q <= 1.0;
      if start == 0.0 {
        assert Linspace(start, stop, fade, k) == q;
      } else {
        assert k as real * (stop - start) / d == -q;
        assert Linspace(start, stop, fade, k) == 1.0 - q;
      }
    }
  }

  lemma DampedMagnitude(x: real, g: real)
    requires 0.0 <= g <= 1.0
    ensures Abs(x * g) <= Abs(x)
  {
    if x < 0.0 {
      assert x * g >= x;
    } else {
      assert x * g <= x;
    }
  }

  lemma CarrierBounded(n: nat, frequency: real, seconds: real, sine: (real, real) -> real)
    requires SineLike(sine)
    ensures forall i :: 0 <= i < n ==> Abs(Carrier(n, frequency, seconds, sine)[i]) <= Amplitude
  {
    forall i | 0 <= i < n
      ensures Abs(Carrier(n, frequency, seconds, sine)[i]) <= Amplitude
    {
      var t := Linspace(0.0, seconds, n, i);
      assert -1.0 <= sine(frequency, t) <= 1.0;
    }
  }

  lemma FadeInSampleBounded(s: seq<real>, fade: nat, bound: real, i: nat)
    requires i < |s| && Abs(s[i]) <= bound
    ensures Abs(FadeIn(s, fade)[i]) <= bound
  {
    if i < fade {
      var g := Linspace(0.0, 1.0, fade, i);
      RampBetweenZeroAndOne(0.0, 1.0, fade, i);
      DampedMagnitude(s[i], g);
    }
  }

  lemma FadeInBounded(s: seq<real>, fade: nat, bound: real)
    requires forall i :: 0 <= i < |s| ==> Abs(s[i]) <= bound
    ensures forall i :: 0 <= i < |s| ==> Abs(FadeIn(s, fade)[i]) <= bound
  {
    forall i | 0 <= i < |s|
      ensures Abs(FadeIn(s, fade)[i]) <= bound
    {
      FadeInSampleBounded(s, fade, bound, i);
    }
  }

  lemma FadeOutSampleBounded(s: seq<real>, fade: nat, bound: real, i: nat)
    requires i < |s| && Abs(s[i]) <= bound
    ensures Abs(FadeOut(s, fade)[i]) <= bound
  {
    if fade <= |s| && i >= |s| - fade {
      var g := Linspace(1.0, 0.0, fade, i - (|s| - fade));
      RampBetweenZeroAndOne(1.0, 0.0, fade, i - (|s| - fade));
      DampedMagnitude(s[i], g);
    }
  }

  lemma FadeOutBounded(s: seq<real>, fade: nat, bound: real)
    requires forall i :: 0 <= i < |s| ==> Abs(s[i]) <= bound
    ensures forall i :: 0 <= i < |s| ==> Abs(FadeOut(s, fade)[i]) <= bound
  {
    forall i | 0 <= i < |s|
      ensures Abs(FadeOut(s, fade)[i]) <= bound
    {
      FadeOutSampleBounded(s, fade, bound, i);
    }
  }

  /** Every sample of a beep lies within the 0.3 amplitude. */
  lemma BeepBounded(fs: int, frequency: real, seconds: real, sine: (real, real) -> real)
    requires fs > 0 && SineLike(sine)
    requires Beep(fs, frequency, seconds, sine).Some?
    ensures forall i :: 0 <= i < |Beep(fs, frequency, seconds, sine).value| ==>
      Abs(Beep(fs, frequency, seconds, sine).value[i]) <= Amplitude
  {
    var n := Frames(fs, seconds);
    var fade := FadeLength(fs);
    var c := Carrier(n, frequency, seconds, sine);
    CarrierBounded(n, frequency, seconds, sine);
    FadeInBounded(c, fade, Amplitude);
    FadeOutBounded(FadeIn(c, fade), fade, Amplitude);
  }

  /** When the two ramps do not overlap, the first `fade` samples carry the
      rising ramp, the last `fade` the falling one, and the samples between
      are the carrier untouched. */
  lemma BeepEnvelope(fs: int, frequency: real, seconds: real, sine: (real, real) -> real, i: nat)
    requires fs > 0
    requires Beep(fs, frequency, seconds, sine).Some?
    requires 2 * FadeLength(fs) <= Frames(fs, seconds) && i < Frames(fs, seconds)
    ensures var n, fade := Frames(fs, seconds), FadeLength(fs);
      var c, b := Carrier(n, frequency, seconds, sine), Beep(fs, frequency, seconds, sine).value;
      && (i < fade ==> b[i] == c[i] * Linspace(0.0, 1.0, fade, i))
      && (n - fade <= i ==> b[i] == c[i] * Linspace(1.0, 0.0, fade, i - (n - fade)))
      && (fade <= i < n - fade ==> b[i] == c[i])
  {
  }
}

/** The sample-count arithmetic of grabar_audio: a fixed 0.5 s pre-roll is
    added to the requested duration before converting to frames. */
module Capture {
  import opened Samples

  const PrerollSeconds: real := 0.5

  /** int((duracion + 0.5) * fs), the frame count handed to sd.rec. */
  function TotalSamples(fs: int, seconds: real): int
  {
    Frames(fs, seconds + PrerollSeconds)
  }

  /** sd.rec(n).flatten(): the first n samples the microphone delivers. */
  function Captured(n: nat, microphone: nat -> real): (r: seq<real>)
    ensures |r| == n
  {
    seq(n, k requires 0 <= k < n => microphone(k))
  }

  lemma FloorSuperAdditive(a: real, b: real)
    requires a >= 0.0 && b >= 0.0
    ensures (a + b).Floor >= a.Floor + b.Floor
  {
  }

  /** For a non-negative request the capture is the floor of the padded
      duration in frames, and the pre-roll only ever adds frames: at least
      int(seconds * fs) + int(0.5 * fs) of them. */
  lemma PrerollOnlyAdds(fs: int, seconds: real)
    requires fs > 0 && seconds >= 0.0
    ensures TotalSamples(fs, seconds) == ((seconds + PrerollSeconds) * fs as real).Floor
    ensures TotalSamples(fs, seconds) >= Frames(fs, seconds) + Frames(fs, PrerollSeconds)
  {
    var a, b := seconds * fs as real, PrerollSeconds * fs as real;
    assert (seconds + PrerollSeconds) * fs as real == a + b;
    FloorSuperAdditive(a, b);
  }

  /** Whatever the request, negative ones included, the pre-roll never
      records fewer frames than int(seconds * fs). */
  lemma PrerollNeverShortens(fs: int, seconds: real)
    requires fs > 0
    ensures TotalSamples(fs, seconds) >= Frames(fs, seconds)
  {
    var x := seconds * fs as real;
    assert (seconds + PrerollSeconds) * fs as real > x;
  }

  /** sd.rec refuses a negative frame count; that happens exactly when the
      padded duration is at most -1 frame, so never for a request of
      -0.5 s or more. */
  lemma NegativeCount(fs: int, seconds: real)
    requires fs > 0
    ensures TotalSamples(fs, seconds) < 0 <==> (seconds + PrerollSeconds) * fs as real <= -1.0
    ensures seconds >= -PrerollSeconds ==> TotalSamples(fs, seconds) >= 0
  {
    var x := (seconds + PrerollSeconds) * fs as real;
    if seconds >= -PrerollSeconds {
      assert x >= 0.0;
    }
  }

  /** A 3 s request at 8000 Hz records 3.5 * 8000 = 28000 frames. */
  lemma ThreeSecondsAt8000()
    ensures TotalSamples(8000, 3.0) == 28000
  {
    assert (3.0 + PrerollSeconds) * 8000 as real == 28000.0;
  }
}

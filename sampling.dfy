/** How many frames `track_and_crop` analyses, and at which times. */
module Sampling {
  import opened Numbers

  /** The sample count: `min(6, max(3, int(d / 3)))`, replaced by
      `min(8, max(6, int(d / 4)))` when the clip is longer than 10 seconds.
      Both use truncation. For a clip of at most 10 seconds `int(d / 3)` is at
      most 3, so the short-clip count is always exactly 3. */
  function NumSamples(duration: real): (n: nat)
    ensures n >= 3
    ensures duration <= 10.0 ==> n == 3
    ensures duration > 10.0 ==> 6 <= n <= 8
  {
    var short := Min(6, Max(3, Trunc(duration / 3.0)));
    if duration > 10.0 then Min(8, Max(6, Trunc(duration / 4.0))) else short
  }

  /** The exact count for long clips: 6 below 28 s, 7 from 28 s, 8 from 32 s. */
  lemma NumSamplesLong(duration: real)
    requires duration > 10.0
    ensures duration < 28.0 ==> NumSamples(duration) == 6
    ensures 28.0 <= duration < 32.0 ==> NumSamples(duration) == 7
    ensures 32.0 <= duration ==> NumSamples(duration) == 8
  {
  }

  /** A longer clip never gets fewer samples, across both regimes. */
  lemma NumSamplesMonotone(d1: real, d2: real)
    requires d1 <= d2
    ensures NumSamples(d1) <= NumSamples(d2)
  {
    TruncMonotone(d1 / 3.0, d2 / 3.0);
    TruncMonotone(d1 / 4.0, d2 / 4.0);
  }

  /** `np.linspace(0, duration, n)` over exact reals: `n` evenly spaced times,
      the first 0 and the last `duration`. */
  function SampleTimes(duration: real, n: nat): (ts: seq<real>)
    ensures |ts| == n
    ensures n >= 1 ==> ts[0] == 0.0
    ensures n >= 2 ==> ts[n - 1] == duration
  {
    if n == 1 then [0.0]
    else
      var step := duration / (n - 1) as real;
      seq(n, i requires 0 <= i < n => if i == n - 1 then duration else i as real * step)
  }

  /** With a positive duration the times strictly increase and stay in
      `[0, duration]`, so no two samples share a time. */
  lemma SampleTimesIncreasing(duration: real, n: nat)
    requires duration > 0.0
    ensures forall i, j :: 0 <= i < j < n ==> SampleTimes(duration, n)[i] < SampleTimes(duration, n)[j]
    ensures forall i :: 0 <= i < n ==> 0.0 <= SampleTimes(duration, n)[i] <= duration
  {
  }

  /** A clip of duration 0 samples the same time, 0, over and over. */
  lemma SampleTimesZero(n: nat)
    ensures forall i :: 0 <= i < n ==> SampleTimes(0.0, n)[i] == 0.0
  {
  }
}

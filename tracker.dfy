/** `FaceTracker`: the detection cache it owns, one planning run of
    `track_and_crop`, and the crop plan that run produces. */
module Tracker {
  import opened Numbers
  import opened Faces
  import opened Detection
  import opened Sampling
  import opened GapFilling
  import opened Smoothing
  import opened Centre
  import opened Crop

  /** What happens at one sample: the frame cannot be read (`clip.get_frame`
      raises), or it is read and handed to the detector. */
  datatype SampleOutcome = FrameUnavailable | FrameRead(detector: DetectorResult)

  /** One sample of the run: the ranked faces it sees (none when the frame
      could not be read) and the cache afterwards. */
  function Sample(cache: Cache, t: real, o: SampleOutcome): Detected
  {
    match o
    case FrameUnavailable => Detected([], cache)
    case FrameRead(d) => Detect(cache, Some(t), d)
  }

  /** The faces seen by each sample so far and the cache between samples. */
  datatype Run = Run(seen: seq<seq<Face>>, cache: Cache)

  /** The first `k` samples of a run at times `times`, starting from the empty
      cache that `track_and_crop` installs. */
  function Replay(times: seq<real>, outcomes: seq<SampleOutcome>, k: nat): (r: Run)
    requires k <= |times| && k <= |outcomes|
    ensures |r.seen| == k
    ensures forall t :: t in r.cache ==> exists i :: 0 <= i < k && times[i] == t
  {
    if k == 0 then Run([], map[])
    else
      var before := Replay(times, outcomes, k - 1);
      var step := Sample(before.cache, times[k - 1], outcomes[k - 1]);
      Run(before.seen + [step.faces], step.cache)
  }

  /** One more sample extends the run by what that sample sees and replaces
      the cache by the one it leaves. */
  lemma ReplayStep(times: seq<real>, outcomes: seq<SampleOutcome>, i: nat)
    requires i < |times| && i < |outcomes|
    ensures var step := Sample(Replay(times, outcomes, i).cache, times[i], outcomes[i]);
      Replay(times, outcomes, i + 1) == Run(Replay(times, outcomes, i).seen + [step.faces], step.cache)
  {
  }

  /** Every list a sample sees, and every list the cache holds, is ranked by
      score, so `faces[0]` is a best-scoring face of its sample. */
  lemma {:induction false} ReplayRanked(times: seq<real>, outcomes: seq<SampleOutcome>, k: nat)
    requires k <= |times| && k <= |outcomes|
    ensures CacheRanked(Replay(times, outcomes, k).cache)
    ensures forall i :: 0 <= i < k ==> SortedByScore(Replay(times, outcomes, k).seen[i])
  {
    if k > 0 {
      ReplayRanked(times, outcomes, k - 1);
      var before := Replay(times, outcomes, k - 1);
      var step := Sample(before.cache, times[k - 1], outcomes[k - 1]);
      if outcomes[k - 1].FrameRead? {
        DetectRanked(before.cache, Some(times[k - 1]), outcomes[k - 1].detector);
      }
      var after := Replay(times, outcomes, k);
      forall i | 0 <= i < k
        ensures SortedByScore(after.seen[i])
      {
        if i < k - 1 {
          assert after.seen[i] == before.seen[i];
        }
      }
    }
  }

  /** What a sample would see with nothing cached. */
  function FreshSample(o: SampleOutcome): seq<Face>
  {
    match o
    case FrameUnavailable => []
    case FrameRead(d) => Fresh(d)
  }

  predicate Distinct(times: seq<real>)
  {
    forall i, j :: 0 <= i < j < |times| ==> times[i] != times[j]
  }

  /** What the first `k` samples would see with no cache at all. */
  function FreshRun(outcomes: seq<SampleOutcome>, k: nat): (r: seq<seq<Face>>)
    requires k <= |outcomes|
    ensures |r| == k
    ensures forall i :: 0 <= i < k ==> r[i] == FreshSample(outcomes[i])
  {
    seq(k, i requires 0 <= i < k => FreshSample(outcomes[i]))
  }

  lemma FreshRunSnoc(outcomes: seq<SampleOutcome>, k: nat)
    requires 0 < k <= |outcomes|
    ensures FreshRun(outcomes, k) == FreshRun(outcomes, k - 1) + [FreshSample(outcomes[k - 1])]
  {
  }

  /** When no two of the first `k` times coincide, the run sees what it would
      see with no cache. */
  lemma {:induction false} ReplayFreshRun(times: seq<real>, outcomes: seq<SampleOutcome>, k: nat)
    requires k <= |times| && k <= |outcomes| && Distinct(times)
    ensures Replay(times, outcomes, k).seen == FreshRun(outcomes, k)
  {
    if k > 0 {
      ReplayFreshRun(times, outcomes, k - 1);
      var t := times[k - 1];
      forall i | 0 <= i < k - 1
        ensures times[i] != t
      {
        assert i < k - 1;
      }
      NewTimeNotCached(times, outcomes, k - 1, t);
      ReplayFreshStep(times, outcomes, k - 1);
    }
  }

  /** A sample at a time not yet cached extends a fresh run by a fresh answer. */
  lemma ReplayFreshStep(times: seq<real>, outcomes: seq<SampleOutcome>, k: nat)
    requires k < |times| && k < |outcomes|
    requires times[k] !in Replay(times, outcomes, k).cache
    requires Replay(times, outcomes, k).seen == FreshRun(outcomes, k)
    ensures Replay(times, outcomes, k + 1).seen == FreshRun(outcomes, k + 1)
  {
    SampleMissIsFresh(Replay(times, outcomes, k).cache, times[k], outcomes[k]);
    ReplayStep(times, outcomes, k);
    FreshRunSnoc(outcomes, k + 1);
  }

  /** When no two samples share a time the cache is never hit within a run:
      each sample sees exactly its own detection. */
  lemma ReplayFresh(times: seq<real>, outcomes: seq<SampleOutcome>, k: nat)
    requires k <= |times| && k <= |outcomes| && Distinct(times)
    ensures forall i :: 0 <= i < k ==> Replay(times, outcomes, k).seen[i] == FreshSample(outcomes[i])
  {
    ReplayFreshRun(times, outcomes, k);
  }

  /** A time no earlier sample used is not in the cache. */
  lemma NewTimeNotCached(times: seq<real>, outcomes: seq<SampleOutcome>, k: nat, t: real)
    requires k <= |times| && k <= |outcomes|
    requires forall i :: 0 <= i < k ==> times[i] != t
    ensures t !in Replay(times, outcomes, k).cache
  {
  }

  lemma SampleMissIsFresh(cache: Cache, t: real, o: SampleOutcome)
    requires t !in cache
    ensures Sample(cache, t, o).faces == FreshSample(o)
  {
    if o.FrameRead? {
      DetectMissIsFresh(cache, Some(t), o.detector);
    }
  }

  /** An entry, once stored, stays in the cache unchanged for the rest of the run. */
  lemma {:induction false} ReplayKeeps(times: seq<real>, outcomes: seq<SampleOutcome>, j: nat, k: nat, t: real)
    requires j <= k <= |times| && k <= |outcomes|
    requires t in Replay(times, outcomes, j).cache
    ensures t in Replay(times, outcomes, k).cache
    ensures Replay(times, outcomes, k).cache[t] == Replay(times, outcomes, j).cache[t]
  {
    if j < k {
      ReplayKeeps(times, outcomes, j, k - 1, t);
      var before := Replay(times, outcomes, k - 1);
      if outcomes[k - 1].FrameRead? {
        DetectKeepsEntries(before.cache, Some(times[k - 1]), outcomes[k - 1].detector, t);
      }
    }
  }

  /** A sample whose time was already detected successfully earlier in the run
      reuses that result: the detector is not consulted again. */
  lemma ReplayReuses(times: seq<real>, outcomes: seq<SampleOutcome>, j: nat, i: nat)
    requires j < i < |times| && i < |outcomes| && times[j] == times[i]
    requires outcomes[j].FrameRead? && outcomes[j].detector.Found? && outcomes[i].FrameRead?
    ensures Replay(times, outcomes, i + 1).seen[i] == Replay(times, outcomes, j + 1).seen[j]
  {
    var t := times[j];
    assert t in Replay(times, outcomes, j + 1).cache;
    ReplayKeeps(times, outcomes, j + 1, i, t);
  }

  /** A time is cached only if some earlier sample at that time read its frame
      and the detector succeeded: after exceptions and unreadable frames the
      detector is asked again. */
  lemma {:induction false} CachedOnlyAfterFound(times: seq<real>, outcomes: seq<SampleOutcome>, k: nat, t: real)
    requires k <= |times| && k <= |outcomes|
    requires forall j :: 0 <= j < k && times[j] == t ==> !(outcomes[j].FrameRead? && outcomes[j].detector.Found?)
    ensures t !in Replay(times, outcomes, k).cache
  {
    if k > 0 {
      CachedOnlyAfterFound(times, outcomes, k - 1, t);
    }
  }

  /** Four samples at time 0 (the times of a zero-length clip): an unreadable
      frame and a detector exception cache nothing, so the detector is asked
      again; once it succeeds, the next sample reuses its answer. */
  lemma ZeroClipRetriesUntilFound(f: Face)
    ensures Replay(SampleTimes(0.0, 4),
        [FrameUnavailable, FrameRead(Raised), FrameRead(Found([f])), FrameRead(Found([]))], 4).seen
      == [[], [], [f], [f]]
  {
    SampleTimesZero(4);
    var times := SampleTimes(0.0, 4);
    var outcomes := [FrameUnavailable, FrameRead(Raised), FrameRead(Found([f])), FrameRead(Found([]))];
    assert times == [0.0, 0.0, 0.0, 0.0];
    assert SortByScore([f]) == [f];
    ReplayStep(times, outcomes, 0);
    ReplayStep(times, outcomes, 1);
    ReplayStep(times, outcomes, 2);
    ReplayStep(times, outcomes, 3);
  }

  /** The `seen` list of a longer replay extends that of a shorter one. */
  lemma {:induction false} ReplayPrefix(times: seq<real>, outcomes: seq<SampleOutcome>, j: nat, k: nat)
    requires j <= k <= |times| && k <= |outcomes|
    ensures Replay(times, outcomes, k).seen[..j] == Replay(times, outcomes, j).seen
  {
    if j < k {
      ReplayPrefix(times, outcomes, j, k - 1);
    }
  }

  /** When no detection finds a face, no sample sees one, cached or not. */
  lemma {:induction false} ReplayAllMiss(times: seq<real>, outcomes: seq<SampleOutcome>, k: nat)
    requires k <= |times| && k <= |outcomes|
    requires forall i :: 0 <= i < k ==> FreshSample(outcomes[i]) == []
    ensures forall i :: 0 <= i < k ==> Replay(times, outcomes, k).seen[i] == []
    ensures forall t :: t in Replay(times, outcomes, k).cache ==> Replay(times, outcomes, k).cache[t] == []
  {
    if k > 0 {
      ReplayAllMiss(times, outcomes, k - 1);
    }
  }

  /** The best face of a detection: `faces[0]` after ranking. */
  predicate BestAt(raw: seq<Face>, c: int)
  {
    raw != [] && raw[BestIndex(raw)].centerX == c
  }

  /** A face list headed by a face at `c`. */
  predicate HeadAt(fs: seq<Face>, c: int)
  {
    fs != [] && fs[0].centerX == c
  }

  predicate CacheHeadsAt(cache: Cache, c: int)
  {
    forall t :: t in cache ==> HeadAt(cache[t], c)
  }

  /** A successful detection whose best face is at `c`, read through a cache
      whose entries all start with a face at `c`, yields a list starting at `c`
      and keeps that property of the cache. */
  lemma SampleSteady(cache: Cache, t: real, o: SampleOutcome, c: int)
    requires CacheHeadsAt(cache, c)
    requires o.FrameRead? && o.detector.Found? && BestAt(o.detector.raw, c)
    ensures HeadAt(Sample(cache, t, o).faces, c)
    ensures CacheHeadsAt(Sample(cache, t, o).cache, c)
  {
    var raw := o.detector.raw;
    BestFaceIsFirstMaximal(raw);
    SortByScoreEmpty(raw);
    if t in cache {
      assert HeadAt(cache[t], c);
    }
  }

  /** When every frame is read and every detection's best face is at `c`,
      every sample sees a ranked list headed by a face at `c`. */
  lemma {:induction false} ReplaySteady(times: seq<real>, outcomes: seq<SampleOutcome>, k: nat, c: int)
    requires k <= |times| && k <= |outcomes|
    requires forall i :: 0 <= i < k ==> outcomes[i].FrameRead? && outcomes[i].detector.Found? && BestAt(outcomes[i].detector.raw, c)
    ensures forall i :: 0 <= i < k ==> HeadAt(Replay(times, outcomes, k).seen[i], c)
    ensures CacheHeadsAt(Replay(times, outcomes, k).cache, c)
  {
    if k > 0 {
      ReplaySteady(times, outcomes, k - 1, c);
      var before := Replay(times, outcomes, k - 1);
      var step := Sample(before.cache, times[k - 1], outcomes[k - 1]);
      SampleSteady(before.cache, times[k - 1], outcomes[k - 1], c);
      ReplayStep(times, outcomes, k - 1);
      var after := Replay(times, outcomes, k);
      forall i | 0 <= i < k
        ensures HeadAt(after.seen[i], c)
      {
        if i < k - 1 {
          assert after.seen[i] == before.seen[i];
        }
      }
    }
  }

  /** The whole planning run of `track_and_crop`, as a function of the frame
      size, the duration and what each sample observes. */
  function PlanCrop(width: nat, height: nat, duration: real, outcomes: seq<SampleOutcome>): CropDecision
    requires |outcomes| == NumSamples(duration)
  {
    if width <= TargetWidth(height) then Skip
    else
      var n := NumSamples(duration);
      var run := Replay(SampleTimes(duration, n), outcomes, n);
      ResolveCrop(width, height, EstimateCentre(GapFill(run.seen, width), width, height))
  }

  /** The raw trajectory of a run has one entry per sample, at least three, so
      the centre always comes from the median and never from the `else`
      branch for an empty trajectory. */
  lemma TrajectoryNeverEmpty(width: nat, duration: real, outcomes: seq<SampleOutcome>)
    requires |outcomes| == NumSamples(duration)
    ensures |GapFill(Replay(SampleTimes(duration, NumSamples(duration)), outcomes, NumSamples(duration)).seen, width)|
      == NumSamples(duration) >= 3
  {
  }

  /** For a clip of positive duration every sample of a run sees exactly its
      own detection: the sample times are distinct, so the cache never answers. */
  lemma RunSeesFreshDetections(duration: real, outcomes: seq<SampleOutcome>)
    requires duration > 0.0 && |outcomes| == NumSamples(duration)
    ensures var n := NumSamples(duration);
      forall i :: 0 <= i < n ==> Replay(SampleTimes(duration, n), outcomes, n).seen[i] == FreshSample(outcomes[i])
  {
    var n := NumSamples(duration);
    SampleTimesIncreasing(duration, n);
    ReplayFresh(SampleTimes(duration, n), outcomes, n);
  }

  /** The crop window of any run lies inside the frame and has an even width. */
  lemma PlanInsideFrame(width: nat, height: nat, duration: real, outcomes: seq<SampleOutcome>)
    requires |outcomes| == NumSamples(duration)
    ensures PlanCrop(width, height, duration, outcomes).Skip? <==> width <= TargetWidth(height)
    ensures PlanCrop(width, height, duration, outcomes).Crop? ==>
      var d := PlanCrop(width, height, duration, outcomes);
      d.targetWidth % 2 == 0 && 0 <= d.left && d.left + d.targetWidth <= width
  {
  }

  /** When no sample finds a face the crop is centred on the frame's midpoint. */
  lemma PlanAllMiss(width: nat, height: nat, duration: real, outcomes: seq<SampleOutcome>)
    requires width > TargetWidth(height) && |outcomes| == NumSamples(duration)
    requires forall i :: 0 <= i < |outcomes| ==> FreshSample(outcomes[i]) == []
    ensures PlanCrop(width, height, duration, outcomes)
      == Crop(TargetWidth(height), width / 2, width / 2 - TargetWidth(height) / 2)
  {
    var n := NumSamples(duration);
    var times := SampleTimes(duration, n);
    ReplayAllMiss(times, outcomes, n);
    var seen := Replay(times, outcomes, n).seen;
    GapFillAllMiss(seen, width);
    CentreConstant(GapFill(seen, width), width, height, width / 2);
  }

  /** When every sample finds the same best face position `c`, the crop is the
      one resolved for `c`. */
  lemma PlanSteadyFace(width: nat, height: nat, duration: real, outcomes: seq<SampleOutcome>, c: int)
    requires |outcomes| == NumSamples(duration)
    requires forall i :: 0 <= i < |outcomes| ==>
      outcomes[i].FrameRead? && outcomes[i].detector.Found? && BestAt(outcomes[i].detector.raw, c)
    ensures PlanCrop(width, height, duration, outcomes) == ResolveCrop(width, height, c)
  {
    if width > TargetWidth(height) {
      var n := NumSamples(duration);
      var times := SampleTimes(duration, n);
      ReplaySteady(times, outcomes, n, c);
      var seen := Replay(times, outcomes, n).seen;
      GapFillSteady(seen, width, c);
      CentreConstant(GapFill(seen, width), width, height, c);
    }
  }

  /** A 6-second 1920x1080 clip whose every sample finds the speaker at 1400
      is cropped to 606 columns starting at 1097. */
  lemma PlanFullHdSpeaker(outcomes: seq<SampleOutcome>)
    requires |outcomes| == 3
    requires forall i :: 0 <= i < 3 ==>
      outcomes[i].FrameRead? && outcomes[i].detector.Found? && BestAt(outcomes[i].detector.raw, 1400)
    ensures PlanCrop(1920, 1080, 6.0, outcomes) == Crop(606, 1400, 1097)
  {
    assert NumSamples(6.0) == 3;
    FullHdExample();
    PlanSteadyFace(1920, 1080, 6.0, outcomes, 1400);
  }

  class FaceTracker {
    /** `face_cache`: ranked faces per sample time, for the current run. */
    var faceCache: Cache

    constructor ()
      ensures faceCache == map[]
    {
      faceCache := map[];
    }

    /** `detect_faces_in_frame`: answer from the cache when the time is stored,
      otherwise run the detector, rank its faces and remember them. */
    method DetectFaces(frameTime: Option<real>, detection: DetectorResult) returns (faces: seq<Face>)
      modifies this
      ensures Detected(faces, faceCache) == Detect(old(faceCache), frameTime, detection)
    {
      if frameTime.Some? && frameTime.value in faceCache {
        var t: real := frameTime.value;
        return faceCache[t];
      }
      match detection {
        case Raised =>
          faces := [];
        case Found(raw) =>
          faces := SortByScore(raw);
          if frameTime.Some? {
            faceCache := faceCache[frameTime.value := faces];
          }
      }
    }

    /** `smooth_trajectory`: builds the moving average point by point. */
    method SmoothTrajectory(positions: seq<Point>, windowSize: nat) returns (smoothed: seq<Point>)
      ensures smoothed == Smooth(positions, windowSize)
    {
      if |positions| <= windowSize {
        return positions;
      }
      smoothed := [];
      for i := 0 to |positions|
        invariant |smoothed| == i
        invariant forall k :: 0 <= k < i ==> smoothed[k] == Smooth(positions, windowSize)[k]
      {
        var startIdx := Max(0, i - windowSize / 2);
        var endIdx := Min(|positions|, i + windowSize / 2 + 1);
        SmoothAt(positions, windowSize, i);
        var window := positions[startIdx..endIdx];
        var avgX := Average(Xs(window));
        var avgY := Average(Ys(window));
        smoothed := smoothed + [Point(avgX, avgY)];
      }
    }

    /** The sampling loop of `track_and_crop`: clear the cache, then visit the
      sample times in order and append one position per sample, the best face's
      centre or the fallback. `outcomes[i]` stands for reading frame `i` and
      running the detector on it. */
    method SamplePositions(width: nat, duration: real, outcomes: seq<SampleOutcome>) returns (positions: seq<int>)
      requires |outcomes| == NumSamples(duration)
      modifies this
      ensures var n := NumSamples(duration);
        var run := Replay(SampleTimes(duration, n), outcomes, n);
        positions == GapFill(run.seen, width) && faceCache == run.cache
    {
      faceCache := map[];
      positions := [];
      var numSamples := NumSamples(duration);
      var sampleTimes := SampleTimes(duration, numSamples);
      for i := 0 to numSamples
        invariant Replay(sampleTimes, outcomes, i).cache == faceCache
        invariant positions == GapFill(Replay(sampleTimes, outcomes, i).seen, width)
      {
        ghost var run := Replay(sampleTimes, outcomes, i);
        ghost var step := Sample(faceCache, sampleTimes[i], outcomes[i]);
        ghost var before := positions;
        ReplayStep(sampleTimes, outcomes, i);
        GapFillSnoc(run.seen, step.faces, width);
        match outcomes[i] {
          case FrameRead(d) =>
            var faces := DetectFaces(Some(sampleTimes[i]), d);
            assert faces == step.faces;
            if faces != [] {
              positions := positions + [faces[0].centerX];
            } else if positions != [] {
              positions := positions + [positions[|positions| - 1]];
            } else {
              positions := positions + [width / 2];
            }
          case FrameUnavailable =>
            if positions != [] {
              positions := positions + [positions[|positions| - 1]];
            } else {
              positions := positions + [width / 2];
            }
        }
        assert positions == Extend(before, step.faces, width);
      }
    }

    /** `track_and_crop`: skip a frame that is narrow enough; otherwise sample
      the clip, smooth the positions, take the truncated median, clamp the crop
      window and clear the cache. */
    method TrackAndCrop(width: nat, height: nat, duration: real, outcomes: seq<SampleOutcome>)
      returns (plan: CropDecision)
      requires |outcomes| == NumSamples(duration)
      modifies this
      ensures plan == PlanCrop(width, height, duration, outcomes)
      ensures plan.Skip? ==> faceCache == old(faceCache)
      ensures plan.Crop? ==> faceCache == map[]
    {
      var targetWidth := TargetWidth(height);
      if width <= targetWidth {
        return Skip;
      }
      var positions := SamplePositions(width, duration, outcomes);
      // The centre stays at the midpoint unless there are positions, which
      // (with at least three samples) there always are.
      var centerX := width / 2;
      if positions != [] {
        var points := Points(positions, height);
        var smoothedPositions := SmoothTrajectory(points, 3);
        centerX := Trunc(Median(Xs(smoothedPositions)));
      }
      plan := ResolveCrop(width, height, centerX);
      faceCache := map[];
    }

    /** `close`: forget every cached detection. */
    method Close()
      modifies this
      ensures faceCache == map[]
    {
      faceCache := map[];
    }
  }
}

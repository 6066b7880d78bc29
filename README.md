# Face-tracking crop planner

This is a Dafny model of the crop-planning core of `FaceTracker` in `services/face_tracker.py`. Its job is to reframe a landscape clip to 9:16 so that the speaker stays in the picture:

1. Sample a few frames of the clip.
2. Detect faces in each sample. Detections are remembered per sample time in `face_cache`.
3. Keep the best face of each sample, ranked by confidence × box area. When a sample has no face, hold the previous position, or use the frame's midpoint if there is none.
4. Smooth the positions with a centred moving average, take the median and truncate it.
5. Clamp the result so that the crop window lies inside the frame.

The model is split into these modules:

- `Numbers` holds Python's `int()` on floats (truncation toward zero) and integer `min`/`max`.
- `Sampling` holds the sample count and the `np.linspace` sample times, using exact reals.
- `Faces` holds the face record, the score `confidence * area`, the stable descending sort and the first maximal face.
- `Detection` holds one call of `detect_faces_in_frame` as a function of the cache, the optional frame time and what the detector does. Its result is the answer plus the new cache.
- `GapFilling` holds the one-position-per-sample fallback chain of the sampling loop.
- `Smoothing` holds `smooth_trajectory` over exact reals.
- `Centre` holds `np.median` and the truncated centre estimate.
- `Crop` holds the even 9:16 target width, the skip decision and the clamp.
- `Tracker` holds the whole run:
  - `Replay` states it as a function of what each sample observes.
  - `PlanCrop` gives the resulting crop decision.
  - Lemmas relate the run to the pieces above.
  - The `FaceTracker` class has a `faceCache` map field and imperative methods that mirror the Python methods. Their loops are proved against the functions.

The frame source and the detector cannot be seen from this code. A parameter `outcomes: seq<SampleOutcome>` supplies them, one entry per sample:

- `FrameUnavailable`: `clip.get_frame` raised.
- `FrameRead(Raised)`: the detector raised inside `detect_faces_in_frame`.
- `FrameRead(Found(raw))`: the detector returned the face boxes `raw`, in detection order.

The model follows the code where it differs from what its comments and docstrings suggest:

- **Short clips.** The comment at `services/face_tracker.py:165` says short clips analyse 6 frames. In the code, `int(duration / 3)` is at most 3 for a clip of at most 10 s, so such a clip always gets exactly 3 samples (`NumSamples`).
- **Truncation.** Both the sample count and the final centre use `int()`, which truncates rather than rounds.
- **Cache on skip.** When the frame is already narrow enough, the early return at `services/face_tracker.py:154-156` comes before the cache is cleared. The cache is then left as it was (`TrackAndCrop`). On every cropping run it is empty on exit.

## Model

| member | source | states |
|---|---|---|
| Numbers.Trunc | services/face_tracker.py:166-168 | Python's `int()` of a float: the integer next to it toward zero, less than one away |
| Numbers.TruncBetween | services/face_tracker.py:204 | truncating a value that lies between two integers gives a result between them |
| Numbers.TruncMonotone | services/face_tracker.py:166-168 | truncation preserves order, which makes the sample count grow with the duration (`NumSamplesMonotone`) |
| Sampling.NumSamples | services/face_tracker.py:166-168 | the sample count is at least 3; it is exactly 3 for clips of at most 10 s and between 6 and 8 for longer clips |
| Sampling.NumSamplesLong | services/face_tracker.py:167-168 | a clip longer than 10 s gets 6 samples below 28 s, 7 from 28 s, and 8 from 32 s on |
| Sampling.NumSamplesMonotone | services/face_tracker.py:166-168 | a longer clip never gets fewer samples, across both regimes |
| Sampling.SampleTimes | services/face_tracker.py:172 | `linspace` gives `n` times, the first 0 and the last the duration |
| Sampling.SampleTimesIncreasing | services/face_tracker.py:172 | for a positive duration the times strictly increase and stay within `[0, duration]` |
| Sampling.SampleTimesZero | services/face_tracker.py:172 | for a zero duration every sample time is 0 |
| Faces.Score | services/face_tracker.py:102 | the sort key `confidence * area`; no contract of its own: `SortByScore`, `BestIndex` and `BestFaceIsFirstMaximal` state the order it induces |
| Faces.Insert | services/face_tracker.py:102 | inserting a face into a ranked list keeps it ranked and adds exactly that face |
| Faces.SortByScore | services/face_tracker.py:102 | the result is non-increasing in confidence × area and a permutation of the detected faces |
| Faces.BestIndex | services/face_tracker.py:181 | the index of the first face whose score is maximal: no face scores higher, and every earlier face scores strictly less |
| Faces.SortedHeadIsBest | services/face_tracker.py:181 | the head of a ranked list scores at least as much as every face in it |
| Faces.BestFaceIsFirstMaximal | services/face_tracker.py:102 | `faces[0]` after ranking is the first face of maximal score in detection order |
| Faces.SortByScoreEmpty | services/face_tracker.py:102 | the ranked list is empty exactly when nothing was detected |
| Detection.Detect | services/face_tracker.py:59-111 | a cached time returns the stored list and leaves the cache unchanged; a detector exception returns `[]` and stores nothing; a success returns the detected faces, ranked and permuted, and stores exactly that list under a given time; without a time the cache is unchanged |
| Detection.DetectKeepsEntries | services/face_tracker.py:105-106 | a stored entry is never replaced or removed by a later call |
| Detection.DetectRanked | services/face_tracker.py:59-106 | a cache holding ranked lists stays so, and every answer, cached or fresh, is ranked |
| Detection.DetectMemoises | services/face_tracker.py:59-106 | asking again for a time just answered from the cache or by a successful detection returns the same faces and cache, whatever the detector would do now |
| GapFilling.Fallback | services/face_tracker.py:185-188 | the miss position, the last position or `width // 2` when there is none; no contract of its own: `GapFill`, `GapFillHolds` and `GapFillMidpoint` state it per sample |
| GapFilling.Extend | services/face_tracker.py:180-196 | one sample of the loop appends exactly one position and keeps the earlier ones as they were |
| GapFilling.GapFill | services/face_tracker.py:174-196 | one position per sample: a sample with faces gives its best face's centre; a miss repeats the previous position, or gives `width // 2` at the first sample |
| GapFilling.GapFillHolds | services/face_tracker.py:185-186 | after a miss the position stays at the best face of the latest earlier sample that saw one |
| GapFilling.GapFillMidpoint | services/face_tracker.py:187-188 | until the first face is seen every position is `width // 2` |
| GapFilling.GapFillSteady | services/face_tracker.py:180-182 | if every sample's best face is at `c`, every position is `c` |
| GapFilling.GapFillAllMiss | services/face_tracker.py:184-196 | if no sample sees a face, every position is `width // 2` |
| Smoothing.WindowContainsCentre | services/face_tracker.py:130-132 | every window `[max(0, i - w//2), min(n, i + w//2 + 1))` contains `i` and lies within the trajectory, so it is never empty |
| Smoothing.WindowStart | services/face_tracker.py:130 | the window's first index `max(0, i - w // 2)`; no contract of its own: `WindowContainsCentre` bounds it |
| Smoothing.WindowEnd | services/face_tracker.py:131 | the window's end `min(n, i + w // 2 + 1)`; no contract of its own: `WindowContainsCentre` bounds it |
| Smoothing.Average | services/face_tracker.py:134-135 | the mean of a non-empty window: times the window's length it gives back the window's sum |
| Smoothing.Mean | services/face_tracker.py:134-136 | the point of the two separate averages; no contract of its own: `AverageBetween` and `SmoothBetweenX`/`SmoothBetweenY` bound it |
| Smoothing.Smooth | services/face_tracker.py:125-138 | the smoothed trajectory has the input's length and is the input itself when it has at most `w` points |
| Smoothing.SumBetween | services/face_tracker.py:134-135 | the sum of `n` values in `[lo, hi]` lies in `[n*lo, n*hi]` |
| Smoothing.AverageBetween | services/face_tracker.py:134-135 | a window's mean lies between bounds of its values |
| Smoothing.SmoothBetweenX | services/face_tracker.py:129-136 | every smoothed x lies between bounds of the raw x values |
| Smoothing.SmoothBetweenY | services/face_tracker.py:129-136 | every smoothed y lies between bounds of the raw y values |
| Smoothing.SmoothConstant | services/face_tracker.py:129-136 | a constant trajectory smooths to itself |
| Centre.InsertAsc | services/face_tracker.py:204 | inserting into an ascending list keeps it ascending and adds exactly that value |
| Centre.SortAsc | services/face_tracker.py:204 | the values sorted ascending, a permutation of the input |
| Centre.Median | services/face_tracker.py:204 | for an odd count the median is one of the values |
| Centre.MedianBetween | services/face_tracker.py:204 | the median lies between bounds of the values |
| Centre.EstimateCentre | services/face_tracker.py:198-208 | the truncated median of the smoothed `(pos, height // 2)` points, or `width // 2` for an empty trajectory; no contract of its own: `CentreBetween` and `CentreConstant` state its properties, and `TrajectoryNeverEmpty` shows the second branch is never taken |
| Centre.CentreBetween | services/face_tracker.py:198-204 | the estimated centre lies between the smallest and the largest raw position |
| Centre.CentreConstant | services/face_tracker.py:198-204 | a trajectory that never moves is centred where it stands |
| Crop.TargetWidth | services/face_tracker.py:151-153 | the target width is even, is the largest even number not above `height * 9 / 16`, and equals `2 * ((height * 9) // 32)` |
| Crop.ResolveCrop | services/face_tracker.py:211-212 | skip exactly when `width <= target_width`; otherwise `left = center_x - tw // 2` with `0 <= left` and `left + tw <= width`; an estimate inside the allowed range is kept, one too far left gives `left == 0`, one too far right ends the window at the frame's edge |
| Crop.FullHdExample | services/face_tracker.py:151-153 | 1080 rows give a 606-column target; a speaker at 1400 in a 1920-wide frame gives `left == 1097` |
| Crop.PortraitSkipped | services/face_tracker.py:154-156 | a 1080x1920 portrait frame is not cropped |
| Tracker.Sample | services/face_tracker.py:175-196 | one sample's `try`: an unreadable frame sees no faces and leaves the cache; a read frame goes through `Detect`; no contract of its own: `RunSeesFreshDetections` and `SampleSteady` state its properties |
| Tracker.Replay | services/face_tracker.py:174-178 | a run of `k` samples sees `k` face lists, and the cache holds only times that were sampled |
| Tracker.ReplayRanked | services/face_tracker.py:178-182 | every list a sample sees, and every cached list, is ranked, so `faces[0]` is a best face |
| Tracker.ReplayFresh | services/face_tracker.py:172-178 | with distinct sample times each sample sees exactly its own detection, as a run with no cache would |
| Tracker.NewTimeNotCached | services/face_tracker.py:105-106 | a time no earlier sample used is not in the cache |
| Tracker.ReplayKeeps | services/face_tracker.py:105-106 | a cached entry survives every later sample of the run unchanged |
| Tracker.ReplayReuses | services/face_tracker.py:59-60 | a sample at a time already detected successfully in this run reuses that earlier answer |
| Tracker.CachedOnlyAfterFound | services/face_tracker.py:105-111 | a time is in the cache only if an earlier sample at that time read its frame and the detector succeeded; exceptions and unreadable frames store nothing |
| Tracker.ZeroClipRetriesUntilFound | services/face_tracker.py:59-111 | four samples at time 0, as for a zero-length clip: after an unreadable frame and a detector exception the detector runs again, and after its success the next sample reuses the cached answer |
| Tracker.ReplayPrefix | services/face_tracker.py:174-196 | later samples never change what earlier samples saw |
| Tracker.ReplayAllMiss | services/face_tracker.py:102-111 | if no outcome yields a face, no sample sees one and every cached list is empty |
| Tracker.SampleSteady | services/face_tracker.py:178-182 | a successful detection whose best face is at `c`, through a cache whose lists all start at `c`, yields a list starting at `c` and keeps the cache so |
| Tracker.ReplaySteady | services/face_tracker.py:174-182 | if every detection's best face is at `c`, every sample's list starts with a face at `c` |
| Tracker.TrajectoryNeverEmpty | services/face_tracker.py:198-208 | the raw trajectory has one entry per sample, at least 3, so the empty-trajectory `else` branch is never taken |
| Tracker.RunSeesFreshDetections | services/face_tracker.py:172-178 | for a positive duration the cache never answers within a run, so each sample sees its own detection |
| Tracker.PlanCrop | services/face_tracker.py:150-212 | the crop decision of a whole run; no contract of its own: `TrackAndCrop` is proved equal to it, and `PlanInsideFrame`, `PlanAllMiss`, `PlanSteadyFace` and `PlanFullHdSpeaker` state its properties |
| Tracker.PlanInsideFrame | services/face_tracker.py:211-212 | a run skips exactly when `width <= target_width`; otherwise the crop window has an even width and lies inside the frame |
| Tracker.PlanAllMiss | services/face_tracker.py:198-212 | if no sample finds a face, the crop is centred on `width // 2` |
| Tracker.PlanSteadyFace | services/face_tracker.py:198-212 | if every sample's best face is at `c`, the decision is the one resolved for `c`, for every frame size (a skip included) |
| Tracker.PlanFullHdSpeaker | services/face_tracker.py:150-212 | a 6 s 1920x1080 clip with the speaker at 1400 in every sample is cropped to 606 columns from 1097 |
| Tracker.FaceTracker.constructor | services/face_tracker.py:43 | a new tracker has an empty cache |
| Tracker.FaceTracker.DetectFaces | services/face_tracker.py:46-111 | the answer and the new cache are those of `Detect` on the old cache |
| Tracker.FaceTracker.SmoothTrajectory | services/face_tracker.py:113-138 | the loop builds exactly the smoothed trajectory `Smooth` |
| Tracker.FaceTracker.SamplePositions | services/face_tracker.py:160-196 | after clearing the cache, the loop's positions are the gap-filled trajectory of the run, and the cache is the run's final cache |
| Tracker.FaceTracker.TrackAndCrop | services/face_tracker.py:140-222 | the decision is `PlanCrop`; a skip leaves the cache as it was and a crop leaves it empty |
| Tracker.FaceTracker.Close | services/face_tracker.py:224-228 | the cache is empty afterwards |

## Left out

- Model bootstrap (`services/face_tracker.py:16-41`) is left out: downloading the model, filesystem calls and building the MediaPipe detector are I/O and foreign-library calls. The constructor only sets up the empty cache.
- Releasing the detector in `close` (`services/face_tracker.py:230`) is left out: it is a foreign call. Its exception handler (`services/face_tracker.py:232-233`) only prints. The cache is cleared first (`services/face_tracker.py:228`), so `Close`'s postcondition holds even when releasing the detector raises.
- The default `window_size=5` of `smooth_trajectory` (`services/face_tracker.py:113`) is not modelled as a default: `SmoothTrajectory` takes the window size explicitly. Its only caller in the core passes 3 (`services/face_tracker.py:202`).
- Frame preprocessing and box conversion (`services/face_tracker.py:63-91`) are left out: resizing, colour conversion, `mp.Image`, the detector call and the float `/ scale` pixel conversion are foreign calls and float arithmetic. A face arrives already in full-frame coordinates, with its confidence and area.
- Video I/O (`clip.get_frame`, `clip.crop`, `services/face_tracker.py:177, 220`) is left out. A failed frame read is the `FrameUnavailable` outcome, and the model stops at the computed `(targetWidth, left)` decision.
- Floating point is modelled with exact reals: the times, averages and median are exact, so float rounding in `linspace`, `sum / len` and `np.median` is not modelled. The real is only compared by exact key in the cache, as the dictionary does.
- Logging (`print`) is left out throughout.
- The detector is abstract: each sample's outcome `outcomes[i]` is chosen freely, so two samples at the same time may meet different detector behaviour. This covers every deterministic detector and more. Sample times repeat only for a clip of duration 0: a positive duration gives strictly increasing times (`SampleTimesIncreasing`), and duration 0 gives time 0 throughout (`SampleTimesZero`). There the cache answers after an earlier successful detection at that time (`ReplayReuses`), and only then (`CachedOnlyAfterFound`). After a detector exception or an unreadable frame the detector is asked again (`ZeroClipRetriesUntilFound`).
- Faces.BestFaceIsFirstMaximal: stability of the sort is stated for the head of the list only, the face that the tracker uses, not for the full order of tied faces.
- Centre.Median: only membership for odd counts and the bounds (`MedianBetween`) are stated, not that half the values lie on each side.
- `services/whisper_transcriber.py` is not part of this model: it is a thin wrapper over a speech-recognition library whose code cannot be seen.

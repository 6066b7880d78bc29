/** The per-run detection cache of `detect_faces_in_frame`: an exact-key map
    from sample time to the ranked face list found there. */
module Detection {
  import opened Faces

  datatype Option<T> = None | Some(value: T)

  /** What the face detector does with one frame: it raises, or it returns
      the face boxes it found (possibly none), in detection order. */
  datatype DetectorResult = Raised | Found(raw: seq<Face>)

  type Cache = map<real, seq<Face>>

  /** Every stored list is ranked. */
  predicate CacheRanked(c: Cache)
  {
    forall t :: t in c ==> SortedByScore(c[t])
  }

  /** The faces returned by one call and the cache after it. */
  datatype Detected = Detected(faces: seq<Face>, cache: Cache)

  function Hit(cache: Cache, frameTime: Option<real>): bool
  {
    frameTime.Some? && frameTime.value in cache
  }

  /** One call of `detect_faces_in_frame(frame, frame_time)`.
      A cached time answers from the cache and changes nothing. Otherwise the
      detector runs: on an exception the answer is empty and nothing is stored;
      on success the answer is the detected faces ranked by score, stored under
      the time when there is one. */
  function Detect(cache: Cache, frameTime: Option<real>, d: DetectorResult): (r: Detected)
    ensures Hit(cache, frameTime) ==> r.faces == cache[frameTime.value] && r.cache == cache
    ensures !Hit(cache, frameTime) && d.Raised? ==> r.faces == [] && r.cache == cache
    ensures !Hit(cache, frameTime) && d.Found? ==>
      SortedByScore(r.faces) && multiset(r.faces) == multiset(d.raw)
    ensures !Hit(cache, frameTime) && d.Found? && frameTime.Some? ==>
      r.cache == cache[frameTime.value := r.faces]
    ensures frameTime.None? ==> r.cache == cache
  {
    if frameTime.Some? && frameTime.value in cache then
      var t: real := frameTime.value;
      Detected(cache[t], cache)
    else
      match d
      case Raised => Detected([], cache)
      case Found(raw) =>
        var ranked := SortByScore(raw);
        Detected(ranked, if frameTime.Some? then cache[frameTime.value := ranked] else cache)
  }

  /** An entry, once stored, is never replaced or removed. */
  lemma DetectKeepsEntries(cache: Cache, frameTime: Option<real>, d: DetectorResult, t: real)
    requires t in cache
    ensures t in Detect(cache, frameTime, d).cache && Detect(cache, frameTime, d).cache[t] == cache[t]
  {
  }

  /** A ranked cache stays ranked, and every answer read through it is ranked. */
  lemma DetectRanked(cache: Cache, frameTime: Option<real>, d: DetectorResult)
    requires CacheRanked(cache)
    ensures CacheRanked(Detect(cache, frameTime, d).cache)
    ensures SortedByScore(Detect(cache, frameTime, d).faces)
  {
    if Hit(cache, frameTime) {
      var t: real := frameTime.value;
      assert SortedByScore(cache[t]);
    }
  }

  /** The fresh (uncached) answer of the detector. */
  function Fresh(d: DetectorResult): seq<Face>
  {
    match d
    case Raised => []
    case Found(raw) => SortByScore(raw)
  }

  /** Asking again for a time that was just answered (from the cache or by a
      successful detection) returns the same faces, whatever the detector would
      do now, and leaves the cache as it is. */
  lemma DetectMemoises(cache: Cache, t: real, d1: DetectorResult, d2: DetectorResult)
    requires Hit(cache, Some(t)) || d1.Found?
    ensures Detect(Detect(cache, Some(t), d1).cache, Some(t), d2) == Detect(cache, Some(t), d1)
  {
  }

  /** Without a cached entry the answer is the detector's own. */
  lemma DetectMissIsFresh(cache: Cache, frameTime: Option<real>, d: DetectorResult)
    requires !Hit(cache, frameTime)
    ensures Detect(cache, frameTime, d).faces == Fresh(d)
  {
  }
}

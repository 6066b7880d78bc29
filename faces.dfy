/** Detected faces and the ranking `detect_faces_in_frame` applies to them:
    `sorted(faces, key=confidence * area, reverse=True)`. */
module Faces {

  /** One detected face box in full-frame pixel coordinates. */
  datatype Face = Face(centerX: int, centerY: int, width: int, height: int, confidence: real, area: int)

  /** The ranking key: confidence times box area. */
  function Score(f: Face): real
  {
    f.confidence * f.area as real
  }

  predicate SortedByScore(fs: seq<Face>)
  {
    forall i, j :: 0 <= i < j < |fs| ==> Score(fs[i]) >= Score(fs[j])
  }

  /** Places `f` in front of the first face that does not outrank it, so that
      `f` stays ahead of faces with an equal score (Python's sort is stable). */
  function Insert(f: Face, s: seq<Face>): (r: seq<Face>)
    requires SortedByScore(s)
    ensures SortedByScore(r)
    ensures multiset(r) == multiset(s) + multiset{f}
  {
    if s == [] || Score(f) >= Score(s[0]) then [f] + s
    else
      var rest := Insert(f, s[1..]);
      assert s == [s[0]] + s[1..];
      assert rest[0] in multiset(s[1..]) + multiset{f};
      [s[0]] + rest
  }

  /** The head after inserting: `f` itself unless the current head outranks it. */
  lemma InsertHead(f: Face, s: seq<Face>)
    requires SortedByScore(s)
    ensures Insert(f, s)[0] == (if s == [] || Score(f) >= Score(s[0]) then f else s[0])
  {
  }

  /** The face list in non-increasing order of score, a permutation of its input. */
  function SortByScore(fs: seq<Face>): (r: seq<Face>)
    ensures SortedByScore(r)
    ensures multiset(r) == multiset(fs)
    ensures |r| == |fs|
  {
    if fs == [] then []
    else
      assert fs == [fs[0]] + fs[1..];
      Insert(fs[0], SortByScore(fs[1..]))
  }

  /** The index of the first face whose score is maximal. */
  function BestIndex(fs: seq<Face>): (k: nat)
    requires fs != []
    ensures k < |fs|
    ensures forall j :: 0 <= j < |fs| ==> Score(fs[j]) <= Score(fs[k])
    ensures forall j :: 0 <= j < k ==> Score(fs[j]) < Score(fs[k])
  {
    if |fs| == 1 then 0
    else
      var k' := BestIndex(fs[1..]);
      if Score(fs[0]) >= Score(fs[1 + k']) then 0 else 1 + k'
  }

  /** In a sorted list the head outranks (or ties with) every face in it. */
  lemma SortedHeadIsBest(fs: seq<Face>)
    requires SortedByScore(fs) && fs != []
    ensures forall g :: g in fs ==> Score(g) <= Score(fs[0])
  {
  }

  /** `faces[0]` after ranking is exactly the first face of maximal score in
      detection order: the stable sort keeps ties in their original order. */
  lemma {:induction false} BestFaceIsFirstMaximal(fs: seq<Face>)
    requires fs != []
    ensures SortByScore(fs)[0] == fs[BestIndex(fs)]
  {
    InsertHead(fs[0], SortByScore(fs[1..]));
    if |fs| > 1 {
      BestFaceIsFirstMaximal(fs[1..]);
    }
  }

  /** The ranked list is non-empty exactly when some face was detected. */
  lemma SortByScoreEmpty(fs: seq<Face>)
    ensures SortByScore(fs) == [] <==> fs == []
  {
  }
}

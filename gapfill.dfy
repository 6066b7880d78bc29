/** The fallback chain of the sampling loop in `track_and_crop`: one raw
    x-position per sample, whatever the sample produced. */
module GapFilling {
  import opened Faces

  /** The position used when a sample has no face: the previous position if
      there is one, the frame's midpoint `width // 2` otherwise. */
  function Fallback(positions: seq<int>, width: nat): int
  {
    if positions != [] then positions[|positions| - 1] else width / 2
  }

  /** The positions after one more sample that saw `faces`: its best face's
      centre when there is one, the fallback otherwise. */
  function Extend(positions: seq<int>, faces: seq<Face>, width: nat): (r: seq<int>)
    ensures |r| == |positions| + 1 && r[..|positions|] == positions
  {
    positions + [if faces != [] then faces[0].centerX else Fallback(positions, width)]
  }

  /** The positions for a run whose samples saw the ranked face lists `seen`
      (an empty list for a miss, a detector exception or an unreadable frame). */
  function GapFill(seen: seq<seq<Face>>, width: nat): (ps: seq<int>)
    ensures |ps| == |seen|
    ensures forall i :: 0 <= i < |seen| && seen[i] != [] ==> ps[i] == seen[i][0].centerX
    ensures forall i :: 0 < i < |seen| && seen[i] == [] ==> ps[i] == ps[i - 1]
    ensures |seen| > 0 && seen[0] == [] ==> ps[0] == width / 2
  {
    if seen == [] then []
    else
      var before := GapFill(seen[..|seen| - 1], width);
      Extend(before, seen[|seen| - 1], width)
  }

  /** One more sample extends the positions of the run so far. */
  lemma GapFillSnoc(seen: seq<seq<Face>>, faces: seq<Face>, width: nat)
    ensures GapFill(seen + [faces], width) == Extend(GapFill(seen, width), faces, width)
  {
    assert (seen + [faces])[..|seen|] == seen;
  }

  /** Temporal hold: a position is the best face of the latest sample at or
      before it that saw one. */
  lemma {:induction false} GapFillHolds(seen: seq<seq<Face>>, width: nat, j: nat, i: nat)
    requires j <= i < |seen| && seen[j] != []
    requires forall k :: j < k <= i ==> seen[k] == []
    ensures GapFill(seen, width)[i] == seen[j][0].centerX
  {
    if i > j {
      GapFillHolds(seen, width, j, i - 1);
    }
  }

  /** Until the first face is seen, every position is the frame's midpoint. */
  lemma {:induction false} GapFillMidpoint(seen: seq<seq<Face>>, width: nat, i: nat)
    requires i < |seen|
    requires forall k :: 0 <= k <= i ==> seen[k] == []
    ensures GapFill(seen, width)[i] == width / 2
  {
    if i > 0 {
      GapFillMidpoint(seen, width, i - 1);
    }
  }

  /** A run in which every sample sees a face whose best centre is `c` holds
      `c` throughout. */
  lemma GapFillSteady(seen: seq<seq<Face>>, width: nat, c: int)
    requires forall k :: 0 <= k < |seen| ==> seen[k] != [] && seen[k][0].centerX == c
    ensures forall k :: 0 <= k < |seen| ==> GapFill(seen, width)[k] == c
  {
  }

  /** A run in which no sample sees a face is the midpoint throughout. */
  lemma GapFillAllMiss(seen: seq<seq<Face>>, width: nat)
    requires forall k :: 0 <= k < |seen| ==> seen[k] == []
    ensures forall k :: 0 <= k < |seen| ==> GapFill(seen, width)[k] == width / 2
  {
    forall k | 0 <= k < |seen| {
      GapFillMidpoint(seen, width, k);
    }
  }
}

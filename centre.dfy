/** The clip's single horizontal centre: `int(np.median(xs))` over the
    smoothed x values, or the midpoint when there are none. */
module Centre {
  import opened Numbers
  import opened Smoothing

  predicate Ascending(s: seq<real>)
  {
    forall i, j :: 0 <= i < j < |s| ==> s[i] <= s[j]
  }

  function InsertAsc(x: real, s: seq<real>): (r: seq<real>)
    requires Ascending(s)
    ensures Ascending(r)
    ensures multiset(r) == multiset(s) + multiset{x}
  {
    if s == [] || x <= s[0] then [x] + s
    else
      var rest := InsertAsc(x, s[1..]);
      assert s == [s[0]] + s[1..];
      assert rest[0] in multiset(s[1..]) + multiset{x};
      [s[0]] + rest
  }

  /** The values in ascending order, a permutation of the input. */
  function SortAsc(xs: seq<real>): (r: seq<real>)
    ensures Ascending(r)
    ensures multiset(r) == multiset(xs)
    ensures |r| == |xs|
  {
    if xs == [] then []
    else
      assert xs == [xs[0]] + xs[1..];
      InsertAsc(xs[0], SortAsc(xs[1..]))
  }

  /** `np.median`: the middle value of the sorted list, or the mean of the two
      middle values when the count is even. */
  function Median(xs: seq<real>): (m: real)
    requires xs != []
    ensures |xs| % 2 == 1 ==> m in xs
  {
    var s := SortAsc(xs);
    var n := |s|;
    if n % 2 == 1 then
      assert s[n / 2] in multiset(s);
      s[n / 2]
    else (s[n / 2 - 1] + s[n / 2]) / 2.0
  }

  /** The median of values in `[lo, hi]` lies in `[lo, hi]`. */
  lemma MedianBetween(xs: seq<real>, lo: real, hi: real)
    requires xs != []
    requires forall i :: 0 <= i < |xs| ==> lo <= xs[i] <= hi
    ensures lo <= Median(xs) <= hi
  {
    var s := SortAsc(xs);
    forall k | 0 <= k < |s|
      ensures lo <= s[k] <= hi
    {
      assert s[k] in multiset(xs);
    }
  }

  /** The raw positions as the points `(pos, height // 2)` that get smoothed. */
  function Points(positions: seq<int>, height: nat): (ps: seq<Point>)
    ensures |ps| == |positions|
    ensures forall i :: 0 <= i < |positions| ==> ps[i] == Point(positions[i] as real, (height / 2) as real)
  {
    seq(|positions|, i requires 0 <= i < |positions| => Point(positions[i] as real, (height / 2) as real))
  }

  /** The estimated centre: the truncated median of the x values smoothed with
      a window of 3, or `width // 2` for an empty trajectory. */
  function EstimateCentre(positions: seq<int>, width: nat, height: nat): int
  {
    if positions != [] then Trunc(Median(Xs(Smooth(Points(positions, height), 3))))
    else width / 2
  }

  /** The centre lies between the smallest and the largest raw position. */
  lemma CentreBetween(positions: seq<int>, width: nat, height: nat, lo: int, hi: int)
    requires positions != []
    requires forall i :: 0 <= i < |positions| ==> lo <= positions[i] <= hi
    ensures lo <= EstimateCentre(positions, width, height) <= hi
  {
    var ps := Points(positions, height);
    SmoothBetweenX(ps, 3, lo as real, hi as real);
    var xs := Xs(Smooth(ps, 3));
    MedianBetween(xs, lo as real, hi as real);
    TruncBetween(Median(xs), lo, hi);
  }

  /** A trajectory that never moves is centred where it stands. */
  lemma CentreConstant(positions: seq<int>, width: nat, height: nat, c: int)
    requires positions != []
    requires forall i :: 0 <= i < |positions| ==> positions[i] == c
    ensures EstimateCentre(positions, width, height) == c
  {
    CentreBetween(positions, width, height, c, c);
  }
}

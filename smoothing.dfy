/** `smooth_trajectory`: a centred moving average whose windows shrink at the
    two ends of the trajectory. Values are exact reals. */
module Smoothing {
  import opened Numbers

  datatype Point = Point(x: real, y: real)

  function Sum(s: seq<real>): real
  {
    if s == [] then 0.0 else Sum(s[..|s| - 1]) + s[|s| - 1]
  }

  function Xs(ps: seq<Point>): (xs: seq<real>)
    ensures |xs| == |ps| && forall i :: 0 <= i < |ps| ==> xs[i] == ps[i].x
  {
    seq(|ps|, i requires 0 <= i < |ps| => ps[i].x)
  }

  function Ys(ps: seq<Point>): (ys: seq<real>)
    ensures |ys| == |ps| && forall i :: 0 <= i < |ps| ==> ys[i] == ps[i].y
  {
    seq(|ps|, i requires 0 <= i < |ps| => ps[i].y)
  }

  /** The arithmetic mean of a non-empty sequence. */
  function Average(s: seq<real>): (a: real)
    requires s != []
    ensures a * |s| as real == Sum(s)
  {
    Sum(s) / |s| as real
  }

  /** The mean point of a non-empty window (x and y averaged separately). */
  function Mean(window: seq<Point>): Point
    requires window != []
  {
    Point(Average(Xs(window)), Average(Ys(window)))
  }

  /** The window around index `i` is `[WindowStart, WindowEnd)`. */
  function WindowStart(i: nat, w: nat): nat
  {
    Max(0, i - w / 2)
  }

  function WindowEnd(i: nat, w: nat, n: nat): nat
  {
    Min(n, i + w / 2 + 1)
  }

  /** Every window holds its own centre, so it is never empty and never leaves
      the trajectory. */
  lemma WindowContainsCentre(i: nat, w: nat, n: nat)
    requires i < n
    ensures WindowStart(i, w) <= i < WindowEnd(i, w, n) <= n
  {
  }

  /** The smoothed trajectory: unchanged when it has at most `w` points,
      otherwise each point replaced by the mean of its window. */
  function Smooth(ps: seq<Point>, w: nat): (r: seq<Point>)
    ensures |r| == |ps|
    ensures |ps| <= w ==> r == ps
  {
    if |ps| <= w then ps
    else
      seq(|ps|, i requires 0 <= i < |ps| =>
        WindowContainsCentre(i, w, |ps|);
        Mean(ps[WindowStart(i, w)..WindowEnd(i, w, |ps|)]))
  }

  /** Point `i` of a trajectory longer than `w` is the mean of its window. */
  lemma SmoothAt(ps: seq<Point>, w: nat, i: nat)
    requires w < |ps| && i < |ps|
    ensures WindowStart(i, w) <= i < WindowEnd(i, w, |ps|) <= |ps|
    ensures Smooth(ps, w)[i] == Mean(ps[WindowStart(i, w)..WindowEnd(i, w, |ps|)])
  {
    WindowContainsCentre(i, w, |ps|);
  }

  /** The sum of `n` values in `[lo, hi]` lies in `[n * lo, n * hi]`. */
  lemma {:induction false} SumBetween(s: seq<real>, lo: real, hi: real)
    requires forall i :: 0 <= i < |s| ==> lo <= s[i] <= hi
    ensures |s| as real * lo <= Sum(s) <= |s| as real * hi
  {
    if s != [] {
      SumBetween(s[..|s| - 1], lo, hi);
    }
  }

  /** The mean of values in `[lo, hi]` lies in `[lo, hi]`. */
  lemma AverageBetween(s: seq<real>, lo: real, hi: real)
    requires s != []
    requires forall i :: 0 <= i < |s| ==> lo <= s[i] <= hi
    ensures lo <= Average(s) <= hi
  {
    SumBetween(s, lo, hi);
    var n := |s| as real;
    assert Average(s) * n == Sum(s);
  }

  /** Smoothing never moves an x out of the range of the raw x values. */
  lemma SmoothBetweenX(ps: seq<Point>, w: nat, lo: real, hi: real)
    requires forall i :: 0 <= i < |ps| ==> lo <= ps[i].x <= hi
    ensures forall i :: 0 <= i < |ps| ==> lo <= Smooth(ps, w)[i].x <= hi
  {
    if |ps| > w {
      forall i | 0 <= i < |ps|
        ensures lo <= Smooth(ps, w)[i].x <= hi
      {
        WindowContainsCentre(i, w, |ps|);
        var window := ps[WindowStart(i, w)..WindowEnd(i, w, |ps|)];
        AverageBetween(Xs(window), lo, hi);
      }
    }
  }

  /** The same for y. */
  lemma SmoothBetweenY(ps: seq<Point>, w: nat, lo: real, hi: real)
    requires forall i :: 0 <= i < |ps| ==> lo <= ps[i].y <= hi
    ensures forall i :: 0 <= i < |ps| ==> lo <= Smooth(ps, w)[i].y <= hi
  {
    if |ps| > w {
      forall i | 0 <= i < |ps|
        ensures lo <= Smooth(ps, w)[i].y <= hi
      {
        WindowContainsCentre(i, w, |ps|);
        var window := ps[WindowStart(i, w)..WindowEnd(i, w, |ps|)];
        AverageBetween(Ys(window), lo, hi);
      }
    }
  }

  /** A constant trajectory smooths to itself. */
  lemma SmoothConstant(ps: seq<Point>, w: nat, p: Point)
    requires forall i :: 0 <= i < |ps| ==> ps[i] == p
    ensures Smooth(ps, w) == ps
  {
    SmoothBetweenX(ps, w, p.x, p.x);
    SmoothBetweenY(ps, w, p.y, p.y);
  }
}

/**
 * The averaging of a window of beard positions. The caller that would feed it
 * the last four positions is disabled, so nothing else in the model uses it.
 */
module Smoothing {

  import opened Geometry

  /** Component-wise sum of the points, accumulated from the first one on (a left fold starting at zero). */
  function Sum(points: seq<Point>): Point
  {
    if |points| == 0 then Point(0.0, 0.0)
    else
      var s := Sum(points[..|points| - 1]);
      var last := points[|points| - 1];
      Point(s.x + last.x, s.y + last.y)
  }

  /** The mean of the points, component by component. */
  function Average(points: seq<Point>): (r: Point)
    requires |points| > 0
    ensures r.x * |points| as real == Sum(points).x && r.y * |points| as real == Sum(points).y
  {
    var s := Sum(points);
    Point(s.x / |points| as real, s.y / |points| as real)
  }

  lemma {:induction false} SumOfCopies(points: seq<Point>, p: Point)
    requires forall i :: 0 <= i < |points| ==> points[i] == p
    ensures Sum(points) == Point(|points| as real * p.x, |points| as real * p.y)
  {
    if |points| > 0 {
      SumOfCopies(points[..|points| - 1], p);
    }
  }

  /** The average of copies of one point is that point. */
  lemma AverageOfCopies(points: seq<Point>, p: Point)
    requires |points| > 0
    requires forall i :: 0 <= i < |points| ==> points[i] == p
    ensures Average(points) == p
  {
    SumOfCopies(points, p);
  }

  lemma {:induction false} SumBounds(points: seq<Point>, lo: Point, hi: Point)
    requires forall i :: 0 <= i < |points| ==> lo.x <= points[i].x <= hi.x && lo.y <= points[i].y <= hi.y
    ensures |points| as real * lo.x <= Sum(points).x <= |points| as real * hi.x
    ensures |points| as real * lo.y <= Sum(points).y <= |points| as real * hi.y
  {
    if |points| > 0 {
      var n := |points| - 1;
      var init, last := points[..n], points[n];
      assert forall i :: 0 <= i < |init| ==> init[i] == points[i];
      SumBounds(init, lo, hi);
      var m := n as real;
      assert Sum(points) == Point(Sum(init).x + last.x, Sum(init).y + last.y);
      StepBound(m, lo.x, Sum(init).x, hi.x, last.x);
      StepBound(m, lo.y, Sum(init).y, hi.y, last.y);
    }
  }

  lemma StepBound(m: real, lo: real, s: real, hi: real, v: real)
    requires m * lo <= s <= m * hi && lo <= v <= hi
    ensures (m + 1.0) * lo <= s + v <= (m + 1.0) * hi
  {
  }

  lemma DivideBounds(lo: real, s: real, hi: real, n: real)
    requires n > 0.0 && n * lo <= s <= n * hi
    ensures lo <= s / n <= hi
  {
  }

  /** The average lies in every box that holds all the points. */
  lemma AverageWithinBounds(points: seq<Point>, lo: Point, hi: Point)
    requires |points| > 0
    requires forall i :: 0 <= i < |points| ==> lo.x <= points[i].x <= hi.x && lo.y <= points[i].y <= hi.y
    ensures lo.x <= Average(points).x <= hi.x && lo.y <= Average(points).y <= hi.y
  {
    SumBounds(points, lo, hi);
    DivideBounds(lo.x, Sum(points).x, hi.x, |points| as real);
    DivideBounds(lo.y, Sum(points).y, hi.y, |points| as real);
  }
}

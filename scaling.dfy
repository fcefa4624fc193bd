/**
 * The point map applied on resize: every coordinate is multiplied by the ratio of
 * the size reported by the resize event to the widget's current size and truncated
 * toward zero, as `int(p.x() * width_scale)` does.
 */
module Scaling {
  import opened Strokes

  /** A widget size in pixels; a shown widget never has a negative dimension. */
  datatype Size = Size(width: nat, height: nat)

  /** Both scale factors can be computed: neither divisor is zero. */
  predicate Scalable(current: Size) {
    current.width > 0 && current.height > 0
  }

  /**
   * v * (num / den), truncated toward zero: the result lies within one step of the
   * exact product, on the side of zero.
   */
  function ScaleCoord(v: int, num: nat, den: nat): (r: int)
    requires den > 0
    ensures 0 <= v * num ==> 0 <= v * num - r * den < den
    ensures v * num < 0 ==> 0 <= r * den - v * num < den
  {
    if v * num >= 0 then (v * num) / den else -((-(v * num)) / den)
  }

  /**
   * The per-point map of the resize handler: x is scaled by the width ratio alone, y by
   * the height ratio alone, and a point stays where it is when the sizes agree.
   */
  function ScalePoint(p: Point, target: Size, current: Size): (r: Point)
    requires Scalable(current)
    ensures r.x == ScaleCoord(p.x, target.width, current.width)
    ensures r.y == ScaleCoord(p.y, target.height, current.height)
    ensures target == current ==> r == p
  {
    if target == current then
      ScaleCoordUnit(p.x, current.width);
      ScaleCoordUnit(p.y, current.height);
      Point(ScaleCoord(p.x, target.width, current.width), ScaleCoord(p.y, target.height, current.height))
    else
      Point(ScaleCoord(p.x, target.width, current.width), ScaleCoord(p.y, target.height, current.height))
  }

  /** The inner comprehension: one stroke, point by point. */
  function ScaleStroke(line: Stroke, target: Size, current: Size): (r: Stroke)
    requires Scalable(current)
    ensures |r| == |line|
    ensures forall j :: 0 <= j < |line| ==> r[j] == ScalePoint(line[j], target, current)
  {
    seq(|line|, j requires 0 <= j < |line| => ScalePoint(line[j], target, current))
  }

  /**
   * The whole stroke list rebuilt: same number of strokes, the same length per stroke,
   * and every point sent through the same map.
   */
  function ScaleLines(lines: seq<Stroke>, target: Size, current: Size): (r: seq<Stroke>)
    requires Scalable(current)
    ensures |r| == |lines|
    ensures forall i :: 0 <= i < |lines| ==> |r[i]| == |lines[i]|
    ensures forall i, j :: 0 <= i < |lines| && 0 <= j < |lines[i]| ==>
              r[i][j] == ScalePoint(lines[i][j], target, current)
  {
    seq(|lines|, i requires 0 <= i < |lines| => ScaleStroke(lines[i], target, current))
  }

  /** The only multiple of a positive n that lies in [0, n) is zero. */
  lemma MultipleBelow(d: int, n: nat)
    requires n > 0 && 0 <= d * n < n
    ensures d == 0
  {
  }

  /** A ratio of one leaves a coordinate where it is. */
  lemma ScaleCoordUnit(v: int, n: nat)
    requires n > 0
    ensures ScaleCoord(v, n, n) == v
  {
    var r := ScaleCoord(v, n, n);
    if 0 <= v * n {
      assert v * n - r * n == (v - r) * n;
      MultipleBelow(v - r, n);
    } else {
      assert r * n - v * n == (r - v) * n;
      MultipleBelow(r - v, n);
    }
  }

  /**
   * When the event reports the size the widget already has, resizing changes no stroke.
   */
  lemma {:induction false} ScaleLinesUnit(lines: seq<Stroke>, size: Size)
    requires Scalable(size)
    ensures ScaleLines(lines, size, size) == lines
  {
    var r := ScaleLines(lines, size, size);
    forall i | 0 <= i < |lines|
      ensures r[i] == lines[i]
    {
      forall j | 0 <= j < |lines[i]|
        ensures r[i][j] == lines[i][j]
      {
        ScaleCoordUnit(lines[i][j].x, size.width);
        ScaleCoordUnit(lines[i][j].y, size.height);
      }
    }
  }

  /** Halving both dimensions maps (100, 100) to (50, 50). */
  lemma HalvingExample()
    ensures ScalePoint(Point(100, 100), Size(400, 300), Size(800, 600)) == Point(50, 50)
  {
  }
}

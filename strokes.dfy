/** Points, strokes and the line segments a paint pass draws from them. */
module Strokes {

  /** A widget-coordinate position, as carried by a mouse event. */
  datatype Point = Point(x: int, y: int)

  /** One continuous drag: the points in the order they were captured. */
  type Stroke = seq<Point>

  /** One pen stroke of the painter, between two consecutive points of a stroke. */
  datatype Segment = Segment(from: Point, to: Point)

  /** How many segments one stroke yields: one per consecutive pair, none below two points. */
  function PairCount(line: Stroke): nat {
    if |line| < 2 then 0 else |line| - 1
  }

  /** Sum of PairCount over all strokes. */
  function TotalPairs(lines: seq<Stroke>): nat {
    if lines == [] then 0 else PairCount(lines[0]) + TotalPairs(lines[1..])
  }

  /** The segments of one stroke, first pair first. */
  function StrokeSegments(line: Stroke): (r: seq<Segment>)
    ensures |r| == PairCount(line)
    ensures forall i :: 0 <= i < |r| ==> r[i] == Segment(line[i], line[i + 1])
  {
    if |line| < 2 then [] else [Segment(line[0], line[1])] + StrokeSegments(line[1..])
  }

  /** `seg` joins two consecutive points of one of the strokes. */
  ghost predicate JoinsPair(lines: seq<Stroke>, seg: Segment) {
    exists s, i :: 0 <= s < |lines| && 0 <= i < |lines[s]| - 1 && seg == Segment(lines[s][i], lines[s][i + 1])
  }

  /** A pair of a later stroke is a pair of the whole list. */
  lemma JoinsPairTail(lines: seq<Stroke>, seg: Segment)
    requires lines != [] && JoinsPair(lines[1..], seg)
    ensures JoinsPair(lines, seg)
  {
    var s, i :| 0 <= s < |lines| - 1 && 0 <= i < |lines[1..][s]| - 1 &&
                seg == Segment(lines[1..][s][i], lines[1..][s][i + 1]);
    assert lines[1..][s] == lines[s + 1];
  }

  /**
   * The segments of all strokes, stroke by stroke in drawing order. Nothing else is
   * drawn: every segment joins two consecutive points of one stroke.
   */
  function Segments(lines: seq<Stroke>): (r: seq<Segment>)
    ensures forall k :: 0 <= k < |r| ==> JoinsPair(lines, r[k])
  {
    if lines == [] then []
    else
      var head := StrokeSegments(lines[0]);
      var tail := Segments(lines[1..]);
      assert forall k :: 0 <= k < |head| ==> JoinsPair(lines, head[k]) by {
        forall k | 0 <= k < |head| ensures JoinsPair(lines, head[k]) {
          assert head[k] == Segment(lines[0][k], lines[0][k + 1]);
        }
      }
      assert forall k :: 0 <= k < |tail| ==> JoinsPair(lines, tail[k]) by {
        forall k | 0 <= k < |tail| ensures JoinsPair(lines, tail[k]) {
          JoinsPairTail(lines, tail[k]);
        }
      }
      head + tail
  }

  /** The paint pass draws exactly the sum of max(|line| - 1, 0) segments. */
  lemma {:induction false} SegmentCount(lines: seq<Stroke>)
    ensures |Segments(lines)| == TotalPairs(lines)
  {
    if lines != [] {
      SegmentCount(lines[1..]);
    }
  }

  /** Drawing one more stroke appends exactly that stroke's segments. */
  lemma {:induction false} SegmentsAppend(lines: seq<Stroke>, line: Stroke)
    ensures Segments(lines + [line]) == Segments(lines) + StrokeSegments(line)
  {
    if lines == [] {
      assert lines + [line] == [line];
      assert [line][1..] == [];
    } else {
      assert (lines + [line])[0] == lines[0];
      assert (lines + [line])[1..] == lines[1..] + [line];
      SegmentsAppend(lines[1..], line);
    }
  }

  /**
   * Position of every segment: pair i of stroke s sits right after the segments
   * of the strokes before s, so the output is ordered stroke by stroke and pair by pair.
   */
  lemma {:induction false} SegmentsAt(lines: seq<Stroke>, s: nat, i: nat)
    requires s < |lines| && i < PairCount(lines[s])
    ensures TotalPairs(lines[..s]) + i < |Segments(lines)|
    ensures Segments(lines)[TotalPairs(lines[..s]) + i] == Segment(lines[s][i], lines[s][i + 1])
  {
    SegmentCount(lines[1..]);
    if s == 0 {
      assert lines[..0] == [];
    } else {
      assert lines[..s][0] == lines[0];
      assert lines[..s][1..] == lines[1..][..s - 1];
      SegmentsAt(lines[1..], s - 1, i);
    }
  }

  /**
   * The paint loop: for every stroke, for every i in range(len(line) - 1),
   * draw the segment from line[i] to line[i + 1].
   */
  method DrawLines(lines: seq<Stroke>) returns (segs: seq<Segment>)
    ensures segs == Segments(lines)
  {
    segs := [];
    for k := 0 to |lines|
      invariant segs == Segments(lines[..k])
    {
      var line := lines[k];
      ghost var drawn := segs;
      var i := 0;
      while i < |line| - 1
        invariant 0 <= i <= PairCount(line)
        invariant segs == drawn + StrokeSegments(line)[..i]
      {
        assert StrokeSegments(line)[..i + 1] == StrokeSegments(line)[..i] + [Segment(line[i], line[i + 1])];
        segs := segs + [Segment(line[i], line[i + 1])];
        i := i + 1;
      }
      assert StrokeSegments(line)[..i] == StrokeSegments(line);
      assert lines[..k + 1] == lines[..k] + [line];
      SegmentsAppend(lines[..k], line);
    }
    assert lines[..|lines|] == lines;
  }
}

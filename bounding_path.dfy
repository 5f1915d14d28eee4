/** The outline drawn around a tracked QR code: a path that moves to the
    first corner, draws a line to each further corner in order and closes
    with a line back to the first corner. */
module BoundingPath {
  import opened Metadata

  datatype PathElement = MoveTo(to: Point) | LineTo(to: Point)

  /** `path` is the closed polygon through `points`: it starts at
      points[0], visits points[1..] in order and ends back at points[0]. */
  ghost predicate IsClosedPolygon(points: seq<Point>, path: seq<PathElement>)
  {
    && |points| > 0
    && |path| == |points| + 1
    && path[0] == MoveTo(points[0])
    && (forall k :: 1 <= k < |points| ==> path[k] == LineTo(points[k]))
    && path[|points|] == LineTo(points[0])
  }

  /** One line element per point, in order. */
  function LinesTo(ps: seq<Point>): (r: seq<PathElement>)
    ensures |r| == |ps|
    ensures forall k :: 0 <= k < |ps| ==> r[k] == LineTo(ps[k])
  {
    if ps == [] then [] else [LineTo(ps[0])] + LinesTo(ps[1..])
  }

  /** The closed polygon through a non-empty corner list: the first corner
      is moved to, the list rotated by one is drawn line by line. */
  function ClosedPath(points: seq<Point>): (path: seq<PathElement>)
    requires |points| > 0
    ensures IsClosedPolygon(points, path)
  {
    [MoveTo(points[0])] + LinesTo(points[1..] + [points[0]])
  }

  /** A corner list has only one closed polygon. */
  lemma ClosedPolygonUnique(points: seq<Point>, path: seq<PathElement>)
    requires IsClosedPolygon(points, path)
    ensures path == ClosedPath(points)
  {
    var c := ClosedPath(points);
    assert forall k :: 0 <= k < |path| ==> path[k] == c[k] by {
      forall k | 0 <= k < |path| ensures path[k] == c[k] {
        if k == 0 {
        } else if k < |points| {
        } else {
          assert k == |points|;
        }
      }
    }
  }

  /** Number of line segments in a path. */
  function Segments(path: seq<PathElement>): nat
  {
    if path == [] then 0 else (if path[0].LineTo? then 1 else 0) + Segments(path[1..])
  }

  lemma {:induction false} SegmentsOfLines(path: seq<PathElement>)
    requires forall k :: 0 <= k < |path| ==> path[k].LineTo?
    ensures Segments(path) == |path|
  {
    if path != [] {
      SegmentsOfLines(path[1..]);
    }
  }

  /** The closed polygon through n corners has exactly n segments. */
  lemma ClosedPolygonSegments(points: seq<Point>, path: seq<PathElement>)
    requires IsClosedPolygon(points, path)
    ensures Segments(path) == |points|
  {
    assert forall k :: 0 <= k < |path[1..]| ==> path[1..][k] == path[k + 1];
    SegmentsOfLines(path[1..]);
  }
}

/** The outline of a rectangle with rounded corners, as `RoundRect` issues it to a
    PDF content stream: eight points clockwise from the upper left, joined by
    straight edges (drawn as one-control curves) and quarter-ellipse corners
    (drawn as cubic Bezier curves). Coordinates are exact reals. */
module RoundRect {

  /** The Bezier control distance for a quarter circle, as a fraction of the radius. */
  const Bez: real := 0.551915024494

  datatype Pos = Pos(x: real, y: real)

  /** A rounded rectangle's corner radii and whether only its top corners are rounded. */
  datatype Shape = Shape(radiusX: real, radiusY: real, topOnly: bool)

  /** One path segment, starting where the previous one ended: `curveTo` with two
      control points, or `curveTo1` with one. */
  datatype Segment = Curve(c1: Pos, c2: Pos, end: Pos) | Curve1(c1: Pos, end: Pos)

  /** `moveTo(start)` followed by the segments in order. */
  datatype Path = Path(start: Pos, segments: seq<Segment>)

  /** The eight points, clockwise from the upper left: a, b on the top edge, c, d on the
      right, e, f on the bottom, g, h on the left. */
  datatype Points = Points(a: Pos, b: Pos, c: Pos, d: Pos, e: Pos, f: Pos, g: Pos, h: Pos)

  /** The one-radius constructor: a quarter circle at each rounded corner. */
  function Circular(radius: real, topOnly: bool): Shape {
    Shape(radius, radius, topOnly)
  }

  /** The point `t` of the way from `p` to `q`. */
  function Lerp(p: Pos, q: Pos, t: real): Pos {
    Pos(p.x + t * (q.x - p.x), p.y + t * (q.y - p.y))
  }

  function Mid(p: Pos, q: Pos): Pos {
    Pos((p.x + q.x) / 2.0, (p.y + q.y) / 2.0)
  }

  /** The eight points of a `width` x `height` rectangle hanging from `upperLeft`
      (y grows upwards, so the bottom edge is at `upperLeft.y - height`). */
  function Corners(topOnly: bool, upperLeft: Pos, width: real, height: real, radiusX: real, radiusY: real): (p: Points)
    // the straight part of the top edge, inset by the radius at both ends
    ensures p.a == Pos(upperLeft.x + radiusX, upperLeft.y)
    ensures p.b == Pos(upperLeft.x + width - radiusX, upperLeft.y)
    // the right edge, inset by the radius at both ends
    ensures p.c == Pos(upperLeft.x + width, upperLeft.y - radiusY)
    ensures p.d == Pos(upperLeft.x + width, upperLeft.y - height + radiusY)
    // the bottom edge: inset, or reaching the sharp corners when only the top is rounded
    ensures !topOnly ==> p.e == Pos(upperLeft.x + width - radiusX, upperLeft.y - height)
    ensures !topOnly ==> p.f == Pos(upperLeft.x + radiusX, upperLeft.y - height)
    ensures topOnly ==> p.e == Pos(upperLeft.x + width, upperLeft.y - height)
    ensures topOnly ==> p.f == Pos(upperLeft.x, upperLeft.y - height)
    // the left edge
    ensures p.g == Pos(upperLeft.x, upperLeft.y - height + radiusY)
    ensures p.h == Pos(upperLeft.x, upperLeft.y - radiusY)
  {
    var nettoWidth := width - 2.0 * radiusX;
    var nettoHeight := height - 2.0 * radiusY;
    var a := Pos(upperLeft.x + radiusX, upperLeft.y);
    var b := Pos(a.x + nettoWidth, a.y);
    var c := Pos(upperLeft.x + width, upperLeft.y - radiusY);
    var d := Pos(c.x, c.y - nettoHeight);
    var e := Pos(upperLeft.x + width - (if topOnly then 0.0 else radiusX), upperLeft.y - height);
    var f := Pos(e.x - (if topOnly then width else nettoWidth), e.y);
    var g := Pos(upperLeft.x, upperLeft.y - height + radiusY);
    var h := Pos(g.x, upperLeft.y - radiusY);
    Points(a, b, c, d, e, f, g, h)
  }

  /** With the one-radius constructor each rounded corner is cut back by the radius
      along both of its sides, so every arc spans a quarter circle; with only the top
      rounded, the bottom corners stay sharp. */
  lemma CircularCornersEven(radius: real, topOnly: bool, upperLeft: Pos, width: real, height: real)
    ensures var s := Circular(radius, topOnly);
            var p := Corners(s.topOnly, upperLeft, width, height, s.radiusX, s.radiusY);
            var right := upperLeft.x + width;
            var bottom := upperLeft.y - height;
            p.a.x - upperLeft.x == upperLeft.y - p.h.y == radius &&
            right - p.b.x == upperLeft.y - p.c.y == radius &&
            (!topOnly ==> right - p.e.x == p.d.y - bottom == radius &&
                          p.f.x - upperLeft.x == p.g.y - bottom == radius) &&
            (topOnly ==> p.e == Pos(right, bottom) && p.f == Pos(upperLeft.x, bottom))
  {
  }

  /** `addLine`: a straight edge from `from` to `to`, drawn as a one-control curve. */
  function Line(from: Pos, to: Pos): Segment {
    Curve1(Mid(from, to), to)
  }

  /** `addRoundRect`: the path of the outline. */
  function RoundRectPath(topOnly: bool, upperLeft: Pos, width: real, height: real, radiusX: real, radiusY: real): (path: Path)
    ensures |path.segments| == 8
    ensures path.start == Corners(topOnly, upperLeft, width, height, radiusX, radiusY).a
    ensures path.segments[7].end == path.start
  {
    var p := Corners(topOnly, upperLeft, width, height, radiusX, radiusY);
    var bezX := radiusX * Bez;
    var bezY := radiusY * Bez;
    Path(p.a, [
      Line(p.a, p.b),
      Curve(Pos(p.b.x + bezX, p.b.y), Pos(p.c.x, p.c.y + bezY), p.c),
      Line(p.c, p.d),
      if topOnly then Line(p.d, p.e) else Curve(Pos(p.d.x, p.d.y - bezY), Pos(p.e.x + bezX, p.e.y), p.e),
      Line(p.e, p.f),
      if topOnly then Line(p.f, p.g) else Curve(Pos(p.f.x - bezX, p.f.y), Pos(p.g.x, p.g.y - bezY), p.g),
      Line(p.g, p.h),
      Curve(Pos(p.h.x, p.h.y + bezY), Pos(p.a.x - bezX, p.a.y), p.a)
    ])
  }

  /** `add`: the outline with the shape's own radii. */
  function Add(s: Shape, upperLeft: Pos, width: real, height: real): (path: Path)
    ensures path.start == Pos(upperLeft.x + s.radiusX, upperLeft.y)
    ensures |path.segments| == 8
  {
    RoundRectPath(s.topOnly, upperLeft, width, height, s.radiusX, s.radiusY)
  }

  /** Where segment `i` of `path` starts: the start, or the end of the segment before. */
  function SegmentStart(path: Path, i: nat): Pos
    requires i < |path.segments|
  {
    if i == 0 then path.start else path.segments[i - 1].end
  }

  /** The endpoints of the path's segments, in order. */
  function Ends(segments: seq<Segment>): (r: seq<Pos>)
    ensures |r| == |segments|
    ensures forall i :: 0 <= i < |r| ==> r[i] == segments[i].end
  {
    if segments == [] then [] else [segments[0].end] + Ends(segments[1..])
  }

  /** Number of cubic (two-control) segments. */
  function CurveCount(segments: seq<Segment>): (n: nat)
    ensures n <= |segments|
  {
    if segments == [] then 0 else (if segments[0].Curve? then 1 else 0) + CurveCount(segments[1..])
  }

  /** The path visits b, c, d, e, f, g, h and returns to a, where it started. */
  lemma PathVisitsCorners(topOnly: bool, upperLeft: Pos, width: real, height: real, radiusX: real, radiusY: real)
    ensures var path := RoundRectPath(topOnly, upperLeft, width, height, radiusX, radiusY);
            var p := Corners(topOnly, upperLeft, width, height, radiusX, radiusY);
            path.start == p.a && Ends(path.segments) == [p.b, p.c, p.d, p.e, p.f, p.g, p.h, p.a]
  {
  }

  /** Every one-control segment is a straight edge: its control point is the midpoint
      of where it starts and where it ends. */
  lemma StraightEdgesAtMidpoint(topOnly: bool, upperLeft: Pos, width: real, height: real, radiusX: real, radiusY: real)
    ensures var path := RoundRectPath(topOnly, upperLeft, width, height, radiusX, radiusY);
            forall i :: 0 <= i < 8 && path.segments[i].Curve1? ==>
              2.0 * path.segments[i].c1.x == SegmentStart(path, i).x + path.segments[i].end.x &&
              2.0 * path.segments[i].c1.y == SegmentStart(path, i).y + path.segments[i].end.y
  {
  }

  /** Four rounded corners normally; with top-only the two bottom corners become
      straight edges and exactly two arcs remain. */
  lemma {:induction false} ArcCount(topOnly: bool, upperLeft: Pos, width: real, height: real, radiusX: real, radiusY: real)
    ensures var path := RoundRectPath(topOnly, upperLeft, width, height, radiusX, radiusY);
            CurveCount(path.segments) == if topOnly then 2 else 4
  {
    var segs := RoundRectPath(topOnly, upperLeft, width, height, radiusX, radiusY).segments;
    var k := if topOnly then 0 else 1;
    assert CurveCount(segs[8..]) == 0;
    CurveCountFrom(segs, 7);
    CurveCountFrom(segs, 6);
    CurveCountFrom(segs, 5);
    assert CurveCount(segs[5..]) == 1 + k;
    CurveCountFrom(segs, 4);
    CurveCountFrom(segs, 3);
    assert CurveCount(segs[3..]) == 1 + 2 * k;
    CurveCountFrom(segs, 2);
    CurveCountFrom(segs, 1);
    CurveCountFrom(segs, 0);
    assert segs[0..] == segs;
  }

  lemma CurveCountFrom(segments: seq<Segment>, i: nat)
    requires i < |segments|
    ensures CurveCount(segments[i..]) == (if segments[i].Curve? then 1 else 0) + CurveCount(segments[i + 1..])
  {
    assert segments[i..][1..] == segments[i + 1..];
  }

  /** Each arc's control points lie on the way from its endpoints to the rectangle's
      true corner, the fraction `Bez` of that way along: the radius times `Bez` sideways
      from the arc's start, and the radius times `Bez` from its end. */
  lemma ArcControlsTowardCorner(topOnly: bool, upperLeft: Pos, width: real, height: real, radiusX: real, radiusY: real)
    ensures var path := RoundRectPath(topOnly, upperLeft, width, height, radiusX, radiusY);
            var topRight := Pos(upperLeft.x + width, upperLeft.y);
            var bottomRight := Pos(upperLeft.x + width, upperLeft.y - height);
            var bottomLeft := Pos(upperLeft.x, upperLeft.y - height);
            var segs := path.segments;
            segs[1] == Curve(Lerp(SegmentStart(path, 1), topRight, Bez), Lerp(segs[1].end, topRight, Bez), segs[1].end) &&
            segs[7] == Curve(Lerp(SegmentStart(path, 7), upperLeft, Bez), Lerp(segs[7].end, upperLeft, Bez), segs[7].end) &&
            (!topOnly ==>
              segs[3] == Curve(Lerp(SegmentStart(path, 3), bottomRight, Bez), Lerp(segs[3].end, bottomRight, Bez), segs[3].end) &&
              segs[5] == Curve(Lerp(SegmentStart(path, 5), bottomLeft, Bez), Lerp(segs[5].end, bottomLeft, Bez), segs[5].end))
  {
  }

  /** With all four corners rounded, the points are mirror images across the vertical
      and the horizontal centre lines of the rectangle. */
  lemma CornersSymmetric(upperLeft: Pos, width: real, height: real, radiusX: real, radiusY: real)
    ensures var p := Corners(false, upperLeft, width, height, radiusX, radiusY);
            var twiceMidX := 2.0 * upperLeft.x + width;
            var twiceMidY := 2.0 * upperLeft.y - height;
            // across x = upperLeft.x + width / 2
            p.a.y == p.b.y && p.a.x + p.b.x == twiceMidX &&
            p.h.y == p.c.y && p.h.x + p.c.x == twiceMidX &&
            p.g.y == p.d.y && p.g.x + p.d.x == twiceMidX &&
            p.f.y == p.e.y && p.f.x + p.e.x == twiceMidX &&
            // across y = upperLeft.y - height / 2
            p.a.x == p.f.x && p.a.y + p.f.y == twiceMidY &&
            p.b.x == p.e.x && p.b.y + p.e.y == twiceMidY &&
            p.h.x == p.g.x && p.h.y + p.g.y == twiceMidY &&
            p.c.x == p.d.x && p.c.y + p.d.y == twiceMidY
  {
  }

  predicate InBox(q: Pos, upperLeft: Pos, width: real, height: real) {
    upperLeft.x <= q.x <= upperLeft.x + width && upperLeft.y - height <= q.y <= upperLeft.y
  }

  /** When the radii fit (at most half the width and half the height), every point the
      path passes through or pulls toward stays inside the rectangle. */
  lemma PathInsideRectangle(topOnly: bool, upperLeft: Pos, width: real, height: real, radiusX: real, radiusY: real)
    requires 0.0 <= radiusX && 2.0 * radiusX <= width
    requires 0.0 <= radiusY && 2.0 * radiusY <= height
    ensures var path := RoundRectPath(topOnly, upperLeft, width, height, radiusX, radiusY);
            InBox(path.start, upperLeft, width, height) &&
            forall i :: 0 <= i < |path.segments| ==>
              InBox(path.segments[i].end, upperLeft, width, height) &&
              InBox(path.segments[i].c1, upperLeft, width, height) &&
              (path.segments[i].Curve? ==> InBox(path.segments[i].c2, upperLeft, width, height))
  {
    var path := RoundRectPath(topOnly, upperLeft, width, height, radiusX, radiusY);
    var p := Corners(topOnly, upperLeft, width, height, radiusX, radiusY);
    assert 0.0 <= radiusX * Bez <= radiusX && 0.0 <= radiusY * Bez <= radiusY;
    forall i | 0 <= i < |path.segments|
      ensures InBox(path.segments[i].end, upperLeft, width, height)
      ensures InBox(path.segments[i].c1, upperLeft, width, height)
      ensures path.segments[i].Curve? ==> InBox(path.segments[i].c2, upperLeft, width, height)
    {
    }
  }

  /** The outline of a 200 x 100 rectangle with corner radius 8: straight top and side
      edges of 184 and 84. */
  lemma ExampleOutline()
    ensures var p := Corners(false, Pos(172.0, 731.0), 200.0, 100.0, 8.0, 8.0);
            p.b.x - p.a.x == 184.0 && p.c.y - p.d.y == 84.0 &&
            p.e == Pos(364.0, 631.0) && p.f == Pos(180.0, 631.0)
  {
  }
}

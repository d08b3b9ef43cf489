/**
  Screen geometry of the stroked donut: polar-to-screen conversion, the SVG
  arc path of one segment and the elbowed leader line of its label.

  Angles are in radians and grow clockwise on screen (y points down).
  The cosine and sine the renderer calls are left abstract: every operation
  takes them as a `Trig` value, so no property below depends on their values
  unless it says so through `PythagoreanAt`.
*/
module Geometry {

  /** `Math.PI`, as the decimal JavaScript prints for it. */
  const Pi: real := 3.141592653589793

  /** The trigonometric functions in use (`Math.cos`, `Math.sin`). */
  datatype Trig = Trig(cos: real -> real, sin: real -> real)

  /** The identity cos² + sin² = 1 at angle `a`, which a faithful `Trig` satisfies. */
  predicate PythagoreanAt(trig: Trig, a: real)
  {
    trig.cos(a) * trig.cos(a) + trig.sin(a) * trig.sin(a) == 1.0
  }

  datatype Point = Point(x: real, y: real)

  /** Squared Euclidean distance between two points. */
  function DistSq(p: Point, q: Point): real
  {
    (p.x - q.x) * (p.x - q.x) + (p.y - q.y) * (p.y - q.y)
  }

  /** The point at `radius` from the centre `(cx, cy)` in direction `angle`. */
  function PolarToCartesian(trig: Trig, cx: real, cy: real, radius: real, angle: real): (p: Point)
    ensures p.x - cx == radius * trig.cos(angle) && p.y - cy == radius * trig.sin(angle)
    ensures radius == 0.0 ==> p == Point(cx, cy)
  {
    Point(cx + radius * trig.cos(angle), cy + radius * trig.sin(angle))
  }

  /** Where cos² + sin² = 1 holds, a polar point lies on the circle of that radius. */
  lemma PolarOnCircle(trig: Trig, cx: real, cy: real, radius: real, angle: real)
    requires PythagoreanAt(trig, angle)
    ensures DistSq(PolarToCartesian(trig, cx, cy, radius, angle), Point(cx, cy)) == radius * radius
  {
  }

  /**
    Two polar points at the same angle lie on one ray from the centre: their
    offsets from the centre are proportional to their radii.
  */
  lemma PolarSameRay(trig: Trig, cx: real, cy: real, r1: real, r2: real, angle: real)
    ensures var p, q := PolarToCartesian(trig, cx, cy, r1, angle), PolarToCartesian(trig, cx, cy, r2, angle);
      && r2 * (p.x - cx) == r1 * (q.x - cx)
      && r2 * (p.y - cy) == r1 * (q.y - cy)
      && (p.x - cx) * (q.y - cy) == (p.y - cy) * (q.x - cx)
  {
  }

  // ---------------------------------------------------------------------
  // Arc paths
  // ---------------------------------------------------------------------

  /** One command of an SVG path (sections 8.3.2 and 8.3.8 of SVG 1.1): absolute move-to or elliptical arc. */
  datatype PathCmd =
    | MoveTo(x: real, y: real)
    | ArcTo(rx: real, ry: real, xAxisRotation: real, largeArc: bool, sweep: bool, x: real, y: real)

  /** The shape every path built by `DescribeArc` has: a move-to followed by one arc. */
  predicate IsArcPath(d: seq<PathCmd>)
  {
    |d| == 2 && d[0].MoveTo? && d[1].ArcTo?
  }

  /** Where the pen starts. */
  function PathStart(d: seq<PathCmd>): Point
    requires IsArcPath(d)
  {
    Point(d[0].x, d[0].y)
  }

  /** Where the arc ends. */
  function PathEnd(d: seq<PathCmd>): Point
    requires IsArcPath(d)
  {
    Point(d[1].x, d[1].y)
  }

  /**
    The stroked arc of radius `radius` around `(x, y)` between two angles.
    The pen is put down at the END angle and the arc is drawn back to the
    START angle, counter-clockwise on screen (sweep flag 0). The large-arc
    flag is set exactly when the signed span exceeds π, so a negative span
    gets flag 0.
  */
  function DescribeArc(trig: Trig, x: real, y: real, radius: real, startAngle: real, endAngle: real): (d: seq<PathCmd>)
    ensures IsArcPath(d)
    ensures PathStart(d) == PolarToCartesian(trig, x, y, radius, endAngle)
    ensures PathEnd(d) == PolarToCartesian(trig, x, y, radius, startAngle)
    ensures d[1].rx == radius && d[1].ry == radius
    ensures d[1].xAxisRotation == 0.0 && !d[1].sweep
    ensures d[1].largeArc <==> endAngle - startAngle > Pi
  {
    var start := PolarToCartesian(trig, x, y, radius, endAngle);
    var end := PolarToCartesian(trig, x, y, radius, startAngle);
    var largeArc := !(endAngle - startAngle <= Pi);
    [MoveTo(start.x, start.y), ArcTo(radius, radius, 0.0, largeArc, false, end.x, end.y)]
  }

  /** Exchanging the two angles exchanges where the path starts and where it ends. */
  lemma DescribeArcSwap(trig: Trig, x: real, y: real, radius: real, a: real, b: real)
    ensures PathStart(DescribeArc(trig, x, y, radius, a, b)) == PathEnd(DescribeArc(trig, x, y, radius, b, a))
    ensures PathEnd(DescribeArc(trig, x, y, radius, a, b)) == PathStart(DescribeArc(trig, x, y, radius, b, a))
  {
  }

  /** Both ends of an arc path lie on its circle, wherever cos² + sin² = 1 holds. */
  lemma ArcEndsOnCircle(trig: Trig, x: real, y: real, radius: real, startAngle: real, endAngle: real)
    requires PythagoreanAt(trig, startAngle) && PythagoreanAt(trig, endAngle)
    ensures var d := DescribeArc(trig, x, y, radius, startAngle, endAngle);
      && DistSq(PathStart(d), Point(x, y)) == radius * radius
      && DistSq(PathEnd(d), Point(x, y)) == radius * radius
  {
  }

  // ---------------------------------------------------------------------
  // Leader lines
  // ---------------------------------------------------------------------

  /** Radial distance from the ring to the first leader point. */
  const LeaderOffset: real := 10.0
  /** Radial distance from the ring to the elbow. */
  const RadialLen: real := 35.0
  /** Length of the horizontal run after the elbow. */
  const ElbowLen: real := 15.0
  /** Horizontal distance from the end of the line to the text anchor. */
  const TextGap: real := 5.0
  /** How far the text anchor sits above the end of the line. */
  const TextRise: real := 15.0

  /** The three-point polyline of a label and the anchor of its text. */
  datatype LeaderLine = LeaderLine(p1: Point, p2: Point, p3: Point, tx: real, ty: real)

  /** The angle halfway between two angles. */
  function MidAngle(startAngle: real, endAngle: real): (m: real)
    ensures m - startAngle == endAngle - m
  {
    startAngle + (endAngle - startAngle) / 2.0
  }

  /**
    The leader line of the segment between two angles: a radial run at the
    mid-angle from `radius + 10` out to `radius + 35`, then a horizontal run
    of 15 to the left or right, and the text anchored 5 further out and 15 up.
  */
  function GetLeaderLine(trig: Trig, cx: real, cy: real, radius: real, startAngle: real, endAngle: real, isLeft: bool): (l: LeaderLine)
    ensures l.p1 == PolarToCartesian(trig, cx, cy, radius + LeaderOffset, MidAngle(startAngle, endAngle))
    ensures l.p2 == PolarToCartesian(trig, cx, cy, radius + RadialLen, MidAngle(startAngle, endAngle))
    ensures l.p3.y == l.p2.y
    ensures isLeft ==> l.p2.x - l.p3.x == ElbowLen && l.p3.x - l.tx == TextGap
    ensures !isLeft ==> l.p3.x - l.p2.x == ElbowLen && l.tx - l.p3.x == TextGap
    ensures l.p3.y - l.ty == TextRise
  {
    var midAngle := MidAngle(startAngle, endAngle);
    var p1 := PolarToCartesian(trig, cx, cy, radius + LeaderOffset, midAngle);
    var p2 := PolarToCartesian(trig, cx, cy, radius + RadialLen, midAngle);
    var p3x := if isLeft then p2.x - ElbowLen else p2.x + ElbowLen;
    var p3y := p2.y;
    LeaderLine(p1, p2, Point(p3x, p3y), if isLeft then p3x - TextGap else p3x + TextGap, p3y - TextRise)
  }

  /**
    The left and right leader lines of one segment share their radial run and
    mirror each other about the elbow: the horizontal runs and text anchors
    sit at equal distances on opposite sides, at the same height.
  */
  lemma LeaderLineMirror(trig: Trig, cx: real, cy: real, radius: real, startAngle: real, endAngle: real)
    ensures var left, right := GetLeaderLine(trig, cx, cy, radius, startAngle, endAngle, true),
                               GetLeaderLine(trig, cx, cy, radius, startAngle, endAngle, false);
      && left.p1 == right.p1 && left.p2 == right.p2
      && left.p3.x + right.p3.x == 2.0 * left.p2.x
      && left.tx + right.tx == 2.0 * left.p2.x
      && left.tx < left.p3.x < left.p2.x < right.p3.x < right.tx
      && left.p3.y == right.p3.y && left.ty == right.ty
  {
  }

  /**
    The first two leader points lie on one ray from the centre, the elbow
    `RadialLen - LeaderOffset` = 25 further out; where cos² + sin² = 1 holds
    at the mid-angle, the radial run is exactly 25 long and the first point is
    10 outside the ring.
  */
  lemma LeaderRadialRun(trig: Trig, cx: real, cy: real, radius: real, startAngle: real, endAngle: real, isLeft: bool)
    ensures var l := GetLeaderLine(trig, cx, cy, radius, startAngle, endAngle, isLeft);
      && (radius + LeaderOffset) * (l.p2.x - cx) == (radius + RadialLen) * (l.p1.x - cx)
      && (radius + LeaderOffset) * (l.p2.y - cy) == (radius + RadialLen) * (l.p1.y - cy)
    ensures PythagoreanAt(trig, MidAngle(startAngle, endAngle)) ==>
      var l := GetLeaderLine(trig, cx, cy, radius, startAngle, endAngle, isLeft);
      && DistSq(l.p2, l.p1) == 625.0
      && DistSq(l.p1, Point(cx, cy)) == (radius + 10.0) * (radius + 10.0)
  {
  }
}

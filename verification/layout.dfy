/**
  The calculation half of `AssetDonutChart.render`: from the two nullable
  values and the container size to the centre and radius of the ring, the
  two arc paths and the two leader lines. A missing value short-circuits to
  the "no data" state before any geometry is computed.
*/
module DonutLayout {
  import opened Wrappers
  import opened Geometry
  import opened Angles

  /** Width or height used when the container reports 0. */
  const DefaultSize: nat := 300

  /** How far below the container's middle the ring's centre sits. */
  const CentreDrop: real := 10.0

  /** The container's smaller side divided by this is the ring's radius. */
  const RadiusDivisor: real := 3.2

  /** Where the ring sits in the container. */
  datatype Ring = Ring(width: real, height: real, cx: real, cy: real, radius: real)

  /** `clientWidth || 300`: a reported size of 0 falls back to the default. */
  function SizeOrDefault(size: nat): (r: nat)
    ensures r > 0
    ensures size == 0 ==> r == DefaultSize
    ensures size > 0 ==> r == size
  {
    if size == 0 then DefaultSize else size
  }

  function Min(a: real, b: real): (m: real)
    ensures m <= a && m <= b && (m == a || m == b)
  {
    if a <= b then a else b
  }

  /**
    The ring is centred horizontally, 10 below the middle vertically, and its
    radius is the smaller side divided by 3.2, so it is positive and the
    stroke's centre line fits across the container's width and height.
  */
  function PlaceRing(clientWidth: nat, clientHeight: nat): (g: Ring)
    ensures g.width == SizeOrDefault(clientWidth) as real
    ensures g.height == SizeOrDefault(clientHeight) as real
    ensures 2.0 * g.cx == g.width
    ensures 2.0 * (g.cy - CentreDrop) == g.height
    ensures g.radius * RadiusDivisor == Min(g.width, g.height)
    ensures 0.0 < g.radius && 0.0 < g.cx - g.radius && g.cx + g.radius < g.width
    ensures 2.0 * g.radius < g.height
  {
    var width := SizeOrDefault(clientWidth) as real;
    var height := SizeOrDefault(clientHeight) as real;
    Ring(width, height, width / 2.0, height / 2.0 + CentreDrop, Min(width, height) / RadiusDivisor)
  }

  /** The geometry of a drawn chart. */
  datatype Layout = Layout(
    partition: Partitioning,
    ring: Ring,
    d1: seq<PathCmd>,
    d2: seq<PathCmd>,
    leader1: LeaderLine,
    leader2: LeaderLine)

  /** The outcome of a render pass. */
  datatype Rendering = NoData | Drawn(layout: Layout)

  /**
    A render pass. Either value being null yields `NoData`; otherwise the
    values are partitioned, the ring is placed in the container, each segment
    gets its arc path on the ring, and segment 1's label is led off to the
    left and segment 2's to the right.
  */
  function Render(trig: Trig, val1: Option<real>, val2: Option<real>, clientWidth: nat, clientHeight: nat): (r: Rendering)
    ensures r.NoData? <==> val1.None? || val2.None?
    ensures r.Drawn? ==> r.layout.partition == Partition(val1.value, val2.value)
    ensures r.Drawn? ==> r.layout.ring == PlaceRing(clientWidth, clientHeight)
    ensures r.Drawn? ==> var l := r.layout;
      && l.d1 == DescribeArc(trig, l.ring.cx, l.ring.cy, l.ring.radius, l.partition.seg1.startAngle, l.partition.seg1.endAngle)
      && l.d2 == DescribeArc(trig, l.ring.cx, l.ring.cy, l.ring.radius, l.partition.seg2.startAngle, l.partition.seg2.endAngle)
    ensures r.Drawn? ==> var l := r.layout;
      && l.leader1 == GetLeaderLine(trig, l.ring.cx, l.ring.cy, l.ring.radius, l.partition.seg1.startAngle, l.partition.seg1.endAngle, true)
      && l.leader2 == GetLeaderLine(trig, l.ring.cx, l.ring.cy, l.ring.radius, l.partition.seg2.startAngle, l.partition.seg2.endAngle, false)
    ensures r.Drawn? ==> r.layout.leader1.tx < r.layout.leader1.p3.x < r.layout.leader1.p2.x
    ensures r.Drawn? ==> r.layout.leader2.p2.x < r.layout.leader2.p3.x < r.layout.leader2.tx
  {
    if val1.None? || val2.None? then NoData
    else
      var p := Partition(val1.value, val2.value);
      var g := PlaceRing(clientWidth, clientHeight);
      Drawn(Layout(
        p,
        g,
        DescribeArc(trig, g.cx, g.cy, g.radius, p.seg1.startAngle, p.seg1.endAngle),
        DescribeArc(trig, g.cx, g.cy, g.radius, p.seg2.startAngle, p.seg2.endAngle),
        GetLeaderLine(trig, g.cx, g.cy, g.radius, p.seg1.startAngle, p.seg1.endAngle, true),
        GetLeaderLine(trig, g.cx, g.cy, g.radius, p.seg2.startAngle, p.seg2.endAngle, false)))
  }

  /**
    At most one of the two arcs of a drawn chart takes the large-arc flag,
    and it is the one whose value exceeds the other's.
  */
  lemma AtMostOneLargeArc(trig: Trig, val1: real, val2: real, clientWidth: nat, clientHeight: nat)
    ensures var r := Render(trig, Some(val1), Some(val2), clientWidth, clientHeight);
      && r.Drawn?
      && !(r.layout.d1[1].largeArc && r.layout.d2[1].largeArc)
    ensures var r := Render(trig, Some(val1), Some(val2), clientWidth, clientHeight);
      r.layout.d1[1].largeArc ==> r.layout.partition.angle1 > r.layout.partition.angle2
  {
  }

  /**
    Both arcs of a drawn chart are traced on the ring: each path starts and
    ends at distance `radius` from the centre, wherever cos² + sin² = 1 holds
    at the four span ends.
  */
  lemma ArcsOnRing(trig: Trig, val1: real, val2: real, clientWidth: nat, clientHeight: nat)
    requires var p := Partition(val1, val2);
      && PythagoreanAt(trig, p.seg1.startAngle) && PythagoreanAt(trig, p.seg1.endAngle)
      && PythagoreanAt(trig, p.seg2.startAngle) && PythagoreanAt(trig, p.seg2.endAngle)
    ensures var r := Render(trig, Some(val1), Some(val2), clientWidth, clientHeight);
      var l := r.layout;
      var centre := Point(l.ring.cx, l.ring.cy);
      && DistSq(PathStart(l.d1), centre) == l.ring.radius * l.ring.radius
      && DistSq(PathEnd(l.d1), centre) == l.ring.radius * l.ring.radius
      && DistSq(PathStart(l.d2), centre) == l.ring.radius * l.ring.radius
      && DistSq(PathEnd(l.d2), centre) == l.ring.radius * l.ring.radius
  {
    var p := Partition(val1, val2);
    var g := PlaceRing(clientWidth, clientHeight);
    var l := Render(trig, Some(val1), Some(val2), clientWidth, clientHeight).layout;
    assert l.ring == g && l.partition == p;
    ArcEndsOnCircle(trig, g.cx, g.cy, g.radius, p.seg1.startAngle, p.seg1.endAngle);
    ArcEndsOnCircle(trig, g.cx, g.cy, g.radius, p.seg2.startAngle, p.seg2.endAngle);
  }

  /**
    The two arcs of a drawn chart meet the gap at the top: segment 1's path
    starts at the angle half a gap before 12 o'clock and segment 2's path ends
    half a gap after it.
  */
  lemma ArcsBorderTheGap(trig: Trig, val1: real, val2: real, clientWidth: nat, clientHeight: nat)
    ensures var r := Render(trig, Some(val1), Some(val2), clientWidth, clientHeight);
      var g := r.layout.ring;
      && PathStart(r.layout.d1) == PolarToCartesian(trig, g.cx, g.cy, g.radius, Top - Gap / 2.0)
      && PathEnd(r.layout.d2) == PolarToCartesian(trig, g.cx, g.cy, g.radius, Top + Gap / 2.0)
  {
  }
}

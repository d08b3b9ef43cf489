/**
  The angular partitioner: the two values become shares of their total, the
  shares become sweeps of the full turn, and the two segments are placed on
  either side of 12 o'clock (-π/2) with a fixed gap centred on it. Segment 1
  lies counter-clockwise of the top, segment 2 clockwise.

  There is no clamping: a segment whose sweep is smaller than the gap gets a
  negative span (its start angle lies after its end angle).
*/
module Angles {
  import opened Geometry

  /** The angle of 12 o'clock on screen. */
  const Top: real := -Pi / 2.0

  /** The angular gap, in radians, between the two segments at the top. */
  const Gap: real := 0.15

  /** The sum of the two values and each value's share of it. */
  datatype Shares = Shares(total: real, pct1: real, pct2: real)

  /**
    `total = val1 + val2`; each share is `val / total`, or 0 when the total is
    0 (the only falsy total among the reals).
  */
  function ComputeShares(val1: real, val2: real): (s: Shares)
    ensures s.total == val1 + val2
    ensures s.total == 0.0 ==> s.pct1 == 0.0 && s.pct2 == 0.0
    ensures s.total != 0.0 ==> s.pct1 * s.total == val1 && s.pct2 * s.total == val2
    ensures s.total != 0.0 ==> s.pct1 + s.pct2 == 1.0
  {
    var total := val1 + val2;
    var pct1 := if total != 0.0 then val1 / total else 0.0;
    var pct2 := if total != 0.0 then val2 / total else 0.0;
    Shares(total, pct1, pct2)
  }

  /** The sweep of a share: `pct * 2 * Math.PI`. */
  function Sweep(pct: real): (angle: real)
    ensures pct == 1.0 ==> angle == 2.0 * Pi
    ensures pct == 0.0 ==> angle == 0.0
  {
    pct * 2.0 * Pi
  }

  /** The angular extent of one segment. */
  datatype Span = Span(startAngle: real, endAngle: real)

  /** Signed length of a span. */
  function Length(s: Span): real
  {
    s.endAngle - s.startAngle
  }

  /** Segment 1 ends half a gap before the top and starts `angle1` before that end, plus the gap. */
  function PlaceFirst(angle1: real): (s: Span)
    ensures Top - s.endAngle == Gap / 2.0
    ensures Length(s) == angle1 - Gap
  {
    Span(-Pi / 2.0 - angle1 + Gap / 2.0, -Pi / 2.0 - Gap / 2.0)
  }

  /** Segment 2 starts half a gap after the top and ends `angle2` after the top, minus half the gap. */
  function PlaceSecond(angle2: real): (s: Span)
    ensures s.startAngle - Top == Gap / 2.0
    ensures Length(s) == angle2 - Gap
  {
    Span(-Pi / 2.0 + Gap / 2.0, -Pi / 2.0 + angle2 - Gap / 2.0)
  }

  /** Everything the partitioner derives from the two values. */
  datatype Partitioning = Partitioning(shares: Shares, angle1: real, angle2: real, seg1: Span, seg2: Span)

  function Partition(val1: real, val2: real): (p: Partitioning)
    ensures p.shares == ComputeShares(val1, val2)
    ensures p.shares.total != 0.0 ==> p.angle1 + p.angle2 == 2.0 * Pi
    ensures p.shares.total == 0.0 ==> p.angle1 == 0.0 && p.angle2 == 0.0
    ensures Length(p.seg1) == p.angle1 - Gap && Length(p.seg2) == p.angle2 - Gap
    ensures p.seg2.startAngle - p.seg1.endAngle == Gap
  {
    var shares := ComputeShares(val1, val2);
    var angle1 := Sweep(shares.pct1);
    var angle2 := Sweep(shares.pct2);
    Partitioning(shares, angle1, angle2, PlaceFirst(angle1), PlaceSecond(angle2))
  }

  /**
    The sweeps are proportional to the values: `angle1 : angle2 = val1 : val2`,
    cross-multiplied so that it also holds when a value or the total is 0.
  */
  lemma SweepsProportional(val1: real, val2: real)
    ensures var p := Partition(val1, val2);
      p.angle1 * val2 == p.angle2 * val1
  {
  }

  /**
    With a non-zero total the two spans and the two gaps (one at the top, one
    where the segments meet at the bottom) make up the whole turn.
  */
  lemma SpansCoverCircle(val1: real, val2: real)
    requires val1 + val2 != 0.0
    ensures var p := Partition(val1, val2);
      Length(p.seg1) + Length(p.seg2) + 2.0 * Gap == 2.0 * Pi
    ensures var p := Partition(val1, val2);
      (p.seg2.endAngle + Gap) - p.seg1.startAngle == 2.0 * Pi
  {
  }

  /** The gap at the top is centred on 12 o'clock for every pair of values. */
  lemma GapCentredAtTop(val1: real, val2: real)
    ensures var p := Partition(val1, val2);
      Top - p.seg1.endAngle == p.seg2.startAngle - Top == Gap / 2.0
  {
  }

  /**
    The segments mirror each other about the top exactly when the values are
    equal (given a non-zero total): equal values give equal spans, and equal
    spans mean equal values.
  */
  lemma EqualValuesEqualSpans(val1: real, val2: real)
    ensures val1 == val2 ==> Length(Partition(val1, val2).seg1) == Length(Partition(val1, val2).seg2)
    ensures val1 == val2 ==> Top - Partition(val1, val2).seg1.startAngle == Partition(val1, val2).seg2.endAngle - Top
    ensures val1 + val2 != 0.0 && Length(Partition(val1, val2).seg1) == Length(Partition(val1, val2).seg2)
      ==> val1 == val2
  {
  }

  /** A segment's span is negative exactly when its sweep is smaller than the gap. */
  lemma NegativeSpanIffSmall(val1: real, val2: real)
    ensures var p := Partition(val1, val2);
      (Length(p.seg1) < 0.0 <==> p.angle1 < Gap) && (Length(p.seg2) < 0.0 <==> p.angle2 < Gap)
  {
  }

  /**
    A zero total collapses both sweeps; each segment is then left with the
    negative span `-Gap`, lying inside the gap it should have bordered.
  */
  lemma ZeroTotal(val1: real, val2: real)
    requires val1 + val2 == 0.0
    ensures var p := Partition(val1, val2);
      && p.shares.pct1 == 0.0 && p.shares.pct2 == 0.0
      && Length(p.seg1) == -Gap && Length(p.seg2) == -Gap
      && p.seg1 == Span(Top + Gap / 2.0, Top - Gap / 2.0)
      && p.seg2 == Span(Top + Gap / 2.0, Top - Gap / 2.0)
  {
  }

  /**
    With a zero first value and a non-zero second value, segment 1 has span
    `-Gap` and segment 2 spans the full turn less one gap.
  */
  lemma OneValueZero(val2: real)
    requires val2 != 0.0
    ensures var p := Partition(0.0, val2);
      Length(p.seg1) == -Gap && Length(p.seg2) == 2.0 * Pi - Gap
  {
  }

  /**
    Each mid-angle depends only on its own sweep, not on the gap: segment 1's
    label sits at `Top - angle1/2`, segment 2's at `Top + angle2/2`.
  */
  lemma MidAnglesIgnoreGap(val1: real, val2: real)
    ensures var p := Partition(val1, val2);
      && MidAngle(p.seg1.startAngle, p.seg1.endAngle) == Top - p.angle1 / 2.0
      && MidAngle(p.seg2.startAngle, p.seg2.endAngle) == Top + p.angle2 / 2.0
  {
  }
}

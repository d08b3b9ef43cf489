# Asset donut chart: layout model

A Dafny model of the layout arithmetic of the `AssetDonutChart` widget. The
widget draws a two-segment donut with a gap at 12 o'clock and an elbowed
leader line to each segment's label. Given the two values (either may be
null) and the container's width and height, the model computes:

- the total and each value's share of it;
- the sweep and the start and end angles of each segment, with the 0.15 rad gap centred on the top;
- the ring's centre and radius;
- each segment's SVG arc path, held as `MoveTo` / `ArcTo` commands (the move-to and elliptical-arc commands of sections 8.3.2 and 8.3.8 of SVG 1.1);
- each segment's leader line: three points and the text anchor;
- the hover breakdown of a segment, which is the tooltip records of that segment's group.

Values are `real`. `Math.PI` is the constant `Pi` (3.141592653589793).
`Math.cos` and `Math.sin` are not modelled: every operation takes them as a
`Trig` parameter. Properties that need cos² + sin² = 1 say so with
`PythagoreanAt`. Modules:

- `Wrappers`: `Option`, used for a nullable value.
- `Geometry`: polar conversion, arc paths and leader lines.
- `Angles`: shares, sweeps and segment placement.
- `DonutLayout`: ring placement and the render pass.
- `Tooltip`: the hover breakdown.

All members are pure functions, so the same inputs always give the same layout.

Edge cases of the placement, as the code computes them:

- Segments are placed only with the gap centred on the top (assetDonutChart.js:231-235).
- A sweep smaller than the gap is not clamped, so the segment's span is negative.
- The large-arc flag compares the signed span with π (assetDonutChart.js:292), so a negative span gets flag 0.
- A zero total gives both segments the span `-Gap`.

## Model

| member | source | states |
|---|---|---|
| `Angles.ComputeShares` | assetDonutChart.js:203-205 | total is val1 + val2. A zero total gives both shares 0. Otherwise the shares are val1/total and val2/total and they sum to 1 |
| `Angles.Sweep` | assetDonutChart.js:223-224 | a share of 1 sweeps the full turn 2π and a share of 0 sweeps nothing |
| `Angles.PlaceFirst` | assetDonutChart.js:231-232 | segment 1 ends half a gap before 12 o'clock, and its span is its sweep minus the gap |
| `Angles.PlaceSecond` | assetDonutChart.js:234-235 | segment 2 starts half a gap after 12 o'clock, and its span is its sweep minus the gap |
| `Angles.Partition` | assetDonutChart.js:202-235 | with a non-zero total the sweeps add up to 2π, and with a zero total both are 0. Each span is its sweep minus the gap, and the segments are exactly one gap apart at the top |
| `Angles.SweepsProportional` | assetDonutChart.js:203-224 | the sweeps are proportional to the values, angle1·val2 = angle2·val1, for every pair of values |
| `Angles.SpansCoverCircle` | assetDonutChart.js:223-235 | with a non-zero total, the two spans plus two gaps make the full turn 2π |
| `Angles.GapCentredAtTop` | assetDonutChart.js:218-235 | the top gap lies symmetrically around −π/2, half a gap on each side, for any values |
| `Angles.EqualValuesEqualSpans` | assetDonutChart.js:203-235 | equal values give equal spans, mirrored about the top. With a non-zero total, equal spans imply equal values |
| `Angles.NegativeSpanIffSmall` | assetDonutChart.js:231-235 | a span is negative exactly when its sweep is smaller than the gap, because nothing clamps it |
| `Angles.ZeroTotal` | assetDonutChart.js:203-235 | a zero total gives both shares 0. Both segments become the inverted span from top+gap/2 to top−gap/2 |
| `Angles.OneValueZero` | assetDonutChart.js:203-235 | when val1 is 0 and val2 ≠ 0, segment 1 has span −gap and segment 2 has span 2π − gap |
| `Angles.MidAnglesIgnoreGap` | assetDonutChart.js:231-235 | segment 1's mid-angle is top − angle1/2 and segment 2's is top + angle2/2, whatever the gap |
| `Geometry.PolarToCartesian` | assetDonutChart.js:282-287 | x = cx + r·cos θ and y = cy + r·sin θ, so radius 0 gives the centre; its geometric properties are PolarOnCircle and PolarSameRay |
| `Geometry.PolarOnCircle` | assetDonutChart.js:282-287 | where cos² + sin² = 1, a polar point lies at exactly the given radius from the centre |
| `Geometry.PolarSameRay` | assetDonutChart.js:282-287 | two polar points at one angle are collinear with the centre, with offsets proportional to their radii |
| `Geometry.DescribeArc` | assetDonutChart.js:289-299 | the path is a move-to followed by one arc. It moves to the END angle's point and arcs to the START angle's point. Both radii are the radius, rotation and sweep flag are 0, and the large-arc flag is set exactly when end − start > π |
| `Geometry.DescribeArcSwap` | assetDonutChart.js:290-291 | exchanging start and end exchanges where the path starts and where it ends |
| `Geometry.ArcEndsOnCircle` | assetDonutChart.js:289-298 | where cos² + sin² = 1 holds at both angles, both ends of the path lie on the circle |
| `Geometry.MidAngle` | assetDonutChart.js:302 | the mid-angle is equidistant from start and end |
| `Geometry.GetLeaderLine` | assetDonutChart.js:301-321 | p1 and p2 are polar points at the mid-angle, at radius + 10 and radius + 35. p3 has p2's height and lies 15 to the left (isLeft) or right. The text anchor is 5 further the same way and 15 above p3 |
| `Geometry.LeaderLineMirror` | assetDonutChart.js:312-319 | the left and right lines share p1 and p2. Their p3 and text anchors mirror about p2.x at the same height, ordered tx < p3.x < p2.x < p3'.x < tx' |
| `Geometry.LeaderRadialRun` | assetDonutChart.js:304-309 | p1 and p2 lie on one ray from the centre. Where cos² + sin² = 1, the radial run is 25 long and p1 lies 10 outside the ring |
| `DonutLayout.SizeOrDefault` | assetDonutChart.js:207-208 | a reported size of 0 becomes 300 and any other size is kept, so the result is positive |
| `DonutLayout.Min` | assetDonutChart.js:214 | `Math.min`: the result is one of the two arguments and no larger than either |
| `DonutLayout.PlaceRing` | assetDonutChart.js:207-214 | cx = w/2, cy = h/2 + 10 and radius·3.2 = min(w, h). The radius is positive and the ring's diameter fits inside the width and the height |
| `DonutLayout.Render` | assetDonutChart.js:196-244 | a null value yields NoData and nothing else does. Otherwise the layout holds the partition, the ring, the two arcs on the ring at the segments' angles, and the leader lines: segment 1's goes left and segment 2's goes right |
| `DonutLayout.AtMostOneLargeArc` | assetDonutChart.js:238-239 | a drawn chart never sets the large-arc flag on both arcs. The first arc gets it only when its sweep exceeds the second's |
| `DonutLayout.ArcsOnRing` | assetDonutChart.js:238-239 | where cos² + sin² = 1 at the span ends, all four path endpoints lie at distance radius from the ring's centre |
| `DonutLayout.ArcsBorderTheGap` | assetDonutChart.js:231-239 | segment 1's path starts at top − gap/2 on the ring and segment 2's path ends at top + gap/2 |
| `Tooltip.Breakdown` | assetDonutChart.js:331 | every kept record is from the data and has the segment's group, and every matching record of the data is kept |
| `Tooltip.BreakdownAppend` | assetDonutChart.js:331 | the filter keeps order: the breakdown of a + b is the breakdown of a followed by that of b |
| `Tooltip.BreakdownSingle` | assetDonutChart.js:331 | a one-record payload is kept exactly when its group matches |
| `Tooltip.BreakdownMembership` | assetDonutChart.js:331 | a record is in the breakdown exactly when it is in the data and its group matches |
| `Tooltip.BreakdownIdempotent` | assetDonutChart.js:331 | filtering the breakdown again by the same name changes nothing |
| `Tooltip.BreakdownKeepsAll` | assetDonutChart.js:331 | the breakdown is the whole payload exactly when every record belongs to the segment |
| `Tooltip.Hover` | assetDonutChart.js:330-344 | the heading is "<name> Breakdown". The "no details" note appears exactly when no record matches. Otherwise the rows are the non-empty breakdown |

## Left out

- DOM work is not modelled: shadow-root setup, templates and styles, the SVG string, `innerHTML` replacement and event listeners. The model returns geometry, not markup.
- The centre-text and title positions are not modelled. They are template literals inside the SVG string.
- The builder form (`AssetDonutBuilder`) and its `propertiesChanged` event are not modelled. They are getters over input elements.
- Number formatting (`toLocaleString`, `toFixed`) and the currency and unit decoration are not modelled. They depend on the locale. The path is kept as commands, not as the joined string.
- `Breakdown` / `Hover`: inputs on which the hover throws are not modelled, because the record type cannot express them. These are a payload that is valid JSON but not an array, such as `"{}"` or `"null"` (lines 390-391 store it and line 331 calls `filter` on it); a `null` element (line 331 reads `d.group`); and a record without `value` (line 341 calls `value.toLocaleString()`). The model's payload is always a sequence of complete records.
- `setTooltipData` is not modelled. It relies on `JSON.parse`, a foreign parser, and only logs when parsing fails. The model takes the tooltip records as already parsed.
- The host lifecycle callbacks are not modelled. They merge properties and re-render.
- `Math.cos`, `Math.sin` and IEEE rounding are not modelled. Arithmetic is exact over `real`, and the trigonometric functions are a parameter.
- NaN, `undefined` and non-numeric values are not modelled. A value is either null (`None`) or a real, and a container size is a natural number.

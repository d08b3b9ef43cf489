/**
  The hover breakdown of a segment: the tooltip records whose `group` is the
  segment's label, in their original order, under a "<label> Breakdown"
  heading, or a "no details" note when there are none.
*/
module Tooltip {

  /** One record of the tooltip payload. */
  datatype TooltipItem = TooltipItem(group: string, rowLabel: string, value: real, currency: string, unit: string)

  /** `tooltipData.filter(d => d.group === segmentName)`. */
  function Breakdown(data: seq<TooltipItem>, segmentName: string): (r: seq<TooltipItem>)
    ensures |r| <= |data|
    ensures forall i :: 0 <= i < |r| ==> r[i].group == segmentName && r[i] in data
    ensures forall i :: 0 <= i < |data| && data[i].group == segmentName ==> data[i] in r
    decreases |data|
  {
    if |data| == 0 then []
    else if data[0].group == segmentName then [data[0]] + Breakdown(data[1..], segmentName)
    else Breakdown(data[1..], segmentName)
  }

  /**
    The filter keeps the original order: the breakdown of a concatenation is
    the concatenation of the breakdowns.
  */
  lemma {:induction false} BreakdownAppend(a: seq<TooltipItem>, b: seq<TooltipItem>, segmentName: string)
    ensures Breakdown(a + b, segmentName) == Breakdown(a, segmentName) + Breakdown(b, segmentName)
    decreases |a|
  {
    if |a| == 0 {
      assert a + b == b;
    } else {
      assert (a + b)[1..] == a[1..] + b;
      BreakdownAppend(a[1..], b, segmentName);
    }
  }

  /** A single record is kept exactly when its group matches. */
  lemma BreakdownSingle(item: TooltipItem, segmentName: string)
    ensures Breakdown([item], segmentName) == if item.group == segmentName then [item] else []
  {
  }

  /** A record is in the breakdown exactly when it is in the data and its group matches. */
  lemma BreakdownMembership(data: seq<TooltipItem>, segmentName: string, item: TooltipItem)
    ensures item in Breakdown(data, segmentName) <==> item in data && item.group == segmentName
  {
  }

  /** Filtering twice by the same name changes nothing. */
  lemma {:induction false} BreakdownIdempotent(data: seq<TooltipItem>, segmentName: string)
    ensures Breakdown(Breakdown(data, segmentName), segmentName) == Breakdown(data, segmentName)
    decreases |data|
  {
    if |data| > 0 {
      BreakdownIdempotent(data[1..], segmentName);
      if data[0].group == segmentName {
        var rest := Breakdown(data[1..], segmentName);
        assert ([data[0]] + rest)[1..] == rest;
      }
    }
  }

  /** The breakdown is the whole payload exactly when every record belongs to the segment. */
  lemma {:induction false} BreakdownKeepsAll(data: seq<TooltipItem>, segmentName: string)
    ensures Breakdown(data, segmentName) == data <==> forall i :: 0 <= i < |data| ==> data[i].group == segmentName
    decreases |data|
  {
    if |data| > 0 {
      BreakdownKeepsAll(data[1..], segmentName);
      var rest := Breakdown(data[1..], segmentName);
      if data[0].group != segmentName {
        assert |rest| <= |data[1..]| < |data|;
      }
      if (forall i :: 0 <= i < |data| ==> data[i].group == segmentName) {
        assert forall i :: 0 <= i < |data[1..]| ==> data[1..][i].group == segmentName by {
          forall i | 0 <= i < |data[1..]| ensures data[1..][i].group == segmentName {
            assert data[1..][i] == data[i + 1];
          }
        }
        assert [data[0]] + data[1..] == data;
      }
      if Breakdown(data, segmentName) == data {
        assert data[0].group == segmentName;
        assert [data[0]] + rest == [data[0]] + data[1..];
        assert rest == data[1..];
        forall i | 0 <= i < |data| ensures data[i].group == segmentName {
          if i > 0 {
            assert data[i] == data[1..][i - 1];
          }
        }
      }
    }
  }

  /** What the tooltip shows while a segment is hovered. */
  datatype HoverContent =
    | NoDetails(heading: string)
    | Details(heading: string, rows: seq<TooltipItem>)

  /**
    The tooltip for the segment labelled `segmentName`: always headed
    "<segmentName> Breakdown"; the "no details" note exactly when no record
    belongs to the segment, and otherwise one row per matching record, in
    order.
  */
  function Hover(data: seq<TooltipItem>, segmentName: string): (h: HoverContent)
    ensures h.heading == segmentName + " Breakdown"
    ensures h.NoDetails? <==> forall i :: 0 <= i < |data| ==> data[i].group != segmentName
    ensures h.Details? ==> |h.rows| > 0 && h.rows == Breakdown(data, segmentName)
  {
    var rows := Breakdown(data, segmentName);
    var heading := segmentName + " Breakdown";
    if |rows| == 0 then NoDetails(heading)
    else
      assert rows[0] in data;
      Details(heading, rows)
  }
}

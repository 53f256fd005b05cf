/**
 Placement of the plot's markers and of the axis ticks they are read against.
 */
module Points {
  import opened Race
  import opened Scales
  import opened Format

  /** A circle marker: its class list, `data-xvalue`, radius and centre. */
  datatype Point = Point(cls: string, xValue: int, radius: int, cx: real, cy: real)

  /** Radius of every marker. */
  const MarkerRadius: int := 4

  /** The class attribute: "dot " followed by "doping" for an alleged doper, by nothing otherwise. */
  function PointClass(rec: Record): (c: string)
    ensures |c| >= 4 && c[..4] == "dot "
    ensures HasDoping(rec) ==> c == "dot doping"
    ensures !HasDoping(rec) ==> c == "dot "
    ensures |c| > 4 <==> HasDoping(rec)
  {
    "dot " + (if HasDoping(rec) then "doping" else "")
  }

  /**
   Horizontal centre of a record's marker: the year scale's pixel for its
   Year, strictly inside the range for a year strictly inside the domain.
   */
  function Cx(xs: LinearScale, rec: Record): (x: real)
    ensures xs.d0 < rec.Year as real < xs.d1 && xs.r0 < xs.r1 ==> xs.r0 < x < xs.r1
  {
    if xs.d0 < rec.Year as real < xs.d1 then
      ApplyStrictlyInside(xs, rec.Year as real);
      Apply(xs, rec.Year as real)
    else Apply(xs, rec.Year as real)
  }

  /**
   Vertical centre: the point scale's pixel measured up from the bottom
   padding line. For a time strictly inside the domain of a downward range
   it lies strictly between 460 - r0 and 460 - r1.
   */
  function Cy(ys: LinearScale, seconds: nat): (y: real)
    ensures ys.d0 < seconds as real < ys.d1 && ys.r1 < ys.r0 ==>
      (PlotHeight - PlotPadding) as real - ys.r0 < y < (PlotHeight - PlotPadding) as real - ys.r1
  {
    if ys.d0 < seconds as real < ys.d1 then
      ApplyStrictlyInside(ys, seconds as real);
      (PlotHeight - PlotPadding) as real - Apply(ys, seconds as real)
    else (PlotHeight - PlotPadding) as real - Apply(ys, seconds as real)
  }

  /** The marker drawn for one record: radius 4, its Year as `data-xvalue`, classed by its doping field. */
  function PlacePoint(xs: LinearScale, ys: LinearScale, rec: Record): (p: Point)
    ensures p.radius == 4 && p.xValue == rec.Year
    ensures p.cls == "dot doping" <==> HasDoping(rec)
    ensures p.cx == Cx(xs, rec) && p.cy == Cy(ys, rec.Seconds)
  {
    Point(PointClass(rec), rec.Year, MarkerRadius, Cx(xs, rec), Cy(ys, rec.Seconds))
  }

  /**
   Number of `rect` elements already in the plot when the markers are
   drawn: the two legend swatches, which are added before the data arrive.
   */
  const LegendRects: nat := 2

  /**
   The data join that draws the markers. The records are matched by index
   against the `existing` elements that the selection already holds; only
   the records from index `existing` on enter and get a circle. Both scales
   are still built from the whole dataset.
   */
  function RenderPoints(data: seq<Record>, existing: nat): (ps: seq<Point>)
    requires |data| > 0
    ensures |ps| == if existing < |data| then |data| - existing else 0
    ensures forall k :: 0 <= k < |ps| ==>
      ps[k] == PlacePoint(XScale(data), YScale(data), data[existing + k])
  {
    var xs := XScale(data);
    var ys := YScale(data);
    var n := if existing < |data| then |data| - existing else 0;
    seq(n, k requires 0 <= k < n => PlacePoint(xs, ys, data[existing + k]))
  }

  /**
   The markers as the script draws them: the join runs against every `rect`
   in the plot, so the first two records are matched to the legend swatches
   and get no circle.
   */
  function DrawnPoints(data: seq<Record>): (ps: seq<Point>)
    requires |data| > 0
    ensures |ps| == if |data| > 2 then |data| - 2 else 0
    ensures forall k :: 0 <= k < |ps| ==> ps[k] == PlacePoint(XScale(data), YScale(data), data[k + 2])
  {
    RenderPoints(data, LegendRects)
  }

  /** The markers as intended: one circle per record, in the order of the data. */
  function AllPoints(data: seq<Record>): (ps: seq<Point>)
    requires |data| > 0
    ensures |ps| == |data|
    ensures forall i :: 0 <= i < |data| ==> ps[i] == PlacePoint(XScale(data), YScale(data), data[i])
  {
    RenderPoints(data, 0)
  }

  /** The rider of the single-record dataset gets no circle. */
  lemma OneRecordDrawsNothing(rec: Record)
    ensures DrawnPoints([rec]) == []
    ensures |AllPoints([rec])| == 1
  {
  }

  /**
   Three records with distinct years: the script draws one circle, for the
   third record, and none carries the first or second record's year; the
   intended rendering draws all three.
   */
  lemma ThreeRecordsDrawOne(a: Record, b: Record, c: Record)
    requires a.Year < b.Year < c.Year
    ensures var ps := DrawnPoints([a, b, c]);
      |ps| == 1 && ps[0].xValue == c.Year
      && forall k :: 0 <= k < |ps| ==> ps[k].xValue != a.Year && ps[k].xValue != b.Year
    ensures |AllPoints([a, b, c])| == 3
  {
  }

  /** For a time between the first and the last record's, the marker lies strictly inside (40, 460). */
  lemma CyInside(data: seq<Record>, seconds: nat)
    requires |data| > 0
    requires data[0].Seconds <= seconds <= data[|data| - 1].Seconds
    ensures 40.0 < Cy(YScale(data), seconds) < 460.0
  {
    ApplyStrictlyInside(YScale(data), seconds as real);
  }

  /** Longer times are drawn lower on the canvas. */
  lemma CyIncreasing(data: seq<Record>, s1: nat, s2: nat)
    requires |data| > 0 && data[0].Seconds <= data[|data| - 1].Seconds
    requires s1 < s2
    ensures Cy(YScale(data), s1) < Cy(YScale(data), s2)
  {
    ApplyMonotone(YScale(data), s1 as real, s2 as real);
  }

  /**
   When every record lies between the first and the last, every marker the
   join draws, whatever the number of elements it starts from, sits strictly
   inside the plotting area (40, 860) x (40, 460), has radius 4, carries its
   record's year as `data-xvalue`, and is classed by its doping field.
   */
  lemma PointsInsidePlot(data: seq<Record>, existing: nat)
    requires |data| > 0 && WithinEnds(data)
    ensures var ps := RenderPoints(data, existing);
      forall k :: 0 <= k < |ps| ==>
        && 40.0 < ps[k].cx < 860.0 && 40.0 < ps[k].cy < 460.0
        && ps[k].radius == 4 && ps[k].xValue == data[existing + k].Year
        && (ps[k].cls == "dot doping" <==> HasDoping(data[existing + k]))
  {
    var ps := RenderPoints(data, existing);
    forall k | 0 <= k < |ps|
      ensures 40.0 < ps[k].cx < 860.0 && 40.0 < ps[k].cy < 460.0
    {
      XScaleInside(data, data[existing + k].Year);
      CyInside(data, data[existing + k].Seconds);
    }
  }

  /**
   The first two fields of `time` split on ':', the minutes and seconds that
   the `data-yvalue` timestamp is built from; None when there is no colon, so
   that no second field exists.
   */
  function SplitTime(time: string): (r: Option<(string, string)>)
    ensures r.None? <==> NoColon(time)
    ensures r.Some? ==> NoColon(r.value.0) && NoColon(r.value.1)
    ensures r.Some? ==> time == r.value.0 + ":" + r.value.1
                        || (|r.value.0 + ":" + r.value.1| < |time|
                            && time[..|r.value.0 + ":" + r.value.1| + 1] == r.value.0 + ":" + r.value.1 + ":")
  {
    match ColonIndex(time)
    case None => None
    case Some(k) =>
      var rest := time[k + 1..];
      match ColonIndex(rest)
      case None =>
        assert time == time[..k] + ":" + rest;
        Some((time[..k], rest))
      case Some(k2) =>
        assert time[..k + 1 + k2 + 1] == time[..k] + ":" + rest[..k2] + ":";
        Some((time[..k], rest[..k2]))
  }

  /** A "minutes:seconds" time of digit fields splits back into exactly those fields. */
  lemma SplitTimeFields(minutes: string, seconds: string)
    requires AllDigits(minutes) && AllDigits(seconds)
    ensures SplitTime(minutes + ":" + seconds) == Some((minutes, seconds))
  {
    var time := minutes + ":" + seconds;
    ColonAfterDigits(minutes, seconds);
    assert time[..|minutes|] == minutes;
    assert time[|minutes| + 1..] == seconds;
  }

  /** A tick of the horizontal axis: its offset along the axis and its label, the year itself. */
  datatype XTick = XTick(offset: real, year: int)

  /** A tick of the vertical axis: its offset from the top of the canvas and its label. */
  datatype YTick = YTick(offset: real, text: string)

  /**
   The x-axis tick for a year value, labelled with the year itself; the axis
   group is not shifted horizontally, so a year strictly inside the domain
   has its tick strictly inside the range.
   */
  function XAxisTick(xs: LinearScale, year: int): (t: XTick)
    ensures t.year == year
    ensures xs.d0 < year as real < xs.d1 && xs.r0 < xs.r1 ==> xs.r0 < t.offset < xs.r1
  {
    if xs.d0 < year as real < xs.d1 then
      ApplyStrictlyInside(xs, year as real);
      XTick(Apply(xs, year as real), year)
    else XTick(Apply(xs, year as real), year)
  }

  /**
   The y-axis tick for a seconds value, drawn with the axis scale inside a
   group shifted down by the padding, labelled by the seconds-to-minutes text.
   */
  function YAxisTick(axis: LinearScale, seconds: nat): (t: YTick)
    ensures t.text == SecondsToMinutes(seconds) && ReadLabel(t.text) == Some(seconds)
    ensures axis.d0 < seconds as real < axis.d1 && axis.r0 < axis.r1 ==>
      PlotPadding as real + axis.r0 < t.offset < PlotPadding as real + axis.r1
  {
    LabelRoundTrip(seconds);
    if axis.d0 < seconds as real < axis.d1 then
      ApplyStrictlyInside(axis, seconds as real);
      YTick(PlotPadding as real + Apply(axis, seconds as real), SecondsToMinutes(seconds))
    else YTick(PlotPadding as real + Apply(axis, seconds as real), SecondsToMinutes(seconds))
  }

  /**
   The two vertical scales agree: a marker's height equals the offset of the
   y-axis tick for its time, whose label reads back as that time; and the
   marker stands on the x-axis tick of its year.
   */
  lemma PointsMeetTicks(data: seq<Record>, rec: Record)
    requires |data| > 0
    ensures var p := PlacePoint(XScale(data), YScale(data), rec);
      var xt := XAxisTick(XScale(data), rec.Year);
      var yt := YAxisTick(YAxisScale(YScale(data)), rec.Seconds);
      && p.cx == xt.offset && xt.year == p.xValue
      && p.cy == yt.offset && ReadLabel(yt.text) == Some(rec.Seconds)
  {
    var ys := YScale(data);
    SwappedRangeAgrees(ys, rec.Seconds as real);
  }

  /** Measured from the bottom padding line, the point scale gives the axis scale's offset below the top padding. */
  lemma SwappedRangeAgrees(ys: LinearScale, v: real)
    requires ys.r0 == YRange0 && ys.r1 == YRange1
    ensures (PlotHeight - PlotPadding) as real - Apply(ys, v) == PlotPadding as real + Apply(YAxisScale(ys), v)
  {
    assert ys.r0 == 420.0 && ys.r1 == 0.0;
    if ys.d0 != ys.d1 {
      SwappedRangeFormula(ys.d0, ys.d1, v);
      assert Apply(ys, v) == 420.0 + (v - ys.d0) * (0.0 - 420.0) / (ys.d1 - ys.d0);
      assert Apply(YAxisScale(ys), v) == 0.0 + (v - ys.d0) * (420.0 - 0.0) / (ys.d1 - ys.d0);
    }
  }

  /** The interpolation formula with the range [420, 0] and with the range [0, 420], on plain reals. */
  lemma SwappedRangeFormula(d0: real, d1: real, v: real)
    requires d0 != d1
    ensures 460.0 - (420.0 + (v - d0) * (0.0 - 420.0) / (d1 - d0))
         == 40.0 + (0.0 + (v - d0) * (420.0 - 0.0) / (d1 - d0))
  {
    ProductOverWidth(v - d0, 0.0 - 420.0, d1 - d0);
    ProductOverWidth(v - d0, 420.0, d1 - d0);
  }
}

/**
 The two linear scales of the plot. A scale maps the domain [d0, d1] onto the
 pixel range [r0, r1] by linear interpolation, extrapolating outside it.
 */
module Scales {
  import opened Race

  datatype LinearScale = LinearScale(d0: real, d1: real, r0: real, r1: real)

  /**
   The pixel for domain value `v`: the point that divides the range in the
   proportion in which `v` divides the domain. A domain of zero width sends
   every value to the middle of the range.
   */
  function Apply(s: LinearScale, v: real): (p: real)
    ensures s.d0 == s.d1 ==> p == (s.r0 + s.r1) / 2.0
    ensures s.d0 != s.d1 ==> (p - s.r0) * (s.d1 - s.d0) == (v - s.d0) * (s.r1 - s.r0)
  {
    if s.d0 == s.d1 then (s.r0 + s.r1) / 2.0
    else s.r0 + (v - s.d0) * (s.r1 - s.r0) / (s.d1 - s.d0)
  }

  /** A non-degenerate scale sends the ends of its domain to the ends of its range. */
  lemma ApplyEnds(s: LinearScale)
    requires s.d0 != s.d1
    ensures Apply(s, s.d0) == s.r0 && Apply(s, s.d1) == s.r1
  {
    var w := s.d1 - s.d0;
    assert w * (s.r1 - s.r0) / w == s.r1 - s.r0;
  }

  /** Interpolation as the fraction of the domain times the span of the range. */
  lemma ProductOverWidth(num: real, span: real, w: real)
    requires w != 0.0
    ensures num * span / w == (num / w) * span
  {
  }

  /** The product of two positive reals is positive. */
  lemma PositiveProduct(a: real, b: real)
    requires a > 0.0 && b > 0.0
    ensures a * b > 0.0
  {
  }

  /** A fraction strictly between 0 and 1 of a span lies strictly between 0 and the span. */
  lemma FractionOfSpan(t: real, span: real)
    requires 0.0 < t < 1.0
    ensures span > 0.0 ==> 0.0 < t * span < span
    ensures span < 0.0 ==> span < t * span < 0.0
  {
    assert span - t * span == (1.0 - t) * span;
    if span > 0.0 {
      PositiveProduct(t, span);
      PositiveProduct(1.0 - t, span);
    } else if span < 0.0 {
      PositiveProduct(t, -span);
      PositiveProduct(1.0 - t, -span);
    }
  }

  /** The interpolation formula on plain reals: the interior of the domain goes to the interior of the range. */
  lemma InterpolationInside(d0: real, d1: real, r0: real, r1: real, v: real)
    requires d0 < v < d1
    ensures r0 < r1 ==> r0 < r0 + (v - d0) * (r1 - r0) / (d1 - d0) < r1
    ensures r1 < r0 ==> r1 < r0 + (v - d0) * (r1 - r0) / (d1 - d0) < r0
  {
    var w := d1 - d0;
    var t := (v - d0) / w;
    assert t * w == v - d0;
    assert (1.0 - t) * w == d1 - v;
    if t <= 0.0 {
      // then t * w <= 0, against v > d0
      assert false;
    }
    if t >= 1.0 {
      // then (1 - t) * w <= 0, against v < d1
      assert false;
    }
    ProductOverWidth(v - d0, r1 - r0, w);
    FractionOfSpan(t, r1 - r0);
  }

  /** A value strictly inside the domain lands strictly inside the range. */
  lemma ApplyStrictlyInside(s: LinearScale, v: real)
    requires s.d0 < v < s.d1
    ensures s.r0 < s.r1 ==> s.r0 < Apply(s, v) < s.r1
    ensures s.r1 < s.r0 ==> s.r1 < Apply(s, v) < s.r0
  {
    InterpolationInside(s.d0, s.d1, s.r0, s.r1, v);
    assert Apply(s, v) == s.r0 + (v - s.d0) * (s.r1 - s.r0) / (s.d1 - s.d0);
  }

  /** The interpolation formula on plain reals follows the direction of the range over an increasing domain. */
  lemma InterpolationMonotone(d0: real, d1: real, r0: real, r1: real, v: real, w: real)
    requires d0 < d1 && v < w
    ensures r0 < r1 ==> (v - d0) * (r1 - r0) / (d1 - d0) < (w - d0) * (r1 - r0) / (d1 - d0)
    ensures r1 < r0 ==> (v - d0) * (r1 - r0) / (d1 - d0) > (w - d0) * (r1 - r0) / (d1 - d0)
  {
    var width := d1 - d0;
    var span := r1 - r0;
    var t := (w - v) / width;
    assert t * width == w - v;
    if t <= 0.0 {
      // then t * width <= 0, against v < w
      assert false;
    }
    ProductOverWidth(v - d0, span, width);
    ProductOverWidth(w - d0, span, width);
    assert (w - d0) / width - (v - d0) / width == t;
    assert (w - d0) * span / width - (v - d0) * span / width == t * span;
    if span > 0.0 {
      PositiveProduct(t, span);
    } else if span < 0.0 {
      PositiveProduct(t, -span);
    }
  }

  /** Over an increasing domain the scale follows the direction of its range. */
  lemma ApplyMonotone(s: LinearScale, v: real, w: real)
    requires s.d0 < s.d1 && v < w
    ensures s.r0 < s.r1 ==> Apply(s, v) < Apply(s, w)
    ensures s.r1 < s.r0 ==> Apply(s, v) > Apply(s, w)
  {
    InterpolationMonotone(s.d0, s.d1, s.r0, s.r1, v, w);
    assert Apply(s, v) == s.r0 + (v - s.d0) * (s.r1 - s.r0) / (s.d1 - s.d0);
    assert Apply(s, w) == s.r0 + (w - s.d0) * (s.r1 - s.r0) / (s.d1 - s.d0);
  }

  /** The fixed pixel range of the horizontal scale. */
  const XRange0: real := PlotPadding as real
  const XRange1: real := (PlotWidth - PlotPadding) as real
  /** The fixed pixel range of the vertical point scale: downward from the plot's inner height. */
  const YRange0: real := (PlotHeight - PlotPadding * 2) as real
  const YRange1: real := 0.0
  /** The margin added to both ends of the time domain. */
  const AxisPadding: int := 5

  /**
   Scale for years: the domain runs from two years before the first record
   to three years after the last one.
   */
  function XScale(data: seq<Record>): (s: LinearScale)
    requires |data| > 0
    ensures s.d0 == (data[0].Year - 2) as real && s.d1 == (data[|data| - 1].Year + 3) as real
    ensures s.r0 == 40.0 && s.r1 == 860.0
    ensures data[0].Year <= data[|data| - 1].Year ==> s.d1 - s.d0 >= 5.0
  {
    LinearScale((data[0].Year - 2) as real, (data[|data| - 1].Year + 3) as real, XRange0, XRange1)
  }

  /**
   Scale for race times: the domain is the first and last record's seconds
   widened by five on each side.
   */
  function YScale(data: seq<Record>): (s: LinearScale)
    requires |data| > 0
    ensures s.d0 == (data[0].Seconds - AxisPadding) as real
    ensures s.d1 == (data[|data| - 1].Seconds + AxisPadding) as real
    ensures s.r0 == 420.0 && s.r1 == 0.0
    ensures data[0].Seconds <= data[|data| - 1].Seconds ==> s.d1 - s.d0 >= 10.0
  {
    LinearScale((data[0].Seconds - AxisPadding) as real,
                (data[|data| - 1].Seconds + AxisPadding) as real,
                YRange0, YRange1)
  }

  /**
   The scale the vertical axis is drawn with: the point scale with its range
   replaced by [0, inner height].
   */
  function YAxisScale(y: LinearScale): (s: LinearScale)
    ensures s.d0 == y.d0 && s.d1 == y.d1
    ensures s.r0 == 0.0 && s.r1 == 420.0
  {
    y.(r0 := 0.0, r1 := YRange0)
  }

  /** The axis scale keeps the point scale's domain and reverses its range. */
  lemma YAxisScaleReversesRange(data: seq<Record>)
    requires |data| > 0
    ensures var y := YScale(data); var a := YAxisScale(y);
      a.d0 == y.d0 && a.d1 == y.d1 && a.r0 == y.r1 && a.r1 == y.r0
  {
  }

  /** Every year between the first and the last record's lands strictly inside (40, 860). */
  lemma XScaleInside(data: seq<Record>, year: int)
    requires |data| > 0
    requires data[0].Year <= year <= data[|data| - 1].Year
    ensures 40.0 < Apply(XScale(data), year as real) < 860.0
  {
    ApplyStrictlyInside(XScale(data), year as real);
  }

  /** When the first record's year is not after the last one's, the year scale is strictly increasing. */
  lemma XScaleIncreasing(data: seq<Record>, y1: int, y2: int)
    requires |data| > 0 && data[0].Year <= data[|data| - 1].Year
    requires y1 < y2
    ensures Apply(XScale(data), y1 as real) < Apply(XScale(data), y2 as real)
  {
    ApplyMonotone(XScale(data), y1 as real, y2 as real);
  }

  /** The first record's year sits 2/(width) of the way along the pixel range. */
  lemma XScaleFirstYear(data: seq<Record>)
    requires |data| > 0 && data[0].Year <= data[|data| - 1].Year
    ensures var w := (data[|data| - 1].Year - data[0].Year + 5) as real;
      Apply(XScale(data), data[0].Year as real) == 40.0 + 2.0 * 820.0 / w
  {
  }
}

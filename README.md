# Cyclist doping scatter plot: scales, labels, markers and tooltip

A model of the computational layer of a d3 scatter plot that draws race
times of professional cyclists against the year of the race, marking riders
with doping allegations. The script fetches a list of race records, builds a
linear year scale and a linear time scale from the first and last records,
draws the two axes, places circles for the records and shows a tooltip while
the pointer is over a circle. The circles are created by a d3 data join that
also matches the two legend swatches already in the plot, so the first two
records get no circle (see "## Findings").

The model covers:

- `Race`: the race record and the canvas constants (900 x 500 pixels, padding 40).
- `Format`: `secondsToMinutes`, the tick and tooltip label "M:R" built from
  a whole number of seconds. It keeps the script's quirk: a zero remainder
  prints as `00` and any other remainder prints unpadded (65 seconds is
  `1:5`). A decimal printer for natural numbers and a reader that takes a
  label back to seconds (M*60 + R) come with it.
- `Scales`: a linear scale as a value `(d0, d1, r0, r1)` over reals, applied
  by `r0 + (v - d0) * (r1 - r0) / (d1 - d0)`. The year scale, the point time
  scale and the range-swapped copy of the time scale used for the y-axis.
- `Points`: the class, `data-xvalue`, radius and centre of each marker, the
  data join that decides which records get a marker, the split of the `Time`
  field into its fields, and the axis ticks.
- `Tooltip`: the shared tooltip element as a class whose fields are the
  `hidden` class, the `top`/`left` offsets, the `data-year` attribute and the
  content lines, updated by `MouseOver` and `MouseOut`.

The record's `Seconds` is a natural number and an empty `Doping` string
stands for an empty or absent allegation (both are falsy in the script).
The scale builders read `data[0]` and `data[data.length - 1]`, so they
require a non-empty dataset. The bounds on a marker's position also assume
that every record lies between the first and the last one, in both Year and
Seconds (`Race.WithinEnds`, the conjunction of `Race.YearsWithinEnds` and
`Race.SecondsWithinEnds`). A feed sorted by year, as the script assumes,
satisfies the Year half only; the Seconds half is a separate assumption.

The scale formula stands in for d3's `scaleLinear`, which is not part of this
model. When the domain has zero width the model returns the middle of the
range (d3's convention). This keeps `Scales.Apply` total. The year domain
is at least 5 wide when the first record's Year is not after the last one's,
and the time domain is at least 10 wide when the first record's Seconds is
not above the last one's. For a single record the widths are exactly 5 and
10, so a one-record dataset is not degenerate in the code, even though one
could expect it to be. A feed sorted by year whose last time is far below
its first can still have a time domain of zero width.

The y-axis is drawn with a second scale that keeps the point scale's domain
and swaps its range to [0, 420], inside a group shifted down by 40. Markers
are placed at `460 - yScale(Seconds)`. `Points.PointsMeetTicks` proves that
the two constructions agree: every marker sits at the height of the y-axis
tick for its time.

## Model

| member | source | states |
|---|---|---|
| `Format.NatToString` | js/main.js:63 | the decimal text of n is non-empty, all digits, reads back as n, has no leading zero, and is one character exactly when n < 10 and two exactly when 10 <= n < 100 |
| `Format.RemainderText` | js/main.js:63 | the text after the colon is one or two digits and reads back as the remainder; it is "00" exactly when the remainder is 0 and a single digit exactly when the remainder is 1 to 9 |
| `Format.SecondsToMinutes` | js/main.js:62-64 | the label's first colon follows the decimal text of seconds / 60 (floor); after it come 1 or 2 digits that read as seconds % 60, "00" exactly for a zero remainder, one unpadded digit exactly for a remainder of 1 to 9 |
| `Format.ReadLabel` | js/main.js:62-64 | the inverse reader: text without a colon is rejected; an accepted label's digits before the first colon read as the result's whole minutes and those after it as its remaining seconds |
| `Format.LabelRoundTrip` | js/main.js:62-64 | reading "M:R" back as M*60 + R, with "00" read as 0, recovers every number of seconds |
| `Format.LabelInjective` | js/main.js:62-64 | no two second counts share a label |
| `Format.ExampleUnderAMinute` | js/main.js:63 | 36 seconds is "0:36" |
| `Format.ExampleZeroRemainder` | js/main.js:63 | 60 seconds is "1:00" and 0 seconds is "0:00" |
| `Format.ExampleUnpaddedRemainder` | js/main.js:63 | 65 seconds is "1:5" |
| `Scales.Apply` | js/main.js:94-95 | applying a scale divides the range in the proportion in which the value divides the domain: (p - r0) * (d1 - d0) == (v - d0) * (r1 - r0); a zero-width domain gives the middle of the range |
| `Scales.ApplyEnds` | js/main.js:94-95 | a scale with a non-degenerate domain sends d0 to r0 and d1 to r1 |
| `Scales.ApplyStrictlyInside` | js/main.js:94-95 | a value strictly inside the domain lands strictly inside the range, for an increasing or a decreasing range |
| `Scales.ApplyMonotone` | js/main.js:94-95 | over an increasing domain the scale is strictly increasing with an increasing range and strictly decreasing with a decreasing one |
| `Scales.XScale` | js/main.js:36-41 | the year domain is [first Year - 2, last Year + 3], the range is [40, 860], and the domain is at least 5 wide when the first year is not after the last |
| `Scales.YScale` | js/main.js:43-50 | the time domain is [first Seconds - 5, last Seconds + 5], the range is [420, 0], and the domain is at least 10 wide when the first Seconds is not above the last |
| `Scales.YAxisScale` | js/main.js:67 | the axis scale has the same domain with its range set to [0, 420] |
| `Scales.YAxisScaleReversesRange` | js/main.js:67 | the axis scale keeps the point scale's domain and its range is the point scale's range reversed |
| `Scales.XScaleInside` | js/main.js:39-40 | every year between the first and the last record's maps strictly inside (40, 860) |
| `Scales.XScaleIncreasing` | js/main.js:39-40 | when the first year is not after the last, the year scale is strictly increasing |
| `Scales.XScaleFirstYear` | js/main.js:39-40 | the first record's year maps to 40 + 2 * 820 / (last - first + 5) |
| `Points.PointClass` | js/main.js:86 | the class is "dot doping" when Doping is non-empty and exactly "dot " (trailing space) otherwise; it always starts with "dot " |
| `Points.Cx` | js/main.js:94 | cx is the year scale's pixel for the record's Year, strictly inside the range when the Year is strictly inside the domain |
| `Points.Cy` | js/main.js:95 | cy = 460 - yScale(Seconds), strictly between 460 - r0 and 460 - r1 for a time strictly inside the domain of a downward range |
| `Points.PlacePoint` | js/main.js:86-95 | a marker has radius 4, data-xvalue = Year, class "dot doping" exactly when Doping is non-empty, and the centre (cx, cy) |
| `Points.RenderPoints` | js/main.js:81-95 | the data join against `existing` elements already selected: only records from index `existing` on get a marker, in order, each placed by scales built from the whole dataset |
| `Points.DrawnPoints` | js/main.js:81-85 | with the two legend rects already in the plot, the script draws |data| - 2 markers (none for two records or fewer), the k-th for record k + 2 |
| `Points.AllPoints` | js/main.js:81-95 | the intended rendering: one marker per record, the i-th for record i |
| `Points.OneRecordDrawsNothing` | js/main.js:81-85 | a single-record dataset gets no circle in the script, and one in the intended rendering |
| `Points.ThreeRecordsDrawOne` | js/main.js:81-85 | three records with distinct years get one circle, for the third record, and none for the first two; the intended rendering draws three |
| `Points.CyInside` | js/main.js:95 | for a time between the first and the last record's, cy = 460 - yScale(Seconds) lies strictly inside (40, 460) |
| `Points.CyIncreasing` | js/main.js:95 | cy is strictly increasing in Seconds when the first Seconds is not above the last |
| `Points.PointsInsidePlot` | js/main.js:86-95 | when every record lies between the first and the last in both Year and Seconds, every marker the join draws, from any number of existing elements, is strictly inside (40, 860) x (40, 460), has radius 4, carries its record's Year as data-xvalue, and is "dot doping" exactly when Doping is non-empty |
| `Points.SplitTime` | js/main.js:89-91 | splitting Time on ':' gives no result exactly when there is no colon; otherwise two colon-free fields that make up the whole text or its prefix up to a second colon |
| `Points.SplitTimeFields` | js/main.js:89 | a Time of two digit fields joined by ':' splits into exactly those fields |
| `Points.XAxisTick` | js/main.js:52-59 | an x-axis tick is labelled with the year itself, and a year strictly inside the domain has its tick strictly inside the range |
| `Points.YAxisTick` | js/main.js:66-75 | a y-axis tick is labelled with secondsToMinutes of its value, which reads back as that value; a value strictly inside the domain has its tick strictly inside the axis range shifted down by 40 |
| `Points.PointsMeetTicks` | js/main.js:67-95 | a marker's cy equals the offset of the y-axis tick for its time (drawn with the range-swapped scale inside the group shifted by 40), whose label reads back as that time; its cx equals the x-axis tick offset for its year, labelled with the year |
| `Tooltip.Content` | js/main.js:22-24 | the content is name and nationality, then the year with exactly secondsToMinutes(Seconds), which reads back as Seconds, then the allegation; the allegation line is present exactly when Doping is non-empty |
| `Tooltip.TooltipElement.MouseOver` | js/main.js:18-29 | after hovering, top = clientY + 10, left = clientX + 10, data-year = Year, the content is that of the record and the element is not hidden, whatever its previous state |
| `Tooltip.TooltipElement.MouseOut` | js/main.js:31-34 | after leaving, the element is hidden and nothing else changes; leaving an already hidden tooltip changes nothing |

## Findings

| source | as written | input that shows it | evidently intended | confidence | as-written member | corrected member |
|---|---|---|---|---|---|---|
| js/main.js:81-85 | `selectAll('rect')` joins the data onto every `rect` in `#plot`, which already holds the two legend swatches (js/main.js:106-107, drawn at js/main.js:113), so `enter()` creates circles only for the records from index 2 on | three records: one circle, for the third record; the single-record dataset: no circle | one circle per record, as from a selection that holds no element yet | high, not executed | `Points.ThreeRecordsDrawOne` (on `Points.DrawnPoints`) | `Points.AllPoints`, with `Points.PointsInsidePlot` |

## Left out

- `fetchGDP` and the promise chain that logs failures (js/main.js:7-10, 115-122): network I/O and asynchronous error handling.
- `setPlotSize` and `renderLegend` (js/main.js:12-16, 103-110): DOM attribute calls with fixed constants. The one effect of the legend on the rest of the script, the two `rect`s that the markers' data join then matches, is the constant `Points.LegendRects`.
- The update half of the markers' data join: the first two records are bound to the legend swatches, which the script leaves otherwise unchanged. The model only says which records get a circle.
- The tick values chosen by `d3.axisBottom` and `d3.axisLeft` (js/main.js:53, 68): d3's tick generation is not part of this model. A tick value is a parameter of `Points.XAxisTick` and `Points.YAxisTick`; the year tick label is the year itself.
- The `data-yvalue` timestamp (js/main.js:91): it relies on JavaScript's `Date` and the local time zone. Only the split of `Time` on ':' is modelled.
- The tooltip's markup (js/main.js:22-24): the content is modelled as a list of fields, without HTML construction or escaping.
- The aliasing of `yScale.range(...)` (js/main.js:67): d3 changes the point scale in place. By then every marker's cy has been computed, so the model takes the axis scale as a new value.
- Floating point: scales are computed over exact reals.
- `Format.SecondsToMinutes` is defined for whole, non-negative numbers of seconds only. Fractional or negative tick values, which JavaScript would print differently, are not modelled.
- The tooltip's initial state is set by the page's markup, which is not part of this model. `Tooltip.TooltipElement.constructor` assumes a hidden, empty element.
- Pointer coordinates are whole pixels.

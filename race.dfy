/**
 The data model of the scatter plot: one race record per rider result, and
 the fixed dimensions of the drawing canvas.
 */
module Race {

  /** Width of the plot canvas in pixels. */
  const PlotWidth: int := 900
  /** Height of the plot canvas in pixels. */
  const PlotHeight: int := 500
  /** Margin kept free around the plotted area for the axes. */
  const PlotPadding: int := 40

  /**
   One result of the fetched dataset. `Seconds` is the total race time as a
   whole number of seconds; an empty `Doping` string stands for an empty or
   absent allegation (both are falsy where the record is used).
   */
  datatype Record = Record(
    Name: string,
    Nationality: string,
    Year: int,
    Seconds: nat,
    Time: string,
    Doping: string)

  /** True when the record carries a doping allegation. */
  predicate HasDoping(r: Record) {
    r.Doping != ""
  }

  /**
   Every record's Year lies between the first and the last record's, as it
   does when the feed is sorted by year. The year bounds need only this.
   */
  predicate YearsWithinEnds(data: seq<Record>)
    requires |data| > 0
  {
    forall i :: 0 <= i < |data| ==> data[0].Year <= data[i].Year <= data[|data| - 1].Year
  }

  /**
   Every record's Seconds lies between the first and the last record's. A
   feed sorted by year need not satisfy this.
   */
  predicate SecondsWithinEnds(data: seq<Record>)
    requires |data| > 0
  {
    forall i :: 0 <= i < |data| ==>
      data[0].Seconds <= data[i].Seconds <= data[|data| - 1].Seconds
  }

  /** The assumption the bounds on both coordinates make: both orders hold. */
  predicate WithinEnds(data: seq<Record>)
    requires |data| > 0
  {
    YearsWithinEnds(data) && SecondsWithinEnds(data)
  }
}

/**
 The single shared tooltip element: shown next to the pointer over a marker,
 hidden when the pointer leaves it.
 */
module Tooltip {
  import opened Race
  import opened Format

  /** One line of the tooltip's content, as fields rather than markup. */
  datatype Line =
    | Identity(name: string, nationality: string)
    | YearAndTime(year: int, time: string)
    | DopingDescription(text: string)

  /** Distance in pixels between the pointer and the tooltip's corner, in both axes. */
  const PointerOffset: int := 10

  /**
   The content shown for a record: name and nationality, then year and the
   converted time, then the allegation when there is one.
   */
  function Content(rec: Record): (lines: seq<Line>)
    ensures |lines| == 2 || |lines| == 3
    ensures |lines| == 3 <==> HasDoping(rec)
    ensures lines[0] == Identity(rec.Name, rec.Nationality)
    ensures lines[1] == YearAndTime(rec.Year, SecondsToMinutes(rec.Seconds))
    ensures ReadLabel(lines[1].time) == Some(rec.Seconds)
    ensures |lines| == 3 ==> lines[2] == DopingDescription(rec.Doping)
    ensures forall i :: 0 <= i < |lines| ==> (lines[i].DopingDescription? <==> i == 2)
  {
    var time := SecondsToMinutes(rec.Seconds);
    LabelRoundTrip(rec.Seconds);
    var head := [Identity(rec.Name, rec.Nationality), YearAndTime(rec.Year, time)];
    if HasDoping(rec) then head + [DopingDescription(rec.Doping)] else head
  }

  class TooltipElement {
    /** Whether the element carries the `hidden` class. */
    var hidden: bool
    /** The `top` and `left` style offsets, in pixels. */
    var top: int
    var left: int
    /** The `data-year` attribute, absent until the first hover. */
    var dataYear: Option<int>
    /** The element's content. */
    var lines: seq<Line>

    /** The element as the page first shows it: hidden and empty. */
    constructor ()
      ensures hidden && dataYear == None && lines == [] && top == 0 && left == 0
    {
      hidden := true;
      top := 0;
      left := 0;
      dataYear := None;
      lines := [];
    }

    /**
     Pointer enters a marker at (clientX, clientY): the whole element is
     rewritten from the record and the pointer alone, so the latest hover wins.
     */
    method MouseOver(clientX: int, clientY: int, rec: Record)
      modifies this
      ensures !hidden
      ensures top == clientY + PointerOffset && left == clientX + PointerOffset
      ensures dataYear == Some(rec.Year)
      ensures lines == Content(rec)
    {
      lines := Content(rec);
      top := clientY + PointerOffset;
      left := clientX + PointerOffset;
      dataYear := Some(rec.Year);
      hidden := false;
    }

    /** Pointer leaves a marker: only the `hidden` class changes. */
    method MouseOut()
      modifies this`hidden
      ensures hidden
      ensures top == old(top) && left == old(left) && dataYear == old(dataYear) && lines == old(lines)
      ensures old(hidden) ==> unchanged(this)
    {
      hidden := true;
    }
  }

  /**
   A usage example, not a function of the script: two hovers, where the
   latest wins, then leaving twice; the content stays, only visibility
   changes, and leaving again changes nothing.
   */
  method HoverAndLeave(rec: Record, other: Record)
  {
    var t := new TooltipElement();
    assert t.hidden;
    t.MouseOver(100, 200, other);
    t.MouseOver(5, 7, rec);
    assert !t.hidden && t.top == 17 && t.left == 15 && t.dataYear == Some(rec.Year);
    assert t.lines == Content(rec);
    t.MouseOut();
    assert t.hidden && t.lines == Content(rec) && t.top == 17;
    t.MouseOut();
    assert t.hidden && t.lines == Content(rec) && t.left == 15;
  }
}

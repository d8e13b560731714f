// The timeline range store of src/lib/stores/timelineRange.svelte.js: the
// full bounds [min, max] of the X axis and the selected window [start, end].
// Numbers are exact reals here.

module TimelineRange {
  import opened Wrappers

  /** `Math.max(min, Math.min(value, end - 1))`: the start setStart stores. */
  function ClampStart(min: real, end: real, value: real): (r: real)
    ensures r >= min
    ensures min <= end - 1.0 ==> r <= end - 1.0
    ensures min <= value <= end - 1.0 ==> r == value
    ensures r == min || r == value || r == end - 1.0
  {
    var upper := if value < end - 1.0 then value else end - 1.0;
    if min > upper then min else upper
  }

  /** `Math.min(max, Math.max(value, start + 1))`: the end setEnd stores. */
  function ClampEnd(max: real, start: real, value: real): (r: real)
    ensures r <= max
    ensures start + 1.0 <= max ==> r >= start + 1.0
    ensures start + 1.0 <= value <= max ==> r == value
    ensures r == max || r == value || r == start + 1.0
  {
    var lower := if value > start + 1.0 then value else start + 1.0;
    if max < lower then max else lower
  }

  /** The window setRange stores: the requested width, shifted back inside a violated bound. */
  function Dragged(min: real, max: real, newStart: real, newEnd: real): (r: (real, real))
    ensures r.1 - r.0 == newEnd - newStart
    ensures newStart < min ==> r.0 == min
    ensures newStart >= min && newEnd > max ==> r.1 == max
    ensures newStart >= min && newEnd <= max ==> r == (newStart, newEnd)
  {
    var width := newEnd - newStart;
    if newStart < min then (min, min + width)
    else if newEnd > max then (max - width, max)
    else (newStart, newEnd)
  }

  /** A window no wider than the bounds is dragged to a window inside them. */
  lemma DraggedStaysInside(min: real, max: real, newStart: real, newEnd: real)
    requires newEnd - newStart <= max - min
    ensures var r := Dragged(min, max, newStart, newEnd);
            min <= r.0 && r.1 <= max
  {
  }

  /** Dragging a window that already lies inside the bounds leaves it where it is. */
  lemma DraggedInsideIsIdentity(min: real, max: real, s: real, e: real)
    requires min <= s && e <= max
    ensures Dragged(min, max, s, e) == (s, e)
  {
  }

  class Range {
    var min: real
    var max: real
    var start: real
    var end: real

    constructor()
      ensures min == 0.0 && max == 200.0 && start == 0.0 && end == 200.0
    {
      min, max, start, end := 0.0, 200.0, 0.0, 200.0;
    }

    /** getVisibleRange. */
    function VisibleRange(): (r: (real, real))
      reads this
      ensures r == (start, end)
    {
      (start, end)
    }

    /** getFullRange. */
    function FullRange(): (r: (real, real))
      reads this
      ensures r == (min, max)
    {
      (min, max)
    }

    method SetStart(value: real)
      modifies this
      ensures start == ClampStart(old(min), old(end), value)
      ensures min == old(min) && max == old(max) && end == old(end)
    {
      start := ClampStart(min, end, value);
    }

    method SetEnd(value: real)
      modifies this
      ensures end == ClampEnd(old(max), old(start), value)
      ensures min == old(min) && max == old(max) && start == old(start)
    {
      end := ClampEnd(max, start, value);
    }

    method SetRange(newStart: real, newEnd: real)
      modifies this
      ensures (start, end) == Dragged(old(min), old(max), newStart, newEnd)
      ensures min == old(min) && max == old(max)
    {
      var r := Dragged(min, max, newStart, newEnd);
      start, end := r.0, r.1;
    }

    /** initRange; a None start or end is an argument left undefined. */
    method InitRange(newMin: real, newMax: real, initialStart: Option<real>, initialEnd: Option<real>)
      modifies this
      ensures min == newMin && max == newMax
      ensures start == (if initialStart.Some? then initialStart.value else newMin)
      ensures end == (if initialEnd.Some? then initialEnd.value else newMax)
    {
      min := newMin;
      max := newMax;
      start := initialStart.GetOr(newMin);
      end := initialEnd.GetOr(newMax);
    }

    method ResetRange()
      modifies this
      ensures start == old(min) && end == old(max)
      ensures min == old(min) && max == old(max)
    {
      start := min;
      end := max;
    }
  }
}

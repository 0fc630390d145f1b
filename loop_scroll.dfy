/**
 * The horizontal and vertical infinite scroll lists. On initialisation the
 * box's children are repeated until one cycle covers the viewport, then
 * that cycle is appended once more; a timer moves the scroll offset by
 * `step` and jumps back to 0 after a whole cycle. The two lists differ
 * only in the axis and in mouse leave (see MouseLeave).
 */
module LoopScroll {

  import opened ScrollCycle

  datatype Axis = Horizontal | Vertical

  class Scroller {
    const axis: Axis
    const fill: bool
    const step: nat
    const stopOnHover: bool

    /** The box's children, in order. */
    var box: seq<Node>
    /** `scrollLeft` (horizontal) or `scrollTop` (vertical). */
    var offset: int
    /** `singleCycleWidthRef` / `singleCycleHeightRef`. */
    var cycle: nat
    /** Whether the interval timer is running. */
    var timer: bool

    /** The scroll offset is never negative. */
    ghost predicate Valid()
      reads this
    {
      offset >= 0
    }

    /** Mount state: the rendered children, offset 0, no cycle, no timer. */
    constructor (axis: Axis, fill: bool, step: nat, stopOnHover: bool, children: seq<Node>)
      ensures Valid()
      ensures this.axis == axis && this.fill == fill && this.step == step && this.stopOnHover == stopOnHover
      ensures box == children && offset == 0 && cycle == 0 && !timer
    {
      this.axis, this.fill, this.step, this.stopOnHover := axis, fill, step, stopOnHover;
      box, offset, cycle, timer := children, 0, 0, false;
    }

    /**
     * `initScroll` with the viewport extent `target`: nothing happens
     * without children, when the children already fit and `fill` is off,
     * or while the children measure 0 (the lists defer until they have an
     * extent); otherwise the box becomes the originals repeated
     * `2 * repeatTimes` times, the cycle is the extent of the first half,
     * which covers the viewport, and scrolling starts.
     */
    method InitScroll(target: nat)
      modifies this`box, this`cycle, this`timer
      ensures SumExtents(old(box)) == 0 || (!fill && SumExtents(old(box)) <= target) ==>
        box == old(box) && cycle == old(cycle) && timer == old(timer)
      ensures SumExtents(old(box)) > 0 && (fill || SumExtents(old(box)) > target) ==>
        var repeatTimes := RepeatTimes(target, SumExtents(old(box)));
        box == Repeat(old(box), 2 * repeatTimes) &&
        cycle == repeatTimes * SumExtents(old(box)) &&
        cycle >= target &&
        timer
    {
      var originItems := box;
      if |originItems| == 0 {
        return;
      }
      var targetWidth := target;
      var originTotalWidth := SumExtents(originItems);
      if !fill && originTotalWidth <= targetWidth {
        return;
      }
      if originTotalWidth == 0 {
        return;
      }
      var repeatTimes := RepeatTimes(targetWidth, originTotalWidth);

      CloneRepeats(originItems, repeatTimes);

      var firstCycleItems := box;
      AppendItems(firstCycleItems);
      RepeatAdd(originItems, repeatTimes, repeatTimes);

      cycle := SumExtents(firstCycleItems);
      SumExtentsRepeat(originItems, repeatTimes);

      StartScroll();
    }

    /** The clone loop: `repeatTimes - 1` more copies of the original children. */
    method CloneRepeats(originItems: seq<Node>, repeatTimes: nat)
      requires box == originItems && repeatTimes >= 1
      modifies this`box
      ensures box == Repeat(originItems, repeatTimes)
    {
      var i := 0;
      while i < repeatTimes - 1
        invariant 0 <= i <= repeatTimes - 1
        invariant box == Repeat(originItems, i + 1)
      {
        var j := 0;
        while j < |originItems|
          invariant 0 <= j <= |originItems|
          invariant box == Repeat(originItems, i + 1) + originItems[..j]
        {
          box := box + [originItems[j]];
          j := j + 1;
        }
        assert originItems[..j] == originItems;
        i := i + 1;
      }
    }

    /** A clone of each of `items` appended to the box, in order. */
    method AppendItems(items: seq<Node>)
      modifies this`box
      ensures box == old(box) + items
    {
      var j := 0;
      while j < |items|
        invariant 0 <= j <= |items|
        invariant box == old(box) + items[..j]
      {
        box := box + [items[j]];
        j := j + 1;
      }
      assert items[..j] == items;
    }

    /** One interval of the timer: advance by `step`, back to 0 after a whole cycle. */
    method Tick()
      requires Valid()
      modifies this`offset
      ensures Valid()
      ensures offset == ResetTick(old(offset), step, cycle)
      ensures cycle > 0 ==> offset < cycle
    {
      offset := offset + step;
      if cycle > 0 && offset >= cycle {
        offset := 0;
      }
    }

    /** `startScroll`: start the timer unless one is already running. */
    method StartScroll()
      modifies this`timer
      ensures timer
    {
      if timer {
        return;
      }
      timer := true;
    }

    /** `stopScroll`: clear the timer if one is running; the offset stays where it is. */
    method StopScroll()
      modifies this`timer
      ensures !timer
    {
      if timer {
        timer := false;
      }
    }

    /** The effect on `step` and `interval`: stop, then start again. */
    method RestartScroll()
      modifies this`timer
      ensures timer
    {
      StopScroll();
      StartScroll();
    }

    /** Mouse enter stops the timer only when `stopOnHover` is set. */
    method MouseEnter()
      modifies this`timer
      ensures timer == (old(timer) && !stopOnHover)
    {
      if stopOnHover {
        StopScroll();
      }
    }

    /**
     * Mouse leave restarts the timer when `stopOnHover` is set; the vertical
     * list restarts it unconditionally.
     */
    method MouseLeave()
      modifies this`timer
      ensures timer == (old(timer) || stopOnHover || axis == Vertical)
    {
      if axis == Vertical || stopOnHover {
        StartScroll();
      }
    }
  }
}

/**
 * The seamless row list: rows share the height of the first row, one cycle
 * is `repeatTimes` copies of the rows, at least `visibleRows` of them, and a
 * timer moves the offset by `speed`, moving it back by one cycle once a
 * whole cycle has scrolled by.
 */
module SeamlessScroll {

  import opened ScrollCycle

  datatype Option<T> = None | Some(value: T)

  /** `singleCycleCount`: the rows of one cycle, never fewer than the visible rows or the originals. */
  lemma SingleCycleCovers(curLen: nat, visibleRows: nat)
    requires curLen > 0
    ensures curLen * RepeatTimes(visibleRows, curLen) >= visibleRows
    ensures curLen * RepeatTimes(visibleRows, curLen) >= curLen
  {
  }

  /** The cycle height is at least the wrapper height, so the second copy fills the view. */
  lemma CycleCoversWrap(height: nat, curLen: nat, visibleRows: nat)
    requires curLen > 0
    ensures height * (curLen * RepeatTimes(visibleRows, curLen)) >= height * visibleRows
  {
  }

  class Seamless<T> {
    const visibleRows: nat
    const fill: bool
    const speed: nat
    const stopOnHover: bool

    /** The box's rows, in order. */
    var box: seq<T>
    /** `rowHeightRef`: the measured height of the first row. */
    var rowHeight: nat
    /** `singleCycleHeightRef`. */
    var cycle: nat
    /** The wrapper's explicit height, once one has been set. */
    var wrapHeight: Option<nat>
    /** `scrollTop`. */
    var offset: int
    /** Whether the interval timer is running. */
    var timer: bool

    /** The scroll offset is never negative. */
    ghost predicate Valid()
      reads this
    {
      offset >= 0
    }

    /** Mount state: the rendered rows, offset 0, nothing measured, no timer. */
    constructor (visibleRows: nat, fill: bool, speed: nat, stopOnHover: bool, rows: seq<T>)
      ensures Valid()
      ensures this.visibleRows == visibleRows && this.fill == fill
      ensures this.speed == speed && this.stopOnHover == stopOnHover
      ensures box == rows && rowHeight == 0 && cycle == 0 && wrapHeight == None
      ensures offset == 0 && !timer
    {
      this.visibleRows, this.fill, this.speed, this.stopOnHover := visibleRows, fill, speed, stopOnHover;
      box, rowHeight, cycle, wrapHeight := rows, 0, 0, None;
      offset, timer := 0, false;
    }

    /**
     * `initScroll`, given the measured height of the first row. Without
     * rows nothing happens. With `fill` off and no more rows than are
     * visible, only the wrapper height is set. Otherwise the box becomes
     * the rows repeated `2 * repeatTimes` times, the cycle is the height of
     * the first `curLen * repeatTimes` rows, the wrapper shows
     * `visibleRows` rows, and scrolling starts.
     */
    method InitScroll(height: nat)
      modifies this`box, this`rowHeight, this`cycle, this`wrapHeight, this`timer
      ensures old(box) == [] ==>
        box == old(box) && rowHeight == old(rowHeight) && cycle == old(cycle) &&
        wrapHeight == old(wrapHeight) && timer == old(timer)
      ensures old(box) != [] ==> rowHeight == height && wrapHeight == Some(height * visibleRows)
      ensures old(box) != [] && !fill && |old(box)| <= visibleRows ==>
        box == old(box) && cycle == old(cycle) && timer == old(timer)
      ensures old(box) != [] && (fill || |old(box)| > visibleRows) ==>
        var repeatTimes := RepeatTimes(visibleRows, |old(box)|);
        box == Repeat(old(box), 2 * repeatTimes) &&
        cycle == height * (|old(box)| * repeatTimes) &&
        cycle >= height * visibleRows &&
        timer
    {
      var originRows := box;
      if |originRows| == 0 {
        return;
      }
      rowHeight := height;
      var curLen := |originRows|;

      if !fill && curLen <= visibleRows {
        wrapHeight := Some(height * visibleRows);
        return;
      }

      var repeatTimes := RepeatTimes(visibleRows, curLen);

      CloneRepeats(originRows, repeatTimes);

      var singleCycleCount := curLen * repeatTimes;
      assert singleCycleCount == |box|;
      var firstCycleRows := box[..singleCycleCount];
      assert firstCycleRows == Repeat(originRows, repeatTimes);

      AppendRows(firstCycleRows);
      RepeatAdd(originRows, repeatTimes, repeatTimes);

      cycle := height * singleCycleCount;
      CycleCoversWrap(height, curLen, visibleRows);

      wrapHeight := Some(height * visibleRows);

      StartScroll();
    }

    /** The clone loop: `repeatTimes - 1` more copies of the original rows. */
    method CloneRepeats(originRows: seq<T>, repeatTimes: nat)
      requires box == originRows && repeatTimes >= 1
      modifies this`box
      ensures box == Repeat(originRows, repeatTimes)
    {
      var i := 0;
      while i < repeatTimes - 1
        invariant 0 <= i <= repeatTimes - 1
        invariant box == Repeat(originRows, i + 1)
      {
        var j := 0;
        while j < |originRows|
          invariant 0 <= j <= |originRows|
          invariant box == Repeat(originRows, i + 1) + originRows[..j]
        {
          box := box + [originRows[j]];
          j := j + 1;
        }
        assert originRows[..j] == originRows;
        i := i + 1;
      }
    }

    /** A clone of each of `rows` appended to the box, in order. */
    method AppendRows(rows: seq<T>)
      modifies this`box
      ensures box == old(box) + rows
    {
      var j := 0;
      while j < |rows|
        invariant 0 <= j <= |rows|
        invariant box == old(box) + rows[..j]
      {
        box := box + [rows[j]];
        j := j + 1;
      }
      assert rows[..j] == rows;
    }

    /**
     * One interval of the timer. From inside the cycle, with a speed of at
     * most one cycle, the offset stays inside the cycle and advances by
     * `speed` modulo it.
     */
    method Tick()
      requires Valid()
      modifies this`offset
      ensures Valid()
      ensures offset == SubtractTick(old(offset), speed, cycle)
      ensures cycle > 0 && old(offset) < cycle && speed <= cycle ==>
        offset < cycle && offset == (old(offset) + speed) % cycle
    {
      offset := offset + speed;
      if cycle > 0 && offset >= cycle {
        offset := offset - cycle;
      }
    }

    /** `startScroll`: start the timer unless one is already running. */
    method StartScroll()
      modifies this`timer
      ensures timer
    {
      if timer {
        return;
      }
      timer := true;
    }

    /** `stopScroll`: clear the timer if one is running; the offset stays where it is. */
    method StopScroll()
      modifies this`timer
      ensures !timer
    {
      if timer {
        timer := false;
      }
    }

    /** Mouse enter stops the timer only when `stopOnHover` is set. */
    method MouseEnter()
      modifies this`timer
      ensures timer == (old(timer) && !stopOnHover)
    {
      if stopOnHover {
        StopScroll();
      }
    }

    /** Mouse leave restarts the timer only when `stopOnHover` is set. */
    method MouseLeave()
      modifies this`timer
      ensures timer == (old(timer) || stopOnHover)
    {
      if stopOnHover {
        StartScroll();
      }
    }
  }
}

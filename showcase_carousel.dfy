/**
 * The showcase carousel (vertical and horizontal variants): a centred track
 * over the padded buffer, driven by a virtual index that moves one slot at a
 * time or jumps, and snaps back a lap without animation once a transition
 * that ended in the clones has finished. The two variants differ only in
 * the axis and in the horizontal one's click-to-step handler (OnClick).
 */
module ShowcaseCarousel {

  import opened JsArith
  import opened PaddedBuffer
  import opened TrackGeometry

  /**
   * `initLayout` as written: the real index is the raw `initialIndex`, while
   * the virtual index is normalised into the canonical range.
   */
  function InitLayoutAsWritten(n: nat, initialIndex: int): (p: (int, int))
    ensures p.0 == initialIndex
    ensures n > 0 ==> CloneOffset <= p.1 < CloneOffset + n
  {
    (initialIndex, RealToVirtual(n, initialIndex))
  }

  /**
   * With five items and `initialIndex` 7 the source starts at virtual slot 4,
   * which shows item 2, yet reports real index 7, which names no item.
   */
  lemma RawInitialIndexOutOfRange()
    ensures InitLayoutAsWritten(5, 7) == (7, 4)
    ensures VirtualToReal(5, 4) == 2
    ensures !(0 <= InitLayoutAsWritten(5, 7).0 < 5)
  {
  }

  /**
   * `initLayout` with the real index taken from the virtual one: it names an
   * item, agrees with the slot shown, and is `initialIndex` when in range.
   */
  function InitLayout(n: nat, initialIndex: int): (p: (int, int))
    ensures p.1 == RealToVirtual(n, initialIndex)
    ensures p.0 == VirtualToReal(n, p.1)
    ensures n > 0 ==> 0 <= p.0 < n && p.0 == initialIndex % n
    ensures 0 <= initialIndex < n ==> p.0 == initialIndex
  {
    var v := RealToVirtual(n, initialIndex);
    if n == 0 then (VirtualToReal(n, v), v)
    else RealVirtualRoundTrip(n, initialIndex); (VirtualToReal(n, v), v)
  }

  class Carousel<T> {
    const autoplay: bool
    const gap: real
    const itemSize: ItemSize

    var items: seq<T>
    var curRealIndex: int
    var curVirtualIndex: int
    var isTransitioning: bool
    var autoplayTimer: bool
    var layout: LayoutCache

    /** The real index names an item whenever there are items; the cache is consistent. */
    ghost predicate Valid()
      reads this
    {
      (|items| > 0 ==> 0 <= curRealIndex < |items|) && Measured(layout)
    }

    /** At rest: the virtual index is canonical and the real index is the item it shows. */
    predicate Settled()
      reads this
    {
      |items| > 0 &&
      CloneOffset <= curVirtualIndex < CloneOffset + |items| &&
      curRealIndex == VirtualToReal(|items|, curVirtualIndex)
    }

    /**
     * The translate applied to the track: 0 until measured, then the
     * centred slot (CentredSlot of the virtual index) sits at the centre of
     * the viewport.
     */
    function Translate(): (t: real)
      reads this
      ensures layout.viewport == 0.0 || layout.itemExtent == 0.0 ==> t == 0.0
      ensures Measured(layout) && layout.viewport != 0.0 && layout.itemExtent != 0.0 ==>
        t + SlotStart(layout.itemExtent, gap, CentredSlot(|items|, curVirtualIndex)) + layout.itemExtent / 2.0
        == layout.viewport / 2.0
    {
      ShowcaseTranslate(layout, gap, CentredSlot(|items|, curVirtualIndex))
    }

    /**
     * At rest, the slot at the centre of the viewport exists in the
     * rendered buffer (`virtualItems`) and shows the current item, one item
     * included.
     */
    lemma SettledCentresCurrent()
      requires Valid() && Settled()
      ensures 0 <= CentredSlot(|items|, curVirtualIndex) < |VirtualItems(items)|
      ensures VirtualItems(items)[CentredSlot(|items|, curVirtualIndex)] == items[curRealIndex]
    {
      var n := |items|;
      VirtualRealRoundTrip(n, curVirtualIndex);
      CentredSlotShowsItem(items, curRealIndex);
      DivModUnique(curRealIndex, n, 0, curRealIndex);
    }

    /** Mount state: no items, virtual index 2, nothing measured, no timer. */
    constructor (autoplay: bool, gap: real, itemSize: ItemSize)
      ensures Valid()
      ensures this.autoplay == autoplay && this.gap == gap && this.itemSize == itemSize
      ensures items == [] && curRealIndex == 0 && curVirtualIndex == CloneOffset
      ensures !isTransitioning && !autoplayTimer && layout == LayoutCache(0.0, 0.0, 0.0)
    {
      this.autoplay, this.gap, this.itemSize := autoplay, gap, itemSize;
      items, curRealIndex, curVirtualIndex := [], 0, CloneOffset;
      isTransitioning, autoplayTimer := false, false;
      layout := LayoutCache(0.0, 0.0, 0.0);
    }

    /**
     * The effect on `children`: the previous run's cleanup clears autoplay,
     * then the items are replaced, the indices initialised and autoplay set up.
     */
    method Load(children: seq<T>, initialIndex: int)
      requires Valid()
      modifies this
      ensures Valid()
      ensures items == children
      ensures (curRealIndex, curVirtualIndex) == InitLayout(|children|, initialIndex)
      ensures |children| > 0 ==> Settled()
      ensures isTransitioning == old(isTransitioning) && layout == old(layout)
      ensures autoplayTimer == (autoplay && |children| > 1)
    {
      ClearAutoplay();
      items := children;
      var p := InitLayout(|children|, initialIndex);
      curRealIndex, curVirtualIndex := p.0, p.1;
      SetupAutoplay();
    }

    /** `measureLayoutCache`, with the viewport and first slot extents as measured. */
    method MeasureLayoutCache(viewport: real, firstChild: real)
      requires Valid()
      modifies this`layout
      ensures Valid()
      ensures layout == MeasureLayout(viewport, itemSize, firstChild)
    {
      layout := MeasureLayout(viewport, itemSize, firstChild);
    }

    /** `onResize`: re-measure and drop the animation; the indices do not move. */
    method OnResize(viewport: real, firstChild: real)
      requires Valid()
      modifies this`layout, this`isTransitioning
      ensures Valid()
      ensures layout == MeasureLayout(viewport, itemSize, firstChild)
      ensures !isTransitioning
    {
      MeasureLayoutCache(viewport, firstChild);
      isTransitioning := false;
    }

    /**
     * `moveToIndex`: add `delta` to the virtual index. Animated, the real
     * index waits for the transition; skipping the transition, it follows.
     */
    method MoveToIndex(delta: int, skipTransition: bool)
      requires Valid()
      modifies this`curVirtualIndex, this`curRealIndex, this`isTransitioning
      ensures Valid()
      ensures |items| == 0 ==>
        curVirtualIndex == old(curVirtualIndex) && curRealIndex == old(curRealIndex) &&
        isTransitioning == old(isTransitioning)
      ensures |items| > 0 ==> curVirtualIndex == old(curVirtualIndex) + delta
      ensures |items| > 0 && skipTransition ==>
        !isTransitioning && curRealIndex == VirtualToReal(|items|, curVirtualIndex)
      ensures |items| > 0 && !skipTransition ==>
        isTransitioning && curRealIndex == old(curRealIndex)
    {
      if |items| == 0 {
        return;
      }
      if skipTransition {
        isTransitioning := false;
        var newV := curVirtualIndex + delta;
        curRealIndex := VirtualToReal(|items|, newV);
        curVirtualIndex := newV;
        return;
      }
      isTransitioning := true;
      curVirtualIndex := curVirtualIndex + delta;
    }

    /** `handlePrev`: restart autoplay around an animated step back. */
    method HandlePrev()
      requires Valid()
      modifies this`curVirtualIndex, this`curRealIndex, this`isTransitioning, this`autoplayTimer
      ensures Valid()
      ensures |items| > 0 ==>
        curVirtualIndex == old(curVirtualIndex) - 1 && isTransitioning && curRealIndex == old(curRealIndex)
      ensures |items| == 0 ==>
        curVirtualIndex == old(curVirtualIndex) && curRealIndex == old(curRealIndex) &&
        isTransitioning == old(isTransitioning)
      ensures autoplayTimer == (autoplay && |items| > 1)
    {
      ClearAutoplay();
      MoveToIndex(-1, false);
      SetupAutoplay();
    }

    /** `handleNext`: restart autoplay around an animated step forward. */
    method HandleNext()
      requires Valid()
      modifies this`curVirtualIndex, this`curRealIndex, this`isTransitioning, this`autoplayTimer
      ensures Valid()
      ensures |items| > 0 ==>
        curVirtualIndex == old(curVirtualIndex) + 1 && isTransitioning && curRealIndex == old(curRealIndex)
      ensures |items| == 0 ==>
        curVirtualIndex == old(curVirtualIndex) && curRealIndex == old(curRealIndex) &&
        isTransitioning == old(isTransitioning)
      ensures autoplayTimer == (autoplay && |items| > 1)
    {
      ClearAutoplay();
      MoveToIndex(1, false);
      SetupAutoplay();
    }

    /**
     * `handleJumpTo`: animate straight to the canonical slot of `realIdx`.
     * Jumping to the item already at rest leaves the virtual index where it is.
     */
    method HandleJumpTo(realIdx: int)
      requires Valid()
      modifies this`curVirtualIndex, this`isTransitioning, this`autoplayTimer
      ensures Valid()
      ensures curVirtualIndex == RealToVirtual(|items|, realIdx) && isTransitioning
      ensures |items| > 0 ==> VirtualToReal(|items|, curVirtualIndex) == realIdx % |items|
      ensures old(Settled()) && realIdx == curRealIndex ==> curVirtualIndex == old(curVirtualIndex)
      ensures autoplayTimer == (autoplay && |items| > 1)
    {
      ClearAutoplay();
      var virtualIndex := RealToVirtual(|items|, realIdx);
      if |items| > 0 {
        RealVirtualRoundTrip(|items|, realIdx);
        if Settled() && realIdx == curRealIndex {
          VirtualRealRoundTrip(|items|, curVirtualIndex);
        }
      }
      isTransitioning := true;
      curVirtualIndex := virtualIndex;
      SetupAutoplay();
    }

    /**
     * `handleTransitionEnd`: snap a virtual index in the clones back a lap
     * without animation, otherwise record the real index it shows.
     */
    method HandleTransitionEnd()
      requires Valid()
      modifies this`curVirtualIndex, this`curRealIndex, this`isTransitioning
      ensures Valid()
      ensures |items| == 0 ==>
        curVirtualIndex == old(curVirtualIndex) && curRealIndex == old(curRealIndex) &&
        isTransitioning == old(isTransitioning)
      ensures |items| > 0 ==>
        curVirtualIndex == Settle(|items|, old(curVirtualIndex)) &&
        curRealIndex == VirtualToReal(|items|, curVirtualIndex)
      ensures |items| > 0 && CloneOffset <= old(curVirtualIndex) < CloneOffset + |items| ==>
        isTransitioning == old(isTransitioning)
      ensures |items| > 0 && !(CloneOffset <= old(curVirtualIndex) < CloneOffset + |items|) ==>
        !isTransitioning
      ensures |items| > 0 && CloneOffset - 1 <= old(curVirtualIndex) <= CloneOffset + |items| ==>
        Settled() && curRealIndex == VirtualToReal(|items|, old(curVirtualIndex))
    {
      var len := |items|;
      if len == 0 {
        return;
      }
      var virtualIndex := curVirtualIndex;
      if CloneOffset - 1 <= virtualIndex <= CloneOffset + len {
        SettleLandsCanonical(len, virtualIndex);
      }
      if virtualIndex < CloneOffset {
        var newV := virtualIndex + len;
        assert newV == Settle(len, virtualIndex);
        MoveToIndex(newV - virtualIndex, true);
        return;
      }
      if virtualIndex >= CloneOffset + len {
        var newV := virtualIndex - len;
        assert newV == Settle(len, virtualIndex);
        MoveToIndex(newV - virtualIndex, true);
        return;
      }
      var r := VirtualToReal(len, virtualIndex);
      assert r % len == r by {
        DivModUnique(r, len, 0, r);
      }
      curRealIndex := r % len;
    }

    /** `setupAutoplay`: (re)start the timer, unless autoplay is off or there is at most one item. */
    method SetupAutoplay()
      modifies this`autoplayTimer
      ensures autoplayTimer == if autoplay && |items| > 1 then true else old(autoplayTimer)
    {
      if !autoplay || |items| <= 1 {
        return;
      }
      ClearAutoplay();
      autoplayTimer := true;
    }

    /** `clearAutoplay`: stop the timer if there is one. */
    method ClearAutoplay()
      modifies this`autoplayTimer
      ensures !autoplayTimer
    {
      if !autoplayTimer {
        return;
      }
      autoplayTimer := false;
    }

    /** One autoplay interval: an animated step forward. */
    method AutoplayTick()
      requires Valid()
      modifies this`curVirtualIndex, this`curRealIndex, this`isTransitioning
      ensures Valid()
      ensures |items| > 0 ==>
        curVirtualIndex == old(curVirtualIndex) + 1 && isTransitioning && curRealIndex == old(curRealIndex)
      ensures |items| == 0 ==>
        curVirtualIndex == old(curVirtualIndex) && curRealIndex == old(curRealIndex) &&
        isTransitioning == old(isTransitioning)
    {
      MoveToIndex(1, false);
    }

    /**
     * `onClick` (horizontal variant): a click on slot `index` steps once
     * toward it, and the click callback receives the item the slot shows.
     */
    method OnClick(index: int) returns (clicked: int)
      requires Valid()
      modifies this`curVirtualIndex, this`curRealIndex, this`isTransitioning, this`autoplayTimer
      ensures Valid()
      ensures clicked == VirtualToReal(|items|, index)
      ensures |items| > 0 && index > old(curVirtualIndex) ==>
        curVirtualIndex == old(curVirtualIndex) + 1 && isTransitioning
      ensures |items| > 0 && index < old(curVirtualIndex) ==>
        curVirtualIndex == old(curVirtualIndex) - 1 && isTransitioning
      ensures index == old(curVirtualIndex) ==>
        curVirtualIndex == old(curVirtualIndex) && isTransitioning == old(isTransitioning) &&
        autoplayTimer == old(autoplayTimer)
      ensures |items| == 0 ==>
        curVirtualIndex == old(curVirtualIndex) && isTransitioning == old(isTransitioning)
      ensures index != old(curVirtualIndex) ==> autoplayTimer == (autoplay && |items| > 1)
      ensures curRealIndex == old(curRealIndex)
    {
      var realIndex := VirtualToReal(|items|, index);
      var current := curVirtualIndex;
      if index > current {
        ClearAutoplay();
        MoveToIndex(1, false);
        SetupAutoplay();
      }
      if index < current {
        ClearAutoplay();
        MoveToIndex(-1, false);
        SetupAutoplay();
      }
      clicked := realIndex;
    }
  }
}

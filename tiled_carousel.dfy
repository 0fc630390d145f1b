/**
 * The tiled carousel: the same padded buffer, but every move is normalised
 * to a real index first, so the active slot is always canonical once the
 * carousel has been started. Prev and next are real-index steps.
 */
module TiledCarousel {

  import opened PaddedBuffer
  import opened TrackGeometry

  class Carousel<T> {
    const items: seq<T>
    const autoplay: bool
    const itemWidth: real
    const gap: real

    var activeIndex: int
    var currentRealIndex: int
    var isTransitioning: bool
    var autoplayTimerId: bool

    /** The real index names an item. */
    ghost predicate Valid()
      reads this
    {
      |items| > 0 ==> 0 <= currentRealIndex < |items|
    }

    /**
     * `getTrackStyle`'s translate for a measured viewport: the centred slot
     * (CentredSlot of the active slot) sits at the centre of the viewport.
     */
    function TrackOffset(viewport: real): (t: real)
      reads this
      ensures var itemPx := viewport * itemWidth / 100.0;
              t + SlotStart(itemPx, gap, CentredSlot(|items|, activeIndex)) + itemPx / 2.0 == viewport / 2.0
    {
      TiledOffset(viewport, itemWidth, gap, CentredSlot(|items|, activeIndex))
    }

    /**
     * Once started (the active slot canonical), the slot at the centre of
     * the viewport exists in `displayList` and shows the item of the active
     * slot, one item included.
     */
    lemma ActiveSlotCentred()
      requires |items| > 0 && CloneOffset <= activeIndex < CloneOffset + |items|
      ensures 0 <= CentredSlot(|items|, activeIndex) < |VirtualItems(items)|
      ensures VirtualItems(items)[CentredSlot(|items|, activeIndex)] == items[activeIndex - CloneOffset]
    {
    }

    /** Mount state: active slot 0, real index 0, no animation, no timer. */
    constructor (items: seq<T>, autoplay: bool, itemWidth: real, gap: real)
      ensures Valid()
      ensures this.items == items && this.autoplay == autoplay
      ensures this.itemWidth == itemWidth && this.gap == gap
      ensures activeIndex == 0 && currentRealIndex == 0 && !isTransitioning && !autoplayTimerId
    {
      this.items, this.autoplay, this.itemWidth, this.gap := items, autoplay, itemWidth, gap;
      activeIndex, currentRealIndex := 0, 0;
      isTransitioning, autoplayTimerId := false, false;
    }

    /** The mount timeout: jump to `initialIndex` without animation, then set up autoplay. */
    method Start(initialIndex: int)
      requires Valid()
      modifies this`activeIndex, this`currentRealIndex, this`isTransitioning, this`autoplayTimerId
      ensures Valid()
      ensures |items| > 0 ==>
        activeIndex == RealToVirtual(|items|, initialIndex) &&
        currentRealIndex == initialIndex % |items| && !isTransitioning
      ensures |items| == 0 ==>
        activeIndex == old(activeIndex) && currentRealIndex == old(currentRealIndex) &&
        isTransitioning == old(isTransitioning)
      ensures autoplayTimerId == if autoplay && |items| > 1 then true else old(autoplayTimerId)
    {
      MoveToIndex(initialIndex, true);
      SetupAutoplay();
    }

    /**
     * `moveToIndex`: the target is normalised into a real index and the
     * active slot is its canonical slot. Only a move without animation
     * updates the real index.
     */
    method MoveToIndex(targetIndex: int, skipTransition: bool)
      requires Valid()
      modifies this`activeIndex, this`currentRealIndex, this`isTransitioning
      ensures Valid()
      ensures |items| == 0 ==>
        activeIndex == old(activeIndex) && currentRealIndex == old(currentRealIndex) &&
        isTransitioning == old(isTransitioning)
      ensures |items| > 0 ==>
        activeIndex == RealToVirtual(|items|, targetIndex) &&
        CloneOffset <= activeIndex < CloneOffset + |items|
      ensures |items| > 0 && skipTransition ==>
        !isTransitioning && currentRealIndex == targetIndex % |items| &&
        currentRealIndex == activeIndex - CloneOffset
      ensures |items| > 0 && !skipTransition ==>
        isTransitioning && currentRealIndex == old(currentRealIndex)
    {
      var length := |items|;
      if length == 0 {
        return;
      }
      var normalizedIndex := Normalize(targetIndex, length);
      NormalizeIsResidue(targetIndex, length);
      var virtualIndex := normalizedIndex + CloneOffset;
      if skipTransition {
        isTransitioning := false;
        currentRealIndex := normalizedIndex;
        activeIndex := virtualIndex;
      } else {
        isTransitioning := true;
        activeIndex := virtualIndex;
      }
    }

    /** `handlePrev`: animate to the real index before the current one. */
    method HandlePrev()
      requires Valid()
      modifies this`activeIndex, this`currentRealIndex, this`isTransitioning, this`autoplayTimerId
      ensures Valid()
      ensures |items| > 0 ==>
        activeIndex == RealToVirtual(|items|, old(currentRealIndex) - 1) && isTransitioning &&
        activeIndex - CloneOffset ==
          (if old(currentRealIndex) == 0 then |items| - 1 else old(currentRealIndex) - 1)
      ensures |items| == 0 ==> activeIndex == old(activeIndex) && isTransitioning == old(isTransitioning)
      ensures currentRealIndex == old(currentRealIndex)
      ensures autoplayTimerId == (autoplay && |items| > 1)
    {
      ClearAutoplay();
      if |items| > 0 {
        NormalizedStep(|items|, currentRealIndex, -1);
      }
      MoveToIndex(currentRealIndex - 1, false);
      SetupAutoplay();
    }

    /** `handleNext`: animate to the real index after the current one. */
    method HandleNext()
      requires Valid()
      modifies this`activeIndex, this`currentRealIndex, this`isTransitioning, this`autoplayTimerId
      ensures Valid()
      ensures |items| > 0 ==>
        activeIndex == RealToVirtual(|items|, old(currentRealIndex) + 1) && isTransitioning &&
        activeIndex - CloneOffset ==
          (if old(currentRealIndex) == |items| - 1 then 0 else old(currentRealIndex) + 1)
      ensures |items| == 0 ==> activeIndex == old(activeIndex) && isTransitioning == old(isTransitioning)
      ensures currentRealIndex == old(currentRealIndex)
      ensures autoplayTimerId == (autoplay && |items| > 1)
    {
      ClearAutoplay();
      if |items| > 0 {
        NormalizedStep(|items|, currentRealIndex, 1);
      }
      MoveToIndex(currentRealIndex + 1, false);
      SetupAutoplay();
    }

    /** `handleJumpTo`: animate to the canonical slot of the normalised target. */
    method HandleJumpTo(targetIndex: int)
      requires Valid()
      modifies this`activeIndex, this`currentRealIndex, this`isTransitioning, this`autoplayTimerId
      ensures Valid()
      ensures |items| > 0 ==>
        activeIndex == RealToVirtual(|items|, targetIndex) && isTransitioning &&
        activeIndex - CloneOffset == targetIndex % |items|
      ensures |items| == 0 ==> activeIndex == old(activeIndex) && isTransitioning == old(isTransitioning)
      ensures currentRealIndex == old(currentRealIndex)
      ensures autoplayTimerId == (autoplay && |items| > 1)
    {
      ClearAutoplay();
      if |items| > 0 {
        NormalizeIsResidue(targetIndex, |items|);
      }
      MoveToIndex(targetIndex, false);
      SetupAutoplay();
    }

    /**
     * `handleTransitionEnd`: a canonical active slot sets the real index to
     * the item it shows. Outside the canonical range the slot plus or minus
     * one lap is passed to MoveToIndex as a real target, as the source does;
     * since every move lands on a canonical slot, only the mount value 0 is
     * ever outside it.
     */
    method HandleTransitionEnd()
      requires Valid()
      modifies this`activeIndex, this`currentRealIndex, this`isTransitioning
      ensures Valid()
      ensures CloneOffset <= old(activeIndex) < CloneOffset + |items| ==>
        activeIndex == old(activeIndex) && isTransitioning == old(isTransitioning) &&
        currentRealIndex == activeIndex - CloneOffset && 0 <= currentRealIndex < |items|
      ensures old(activeIndex) < CloneOffset && |items| > 0 ==>
        activeIndex == RealToVirtual(|items|, old(activeIndex) + |items|) && !isTransitioning &&
        currentRealIndex == activeIndex - CloneOffset
      ensures old(activeIndex) >= CloneOffset + |items| && |items| > 0 ==>
        activeIndex == RealToVirtual(|items|, old(activeIndex) - |items|) && !isTransitioning &&
        currentRealIndex == activeIndex - CloneOffset
      ensures |items| == 0 ==>
        activeIndex == old(activeIndex) && currentRealIndex == old(currentRealIndex) &&
        isTransitioning == old(isTransitioning)
    {
      var length := |items|;
      var virtualIndex := activeIndex;
      if virtualIndex < CloneOffset {
        MoveToIndex(virtualIndex + length, true);
      } else if virtualIndex >= CloneOffset + length {
        MoveToIndex(virtualIndex - length, true);
      } else {
        currentRealIndex := virtualIndex - CloneOffset;
      }
    }

    /** `setupAutoplay`: (re)start the timer, unless autoplay is off or there is at most one item. */
    method SetupAutoplay()
      modifies this`autoplayTimerId
      ensures autoplayTimerId == if autoplay && |items| > 1 then true else old(autoplayTimerId)
    {
      if !autoplay || |items| <= 1 {
        return;
      }
      ClearAutoplay();
      autoplayTimerId := true;
    }

    /** `clearAutoplay`: stop the timer if there is one. */
    method ClearAutoplay()
      modifies this`autoplayTimerId
      ensures !autoplayTimerId
    {
      if autoplayTimerId {
        autoplayTimerId := false;
      }
    }

    /** One autoplay interval: an animated move to the next real index. */
    method AutoplayTick()
      requires Valid()
      modifies this`activeIndex, this`currentRealIndex, this`isTransitioning
      ensures Valid()
      ensures |items| > 0 ==>
        activeIndex == RealToVirtual(|items|, old(currentRealIndex) + 1) && isTransitioning
      ensures |items| == 0 ==> activeIndex == old(activeIndex) && isTransitioning == old(isTransitioning)
      ensures currentRealIndex == old(currentRealIndex)
    {
      MoveToIndex(currentRealIndex + 1, false);
    }
  }
}

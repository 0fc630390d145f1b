# Infinite-repetition engine of the nofly carousels and scroll lists

The nofly components loop over a finite list of items without end. This project models the index and offset arithmetic behind that looping, and the state each component keeps, and proves what the arithmetic guarantees.

- **Paged carousels.** These are the showcase carousel (vertical and horizontal) and the tiled carousel.
  - The items are drawn in a padded buffer: the last two items, all items, then the first two.
  - A virtual index names a buffer slot and a real index names an item. `realToVirtual` and `virtualToReal` convert between them with the JavaScript idiom `((x % n) + n) % n`.
  - Prev, next, jump, autoplay and click move the virtual index.
  - When a transition ends in the clones, the index snaps back a lap without animation.
  - The track is translated so that the active slot sits centred.
- **Continuous scroll lists.** These are the horizontal, vertical and seamless (row) lists.
  - The children are cloned `repeatTimes = max(1, ceil(viewport / total))` times, and that first cycle is appended once more.
  - A timer advances the scroll offset.
  - After one cycle, the offset jumps back to 0 (horizontal and vertical) or moves back one cycle (seamless).
- **Notice ticker.** It clamps the initial index, advances `(i + 1) % n` on every interval, and checks `goTo` against the bounds. Play and pause switch its timer flag.

Module layout:
- `JsArith` holds JavaScript's truncating `%` and facts about Euclidean division.
- `PaddedBuffer` holds the index maps, the buffer and the snap-back.
- `TrackGeometry` holds the translates as real numbers.
- `ShowcaseCarousel`, `TiledCarousel` and `NoticeCarousel` are the paged components.
- `ScrollCycle` holds the repetition, the repeat count and the two tick wraps.
- `LoopScroll` covers the horizontal and vertical lists, and `SeamlessScroll` the row list.

The source changes state through React handlers. Each handler becomes one method of a class whose fields are the component's state and refs. A running timer is a boolean field. One interval of a timer is an explicit `Tick` or `AutoplayTick` method.

Both showcase files become one class. They differ in the axis, in the default `gap` (0 vertical, 15 horizontal; a constructor parameter here) and in `onClick`, which only the horizontal file has. The vertical file also watches the viewport with a `ResizeObserver` (src/components/showcase-carousel/vertical.tsx:232-242), a second trigger of what OnResize does whenever the viewport height changes. Both `infinite-scroll-list` horizontal and vertical files become one class with an `Axis` constant, because they differ only in mouse leave.

Three facts about the code shape the model:
- The scroll box ends with `2 * repeatTimes` copies of the children, because the first cycle is appended once, whole (src/components/infinite-scroll-list/horizontal.tsx:99-105).
- The horizontal and vertical lists reset the offset to 0 after a cycle (src/components/infinite-scroll-list/horizontal.tsx:49-53). Only the seamless list subtracts a cycle (src/components/infinite-scroll-list/index.tsx:86-90).
- The showcase carousel stores `initialIndex` as the real index without reducing it (src/components/showcase-carousel/vertical.tsx:120-123). See Findings.

## Model

| member | source | states |
|---|---|---|
| JsArith.JsRem | src/components/showcase-carousel/vertical.tsx:110 | JavaScript `%`: the remainder has the dividend's sign, its magnitude is below the divisor, and dividend = truncated quotient × divisor + remainder |
| PaddedBuffer.Normalize | src/components/showcase-carousel/vertical.tsx:110 | `((x % n) + n) % n` with JavaScript's `%` always lies in `[0, n)` |
| PaddedBuffer.NormalizeIsResidue | src/components/showcase-carousel/vertical.tsx:110 | the normalisation equals the mathematical residue `x mod n` for every integer, negative ones included |
| PaddedBuffer.RealToVirtual | src/components/showcase-carousel/vertical.tsx:107-112 | the virtual slot is 2 when there are no items and lies in `[2, 2+n)` otherwise |
| PaddedBuffer.VirtualToReal | src/components/showcase-carousel/vertical.tsx:114-118 | the real index is 0 when there are no items and lies in `[0, n)` otherwise |
| PaddedBuffer.VirtualToRealCanonical | src/components/showcase-carousel/vertical.tsx:114-118 | on the canonical range a slot `v` stands for item `v - 2` |
| PaddedBuffer.RealVirtualRoundTrip | src/components/showcase-carousel/horizontal.tsx:103-114 | real → virtual → real gives `r mod n`, so it is `r` itself for an index in range |
| PaddedBuffer.VirtualRealRoundTrip | src/components/showcase-carousel/horizontal.tsx:103-114 | virtual → real → virtual is the identity on `[2, 2+n)` |
| PaddedBuffer.ShiftKeepsReal | src/components/showcase-carousel/vertical.tsx:114-118 | moving a virtual index by any number of whole laps keeps the item it shows |
| PaddedBuffer.Settle | src/components/showcase-carousel/vertical.tsx:181-196 | the snap-back target moves a slot by at most one lap, and leaves a canonical slot where it is |
| PaddedBuffer.SettleLandsCanonical | src/components/showcase-carousel/vertical.tsx:181-199 | a virtual index at most one step outside the canonical range snaps back into `[2, 2+n)`, onto a slot that shows the same item |
| PaddedBuffer.StepThenSettle | src/components/showcase-carousel/vertical.tsx:161-199 | a ±1 step from rest followed by the snap-back lands at rest on item `(r ± 1) mod n`: next from the last item shows item 0, and prev from item 0 shows the last item |
| PaddedBuffer.NormalizedStep | src/components/tiled-carousel/horizontal.tsx:59-82 | the tiled carousel's next from item `n-1` selects item 0, its prev from item 0 selects item `n-1`, and otherwise it selects `r ± 1` |
| PaddedBuffer.VirtualItems | src/components/showcase-carousel/vertical.tsx:52-56 | the source's buffer: the items themselves for at most one item, otherwise `n + 4` slots |
| PaddedBuffer.CloneShowsItem | src/components/showcase-carousel/vertical.tsx:55 | for two or more items, every slot of the source's buffer, clones included, shows `items[virtualToReal(v)]` |
| PaddedBuffer.SingleItemActiveSlotMissing | src/components/showcase-carousel/vertical.tsx:54 | with one item the source's buffer has a single slot, yet the virtual index is 2, past its end |
| PaddedBuffer.CentredSlotShowsItem | src/components/showcase-carousel/vertical.tsx:52-56 | for every non-empty list, one item included, the centred slot of `realToVirtual(r)` exists in the source's buffer and shows `items[r mod n]` |
| TrackGeometry.MeasureLayout | src/components/showcase-carousel/vertical.tsx:125-141 | a non-zero percentage extent comes from the viewport; otherwise (a CSS string, or a percentage giving 0) the extent is exactly the first child's; the centring offset is half the item less half the viewport |
| TrackGeometry.ShowcaseTranslate | src/components/showcase-carousel/vertical.tsx:81-97 | the translate is 0 until both the viewport and the item are measured |
| TrackGeometry.ShowcaseCentersActive | src/components/showcase-carousel/horizontal.tsx:80-96 | once measured, the translate puts the centre of the active slot at the centre of the viewport |
| TrackGeometry.SlotZeroHiddenWhenCenteringTwo | src/components/showcase-carousel/vertical.tsx:91 | when three items and four gaps exceed the viewport, centring slot 2 leaves slot 0 wholly outside the viewport |
| TrackGeometry.SingleItemInsideViewport | src/components/showcase-carousel/vertical.tsx:81-97 | a single item centred in slot 0 lies wholly inside a viewport at least as large as the item |
| TrackGeometry.TiledOffset | src/components/tiled-carousel/horizontal.tsx:40-53 | the tiled offset puts the centre of the active slot at the centre of the viewport |
| ShowcaseCarousel.InitLayoutAsWritten | src/components/showcase-carousel/vertical.tsx:120-123 | the source's initial real index is the raw `initialIndex`, while its virtual index is canonical |
| ShowcaseCarousel.RawInitialIndexOutOfRange | src/components/showcase-carousel/vertical.tsx:120-123 | with 5 items and `initialIndex` 7 the source shows item 2 but records real index 7 |
| ShowcaseCarousel.InitLayout | src/components/showcase-carousel/horizontal.tsx:116-119 | the initial real index is the item the initial slot shows: in range, equal to `initialIndex mod n`, and `initialIndex` itself when that is in range |
| ShowcaseCarousel.Carousel.constructor | src/components/showcase-carousel/vertical.tsx:41-49 | the mount state: no items, real index 0, virtual index 2, no animation, no timer |
| ShowcaseCarousel.Carousel.Translate | src/components/showcase-carousel/vertical.tsx:81-97 | the translate is 0 until both the viewport and the item are measured; then the centred slot sits at the centre of the viewport |
| ShowcaseCarousel.Carousel.SettledCentresCurrent | src/components/showcase-carousel/vertical.tsx:52-56 | at rest the slot at the centre of the viewport exists in `virtualItems` and shows `items[curRealIndex]`, one item included |
| ShowcaseCarousel.Carousel.Load | src/components/showcase-carousel/vertical.tsx:220-228 | new children clear autoplay, are initialised at rest on the initial item, and restart autoplay when there is more than one item |
| ShowcaseCarousel.Carousel.MeasureLayoutCache | src/components/showcase-carousel/vertical.tsx:125-141 | the layout cache becomes the measured geometry |
| ShowcaseCarousel.Carousel.OnResize | src/components/showcase-carousel/vertical.tsx:215-218 | a resize re-measures and stops the animation, and the indices do not move |
| ShowcaseCarousel.Carousel.MoveToIndex | src/components/showcase-carousel/vertical.tsx:143-159 | it does nothing without items; otherwise it adds the delta, an animated move keeps the real index, and a skipping move sets it to `virtualToReal` of the new slot (horizontal.tsx:140-156 is identical) |
| ShowcaseCarousel.Carousel.HandlePrev | src/components/showcase-carousel/vertical.tsx:161-165 | an animated step of −1, and autoplay re-armed |
| ShowcaseCarousel.Carousel.HandleNext | src/components/showcase-carousel/vertical.tsx:167-171 | an animated step of +1, and autoplay re-armed |
| ShowcaseCarousel.Carousel.HandleJumpTo | src/components/showcase-carousel/vertical.tsx:173-179 | it animates to `realToVirtual(r)`, which shows item `r mod n`; jumping to the item already at rest does not move |
| ShowcaseCarousel.Carousel.HandleTransitionEnd | src/components/showcase-carousel/vertical.tsx:181-199 | a slot in the leading clones moves forward a lap, and one in the trailing clones moves back a lap, both without animation; a canonical slot only sets the real index; from one step outside, it ends at rest on the same item (horizontal.tsx:178-196 is identical) |
| ShowcaseCarousel.Carousel.SetupAutoplay | src/components/showcase-carousel/vertical.tsx:201-207 | the timer runs afterwards exactly when autoplay is on and there are two or more items; otherwise nothing changes |
| ShowcaseCarousel.Carousel.ClearAutoplay | src/components/showcase-carousel/vertical.tsx:209-213 | no timer runs afterwards, and clearing an absent timer changes nothing |
| ShowcaseCarousel.Carousel.AutoplayTick | src/components/showcase-carousel/vertical.tsx:204-206 | one interval is an animated step of +1 |
| ShowcaseCarousel.Carousel.OnClick | src/components/showcase-carousel/horizontal.tsx:217-235 | a click beyond the current slot steps +1 exactly once, one before it steps −1 exactly once, a click on it does not move, and the callback receives `virtualToReal(index)` |
| TiledCarousel.Carousel.constructor | src/components/tiled-carousel/horizontal.tsx:28-31 | the mount state: active slot 0, real index 0, no animation, no timer |
| TiledCarousel.Carousel.TrackOffset | src/components/tiled-carousel/horizontal.tsx:40-53 | the track offset puts the centre of the centred slot at the centre of the viewport |
| TiledCarousel.Carousel.ActiveSlotCentred | src/components/tiled-carousel/horizontal.tsx:36 | with a canonical active slot, the centred slot exists in `displayList` and shows item `activeIndex - 2`, one item included |
| TiledCarousel.Carousel.Start | src/components/tiled-carousel/horizontal.tsx:118-125 | the delayed mount jump lands at rest on item `initialIndex mod n`, then autoplay is armed |
| TiledCarousel.Carousel.MoveToIndex | src/components/tiled-carousel/horizontal.tsx:55-70 | it does nothing without items; otherwise the active slot is `realToVirtual(target)` in `[2, 2+n)`; skipping sets the real index to `target mod n`, and animating keeps it |
| TiledCarousel.Carousel.HandlePrev | src/components/tiled-carousel/horizontal.tsx:72-76 | it animates to the item before the current one, wrapping from 0 to `n-1` |
| TiledCarousel.Carousel.HandleNext | src/components/tiled-carousel/horizontal.tsx:78-82 | it animates to the item after the current one, wrapping from `n-1` to 0 |
| TiledCarousel.Carousel.HandleJumpTo | src/components/tiled-carousel/horizontal.tsx:84-88 | it animates to the canonical slot of `target mod n` |
| TiledCarousel.Carousel.HandleTransitionEnd | src/components/tiled-carousel/horizontal.tsx:90-101 | on a canonical slot, the real index becomes `activeIndex - 2`, in `[0, n)`; outside it, the slot ± n is passed to `moveToIndex` as a real target and the carousel lands at rest on its normalisation |
| TiledCarousel.Carousel.SetupAutoplay | src/components/tiled-carousel/horizontal.tsx:103-109 | the timer runs afterwards exactly when autoplay is on and there are two or more items; otherwise nothing changes |
| TiledCarousel.Carousel.ClearAutoplay | src/components/tiled-carousel/horizontal.tsx:111-116 | no timer runs afterwards |
| TiledCarousel.Carousel.AutoplayTick | src/components/tiled-carousel/horizontal.tsx:106-108 | one interval animates to the item after the current one |
| NoticeCarousel.ClampIndex | src/components/notice-carousel/index.tsx:59-62 | the initial index lies in `[0, n)`: kept when in range, 0 below, `n-1` above, and 0 when there is no data |
| NoticeCarousel.NextIndex | src/components/notice-carousel/index.tsx:68 | from a valid index, next is `i + 1`, or 0 after the last item; from -1 on it lies in `[0, n)` |
| NoticeCarousel.NextIndexResidue | src/components/notice-carousel/index.tsx:68 | from any index from -1 on, the step is the residue `(i + 1) mod n` |
| NoticeCarousel.NextStepsResidue | src/components/notice-carousel/index.tsx:64-72 | `k` nexts from a valid index reach `(i + k) mod n`, so `n` of them return to the start |
| NoticeCarousel.Notice.ExactlyOneVisible | src/components/notice-carousel/index.tsx:134-147 | in a valid state the set of items rendered visible is exactly the current item, or empty when there is no data |
| NoticeCarousel.Notice.constructor | src/components/notice-carousel/index.tsx:41-42 | the mount state: index 0, no timer, nothing reported |
| NoticeCarousel.Notice.InitializeIndex | src/components/notice-carousel/index.tsx:59-62 | the index becomes the clamped initial index |
| NoticeCarousel.Notice.InitNotice | src/components/notice-carousel/index.tsx:46-57 | the index is clamped, and the timer starts only when there are two or more items |
| NoticeCarousel.Notice.Next | src/components/notice-carousel/index.tsx:64-72 | it does nothing without data; otherwise the index advances cyclically and `onChange` receives the new index; the index stays in range |
| NoticeCarousel.Notice.Play | src/components/notice-carousel/index.tsx:74-77 | the timer runs afterwards if it ran before or there are two or more items, so a second play changes nothing |
| NoticeCarousel.Notice.Pause | src/components/notice-carousel/index.tsx:79-84 | the timer stops only when `stopOnHover` is set; the index is untouched |
| NoticeCarousel.Notice.GoTo | src/components/notice-carousel/index.tsx:86-91 | an index in `[0, n)` is shown and reported; any other index changes nothing and reports nothing |
| ScrollCycle.SumExtentsAppend | src/components/infinite-scroll-list/horizontal.tsx:39-41 | the total extent of two runs of children is the sum of their totals |
| ScrollCycle.Repeat | src/components/infinite-scroll-list/horizontal.tsx:92-97 | `k` copies of the children hold `k × n` children |
| ScrollCycle.RepeatAt | src/components/infinite-scroll-list/horizontal.tsx:92-97 | child `i` of the repetition is a clone of original `i mod n` |
| ScrollCycle.RepeatAdd | src/components/infinite-scroll-list/horizontal.tsx:99-105 | appending the first cycle to itself gives `2 × repeatTimes` copies |
| ScrollCycle.SumExtentsRepeat | src/components/infinite-scroll-list/horizontal.tsx:107 | the cycle extent of `k` copies is `k` times the originals' total |
| ScrollCycle.SumExtents | src/components/infinite-scroll-list/horizontal.tsx:39-41 | the total is at least every child's extent, and it is 0 exactly when every child has extent 0 |
| ScrollCycle.SeamlessShift | src/components/infinite-scroll-list/index.tsx:59-62 | the child one cycle further on shows the same item, so moving back a cycle shows the same content |
| ScrollCycle.CeilDiv | src/components/infinite-scroll-list/horizontal.tsx:89 | `ceil(a / b)` is the least `q` with `q × b ≥ a` |
| ScrollCycle.RepeatTimes | src/components/infinite-scroll-list/horizontal.tsx:89 | for children of positive total extent the repeat count is at least 1 and is the least count whose cycle covers the viewport |
| ScrollCycle.RepeatTimesAsWritten | src/components/infinite-scroll-list/horizontal.tsx:89 | the source's count is RepeatTimes when the total is positive, `Infinity` for a positive viewport over a zero total, and `NaN` for `0 / 0` |
| ScrollCycle.CloneLoopRuns | src/components/infinite-scroll-list/horizontal.tsx:92 | the loop guard `i < repeatTimes - 1` always holds against `Infinity`, never against `NaN`, and never for a count of at most 1 |
| ScrollCycle.ZeroExtentCloneLoopNeverEnds | src/components/infinite-scroll-list/horizontal.tsx:89-92 | with a zero total under a positive viewport, the clone loop's guard holds for every counter value |
| ScrollCycle.RepeatTimesAgreesWhereFinite | src/components/infinite-scroll-list/vertical.tsx:85-88 | wherever the children have extent, the source's clone loop runs exactly as often as with RepeatTimes |
| ScrollCycle.ResetTick | src/components/infinite-scroll-list/horizontal.tsx:49-53 | a tick gives `offset + step` or 0; it resets to 0 only once a measured cycle is reached, so with no cycle it keeps adding the step; it keeps a non-negative offset inside `[0, cycle)` |
| ScrollCycle.SubtractTick | src/components/infinite-scroll-list/index.tsx:86-90 | a tick gives `offset + speed`, possibly less one cycle; from inside the cycle with `speed ≤ cycle` it stays inside the cycle |
| ScrollCycle.SubtractTickResidue | src/components/infinite-scroll-list/index.tsx:86-90 | from inside the cycle with `speed ≤ cycle` a tick is `(offset + speed) mod cycle` |
| ScrollCycle.ResetAgreesWithSubtract | src/components/infinite-scroll-list/vertical.tsx:46-50 | resetting and subtracting agree exactly when the tick does not overshoot the cycle |
| ScrollCycle.SubtractTicksResidue | src/components/infinite-scroll-list/index.tsx:86-90 | `k` subtracting ticks from 0 reach `(k × speed) mod cycle` |
| ScrollCycle.ResetTicksMultiple | src/components/infinite-scroll-list/horizontal.tsx:49-53 | when the step divides the cycle, every offset reached is a multiple of the step below the cycle, and resetting ticks agree with subtracting ones |
| ScrollCycle.ResetTicksResidue | src/components/infinite-scroll-list/horizontal.tsx:49-53 | when the step divides the cycle, `k` resetting ticks from 0 reach `(k × step) mod cycle` |
| LoopScroll.Scroller.constructor | src/components/infinite-scroll-list/horizontal.tsx:26-29 | the mount state: the rendered children, offset 0, no cycle, no timer |
| LoopScroll.Scroller.InitScroll | src/components/infinite-scroll-list/horizontal.tsx:68-110 | no children, children of total extent 0, or children that fit with `fill` off, change nothing; otherwise the box is the children repeated `2 × repeatTimes` times, the cycle is `repeatTimes × total` and covers the viewport, and the timer runs (vertical.tsx:65-101 is identical) |
| LoopScroll.Scroller.CloneRepeats | src/components/infinite-scroll-list/horizontal.tsx:92-97 | the clone loop leaves `repeatTimes` copies of the originals in the box |
| LoopScroll.Scroller.AppendItems | src/components/infinite-scroll-list/horizontal.tsx:102-105 | the append loop adds a clone of each first-cycle child in order |
| LoopScroll.Scroller.Tick | src/components/infinite-scroll-list/horizontal.tsx:45-54 | one interval is ResetTick, and with a cycle the offset ends inside it (vertical.tsx:42-51 is identical) |
| LoopScroll.Scroller.StartScroll | src/components/infinite-scroll-list/horizontal.tsx:43-55 | the timer runs afterwards, and no second timer is created |
| LoopScroll.Scroller.StopScroll | src/components/infinite-scroll-list/horizontal.tsx:57-62 | no timer runs afterwards, and the offset is untouched |
| LoopScroll.Scroller.RestartScroll | src/components/infinite-scroll-list/horizontal.tsx:119-123 | changing the step or interval leaves one running timer |
| LoopScroll.Scroller.MouseEnter | src/components/infinite-scroll-list/horizontal.tsx:64 | hovering stops the timer only when `stopOnHover` is set |
| LoopScroll.Scroller.MouseLeave | src/components/infinite-scroll-list/vertical.tsx:61 | leaving restarts the timer when `stopOnHover` is set, and always in the vertical list |
| SeamlessScroll.SingleCycleCovers | src/components/infinite-scroll-list/index.tsx:53-59 | `singleCycleCount` is at least `visibleRows` and at least the number of rows |
| SeamlessScroll.CycleCoversWrap | src/components/infinite-scroll-list/index.tsx:64-67 | the cycle height is at least the wrapper height |
| SeamlessScroll.Seamless.constructor | src/components/infinite-scroll-list/index.tsx:22-26 | the mount state: the rendered rows, offset 0, nothing measured, no timer |
| SeamlessScroll.Seamless.InitScroll | src/components/infinite-scroll-list/index.tsx:29-70 | without rows nothing changes; with `fill` off and few rows, only the row and wrapper heights are set; otherwise the box is the rows repeated `2 × repeatTimes` times, the cycle is `rowHeight × singleCycleCount` and covers the wrapper, and the timer runs |
| SeamlessScroll.Seamless.CloneRepeats | src/components/infinite-scroll-list/index.tsx:55-57 | the clone loop leaves `repeatTimes` copies of the rows in the box |
| SeamlessScroll.Seamless.AppendRows | src/components/infinite-scroll-list/index.tsx:60-62 | the append loop adds a clone of each first-cycle row in order |
| SeamlessScroll.Seamless.Tick | src/components/infinite-scroll-list/index.tsx:86-90 | one interval is SubtractTick; from inside the cycle with `speed ≤ cycle` the offset stays inside it and advances by `speed mod cycle` |
| SeamlessScroll.Seamless.StartScroll | src/components/infinite-scroll-list/index.tsx:79-92 | the timer runs afterwards, and no second timer is created |
| SeamlessScroll.Seamless.StopScroll | src/components/infinite-scroll-list/index.tsx:94-99 | no timer runs afterwards |
| SeamlessScroll.Seamless.MouseEnter | src/components/infinite-scroll-list/index.tsx:101-103 | hovering stops the timer only when `stopOnHover` is set |
| SeamlessScroll.Seamless.MouseLeave | src/components/infinite-scroll-list/index.tsx:105-107 | leaving restarts the timer only when `stopOnHover` is set |

## Left out

- DOM measurement is not modelled. Bounding rectangles, computed margins, `clientWidth`/`clientHeight` and `cloneNode`/`appendChild` are left out. Measured extents are method parameters or the `extent` of a child. Children are a sequence, and a clone is the same value as its original.
- Scroll-list extents and offsets are whole pixels (`nat`/`int`), not floating point. Carousel geometry uses Dafny `real`. Sub-pixel rounding is left out, and so is the browser clamping `scrollLeft`/`scrollTop` to the scrollable range.
- Timers and scheduling are left out: `setInterval`, `setTimeout`, `requestAnimationFrame`, `ResizeObserver` and window resize listeners. A running timer is a boolean, and an interval firing is a `Tick`/`AutoplayTick` call.
- React semantics are left out: batching, functional-updater ordering, and effects that re-run. Each handler is one atomic update that sees the current state.
- TiledCarousel.Carousel.AutoplayTick steps from the current real index. The source's interval callback captures the real index of the render that armed it, a stale closure.
- The `change`/`click` callbacks of the showcase carousel are not modelled as calls. OnClick returns the index the click callback would receive. The change effect would report `curRealIndex`, which is a field.
- The notice `onChange` callback is modelled as a log of reported indices. Its `onClick`, and all rendering (prefix, suffix, `renderItem`, CSS strings, arrows, indicators), are left out.
- The cleanup that `initNotice` returns (clearing the interval) is not modelled. The effects call `initNotice` without returning its result, so React never runs that cleanup.
- The showcase `itemStyle` is presentation only. In `measureLayoutCache` a CSS-string item size always falls back to the first child's extent, which is what MeasureLayout does.
- TrackGeometry.TiledOffset takes the item width as a percentage. The source's `parseFloat` of a CSS length string is not modelled.
- The seamless list's `querySelectorAll(".box-row")` is taken to return the box's rows in order. Its `curLen === 0` check cannot fire after the first-row check and needs no branch.
- Scroll steps and speeds are non-negative (`nat`). A negative step would scroll backwards into the browser's clamp at 0.
- NoticeCarousel.ClampIndex takes an integer initial index; fractional or `NaN` indices are not modelled.
- The horizontal showcase file is the same class as the vertical one; only OnClick is specific to it.
- Load: the real index is InitLayout's `initialIndex mod n`, the corrected half of the second finding, not the raw `initialIndex` the source stores (RawInitialIndexOutOfRange shows the difference).
- InitScroll: children of total extent 0 defer the buffer and the timer, the corrected half of the third finding; as written, the source's clone loop never ends for a positive viewport (ZeroExtentCloneLoopNeverEnds), and for a zero viewport it starts the timer over a cycle of 0.
- Translate: a single item is centred in slot 0 (CentredSlot), the corrected half of the first finding; the source centres slot 2, which its one-slot buffer lacks (SingleItemActiveSlotMissing).
- TrackOffset: like Translate, a single tiled item is centred in slot 0; the source centres slot 2 (src/components/tiled-carousel/horizontal.tsx:36 and 46).

## Findings

| source | as written | input that shows it | evidently intended | confidence | as-written member | corrected member |
|---|---|---|---|---|---|---|
| src/components/showcase-carousel/vertical.tsx:54 | with one item the buffer is left unpadded (`items.length <= 1` returns the items), but the virtual index is still 2, so the track centres slot 2, which does not exist; slot 0 lies wholly outside the viewport whenever three items and four gaps exceed it (always, for the default 60% item). The tiled carousel does the same at src/components/tiled-carousel/horizontal.tsx:36 | one item, any real index | a single item shown once and statically, as the unpadded buffer and the disabled autoplay already intend: the track centres slot 0, so the item is in view | not executed; high for the index arithmetic, medium for what the browser paints | PaddedBuffer.SingleItemActiveSlotMissing | PaddedBuffer.CentredSlotShowsItem |
| src/components/showcase-carousel/vertical.tsx:120-123 | `initLayout` stores the raw `initialIndex` as the real index, while the virtual index is normalised | 5 items, `initialIndex` 7: slot 4 shows item 2, real index 7 | the real index of the item shown, `initialIndex mod n` | not executed; high | ShowcaseCarousel.RawInitialIndexOutOfRange | ShowcaseCarousel.InitLayout |
| src/components/infinite-scroll-list/horizontal.tsx:89-92 | `Math.ceil(targetWidth / originTotalWidth)` divides by a zero total, so `repeatTimes` is `Infinity` and the clone loop `i < repeatTimes - 1` never ends (vertical.tsx:85-88 likewise) | `fill` on (the default), children of total extent 0, a viewport of positive extent | no buffer and no timer until the children measure a positive extent, as with `fill` off and content that fits: children not yet laid out are not yet scrollable | not executed; high | ScrollCycle.ZeroExtentCloneLoopNeverEnds | LoopScroll.Scroller.InitScroll |

/**
 * Where the paged carousels draw their track. Extents are pixels, kept as
 * real numbers; a slot `k` of the track starts at `k * (itemExtent + gap)`.
 */
module TrackGeometry {

  /** The configured item extent: a percentage of the viewport, or a CSS length string. */
  datatype ItemSize = Percent(p: real) | CssLength

  /** The showcase carousels' measured geometry (`layoutCache`). */
  datatype LayoutCache = LayoutCache(viewport: real, itemExtent: real, centerOffset: real)

  /** The centring offset is half the item less half the viewport. */
  predicate Measured(c: LayoutCache)
  {
    c.centerOffset == c.itemExtent / 2.0 - c.viewport / 2.0
  }

  /** Start of slot `k` along the track. */
  function SlotStart(itemExtent: real, gap: real, k: int): real
  {
    (k as real) * (itemExtent + gap)
  }

  /**
   * `measureLayoutCache`: a percentage item extent is taken from the viewport;
   * when that gives 0 (or the extent is a CSS string) the first rendered
   * slot's extent is used.
   */
  function MeasureLayout(viewport: real, size: ItemSize, firstChild: real): (c: LayoutCache)
    ensures Measured(c) && c.viewport == viewport
    ensures size.Percent? && viewport * size.p / 100.0 != 0.0 ==> c.itemExtent == viewport * size.p / 100.0
    ensures !(size.Percent? && viewport * size.p / 100.0 != 0.0) ==> c.itemExtent == firstChild
  {
    var fromPercent := if size.Percent? then viewport * size.p / 100.0 else 0.0;
    var item := if fromPercent != 0.0 then fromPercent else firstChild;
    LayoutCache(viewport, item, item / 2.0 - viewport / 2.0)
  }

  /** The translate of `trackStyle`; 0 until both viewport and item are measured. */
  function ShowcaseTranslate(c: LayoutCache, gap: real, v: int): (t: real)
    ensures c.viewport == 0.0 || c.itemExtent == 0.0 ==> t == 0.0
  {
    if c.viewport == 0.0 || c.itemExtent == 0.0 then 0.0
    else -(SlotStart(c.itemExtent, gap, v) + c.centerOffset)
  }

  /** Once measured, the translate puts the centre of slot `v` at the viewport's centre. */
  lemma ShowcaseCentersActive(c: LayoutCache, gap: real, v: int)
    requires Measured(c) && c.viewport != 0.0 && c.itemExtent != 0.0
    ensures ShowcaseTranslate(c, gap, v) + SlotStart(c.itemExtent, gap, v) + c.itemExtent / 2.0
            == c.viewport / 2.0
  {
  }

  /**
   * When three items and four gaps are wider than the viewport, slot 0 lies
   * wholly before the viewport while slot 2 is centred: a one-item track
   * centred on slot 2 shows nothing (with the default 60% item, always).
   */
  lemma SlotZeroHiddenWhenCenteringTwo(c: LayoutCache, gap: real)
    requires Measured(c) && c.viewport > 0.0 && c.itemExtent > 0.0 && gap >= 0.0
    requires 3.0 * c.itemExtent + 4.0 * gap > c.viewport
    ensures ShowcaseTranslate(c, gap, 2) + SlotStart(c.itemExtent, gap, 0) + c.itemExtent < 0.0
  {
  }

  /**
   * A single item in slot 0, centred, lies wholly inside a viewport at
   * least as large as the item.
   */
  lemma SingleItemInsideViewport(c: LayoutCache, gap: real)
    requires Measured(c) && c.viewport > 0.0 && 0.0 < c.itemExtent <= c.viewport
    ensures 0.0 <= ShowcaseTranslate(c, gap, 0) + SlotStart(c.itemExtent, gap, 0)
    ensures ShowcaseTranslate(c, gap, 0) + SlotStart(c.itemExtent, gap, 0) + c.itemExtent <= c.viewport
  {
  }

  /**
   * The tiled carousel's `getTrackStyle` offset, item extent a percentage
   * of the viewport: it puts the centre of slot `active` at the centre of
   * the viewport.
   */
  function TiledOffset(viewport: real, itemPercent: real, gap: real, active: int): (t: real)
    ensures var itemPx := viewport * itemPercent / 100.0;
            t + SlotStart(itemPx, gap, active) + itemPx / 2.0 == viewport / 2.0
  {
    var itemPx := viewport * itemPercent / 100.0;
    viewport / 2.0 - SlotStart(itemPx, gap, active) - itemPx / 2.0
  }
}

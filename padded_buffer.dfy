/**
 * Index arithmetic shared by the paged carousels (showcase and tiled).
 *
 * The items are shown in a padded buffer: the last two items, all items,
 * then the first two items. A "virtual" index is a slot of that buffer; a
 * "real" index is a position in the items. The two maps below convert
 * between them with the JavaScript idiom `((x % n) + n) % n`.
 */
module PaddedBuffer {

  import opened JsArith

  /** Number of clone slots placed before the first item (`cloneOffset`). */
  const CloneOffset: int := 2

  /** The source's normalisation `((x % n) + n) % n`, with JavaScript's `%`. */
  function Normalize(x: int, n: int): (r: int)
    requires n > 0
    ensures 0 <= r < n
  {
    JsRem(JsRem(x, n) + n, n)
  }

  /** The normalisation is exactly the mathematical (Euclidean) residue. */
  lemma NormalizeIsResidue(x: int, n: int)
    requires n > 0
    ensures Normalize(x, n) == x % n
  {
    var t, r0 := TruncQuot(x, n), JsRem(x, n);
    assert r0 + n == x + (1 - t) * n;
    ShiftResidue(x, 1 - t, n);
  }

  /** `realToVirtual`: the canonical buffer slot of a (possibly out-of-range) real index. */
  function RealToVirtual(n: nat, realPos: int): (v: int)
    ensures n == 0 ==> v == CloneOffset
    ensures n > 0 ==> CloneOffset <= v < CloneOffset + n
  {
    if n == 0 then CloneOffset else Normalize(realPos, n) + CloneOffset
  }

  /** `virtualToReal`: the item a buffer slot stands for. */
  function VirtualToReal(n: nat, virtualPos: int): (r: int)
    ensures n == 0 ==> r == 0
    ensures n > 0 ==> 0 <= r < n
  {
    if n == 0 then 0 else Normalize(virtualPos - CloneOffset, n)
  }

  /** On the canonical range the slot `v` stands for item `v - 2`. */
  lemma VirtualToRealCanonical(n: nat, v: int)
    requires CloneOffset <= v < CloneOffset + n
    ensures VirtualToReal(n, v) == v - CloneOffset
  {
    NormalizeIsResidue(v - CloneOffset, n);
    DivModUnique(v - CloneOffset, n, 0, v - CloneOffset);
  }

  /** Real -> virtual -> real gives back the real index reduced modulo `n`. */
  lemma RealVirtualRoundTrip(n: nat, r: int)
    requires n > 0
    ensures VirtualToReal(n, RealToVirtual(n, r)) == r % n
    ensures 0 <= r < n ==> VirtualToReal(n, RealToVirtual(n, r)) == r
  {
    NormalizeIsResidue(r, n);
    var v := RealToVirtual(n, r);
    VirtualToRealCanonical(n, v);
    if 0 <= r < n {
      DivModUnique(r, n, 0, r);
    }
  }

  /** Virtual -> real -> virtual is the identity on the canonical range. */
  lemma VirtualRealRoundTrip(n: nat, v: int)
    requires CloneOffset <= v < CloneOffset + n
    ensures RealToVirtual(n, VirtualToReal(n, v)) == v
  {
    VirtualToRealCanonical(n, v);
    NormalizeIsResidue(v - CloneOffset, n);
  }

  /** Shifting a virtual index by a whole number of laps keeps the item it shows. */
  lemma ShiftKeepsReal(n: nat, v: int, k: int)
    requires n > 0
    ensures VirtualToReal(n, v + k * n) == VirtualToReal(n, v)
  {
    NormalizeIsResidue(v + k * n - CloneOffset, n);
    NormalizeIsResidue(v - CloneOffset, n);
    assert v + k * n - CloneOffset == (v - CloneOffset) + k * n;
    ShiftResidue(v - CloneOffset, k, n);
  }

  /**
   * The snap-back of `handleTransitionEnd`: a virtual index in the leading
   * clones moves forward a lap, one in the trailing clones moves back a lap.
   */
  function Settle(n: nat, v: int): (r: int)
    ensures CloneOffset <= v < CloneOffset + n ==> r == v
    ensures r == v || r == v + n || r == v - n
  {
    if v < CloneOffset then v + n
    else if v >= CloneOffset + n then v - n
    else v
  }

  /**
   * A virtual index at most one step outside the canonical range settles
   * inside it, on a slot that shows the same item.
   */
  lemma SettleLandsCanonical(n: nat, v: int)
    requires n > 0
    requires CloneOffset - 1 <= v <= CloneOffset + n
    ensures CloneOffset <= Settle(n, v) < CloneOffset + n
    ensures VirtualToReal(n, Settle(n, v)) == VirtualToReal(n, v)
  {
    if v < CloneOffset {
      ShiftKeepsReal(n, v, 1);
    } else if v >= CloneOffset + n {
      ShiftKeepsReal(n, v, -1);
    }
  }

  /**
   * One step from a settled slot, followed by the snap-back, shows the next
   * (or previous) item cyclically: prev from item 0 lands on item n - 1.
   */
  lemma StepThenSettle(n: nat, v: int, d: int)
    requires CloneOffset <= v < CloneOffset + n
    requires d == 1 || d == -1
    ensures CloneOffset <= Settle(n, v + d) < CloneOffset + n
    ensures VirtualToReal(n, Settle(n, v + d)) == (VirtualToReal(n, v) + d) % n
  {
    SettleLandsCanonical(n, v + d);
    VirtualToRealCanonical(n, v);
    NormalizeIsResidue(v + d - CloneOffset, n);
  }

  /**
   * A real step of one forward or back from a valid real index, normalised
   * as the tiled carousel does, wraps at both ends: next from the last item
   * is item 0 and prev from item 0 is the last item.
   */
  lemma NormalizedStep(n: nat, r: int, d: int)
    requires 0 <= r < n
    requires d == 1 || d == -1
    ensures RealToVirtual(n, r + d) - CloneOffset ==
              if r + d == n then 0 else if r + d < 0 then n - 1 else r + d
  {
    NormalizeIsResidue(r + d, n);
    if r + d == n {
      DivModUnique(r + d, n, 1, 0);
    } else if r + d < 0 {
      DivModUnique(r + d, n, -1, n - 1);
    } else {
      DivModUnique(r + d, n, 0, r + d);
    }
  }

  /** `virtualItems` / `displayList`: last two items, all items, first two items. */
  function VirtualItems<T>(items: seq<T>): (b: seq<T>)
    ensures |items| <= 1 ==> b == items
    ensures |items| >= 2 ==> |b| == |items| + 2 * CloneOffset
  {
    if |items| <= 1 then items
    else items[|items| - 2..] + items + items[..2]
  }

  /** Every slot of the padded buffer shows the item its virtual index maps to. */
  lemma CloneShowsItem<T>(items: seq<T>, v: int)
    requires |items| >= 2
    requires 0 <= v < |items| + 2 * CloneOffset
    ensures VirtualItems(items)[v] == items[VirtualToReal(|items|, v)]
  {
    var n := |items|;
    NormalizeIsResidue(v - CloneOffset, n);
    if v < CloneOffset {
      DivModUnique(v - CloneOffset, n, -1, n + v - CloneOffset);
    } else if v >= CloneOffset + n {
      DivModUnique(v - CloneOffset, n, 1, v - CloneOffset - n);
    } else {
      DivModUnique(v - CloneOffset, n, 0, v - CloneOffset);
    }
  }

  /**
   * As written, a single item is not padded, yet its virtual index is still
   * 2: the slot the track centres does not exist in the rendered buffer.
   */
  lemma SingleItemActiveSlotMissing<T>(x: T, r: int)
    ensures |VirtualItems([x])| == 1
    ensures RealToVirtual(1, r) == 2
    ensures RealToVirtual(1, r) >= |VirtualItems([x])|
  {
  }

  /**
   * The slot the track centres: the virtual index, except that a single
   * item, which the buffer leaves unpadded, sits in slot 0.
   */
  function CentredSlot(n: nat, v: int): int
  {
    if n == 1 then 0 else v
  }

  /**
   * For every non-empty item list, one item included, the centred slot of
   * a real index exists in the source's buffer and shows the item the real
   * index names.
   */
  lemma CentredSlotShowsItem<T>(items: seq<T>, r: int)
    requires |items| > 0
    ensures 0 <= CentredSlot(|items|, RealToVirtual(|items|, r)) < |VirtualItems(items)|
    ensures VirtualItems(items)[CentredSlot(|items|, RealToVirtual(|items|, r))] == items[r % |items|]
  {
    var n := |items|;
    if n == 1 {
      DivModUnique(r, 1, r, 0);
    } else {
      var v := RealToVirtual(n, r);
      RealVirtualRoundTrip(n, r);
      CloneShowsItem(items, v);
    }
  }
}

/**
 * The notice ticker: one item of `data` is shown at a time, an interval
 * timer advances the index cyclically, and `goTo` jumps to an index that
 * is checked against the bounds. The `onChange` callback is modelled as a
 * log of the indices it received.
 */
module NoticeCarousel {

  import opened JsArith

  function Max(a: int, b: int): int { if a >= b then a else b }

  function Min(a: int, b: int): int { if a <= b then a else b }

  /** `initializeIndex`: the initial index clamped to the items, 0 when there are none. */
  function ClampIndex(initialIndex: int, n: nat): (r: int)
    ensures n == 0 ==> r == 0
    ensures n > 0 ==> 0 <= r < n
    ensures 0 <= initialIndex < n ==> r == initialIndex
    ensures initialIndex < 0 ==> r == 0
    ensures n > 0 && initialIndex >= n ==> r == n - 1
  {
    var index := Max(0, Min(initialIndex, n - 1));
    if n > 0 then index else 0
  }

  /** `next`'s step `(prevIndex + 1) % data.length` with JavaScript's `%`. */
  function NextIndex(i: int, n: int): (j: int)
    requires n > 0
    ensures i >= -1 ==> 0 <= j < n
    ensures 0 <= i < n ==> j == if i == n - 1 then 0 else i + 1
  {
    JsRem(i + 1, n)
  }

  /** From any index from -1 on, the step is the residue `(i + 1) mod n`. */
  lemma NextIndexResidue(i: int, n: int)
    requires n > 0 && i >= -1
    ensures NextIndex(i, n) == (i + 1) % n
  {
  }

  /** The index after `k` steps of `next` from `i`. */
  function NextSteps(i: int, n: int, k: nat): int
    requires n > 0
  {
    if k == 0 then i else NextIndex(NextSteps(i, n, k - 1), n)
  }

  /**
   * `k` steps of the ticker from a valid index land on `(i + k) % n`, so
   * after `n` steps every item has been shown and the ticker is back.
   */
  lemma {:induction false} NextStepsResidue(i: int, n: int, k: nat)
    requires 0 <= i < n
    ensures NextSteps(i, n, k) == (i + k) % n
  {
    if k == 0 {
      DivModUnique(i, n, 0, i);
    } else {
      NextStepsResidue(i, n, k - 1);
      NextIndexResidue(NextSteps(i, n, k - 1), n);
      ResidueAdd(i + k - 1, 1, n);
    }
  }

  class Notice<T> {
    const data: seq<T>
    const initialIndex: int
    const stopOnHover: bool

    var currentIndex: int
    var timer: bool
    /** Every index passed to `onChange`, oldest first. */
    var changes: seq<int>

    /** The shown index names an item, and so does every index reported to `onChange`. */
    ghost predicate Valid()
      reads this
    {
      (|data| > 0 ==> 0 <= currentIndex < |data|) &&
      (|data| == 0 ==> currentIndex == 0) &&
      forall k :: 0 <= k < |changes| ==> 0 <= changes[k] < |data|
    }

    /** The item at `index` is the visible one (fully shown and clickable). */
    predicate IsActive(index: int)
      reads this
    {
      currentIndex == index
    }

    /** The set of items rendered visible. */
    function VisibleItems(): set<int>
      reads this
    {
      set i | 0 <= i < |data| && IsActive(i)
    }

    /** In a valid state exactly one item is visible, unless there are none. */
    lemma ExactlyOneVisible()
      requires Valid()
      ensures |data| > 0 ==> VisibleItems() == {currentIndex}
      ensures |data| == 0 ==> VisibleItems() == {}
    {
    }

    /** Mount state: index 0, no timer, nothing reported. */
    constructor (data: seq<T>, initialIndex: int, stopOnHover: bool)
      ensures Valid()
      ensures this.data == data && this.initialIndex == initialIndex && this.stopOnHover == stopOnHover
      ensures currentIndex == 0 && !timer && changes == []
    {
      this.data, this.initialIndex, this.stopOnHover := data, initialIndex, stopOnHover;
      currentIndex, timer, changes := 0, false, [];
    }

    /** `initializeIndex`: show the clamped initial index. */
    method InitializeIndex()
      requires Valid()
      modifies this`currentIndex
      ensures Valid()
      ensures currentIndex == ClampIndex(initialIndex, |data|)
    {
      currentIndex := ClampIndex(initialIndex, |data|);
    }

    /** `initNotice`: clamp the index, then play unless there is at most one item. */
    method InitNotice()
      requires Valid()
      modifies this`currentIndex, this`timer
      ensures Valid()
      ensures currentIndex == ClampIndex(initialIndex, |data|)
      ensures |data| <= 1 ==> timer == old(timer)
      ensures |data| > 1 ==> timer
    {
      InitializeIndex();
      if |data| <= 1 {
        return;
      }
      Play();
    }

    /** `next` (also one interval of the timer): advance cyclically and report the new index. */
    method Next()
      requires Valid()
      modifies this`currentIndex, this`changes
      ensures Valid()
      ensures |data| == 0 ==> currentIndex == old(currentIndex) && changes == old(changes)
      ensures |data| > 0 ==>
        currentIndex == (if old(currentIndex) == |data| - 1 then 0 else old(currentIndex) + 1) &&
        changes == old(changes) + [currentIndex]
    {
      if |data| == 0 {
        return;
      }
      var nextIndex := NextIndex(currentIndex, |data|);
      changes := changes + [nextIndex];
      currentIndex := nextIndex;
    }

    /** `play` (also mouse leave): start the timer unless one runs or there is at most one item. */
    method Play()
      modifies this`timer
      ensures timer == (old(timer) || |data| > 1)
    {
      if timer || |data| <= 1 {
        return;
      }
      timer := true;
    }

    /** `pause` (also mouse enter): stop a running timer, only when `stopOnHover` is set. */
    method Pause()
      modifies this`timer
      ensures timer == (old(timer) && !stopOnHover)
    {
      if timer && stopOnHover {
        timer := false;
      }
    }

    /** `goTo`: an index inside the items is shown and reported; any other changes nothing. */
    method GoTo(index: int)
      requires Valid()
      modifies this`currentIndex, this`changes
      ensures Valid()
      ensures 0 <= index < |data| ==> currentIndex == index && changes == old(changes) + [index]
      ensures !(0 <= index < |data|) ==> currentIndex == old(currentIndex) && changes == old(changes)
    {
      if index >= 0 && index < |data| {
        currentIndex := index;
        changes := changes + [index];
      }
    }
  }
}

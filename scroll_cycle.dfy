/**
 * Arithmetic shared by the continuous scroll lists: the repeated child
 * buffer, its summed extent, the repeat count that fills the viewport and
 * the two ways a tick wraps the scroll offset (reset to 0, or subtract one
 * cycle).
 */
module ScrollCycle {

  import opened JsArith

  /** A child of the scrolling box: which original item it shows, and its measured extent. */
  datatype Node = Node(item: nat, extent: nat)

  /** `getTotalWidth` / `getTotalHeight`: the extents summed left to right. */
  function SumExtents(s: seq<Node>): (total: nat)
    ensures forall i :: 0 <= i < |s| ==> s[i].extent <= total
    ensures total == 0 <==> forall i :: 0 <= i < |s| ==> s[i].extent == 0
  {
    if s == [] then 0 else SumExtents(s[..|s| - 1]) + s[|s| - 1].extent
  }

  /** The extent of two runs of children placed one after the other. */
  lemma {:induction false} SumExtentsAppend(a: seq<Node>, b: seq<Node>)
    ensures SumExtents(a + b) == SumExtents(a) + SumExtents(b)
  {
    if b != [] {
      assert (a + b)[..|a + b| - 1] == a + b[..|b| - 1];
      SumExtentsAppend(a, b[..|b| - 1]);
    } else {
      assert a + b == a;
    }
  }

  /** `s` placed `k` times in a row. */
  function Repeat<T>(s: seq<T>, k: nat): (r: seq<T>)
    ensures |r| == k * |s|
  {
    if k == 0 then [] else Repeat(s, k - 1) + s
  }

  /** Position `i` of the repetition shows the original at `i mod |s|`. */
  lemma {:induction false} RepeatAt<T>(s: seq<T>, k: nat, i: int)
    requires 0 <= i < k * |s|
    ensures Repeat(s, k)[i] == s[i % |s|]
  {
    var m := (k - 1) * |s|;
    assert k * |s| == m + |s|;
    if i < m {
      RepeatAt(s, k - 1, i);
    } else {
      DivModUnique(i, |s|, k - 1, i - m);
    }
  }

  /** Two repetitions back to back are one longer repetition. */
  lemma {:induction false} RepeatAdd<T>(s: seq<T>, a: nat, b: nat)
    ensures Repeat(s, a) + Repeat(s, b) == Repeat(s, a + b)
  {
    if b > 0 {
      RepeatAdd(s, a, b - 1);
      assert Repeat(s, a) + (Repeat(s, b - 1) + s) == (Repeat(s, a) + Repeat(s, b - 1)) + s;
    } else {
      assert Repeat(s, a) + [] == Repeat(s, a);
    }
  }

  /** The repetition's extent is `k` times the original extent. */
  lemma {:induction false} SumExtentsRepeat(s: seq<Node>, k: nat)
    ensures SumExtents(Repeat(s, k)) == k * SumExtents(s)
  {
    if k > 0 {
      var t := SumExtents(s);
      SumExtentsRepeat(s, k - 1);
      SumExtentsAppend(Repeat(s, k - 1), s);
      assert k * t == (k - 1) * t + t;
    }
  }

  /**
   * The buffer is two copies of one cycle: the child one cycle further on
   * shows the same item, so moving the offset back by a cycle shows the
   * same content.
   */
  lemma SeamlessShift<T>(s: seq<T>, k: nat, p: int)
    requires 0 <= p < k * |s|
    ensures k * |s| + p < |Repeat(s, 2 * k)|
    ensures Repeat(s, 2 * k)[k * |s| + p] == Repeat(s, 2 * k)[p]
  {
    RepeatAdd(s, k, k);
    assert Repeat(s, 2 * k) == Repeat(s, k) + Repeat(s, k);
  }

  /** `Math.ceil(a / b)` for a non-negative dividend and positive divisor. */
  function CeilDiv(a: nat, b: nat): (q: nat)
    requires b > 0
    ensures q * b >= a
    ensures (q - 1) * b < a || q == 0
  {
    var q := (a + b - 1) / b;
    var r := (a + b - 1) % b;
    assert a + b - 1 == q * b + r;
    assert q * b >= a;
    q
  }

  /**
   * `max(1, ceil(target / total))` for originals of positive extent; with
   * no extent the lists defer (see LoopScroll.Scroller.InitScroll) where
   * the source divides by zero (see RepeatTimesAsWritten).
   */
  function RepeatTimes(target: nat, total: nat): (r: nat)
    requires total > 0
    ensures r >= 1
    ensures r * total >= target
    ensures r > 1 ==> (r - 1) * total < target
  {
    var c := CeilDiv(target, total);
    if c >= 1 then c else 1
  }

  /** A JavaScript number, as far as the repeat count needs it. */
  datatype JsNumber = Finite(value: int) | PositiveInfinity | NaN

  /**
   * `Math.max(1, Math.ceil(target / total))` as JavaScript evaluates it:
   * a positive target over a zero total is `Infinity`, and `0 / 0` is `NaN`
   * (which `Math.max` propagates).
   */
  function RepeatTimesAsWritten(target: nat, total: nat): (r: JsNumber)
    ensures total > 0 ==> r == Finite(RepeatTimes(target, total))
    ensures total == 0 && target > 0 ==> r == PositiveInfinity
    ensures total == 0 && target == 0 ==> r == NaN
  {
    if total > 0 then
      var c := CeilDiv(target, total);
      Finite(if c >= 1 then c else 1)
    else if target > 0 then PositiveInfinity
    else NaN
  }

  /** The clone loop's guard `i < repeatTimes - 1` on a JavaScript number. */
  predicate CloneLoopRuns(i: nat, repeatTimes: JsNumber): (b: bool)
    ensures repeatTimes == PositiveInfinity ==> b
    ensures repeatTimes == NaN ==> !b
    ensures repeatTimes.Finite? && repeatTimes.value <= 1 ==> !b
  {
    match repeatTimes
    case Finite(v) => i < v - 1
    case PositiveInfinity => true
    case NaN => false
  }

  /**
   * As written, originals of total extent 0 under a positive viewport make
   * the clone loop's guard hold for every counter value: the loop never ends.
   */
  lemma ZeroExtentCloneLoopNeverEnds(target: nat, i: nat)
    requires target > 0
    ensures CloneLoopRuns(i, RepeatTimesAsWritten(target, 0))
  {
  }

  /**
   * Wherever the originals have extent, the source's loop runs exactly as
   * often as with RepeatTimes.
   */
  lemma RepeatTimesAgreesWhereFinite(target: nat, total: nat, i: nat)
    requires total > 0
    ensures CloneLoopRuns(i, RepeatTimesAsWritten(target, total)) <==> i < RepeatTimes(target, total) - 1
  {
  }

  /**
   * The tick of the horizontal and vertical lists: advance by `step`, and
   * jump back to 0 once a whole cycle has scrolled by.
   */
  function ResetTick(offset: int, step: int, cycle: int): (r: int)
    ensures r == 0 || r == offset + step
    ensures cycle > 0 && offset >= 0 && step >= 0 ==> 0 <= r < cycle
    ensures cycle > 0 && offset + step < cycle ==> r == offset + step
    ensures r == 0 && offset + step != 0 ==> cycle > 0 && offset + step >= cycle
    ensures cycle <= 0 ==> r == offset + step
  {
    var o := offset + step;
    if cycle > 0 && o >= cycle then 0 else o
  }

  /**
   * The tick of the seamless list: advance by `speed`, and move back by one
   * cycle once a whole cycle has scrolled by.
   */
  function SubtractTick(offset: int, speed: int, cycle: int): (r: int)
    ensures r == offset + speed || r == offset + speed - cycle
    ensures cycle > 0 && 0 <= offset < cycle && 0 <= speed <= cycle ==> 0 <= r < cycle
  {
    var o := offset + speed;
    if cycle > 0 && o >= cycle then o - cycle else o
  }

  /** From inside the cycle, with a speed of at most one cycle, a tick is `(offset + speed) mod cycle`. */
  lemma SubtractTickResidue(offset: int, speed: int, cycle: int)
    requires cycle > 0 && 0 <= offset < cycle && 0 <= speed <= cycle
    ensures SubtractTick(offset, speed, cycle) == (offset + speed) % cycle
  {
  }

  /**
   * The two wraps agree exactly when a tick does not overshoot the cycle;
   * past it, the reset drops the overshoot that the subtraction keeps.
   */
  lemma ResetAgreesWithSubtract(offset: int, step: int, cycle: int)
    requires cycle > 0
    ensures ResetTick(offset, step, cycle) == SubtractTick(offset, step, cycle) <==>
      offset + step <= cycle
  {
  }

  /** The offset after `k` subtracting ticks from 0. */
  function SubtractTicks(speed: int, cycle: int, k: nat): int
  {
    if k == 0 then 0 else SubtractTick(SubtractTicks(speed, cycle, k - 1), speed, cycle)
  }

  /** With a speed of at most one cycle, `k` ticks from 0 reach `(k * speed) % cycle`. */
  lemma {:induction false} SubtractTicksResidue(speed: int, cycle: int, k: nat)
    requires 0 <= speed <= cycle && cycle > 0
    ensures SubtractTicks(speed, cycle, k) == (k * speed) % cycle
  {
    if k == 0 {
      DivModUnique(0, cycle, 0, 0);
    } else {
      SubtractTicksResidue(speed, cycle, k - 1);
      SubtractTickResidue(SubtractTicks(speed, cycle, k - 1), speed, cycle);
      ResidueAdd((k - 1) * speed, speed, cycle);
      assert (k - 1) * speed + speed == k * speed;
    }
  }

  /** The offset after `k` resetting ticks from 0. */
  function ResetTicks(step: int, cycle: int, k: nat): int
  {
    if k == 0 then 0 else ResetTick(ResetTicks(step, cycle, k - 1), step, cycle)
  }

  /** Multiplying by a non-negative number keeps the order. */
  lemma MulMono(a: nat, b: nat, c: nat)
    requires a <= b
    ensures a * c <= b * c
  {
  }

  /**
   * When the step divides the cycle, every offset a resetting tick reaches
   * from 0 is a multiple `j * step` below the cycle, so no tick overshoots
   * and the reset agrees with the subtraction all along.
   */
  lemma {:induction false} ResetTicksMultiple(step: nat, cycle: nat, m: nat, k: nat) returns (j: nat)
    requires step > 0 && m >= 1 && cycle == m * step
    ensures j < m
    ensures ResetTicks(step, cycle, k) == j * step
    ensures ResetTicks(step, cycle, k) == SubtractTicks(step, cycle, k)
  {
    if k == 0 {
      j := 0;
    } else {
      var j0 := ResetTicksMultiple(step, cycle, m, k - 1);
      var o := ResetTicks(step, cycle, k - 1);
      assert o + step == (j0 + 1) * step;
      MulMono(j0 + 1, m, step);
      MulAtLeast(m, step);
      ResetAgreesWithSubtract(o, step, cycle);
      if o + step == cycle {
        j := 0;
      } else {
        j := j0 + 1;
        if j >= m {
          MulMono(m, j, step);
        }
      }
    }
  }

  /** When the step divides the cycle, `k` resetting ticks from 0 reach `(k * step) % cycle`. */
  lemma ResetTicksResidue(step: nat, cycle: nat, m: nat, k: nat)
    requires step > 0 && m >= 1 && cycle == m * step
    ensures ResetTicks(step, cycle, k) == (k * step) % cycle
  {
    var _ := ResetTicksMultiple(step, cycle, m, k);
    MulAtLeast(m, step);
    SubtractTicksResidue(step, cycle, k);
  }
}

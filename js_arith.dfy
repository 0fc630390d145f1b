/**
 * Integer arithmetic as the JavaScript sources perform it, and the few facts
 * about Dafny's Euclidean `/` and `%` that the other modules rely on.
 */
module JsArith {

  /** JavaScript's integer division, truncating toward zero. */
  function TruncQuot(a: int, b: int): int
    requires b > 0
  {
    if a >= 0 then a / b else -((-a) / b)
  }

  /** JavaScript's `%` on integers: the remainder has the sign of the dividend. */
  function JsRem(a: int, b: int): (r: int)
    requires b > 0
    ensures a >= 0 ==> 0 <= r < b
    ensures a < 0 ==> -b < r <= 0
    ensures a == TruncQuot(a, b) * b + r
  {
    if a >= 0 then a % b else -((-a) % b)
  }

  /** A positive multiple of a positive number is at least that number. */
  lemma MulAtLeast(k: int, n: int)
    requires k >= 1 && n > 0
    ensures k * n >= n
  {
  }

  /** The only multiple of `n` strictly between `-n` and `n` is zero. */
  lemma MultipleBetween(k: int, n: int)
    requires n > 0 && -n < k * n < n
    ensures k == 0
  {
  }

  /** Quotient and residue are determined by `x == q * n + r` with `0 <= r < n`. */
  lemma DivModUnique(x: int, n: int, q: int, r: int)
    requires n > 0 && 0 <= r < n
    requires x == q * n + r
    ensures x % n == r && x / n == q
  {
    var q0, r0 := x / n, x % n;
    assert x == q0 * n + r0;
    assert (q - q0) * n == r0 - r;
    MultipleBetween(q - q0, n);
  }

  /** Adding a multiple of `n` does not change the residue. */
  lemma ShiftResidue(y: int, k: int, n: int)
    requires n > 0
    ensures (y + k * n) % n == y % n
  {
    var q, r := y / n, y % n;
    assert y + k * n == (q + k) * n + r;
    DivModUnique(y + k * n, n, q + k, r);
  }

  /** Adding to a residue and reducing again is reducing the sum. */
  lemma ResidueAdd(x: int, d: int, n: int)
    requires n > 0
    ensures (x % n + d) % n == (x + d) % n
  {
    var q, r := x / n, x % n;
    assert x + d == (r + d) + q * n;
    ShiftResidue(r + d, q, n);
  }
}

/** The two pieces of JavaScript number semantics the application relies on. */
module JsSemantics {

  /**
   * JavaScript's `a % n` on integers: the remainder of division truncated
   * toward zero, which takes the sign of the dividend. Dafny's own `%` is
   * Euclidean and never negative, so the two differ for negative `a`.
   */
  function JsRem(a: int, n: int): (r: int)
    requires n > 0
    ensures a >= 0 ==> 0 <= r < n
    ensures a < 0 ==> -n < r <= 0
    ensures a >= 0 ==> r == a % n
  {
    if a >= 0 then a % n else -((-a) % n)
  }

  /**
   * For the divisor the colour code uses, 360, the truncated remainder names
   * the same angle as the dividend: a negative result is the Euclidean
   * remainder minus a full turn, never a different hue.
   */
  lemma JsRemSameAngle(a: int)
    ensures JsRem(a, 360) % 360 == a % 360
    ensures a < 0 && a % 360 != 0 ==> JsRem(a, 360) == a % 360 - 360
  {
  }

  /**
   * `Math.floor(random * n)` for a `random` from `Math.random()`, which lies
   * in [0, 1): an index into a list of length `n`.
   */
  function RandomIndex(random: real, n: nat): (i: int)
    requires 0.0 <= random < 1.0
    ensures n == 0 ==> i == 0
    ensures n > 0 ==> 0 <= i < n
  {
    assert 0.0 <= random * n as real;
    assert n > 0 ==> random * n as real < n as real;
    (random * n as real).Floor
  }

  /** Every index of a non-empty list is drawn by some value of `Math.random()`. */
  lemma RandomIndexReaches(k: nat, n: nat)
    requires k < n
    ensures 0.0 <= k as real / n as real < 1.0
    ensures RandomIndex(k as real / n as real, n) == k
  {
    var random := k as real / n as real;
    assert random * n as real == k as real;
  }
}

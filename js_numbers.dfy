/** The parts of JavaScript's number semantics that the particle engine relies on:
    the remainder operator `%` (which truncates toward zero, unlike Dafny's
    Euclidean `%`), `Math.max`, `Math.PI`, and the facts the engine may use
    about `Math.random`, `Math.sin` and `Math.cos`, which are injected as
    infinite maps because their exact results are left open. */
module JsNumbers {

  /** `Math.PI` as a real number. */
  const PI: real := 3.141592653589793

  /** `a % 1` on a JavaScript number: the fractional part with the sign of `a`. */
  function FracRem(a: real): (r: real)
    ensures (a - r).Floor as real == a - r
    ensures 0.0 <= a ==> 0.0 <= r < 1.0
    ensures a < 0.0 ==> -1.0 < r <= 0.0
  {
    if 0.0 <= a then
      var whole := a.Floor;
      assert (whole as real).Floor == whole;
      a - whole as real
    else
      var whole := (-a).Floor;
      assert ((-whole) as real).Floor == -whole;
      a + whole as real
  }

  /** `a % 2` on a JavaScript integer: the remainder of division truncated
      toward zero, so it takes the sign of `a` (`-3 % 2` is `-1`). */
  function RemTwo(a: int): (r: int)
    ensures (a - r) % 2 == 0
    ensures -2 < r < 2
    ensures 0 <= a ==> 0 <= r
    ensures a < 0 ==> r <= 0
  {
    if 0 <= a then a % 2 else -((-a) % 2)
  }

  /** `Math.max` on two numbers. */
  function Max(a: real, b: real): (r: real)
    ensures a <= r && b <= r
    ensures r == a || r == b
  {
    if a < b then b else a
  }

  /** Absolute value, used to state bounds. */
  function Abs(a: real): real {
    if a < 0.0 then -a else a
  }

  /** A real function of the environment (`Math.sin`, `Math.cos`), given as
      an infinite map from arguments to results. */
  type RealFn = imap<real, real>

  /** The successive results of `Math.random()`: the k-th call returns the
      value at k. */
  type Draws = imap<nat, real>

  /** The value of an environment function at `t`. The engine's properties
      only rely on the facts stated below about these values; an argument
      outside the map reads as 0. */
  function At(f: RealFn, t: real): real {
    if t in f then f[t] else 0.0
  }

  /** The result of the k-th call of `Math.random()`, read like `At`. */
  function Draw(rand: Draws, k: nat): real {
    if k in rand then rand[k] else 0.0
  }

  /** What `Math.random()` promises: every draw `Draw(rand, k)` lies in [0, 1). */
  ghost predicate UnitDraws(rand: Draws) {
    forall k :: 0.0 <= Draw(rand, k) < 1.0
  }

  /** `Math.sin` never leaves [-1, 1]. */
  ghost predicate SinBounded(sin: RealFn) {
    forall t :: -1.0 <= At(sin, t) <= 1.0
  }

  /** What the engine may use about `Math.sin` and `Math.cos`: both lie in
      [-1, 1], and the cosine is non-negative on [-PI/2, PI/2]. */
  ghost predicate TrigRanges(sin: RealFn, cos: RealFn) {
    SinBounded(sin)
    && (forall t :: -1.0 <= At(cos, t) <= 1.0)
    && (forall t :: -PI / 2.0 <= t <= PI / 2.0 ==> 0.0 <= At(cos, t))
  }
}

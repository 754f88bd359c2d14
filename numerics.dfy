/** Shared value types and the transcendental functions the engine borrows from its
    numeric library. The functions are parameters: the model never evaluates them, and
    every proof that needs one of their properties names it through `Lawful`. */
module Numerics {

  datatype Option<T> = None | Some(value: T)

  /** A floating-point result that may be "not a number" (the mean of an empty array).
      Every ordered comparison with `NaN` is false. */
  datatype Scalar = Finite(value: real) | NaN

  predicate AtMost(x: Scalar, bound: real) {
    x.Finite? && x.value <= bound
  }

  /** exp, natural log, log10 and square root, as supplied by the host library. */
  datatype Math = Math(exp: real -> real, ln: real -> real, log10: real -> real, sqrt: real -> real)

  /** The facts about the transcendental functions that the proofs rely on, and no others. */
  ghost predicate Lawful(m: Math) {
    && m.exp(0.0) == 1.0
    && (forall x: real :: x <= 0.0 ==> 0.0 < m.exp(x) <= 1.0)
    && (forall x: real, y: real :: x <= y ==> m.exp(x) <= m.exp(y))
    && m.log10(100.0) == 2.0
    && m.sqrt(1.0) == 1.0
    && (forall x: real :: 1.0 <= x ==> 1.0 <= m.sqrt(x))
  }

  function Abs(x: real): (r: real)
    ensures 0.0 <= r && (r == x || r == -x)
  {
    if x < 0.0 then -x else x
  }

  /** The smaller of two indices or lengths, as Python's `min` on ints. */
  function MinInt(a: int, b: int): (r: int)
    ensures r <= a && r <= b && (r == a || r == b)
  {
    if a <= b then a else b
  }

  /** The smaller of two reals, as `np.minimum` on one element. */
  function MinReal(a: real, b: real): (r: real)
    ensures r <= a && r <= b && (r == a || r == b)
  {
    if a <= b then a else b
  }

  function MaxReal(a: real, b: real): (r: real)
    ensures a <= r && b <= r && (r == a || r == b)
  {
    if a <= b then b else a
  }

  /** Element-wise clipping of a value into [lo, hi], as `np.clip` does it:
      the lower bound first, then the upper one. */
  function Clip(x: real, lo: real, hi: real): (r: real)
    ensures lo <= hi ==> lo <= r <= hi
    ensures lo <= x <= hi ==> r == x
  {
    MinReal(MaxReal(x, lo), hi)
  }

  lemma ClipMonotone(x: real, y: real, lo: real, hi: real)
    requires x <= y
    ensures Clip(x, lo, hi) <= Clip(y, lo, hi)
  {
  }
}

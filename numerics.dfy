/**
 * Real-number stand-ins for the f32 arithmetic of the widget shape code.
 *
 * Rounding is not modelled: every f32 is a `real`. The transcendental
 * functions and the emath helpers the shape code calls are not written out;
 * they are the fields of a `MathLib` value that the caller passes in, so that
 * every statement proved here holds whatever those functions compute.
 */
module Numerics {

  /** `std::f32::consts::TAU`: the f32 closest to 2π, written out exactly. */
  const TAU: real := 6.283185482025146484375

  function Abs(x: real): real { if x < 0.0 then -x else x }

  /** `f32::min` (NaN handling is not modelled). */
  function Min(a: real, b: real): real { if a <= b then a else b }

  /** `f32::max` (NaN handling is not modelled). */
  function Max(a: real, b: real): real { if a >= b then a else b }

  /** Rounding toward zero, as Rust's float remainder uses it. */
  function Trunc(x: real): int { if x >= 0.0 then x.Floor else -((-x).Floor) }

  /** Rust's `x % TAU` on floats: the remainder of truncating division, which
      takes the sign of `x`. */
  function RemTau(x: real): (r: real)
    ensures x >= 0.0 ==> 0.0 <= r < TAU
    ensures x < 0.0 ==> -TAU < r <= 0.0
    ensures r == x - TAU * Trunc(x / TAU) as real
  {
    var q := x / TAU;
    assert x == TAU * q;
    x - TAU * Trunc(q) as real
  }

  /** The floor modulo, `x - TAU * ⌊x / TAU⌋`: the reference for wrapping an
      angle into one turn. */
  function FloorModTau(x: real): (r: real)
    ensures 0.0 <= r < TAU
  {
    var q := x / TAU;
    assert x == TAU * q;
    x - TAU * q.Floor as real
  }

  /** Two numbers in [0, TAU) that differ by a whole number of turns are equal. */
  lemma SameTurn(a: real, b: real, k: int)
    requires 0.0 <= a < TAU && 0.0 <= b < TAU
    requires a - b == TAU * k as real
    ensures a == b
  {
  }

  /**
   * The functions of the host libraries that the shape code calls and that
   * are not modelled: `f32::cos`, `sin`, `asin`, `powf`, the reciprocal
   * `1.0 / x` (infinite at zero in f32), `Vec2::angled`, `emath::lerp` and
   * `emath::almost_equal`.
   */
  datatype MathLib = MathLib(
    cos: real -> real,
    sin: real -> real,
    asin: real -> real,
    powf: (real, real) -> real,
    recip: real -> real,
    angled: real -> (real, real),
    lerp: (real, real, real) -> real,
    almostEqual: (real, real, real) -> bool)

  /** The one fact the model relies on about `almost_equal`: equal numbers are
      almost equal at any tolerance. */
  ghost predicate AlmostEqualReflexive(m: MathLib) {
    forall a: real, epsilon: real :: m.almostEqual(a, a, epsilon)
  }
}

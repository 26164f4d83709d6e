/**
 * `WidgetShape`: a polar shape, i.e. a radius multiplier as a function of
 * the angle, given as a small expression tree (egui_extras_xt/src/common.rs).
 */
module WidgetShapes {
  import opened Numerics

  datatype Shape =
    | Circle
    | Square
    | Squircle(factor: real)
    | Polygon(sides: nat)
    | SuperPolygon(sides: nat, factor: real)
    | Rotated(shape: Shape, rotation: real)
    | Mix(shapeA: Shape, shapeB: Shape, t: real)
    | Custom(callback: real -> real)

  /** The parameter assertions of `eval`, over the whole tree: evaluation
      visits every node, so it passes all of them exactly when each node
      satisfies its own. */
  predicate Valid(s: Shape)
  {
    match s
    case Squircle(factor) => factor > 0.0
    case Polygon(n) => n >= 3
    case SuperPolygon(n, factor) => n >= 3 && factor > 0.0 && 0.0 <= factor <= 2.0
    case Rotated(shape, _) => Valid(shape)
    case Mix(a, b, _) => Valid(a) && Valid(b)
    case _ => true
  }

  /** The assertion messages of `eval`. */
  datatype Failure =
    | SquircleFactorNotPositive  // "squircle factor must be positive"
    | TooFewSides                // "polygon must have at least 3 sides"
    | PolygonFactorNotPositive   // "polygon factor must be positive"
    | PolygonFactorOutOfRange    // "polygon factor must be between 0.0 and 2.0"

  datatype Outcome = Pass | Fail(failure: Failure)

  /** The first assertion that `eval` trips, in the order it evaluates: a
      node's own assertions top to bottom, a `Mix`'s first child before its
      second. */
  function Check(s: Shape): Outcome
  {
    match s
    case Squircle(factor) =>
      if !(factor > 0.0) then Fail(SquircleFactorNotPositive) else Pass
    case Polygon(n) =>
      if n < 3 then Fail(TooFewSides) else Pass
    case SuperPolygon(n, factor) =>
      if n < 3 then Fail(TooFewSides)
      else if !(factor > 0.0) then Fail(PolygonFactorNotPositive)
      else if !(0.0 <= factor <= 2.0) then Fail(PolygonFactorOutOfRange)
      else Pass
    case Rotated(shape, _) => Check(shape)
    case Mix(a, b, _) => if Check(a).Fail? then Check(a) else Check(b)
    case _ => Pass
  }

  /** Evaluation passes every assertion exactly on valid trees. */
  lemma {:induction false} CheckPassesIffValid(s: Shape)
    ensures Check(s) == Pass <==> Valid(s)
  {
    match s
    case Rotated(shape, _) =>
      CheckPassesIffValid(shape);
    case Mix(a, b, _) =>
      CheckPassesIffValid(a);
      CheckPassesIffValid(b);
    case _ =>
  }

  /** `WidgetShape::eval`: the radius multiplier of the shape at angle `theta`. */
  function Eval(m: MathLib, s: Shape, theta: real): real
    requires Valid(s)
  {
    match s
    case Circle => 1.0
    case Square => Min(m.recip(Abs(m.cos(theta))), m.recip(Abs(m.sin(theta))))
    case Squircle(factor) =>
      var a := m.powf(Abs(m.cos(theta)), factor);
      var b := m.powf(Abs(m.sin(theta)), factor);
      m.powf(a + b, -1.0 / factor)
    case Polygon(n) =>
      m.recip(m.cos(m.asin(m.cos(n as real / 2.0 * theta)) * 2.0 / n as real))
    case SuperPolygon(n, factor) =>
      var a := m.powf(Abs(m.cos(0.25 * (n as real) * theta)), factor);
      var b := m.powf(Abs(m.sin(0.25 * (n as real) * theta)), factor);
      m.powf(a + b, -1.0 / factor)
    case Rotated(shape, rotation) => Eval(m, shape, theta - rotation)
    case Mix(a, b, t) => Eval(m, a, theta) * (1.0 - t) + Eval(m, b, theta) * t
    case Custom(callback) => callback(theta)
  }

  /** A circle has radius multiplier 1 in every direction. */
  lemma EvalCircle(m: MathLib, theta: real)
    ensures Eval(m, Circle, theta) == 1.0
  {
  }

  /** A custom shape needs no validation and returns its callback's value. */
  lemma EvalCustom(m: MathLib, callback: real -> real, theta: real)
    ensures Valid(Custom(callback))
    ensures Eval(m, Custom(callback), theta) == callback(theta)
  {
  }

  /** Rotating a shape by `r` shifts its radius function by `r`; two rotations
      add up. */
  lemma EvalRotated(m: MathLib, s: Shape, r1: real, r2: real, theta: real)
    requires Valid(s)
    ensures Eval(m, Rotated(s, r1), theta) == Eval(m, s, theta - r1)
    ensures Eval(m, Rotated(Rotated(s, r1), r2), theta) == Eval(m, Rotated(s, r1 + r2), theta)
    ensures Eval(m, Rotated(s, 0.0), theta) == Eval(m, s, theta)
  {
  }

  /** A mix at weight 0 is exactly its first shape, at weight 1 exactly its
      second, and a mix of a shape with itself is that shape at any weight. */
  lemma EvalMixEndpoints(m: MathLib, a: Shape, b: Shape, t: real, theta: real)
    requires Valid(a) && Valid(b)
    ensures Eval(m, Mix(a, b, 0.0), theta) == Eval(m, a, theta)
    ensures Eval(m, Mix(a, b, 1.0), theta) == Eval(m, b, theta)
    ensures Eval(m, Mix(a, a, t), theta) == Eval(m, a, theta)
  {
  }

  /** For a weight in [0, 1] the mix lies between its two shapes' radii. */
  lemma EvalMixBetween(m: MathLib, a: Shape, b: Shape, t: real, theta: real)
    requires Valid(a) && Valid(b)
    requires 0.0 <= t <= 1.0
    ensures Min(Eval(m, a, theta), Eval(m, b, theta)) <= Eval(m, Mix(a, b, t), theta)
    ensures Eval(m, Mix(a, b, t), theta) <= Max(Eval(m, a, theta), Eval(m, b, theta))
  {
    Blend(Eval(m, a, theta), Eval(m, b, theta), t);
  }

  /** `x * (1 - t) + y * t` with `t` in [0, 1] lies between `x` and `y`. */
  lemma Blend(x: real, y: real, t: real)
    requires 0.0 <= t <= 1.0
    ensures Min(x, y) <= x * (1.0 - t) + y * t <= Max(x, y)
  {
    assert x * (1.0 - t) + y * t == x + (y - x) * t;
    if x <= y {
      WeightedPart(y - x, t);
    } else {
      WeightedPart(x - y, t);
      assert (y - x) * t == -((x - y) * t);
    }
  }

  /** Scaling a non-negative length by a weight in [0, 1] keeps it between 0
      and the length. */
  lemma WeightedPart(d: real, t: real)
    requires d >= 0.0 && 0.0 <= t <= 1.0
    ensures 0.0 <= d * t <= d
  {
    assert d * (1.0 - t) >= 0.0;
  }
}

/**
 * Angle wrapping and winding direction (egui_extras_xt/src/common.rs).
 */
module Angles {
  import opened Numerics

  /** The direction in which a widget's angle grows. */
  datatype Winding = Clockwise | Counterclockwise

  /** `Winding::to_float`: the sign by which a winding multiplies an angle. */
  function WindingToFloat(w: Winding): (r: real)
    ensures r == 1.0 || r == -1.0
    ensures r > 0.0 <==> w == Clockwise
  {
    match w
    case Clockwise => 1.0
    case Counterclockwise => -1.0
  }

  /** `normalized_angle_unsigned_excl`: wrap an angle into [0, TAU), as
      `((angle % TAU) + TAU) % TAU`. */
  function NormalizedAngleUnsignedExcl(angle: real): (r: real)
    ensures 0.0 <= r < TAU
  {
    RemTau(RemTau(angle) + TAU)
  }

  /** `normalized_angle_unsigned_incl`: wrap an angle into [0, TAU], leaving
      angles already in that range (TAU included) untouched. */
  function NormalizedAngleUnsignedIncl(angle: real): (r: real)
    ensures 0.0 <= r <= TAU
  {
    if angle < 0.0 then
      RemTau(RemTau(angle) + TAU)
    else if angle > TAU then
      RemTau(angle)
    else
      angle
  }

  /** The exclusive normaliser is the floor modulo: although Rust's `%`
      truncates, adding one turn before the second `%` corrects negative
      inputs. */
  lemma ExclIsFloorModulo(angle: real)
    ensures NormalizedAngleUnsignedExcl(angle) == FloorModTau(angle)
  {
    var r := NormalizedAngleUnsignedExcl(angle);
    var inner := RemTau(angle);
    var k1 := Trunc(angle / TAU);
    var k2 := Trunc((inner + TAU) / TAU);
    assert r == angle - TAU * (k1 + k2 - 1) as real;
    var f := (angle / TAU).Floor;
    assert FloorModTau(angle) == angle - TAU * f as real;
    SameTurn(r, FloorModTau(angle), f - (k1 + k2 - 1));
  }

  /** Adding whole turns to the input does not change the exclusive
      normaliser's result. */
  lemma ExclPeriodic(angle: real, turns: int)
    ensures NormalizedAngleUnsignedExcl(angle + TAU * turns as real) == NormalizedAngleUnsignedExcl(angle)
  {
    var shifted := angle + TAU * turns as real;
    ExclIsFloorModulo(angle);
    ExclIsFloorModulo(shifted);
    assert shifted / TAU == angle / TAU + turns as real;
    assert (shifted / TAU).Floor == (angle / TAU).Floor + turns;
  }

  /** An angle already in [0, TAU) is its own exclusive normal form; TAU itself
      wraps to 0. */
  lemma ExclFixesOneTurn(angle: real)
    requires 0.0 <= angle < TAU
    ensures NormalizedAngleUnsignedExcl(angle) == angle
    ensures NormalizedAngleUnsignedExcl(TAU) == 0.0
  {
  }

  /** The inclusive normaliser returns every angle of [0, TAU] unchanged, so
      TAU stays TAU. */
  lemma InclKeepsClosedTurn(angle: real)
    requires 0.0 <= angle <= TAU
    ensures NormalizedAngleUnsignedIncl(angle) == angle
    ensures NormalizedAngleUnsignedIncl(TAU) == TAU
  {
  }

  /** Outside [0, TAU] the inclusive normaliser agrees with the exclusive one,
      so its result lies in [0, TAU). */
  lemma InclOutsideTurn(angle: real)
    requires angle < 0.0 || angle > TAU
    ensures NormalizedAngleUnsignedIncl(angle) == NormalizedAngleUnsignedExcl(angle)
    ensures 0.0 <= NormalizedAngleUnsignedIncl(angle) < TAU
  {
  }

  /** Just past one turn, the inclusive normaliser wraps to the small excess:
      TAU + d becomes d. */
  lemma InclWrapsPastTurn(excess: real)
    requires 0.0 < excess < TAU
    ensures NormalizedAngleUnsignedIncl(TAU + excess) == excess
  {
  }
}

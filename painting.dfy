/**
 * The drawing vocabulary of the widget code: positions, colours, strokes,
 * the shapes it hands to the UI painter, and the painter itself, which only
 * records what it is given.
 */
module Painting {
  import opened Numerics

  /** `emath::Pos2`. */
  datatype Pos2 = Pos2(x: real, y: real)

  /** `epaint::Color32`. */
  datatype Color32 = Color32(r: bv8, g: bv8, b: bv8, a: bv8)

  /** `epaint::Stroke`: a line width and a colour. */
  datatype Stroke = Stroke(width: real, color: Color32)

  /** The `epaint::Shape` constructors the shape code uses. */
  datatype Command =
    | ConvexPolygon(points: seq<Pos2>, fill: Color32, outline: Stroke)
    | ClosedLine(points: seq<Pos2>, stroke: Stroke)
    | LineSegment(from: Pos2, to: Pos2, stroke: Stroke)

  /** `center + Vec2::angled(angle) * distance`: the point at `distance` from
      `center` in direction `angle`. */
  function PolarPoint(m: MathLib, center: Pos2, angle: real, distance: real): (p: Pos2)
    ensures distance == 0.0 ==> p == center
  {
    var direction := m.angled(angle);
    Pos2(center.x + direction.0 * distance, center.y + direction.1 * distance)
  }

  /** The UI painter (`ui.painter()`), reduced to the list of shapes added to
      it, in order. */
  class Painter {
    var commands: seq<Command>

    constructor ()
      ensures commands == []
    {
      commands := [];
    }

    /** `Painter::add`. */
    method Add(c: Command)
      modifies this
      ensures commands == old(commands) + [c]
    {
      commands := commands + [c];
    }
  }
}

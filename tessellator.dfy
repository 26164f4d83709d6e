/**
 * `WidgetShape::paint_shape` and `WidgetShape::paint_arc`: sample a shape at
 * a fixed resolution and hand the UI painter a fan of triangles or a strip of
 * quads, then the outline (egui_extras_xt/src/common.rs).
 */
module Tessellator {
  import opened Numerics
  import opened Itertools
  import opened Painting
  import opened WidgetShapes

  /** `WidgetShape::RESOLUTION`: samples per full turn, and per arc. */
  const RESOLUTION: nat := 32

  /** Arcs whose ends are this close are drawn as a single line segment. */
  const DEGENERATE_SPAN: real := 0.001

  /** The least inner radius of an arc band. */
  const MIN_INNER_RADIUS: real := 0.1

  /** The point of the shape's outline in direction `angle`, at nominal
      radius `radius`, with the shape turned by `rotationAngle`. */
  function ShapePoint(m: MathLib, s: Shape, center: Pos2, radius: real, angle: real, rotationAngle: real): Pos2
    requires Valid(s)
  {
    ScaledPolarPoint(m, center, angle, radius, Eval(m, s, angle - rotationAngle))
  }

  /** `center + Vec2::angled(angle) * radius * shapeRadius`. */
  function ScaledPolarPoint(m: MathLib, center: Pos2, angle: real, radius: real, shapeRadius: real): Pos2
  {
    PolarPoint(m, center, angle, radius * shapeRadius)
  }

  /** The angle of the i-th outline sample: `(i / RESOLUTION) * TAU`. */
  function OutlineAngle(i: nat): real
  {
    (i as real / RESOLUTION as real) * TAU
  }

  /** The i-th outline point of `paint_shape`. */
  function OutlinePoint(m: MathLib, s: Shape, center: Pos2, radius: real, rotationAngle: real, i: nat): Pos2
    requires Valid(s)
  {
    ShapePoint(m, s, center, radius, OutlineAngle(i), rotationAngle)
  }

  /** The outline points of `paint_shape`, one per sample over a full turn. */
  function OutlinePoints(m: MathLib, s: Shape, center: Pos2, radius: real, rotationAngle: real): seq<Pos2>
    requires Valid(s)
  {
    seq(RESOLUTION, i requires 0 <= i < RESOLUTION => OutlinePoint(m, s, center, radius, rotationAngle, i))
  }

  /** The angle of the i-th arc sample: `lerp(start..=end, i / RESOLUTION)`. */
  function ArcAngle(m: MathLib, startAngle: real, endAngle: real, i: nat): real
  {
    m.lerp(startAngle, endAngle, i as real / RESOLUTION as real)
  }

  /** The i-th point of an arc of `paint_arc` at nominal radius `radius`. */
  function ArcPoint(m: MathLib, s: Shape, center: Pos2, radius: real, startAngle: real, endAngle: real,
                    rotationAngle: real, i: nat): Pos2
    requires Valid(s)
  {
    ShapePoint(m, s, center, radius, ArcAngle(m, startAngle, endAngle, i), rotationAngle)
  }

  /** The points of one arc of `paint_arc`, `RESOLUTION + 1` samples from the
      start angle to the end angle. */
  function ArcPoints(m: MathLib, s: Shape, center: Pos2, radius: real, startAngle: real, endAngle: real,
                     rotationAngle: real): seq<Pos2>
    requires Valid(s)
  {
    seq(RESOLUTION + 1, i requires 0 <= i <= RESOLUTION =>
      ArcPoint(m, s, center, radius, startAngle, endAngle, rotationAngle, i))
  }

  /** The stroke of each filled piece: one unit wide, in the fill colour. */
  function FillStroke(fill: Color32): Stroke
  {
    Stroke(1.0, fill)
  }

  /** One triangle per circular pair of outline points, all sharing the centre. */
  function FanTriangles(center: Pos2, outline: seq<Pos2>, fill: Color32): seq<Command>
  {
    var windows := CircularTupleWindows(outline);
    seq(|windows|, i requires 0 <= i < |windows| =>
      ConvexPolygon([center, windows[i].0, windows[i].1], fill, FillStroke(fill)))
  }

  /** One quad per consecutive pair of (outer, inner) point pairs. */
  function QuadStrip(outerArc: seq<Pos2>, innerArc: seq<Pos2>, fill: Color32): seq<Command>
  {
    var windows := TupleWindows(Zip(outerArc, innerArc));
    seq(|windows|, i requires 0 <= i < |windows| =>
      ConvexPolygon([windows[i].0.0, windows[i].0.1, windows[i].1.1, windows[i].1.0], fill, FillStroke(fill)))
  }

  /** Everything `paint_shape` adds to the painter, in order. */
  function ShapeCommands(m: MathLib, s: Shape, center: Pos2, radius: real, fill: Color32, stroke: Stroke,
                         rotationAngle: real): (commands: seq<Command>)
    requires Valid(s)
    ensures |commands| == RESOLUTION + 1
    ensures forall i :: 0 <= i < RESOLUTION ==> commands[i].ConvexPolygon? && |commands[i].points| == 3
    ensures commands[RESOLUTION] == ClosedLine(OutlinePoints(m, s, center, radius, rotationAngle), stroke)
  {
    var outline := OutlinePoints(m, s, center, radius, rotationAngle);
    FanTrianglesAt(center, outline, fill);
    FanTriangles(center, outline, fill) + [ClosedLine(outline, stroke)]
  }

  /** Everything `paint_arc` adds to the painter, in order. */
  function ArcCommands(m: MathLib, s: Shape, center: Pos2, innerRadius: real, outerRadius: real,
                       startAngle: real, endAngle: real, fill: Color32, stroke: Stroke,
                       rotationAngle: real): (commands: seq<Command>)
    requires Valid(s)
    ensures m.almostEqual(startAngle, endAngle, DEGENERATE_SPAN) ==> |commands| == 1 && commands[0].LineSegment?
    ensures !m.almostEqual(startAngle, endAngle, DEGENERATE_SPAN) ==>
      && |commands| == RESOLUTION + 1
      && (forall i :: 0 <= i < RESOLUTION ==> commands[i].ConvexPolygon? && |commands[i].points| == 4)
      && commands[RESOLUTION].ClosedLine?
    ensures commands[|commands| - 1].stroke == stroke
  {
    if m.almostEqual(startAngle, endAngle, DEGENERATE_SPAN) then
      [LineSegment(ShapePoint(m, s, center, innerRadius, startAngle, rotationAngle),
                   ShapePoint(m, s, center, outerRadius, startAngle, rotationAngle),
                   stroke)]
    else
      var outerArc := ArcPoints(m, s, center, outerRadius, startAngle, endAngle, rotationAngle);
      var innerArc := ArcPoints(m, s, center, Max(innerRadius, MIN_INNER_RADIUS), startAngle, endAngle, rotationAngle);
      QuadStripAt(outerArc, innerArc, fill);
      QuadStrip(outerArc, innerArc, fill) + [ClosedLine(outerArc + Reversed(innerArc), stroke)]
  }

  /** Collects the outline points of `paint_shape` one sample at a time. */
  method CollectOutline(m: MathLib, s: Shape, center: Pos2, radius: real, rotationAngle: real)
    returns (points: seq<Pos2>)
    requires Valid(s)
    ensures points == OutlinePoints(m, s, center, radius, rotationAngle)
  {
    points := [];
    var i := 0;
    while i < RESOLUTION
      invariant 0 <= i <= RESOLUTION
      invariant points == OutlinePoints(m, s, center, radius, rotationAngle)[..i]
    {
      var angle := (i as real / RESOLUTION as real) * TAU;
      points := points + [ShapePoint(m, s, center, radius, angle, rotationAngle)];
      i := i + 1;
    }
  }

  /** Collects the points of one arc of `paint_arc` one sample at a time. */
  method CollectArc(m: MathLib, s: Shape, center: Pos2, radius: real, startAngle: real, endAngle: real,
                    rotationAngle: real)
    returns (points: seq<Pos2>)
    requires Valid(s)
    ensures points == ArcPoints(m, s, center, radius, startAngle, endAngle, rotationAngle)
  {
    points := [];
    var i := 0;
    while i <= RESOLUTION
      invariant 0 <= i <= RESOLUTION + 1
      invariant points == ArcPoints(m, s, center, radius, startAngle, endAngle, rotationAngle)[..i]
    {
      var angle := m.lerp(startAngle, endAngle, i as real / RESOLUTION as real);
      points := points + [ShapePoint(m, s, center, radius, angle, rotationAngle)];
      i := i + 1;
    }
  }

  /** `paint_shape`: fills the shape as a triangle fan around its centre, then
      strokes its closed outline on top. */
  method PaintShape(painter: Painter, m: MathLib, s: Shape, center: Pos2, radius: real, fill: Color32,
                    stroke: Stroke, rotationAngle: real)
    requires Valid(s)
    modifies painter
    ensures painter.commands == old(painter.commands) + ShapeCommands(m, s, center, radius, fill, stroke, rotationAngle)
  {
    var outline := CollectOutline(m, s, center, radius, rotationAngle);
    ghost var fan := FanTriangles(center, outline, fill);
    var windows := CircularTupleWindows(outline);
    var i := 0;
    while i < |windows|
      invariant 0 <= i <= |windows| == |fan|
      invariant painter.commands == old(painter.commands) + fan[..i]
    {
      painter.Add(ConvexPolygon([center, windows[i].0, windows[i].1], fill, FillStroke(fill)));
      assert fan[..i + 1] == fan[..i] + [fan[i]];
      i := i + 1;
    }
    assert fan[..i] == fan;
    painter.Add(ClosedLine(outline, stroke));
  }

  /** `paint_arc`: an arc band between two radii over an angular span, filled
      as a strip of quads and outlined; a span whose ends almost coincide is
      drawn as one radial line segment instead. */
  method PaintArc(painter: Painter, m: MathLib, s: Shape, center: Pos2, innerRadius: real, outerRadius: real,
                  startAngle: real, endAngle: real, fill: Color32, stroke: Stroke, rotationAngle: real)
    requires Valid(s)
    modifies painter
    ensures painter.commands == old(painter.commands)
      + ArcCommands(m, s, center, innerRadius, outerRadius, startAngle, endAngle, fill, stroke, rotationAngle)
  {
    if m.almostEqual(startAngle, endAngle, DEGENERATE_SPAN) {
      painter.Add(LineSegment(ShapePoint(m, s, center, innerRadius, startAngle, rotationAngle),
                              ShapePoint(m, s, center, outerRadius, startAngle, rotationAngle),
                              stroke));
      return;
    }

    var flooredInner := Max(innerRadius, MIN_INNER_RADIUS);
    var outerArc := CollectArc(m, s, center, outerRadius, startAngle, endAngle, rotationAngle);
    var innerArc := CollectArc(m, s, center, flooredInner, startAngle, endAngle, rotationAngle);

    ghost var strip := QuadStrip(outerArc, innerArc, fill);
    var windows := TupleWindows(Zip(outerArc, innerArc));
    var i := 0;
    while i < |windows|
      invariant 0 <= i <= |windows| == |strip|
      invariant painter.commands == old(painter.commands) + strip[..i]
    {
      var ((outer1, inner1), (outer2, inner2)) := windows[i];
      painter.Add(ConvexPolygon([outer1, inner1, inner2, outer2], fill, FillStroke(fill)));
      assert strip[..i + 1] == strip[..i] + [strip[i]];
      i := i + 1;
    }
    assert strip[..i] == strip;

    var outline := outerArc + Reversed(innerArc);
    painter.Add(ClosedLine(outline, stroke));
  }

  /** Triangle i of the fan joins the centre to outline points i and i + 1,
      the last wrapping around to the first. */
  lemma FanTrianglesAt(center: Pos2, outline: seq<Pos2>, fill: Color32)
    ensures |FanTriangles(center, outline, fill)| == |outline|
    ensures forall i :: 0 <= i < |outline| ==>
      FanTriangles(center, outline, fill)[i]
        == ConvexPolygon([center, outline[i], outline[(i + 1) % |outline|]], fill, FillStroke(fill))
  {
    CircularTupleWindowsAt(outline);
  }

  /** Quad i of the strip is (outer i, inner i, inner i + 1, outer i + 1): one
      quad fewer than there are points on each arc. */
  lemma QuadStripAt(outerArc: seq<Pos2>, innerArc: seq<Pos2>, fill: Color32)
    requires |outerArc| == |innerArc| >= 1
    ensures |QuadStrip(outerArc, innerArc, fill)| == |outerArc| - 1
    ensures forall i :: 0 <= i < |outerArc| - 1 ==>
      QuadStrip(outerArc, innerArc, fill)[i]
        == ConvexPolygon([outerArc[i], innerArc[i], innerArc[i + 1], outerArc[i + 1]], fill, FillStroke(fill))
  {
    ZipAt(outerArc, innerArc);
    TupleWindowsAt(Zip(outerArc, innerArc));
  }

  /** `paint_shape` adds `RESOLUTION` triangles and then one closed line
      through the `RESOLUTION` outline points in order; triangle i joins the
      centre to outline points i and i + 1, the last wrapping to the first. */
  lemma ShapeCommandsLayout(m: MathLib, s: Shape, center: Pos2, radius: real, fill: Color32, stroke: Stroke,
                            rotationAngle: real)
    requires Valid(s)
    ensures var commands := ShapeCommands(m, s, center, radius, fill, stroke, rotationAngle);
      var outline := OutlinePoints(m, s, center, radius, rotationAngle);
      && |outline| == RESOLUTION
      && |commands| == RESOLUTION + 1
      && (forall i :: 0 <= i < RESOLUTION ==>
            commands[i] == ConvexPolygon([center, outline[i], outline[(i + 1) % RESOLUTION]], fill, FillStroke(fill)))
      && commands[RESOLUTION] == ClosedLine(outline, stroke)
  {
    FanTrianglesAt(center, OutlinePoints(m, s, center, radius, rotationAngle), fill);
  }

  /** The outline samples of `paint_shape` are spread over one turn, starting
      at angle 0, in increasing order. */
  lemma OutlineAnglesCoverTurn(i: nat, j: nat)
    requires i < j < RESOLUTION
    ensures OutlineAngle(0) == 0.0
    ensures 0.0 <= OutlineAngle(i) < OutlineAngle(j) < TAU
  {
  }

  /** Passing a rotation to `paint_shape` draws what painting the `Rotated`
      shape without rotation draws. */
  lemma RotationIsRotatedShape(m: MathLib, s: Shape, center: Pos2, radius: real, fill: Color32, stroke: Stroke,
                               rotationAngle: real)
    requires Valid(s)
    ensures ShapeCommands(m, s, center, radius, fill, stroke, rotationAngle)
         == ShapeCommands(m, Rotated(s, rotationAngle), center, radius, fill, stroke, 0.0)
  {
    var rotated := Rotated(s, rotationAngle);
    forall i | 0 <= i < RESOLUTION
      ensures OutlinePoint(m, s, center, radius, rotationAngle, i) == OutlinePoint(m, rotated, center, radius, 0.0, i)
    {
      ShapePointRotated(m, s, center, radius, OutlineAngle(i), rotationAngle);
    }
    assert OutlinePoints(m, s, center, radius, rotationAngle) == OutlinePoints(m, rotated, center, radius, 0.0);
  }

  /** A sample of `s` under rotation `r` is the sample of `Rotated(s, r)`
      under no rotation. */
  lemma ShapePointRotated(m: MathLib, s: Shape, center: Pos2, radius: real, angle: real, rotationAngle: real)
    requires Valid(s)
    ensures ShapePoint(m, s, center, radius, angle, rotationAngle)
         == ShapePoint(m, Rotated(s, rotationAngle), center, radius, angle, 0.0)
  {
    assert Eval(m, Rotated(s, rotationAngle), angle - 0.0) == Eval(m, s, angle - rotationAngle);
  }

  /** When `almost_equal(start, end, 0.001)` holds, `paint_arc` adds a single
      line segment at the start angle from the inner-radius point to the
      outer-radius point, the inner radius not floored, and nothing else; this
      is always the case when the two angles are equal. */
  lemma ArcCommandsDegenerate(m: MathLib, s: Shape, center: Pos2, innerRadius: real, outerRadius: real,
                              startAngle: real, endAngle: real, fill: Color32, stroke: Stroke,
                              rotationAngle: real)
    requires Valid(s)
    requires m.almostEqual(startAngle, endAngle, DEGENERATE_SPAN) || (AlmostEqualReflexive(m) && startAngle == endAngle)
    ensures ArcCommands(m, s, center, innerRadius, outerRadius, startAngle, endAngle, fill, stroke, rotationAngle)
         == [LineSegment(ShapePoint(m, s, center, innerRadius, startAngle, rotationAngle),
                         ShapePoint(m, s, center, outerRadius, startAngle, rotationAngle),
                         stroke)]
  {
  }

  /** Otherwise `paint_arc` first adds `RESOLUTION` quads. The outer and the
      inner arc hold `RESOLUTION + 1` points each, the inner one at radius
      `max(innerRadius, 0.1)`; quad i is (outer i, inner i, inner i + 1,
      outer i + 1). */
  lemma ArcCommandsQuads(m: MathLib, s: Shape, center: Pos2, innerRadius: real, outerRadius: real,
                         startAngle: real, endAngle: real, fill: Color32, stroke: Stroke,
                         rotationAngle: real)
    requires Valid(s)
    requires !m.almostEqual(startAngle, endAngle, DEGENERATE_SPAN)
    ensures var commands := ArcCommands(m, s, center, innerRadius, outerRadius, startAngle, endAngle, fill, stroke, rotationAngle);
      var outerArc := ArcPoints(m, s, center, outerRadius, startAngle, endAngle, rotationAngle);
      var innerArc := ArcPoints(m, s, center, Max(innerRadius, MIN_INNER_RADIUS), startAngle, endAngle, rotationAngle);
      && |outerArc| == |innerArc| == RESOLUTION + 1
      && |commands| == RESOLUTION + 1
      && forall i :: 0 <= i < RESOLUTION ==>
           commands[i] == ConvexPolygon([outerArc[i], innerArc[i], innerArc[i + 1], outerArc[i + 1]], fill, FillStroke(fill))
  {
    var outerArc := ArcPoints(m, s, center, outerRadius, startAngle, endAngle, rotationAngle);
    var innerArc := ArcPoints(m, s, center, Max(innerRadius, MIN_INNER_RADIUS), startAngle, endAngle, rotationAngle);
    QuadStripAt(outerArc, innerArc, fill);
  }

  /** ... and then, last, one closed line that runs along the whole outer arc
      and back along the inner arc: `2 * (RESOLUTION + 1)` points. */
  lemma ArcCommandsOutline(m: MathLib, s: Shape, center: Pos2, innerRadius: real, outerRadius: real,
                           startAngle: real, endAngle: real, fill: Color32, stroke: Stroke,
                           rotationAngle: real)
    requires Valid(s)
    requires !m.almostEqual(startAngle, endAngle, DEGENERATE_SPAN)
    ensures var commands := ArcCommands(m, s, center, innerRadius, outerRadius, startAngle, endAngle, fill, stroke, rotationAngle);
      var outerArc := ArcPoints(m, s, center, outerRadius, startAngle, endAngle, rotationAngle);
      var innerArc := ArcPoints(m, s, center, Max(innerRadius, MIN_INNER_RADIUS), startAngle, endAngle, rotationAngle);
      && |commands| == RESOLUTION + 1
      && commands[RESOLUTION].ClosedLine?
      && commands[RESOLUTION].stroke == stroke
      && |commands[RESOLUTION].points| == 2 * (RESOLUTION + 1)
      && (forall i :: 0 <= i <= RESOLUTION ==> commands[RESOLUTION].points[i] == outerArc[i])
      && (forall j :: RESOLUTION < j < 2 * (RESOLUTION + 1) ==>
            commands[RESOLUTION].points[j] == innerArc[2 * RESOLUTION + 1 - j])
  {
    var outerArc := ArcPoints(m, s, center, outerRadius, startAngle, endAngle, rotationAngle);
    var innerArc := ArcPoints(m, s, center, Max(innerRadius, MIN_INNER_RADIUS), startAngle, endAngle, rotationAngle);
    QuadStripAt(outerArc, innerArc, fill);
    ReversedAt(innerArc);
  }
}

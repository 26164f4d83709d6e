# Widget shapes of egui_extras_xt, modelled in Dafny

This project models the shape engine of the `egui_extras_xt` widget crate
(`egui_extras_xt/src/common.rs`). Knobs, compasses and markers use it to draw
outlines that are not rectangles.

- `WidgetShape` is a polar shape: an expression tree (`Circle`, `Square`,
  `Squircle`, `Polygon`, `SuperPolygon`, `Rotated`, `Mix`, `Custom`).
  `eval` turns it into a radius multiplier for each angle. It asserts on bad
  parameters.
- `paint_shape` samples the shape `RESOLUTION` (32) times over a full turn.
  It paints a triangle fan around the centre, then the closed outline.
- `paint_arc` paints a band between two radii over an angular span. It uses
  a strip of quads between an outer and an inner arc of 33 samples each,
  then the outline: outer arc forward, inner arc backward. When the span's
  ends are almost equal it draws one radial line segment instead.
- `MarkerShape::Star` paints a star polygon whose corners alternate between
  ray tips and notches.
- `normalized_angle_unsigned_excl` and `_incl` wrap angles into one turn.
  `Winding::to_float` gives a winding's sign.

Modules, one per concern:

- `Numerics` (numerics.dfy): `TAU`, and Rust's float `%` as the truncated
  remainder `x - TAU * trunc(x / TAU)`. Also `MathLib`, the library functions
  the code calls but that are not modelled.
- `Angles` (angles.dfy): the two angle normalisers and `Winding`.
- `Itertools` (itertools.dfy): reference definitions of the iterator adaptors
  the painter chains together. These are `zip`, `tuple_windows`,
  `circular_tuple_windows`, `rev` and `interleave`, each with an index lemma.
- `Painting` (painting.dfy): points, colours, strokes, the draw commands, and
  a `Painter` class that records the commands added to it.
- `WidgetShapes` (shapes.dfy): the shape tree, its validity predicate, the
  assertion that evaluation trips first, and `Eval`.
- `Tessellator` (tessellator.dfy): the sampled points and the command
  sequence each paint method produces, as functions. `PaintShape` and
  `PaintArc` are methods that append to a `Painter` in loops and are proved
  to append exactly those sequences.
- `Markers` (markers.dfy): the star marker.

How the model treats numbers and library calls:

- Every f32 is a `real`. `TAU` is the exact value of the f32 constant.
- `cos`, `sin`, `asin`, `powf`, the reciprocal `1.0 / x`, `Vec2::angled`,
  `emath::lerp` and `emath::almost_equal` are the function-typed fields of a
  `MathLib` value passed as a parameter. So every result holds whatever those
  functions compute. The only fact assumed about `almost_equal` is that equal
  numbers are almost equal (`AlmostEqualReflexive`), and only where a lemma
  says so.
- A painter rotation `Rot2` enters as its angle,
  `(rotation * Vec2::RIGHT).angle()`.
- The parameter assertions of `eval` are the precondition `Valid(s)` over the
  whole tree. `Check` says which assertion fires first when it does not hold.

One detail of the assertions is easy to misread:

- `SuperPolygon` asserts `factor > 0` before it asserts that `factor` lies in
  `0.0..=2.0`. So a factor of exactly 0 is rejected, although the range
  assertion alone would admit it. The model's validity condition is
  `0 < factor <= 2`.

## Model

| member | source | states |
|---|---|---|
| `Angles.WindingToFloat` | egui_extras_xt/src/common.rs:40-47 | the result is 1 or -1, and positive exactly for `Clockwise` |
| `Angles.NormalizedAngleUnsignedExcl` | egui_extras_xt/src/common.rs:352-355 | `((angle % TAU) + TAU) % TAU` with truncating `%` always lands in [0, TAU) |
| `Angles.NormalizedAngleUnsignedIncl` | egui_extras_xt/src/common.rs:357-366 | the three-way branch always lands in [0, TAU] |
| `Angles.ExclIsFloorModulo` | egui_extras_xt/src/common.rs:353-355 | the exclusive normaliser equals the floor modulo `x - TAU * floor(x / TAU)` for every input, negative ones included |
| `Angles.ExclPeriodic` | egui_extras_xt/src/common.rs:353-355 | adding any whole number of turns to the input leaves the result unchanged |
| `Angles.ExclFixesOneTurn` | egui_extras_xt/src/common.rs:353-355 | angles in [0, TAU) are returned unchanged, and TAU wraps to 0 |
| `Angles.InclKeepsClosedTurn` | egui_extras_xt/src/common.rs:358-366 | every angle in [0, TAU] is returned unchanged, so TAU stays TAU |
| `Angles.InclOutsideTurn` | egui_extras_xt/src/common.rs:358-366 | outside [0, TAU] the inclusive normaliser equals the exclusive one, so the result lies in [0, TAU) |
| `Angles.InclWrapsPastTurn` | egui_extras_xt/src/common.rs:361-362 | TAU + d, with 0 < d < TAU, becomes d |
| `Numerics.RemTau` | egui_extras_xt/src/common.rs:354 | Rust's float `% TAU` keeps the sign of the dividend, and its magnitude stays below TAU |
| `Itertools.ZipAt` | egui_extras_xt/src/common.rs:190-192 | `zip` stops at the shorter input; item i pairs the inputs' items i |
| `Itertools.TupleWindowsAt` | egui_extras_xt/src/common.rs:193 | `tuple_windows` yields n - 1 pairs (none below 2 items); pair i is items i and i + 1 |
| `Itertools.CircularTupleWindowsAt` | egui_extras_xt/src/common.rs:131-133 | `circular_tuple_windows` yields n pairs; pair i is items i and (i + 1) mod n |
| `Itertools.ReversedAt` | egui_extras_xt/src/common.rs:204 | `rev` keeps the length and puts item n - 1 - i at position i |
| `Itertools.InterleaveAt` | egui_extras_xt/src/common.rs:332 | `interleave` of equal-length inputs puts a[k] at 2k and b[k] at 2k + 1 |
| `WidgetShapes.Valid` | egui_extras_xt/src/common.rs:82-98 | the parameter assertions over the whole tree, since evaluation visits every node: squircle factor > 0; polygon sides >= 3; super-polygon sides >= 3, factor > 0 and factor in [0, 2]; composites valid when their children are |
| `WidgetShapes.Check` | egui_extras_xt/src/common.rs:82-98 | the first assertion `eval` trips, in its evaluation order: a node's own assertions top to bottom, a `Mix`'s first child before its second; `Pass` when none does |
| `WidgetShapes.CheckPassesIffValid` | egui_extras_xt/src/common.rs:82-98 | evaluation trips none of the parameter assertions exactly when every node is valid: squircle factor > 0; polygon sides >= 3; super-polygon sides >= 3 and 0 < factor <= 2 |
| `WidgetShapes.Eval` | egui_extras_xt/src/common.rs:78-111 | `eval`: requires `Valid(s)` (the assertions as a precondition) and follows the eight `match` arms; the leaf radii of `Square`, `Squircle`, `Polygon` and `SuperPolygon` are written over the unmodelled `MathLib` functions (cos, sin, asin, powf, reciprocal); `Rotated` and `Mix` recurse; `Custom` calls its callback |
| `WidgetShapes.EvalCircle` | egui_extras_xt/src/common.rs:80 | a circle evaluates to 1 at every angle |
| `WidgetShapes.EvalCustom` | egui_extras_xt/src/common.rs:109 | a custom shape is always valid and returns its callback's value unchanged |
| `WidgetShapes.EvalRotated` | egui_extras_xt/src/common.rs:105 | `Rotated(s, r)` at θ is `s` at θ - r; rotations compose by adding; rotating by 0 changes nothing |
| `WidgetShapes.EvalMixEndpoints` | egui_extras_xt/src/common.rs:106-108 | `Mix(a, b, 0)` is exactly `a`, `Mix(a, b, 1)` is exactly `b`, and `Mix(a, a, t)` is `a` |
| `WidgetShapes.EvalMixBetween` | egui_extras_xt/src/common.rs:106-108 | for 0 <= t <= 1 a mix lies between its two children's radii |
| `Painting.PolarPoint` | egui_extras_xt/src/common.rs:126 | `center + Vec2::angled(angle) * distance`, with `Vec2::angled` unmodelled; a zero distance gives the centre itself |
| `Painting.Painter.Add` | egui_extras_xt/src/common.rs:142 | adding a shape appends it to the painter's command list |
| `Tessellator.CollectOutline` | egui_extras_xt/src/common.rs:122-128 | the collected outline is the 32 samples at angles (i / 32) · TAU, each evaluated at the angle minus the rotation |
| `Tessellator.CollectArc` | egui_extras_xt/src/common.rs:175-181 | the collected arc is the 33 samples at `lerp(start..=end, i / 32)` |
| `Tessellator.FanTrianglesAt` | egui_extras_xt/src/common.rs:131-140 | one triangle per outline point; triangle i is (centre, p_i, p_(i+1) mod n), stroked one unit wide in the fill colour |
| `Tessellator.QuadStripAt` | egui_extras_xt/src/common.rs:190-200 | one quad fewer than arc points; quad i is (outer_i, inner_i, inner_(i+1), outer_(i+1)) |
| `Tessellator.ShapeCommands` | egui_extras_xt/src/common.rs:122-142 | the commands `paint_shape` adds, in order: `RESOLUTION` triangles (three-point convex polygons), then the closed line through the outline points |
| `Tessellator.PaintShape` | egui_extras_xt/src/common.rs:113-143 | the painter gains exactly the fan triangles and then the closed outline |
| `Tessellator.ShapeCommandsLayout` | egui_extras_xt/src/common.rs:122-142 | `paint_shape` adds 32 triangles, triangle i being (centre, p_i, p_(i+1) mod 32), then one closed line through the 32 points in order |
| `Tessellator.OutlineAnglesCoverTurn` | egui_extras_xt/src/common.rs:124 | the sample angles start at 0, increase, and stay below TAU |
| `Tessellator.ShapePointRotated` | egui_extras_xt/src/common.rs:125 | a sample of `s` under rotation r is the sample of `Rotated(s, r)` under no rotation |
| `Tessellator.RotationIsRotatedShape` | egui_extras_xt/src/common.rs:122-142 | painting with a rotation draws the same commands as painting the `Rotated` shape without one |
| `Tessellator.ArcCommands` | egui_extras_xt/src/common.rs:162-208 | the commands `paint_arc` adds, in order: exactly one line segment when `almost_equal(start, end, 0.001)` holds; otherwise `RESOLUTION` four-point quads and then a closed line; the last command always carries the outline stroke |
| `Tessellator.PaintArc` | egui_extras_xt/src/common.rs:145-216 | the painter gains exactly the arc's commands: the line segment on the almost-equal path, else the quads and then the outline |
| `Tessellator.ArcCommandsDegenerate` | egui_extras_xt/src/common.rs:162-173 | when `almost_equal(start, end, 0.001)` holds, or the angles are equal, the only command is one segment from the inner-radius point to the outer-radius point at the start angle; the inner radius is not floored |
| `Tessellator.ArcCommandsQuads` | egui_extras_xt/src/common.rs:175-200 | otherwise both arcs have 33 points sampled at `lerp(start..=end, i / 32)`, the inner one at radius max(inner, 0.1); the first 32 commands are the quads (outer_i, inner_i, inner_(i+1), outer_(i+1)) |
| `Tessellator.ArcCommandsOutline` | egui_extras_xt/src/common.rs:202-208 | otherwise the last command is one closed line of 66 points: the outer arc forward, then the inner arc reversed |
| `Markers.StarPoints` | egui_extras_xt/src/common.rs:311-332 | the star's corners, tips interleaved with notches: `2 * rays` points |
| `Markers.PaintStar` | egui_extras_xt/src/common.rs:304-335 | needs rays >= 2 and 0 <= ratio <= 1; adds exactly one polygon whose corners are tips and notches interleaved |
| `Markers.StarPointsLayout` | egui_extras_xt/src/common.rs:311-332 | the star has 2 · rays corners; corner 2k is tip k at radius width / 2, and corner 2k + 1 is notch k at `ratio` times that radius, half a step further round |
| `Markers.StarAnglesAlternate` | egui_extras_xt/src/common.rs:313-326 | the first tip points at -TAU / 4, and consecutive corners are TAU / (2 · rays) apart |

## Left out

- The radii of `Square`, `Squircle`, `Polygon` and `SuperPolygon` (common.rs:81-104) are written out over the unmodelled `cos`, `sin`, `asin`, `powf` and reciprocal. Nothing is proved about them: not non-negativity, not finiteness, not the values of `Polygon(4)`. These are transcendental f32 computations.
- Floating point is not modelled: rounding, NaN, infinities (such as `1 / |sin 0|` in `Square`), and the NaN rules of `f32::min` and `f32::max`. `Mix` at weight 0 or 1 is exact over the reals. In f32 it is exact only when the other child's value is finite.
- `emath::almost_equal`, `emath::lerp` and `Vec2::angled` are library code and are left unmodelled. Only the reflexivity of `almost_equal` is used, and only where a lemma states it as a hypothesis.
- `Rot2` and `Orientation::rot2` (common.rs:20-30) are emath rotations. The model takes the rotation's angle directly.
- `MarkerShape::paint` branches other than `Star`, including the `Emoji` text (common.rs:237-303, 337-345), are direct painter calls with no logic of their own.
- `WrapMode` (common.rs:51-56) has no behaviour in this file.
- The painter only records the commands it receives. Rasterisation, batching and the UI context are not modelled.
- The itertools adaptors are library code. Their reference definitions here follow how each adaptor yields items: `circular_tuple_windows` is `tuple_windows` over the input cycled one item past its end.
- `PaintArc` builds its outline (`chain` of the outer arc and the reversed inner arc) with `+` on sequences, not item by item.
- `Custom` closures are pure functions. Their lifetimes and ownership are not modelled.
- `egui-knobs/src/lib.rs` only re-exports modules. `ui_extensions.rs` and `breadcrumb_bar.rs` are example applications with no logic of their own.

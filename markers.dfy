/**
 * The star branch of `MarkerShape::paint`: a star with `rays` points drawn
 * as one polygon whose corners alternate between an outer and an inner circle
 * (egui_extras_xt/src/common.rs).
 */
module Markers {
  import opened Numerics
  import opened Itertools
  import opened Painting

  /** `emath::Rect`: its two corners. */
  datatype Rect = Rect(min: Pos2, max: Pos2)

  function Width(r: Rect): real { r.max.x - r.min.x }

  function Center(r: Rect): Pos2 { Pos2((r.min.x + r.max.x) / 2.0, (r.min.y + r.max.y) / 2.0) }

  /** The star's parameter assertions: at least two rays, and an inner-to-outer
      radius ratio in [0, 1]. */
  predicate ValidStar(rays: nat, ratio: real)
  {
    rays >= 2 && 0.0 <= ratio <= 1.0
  }

  /** The first ray points up: a quarter turn back from angle 0. */
  const STAR_ROTATION: real := -TAU * 0.25

  /** The direction of star corner `k + offset`, `rays` corners per turn. */
  function StarAngle(rays: nat, k: nat, offset: real): real
    requires rays > 0
  {
    STAR_ROTATION + TAU * ((k as real + offset) / rays as real)
  }

  /** The ray tips: on the circle of half the rect's width. */
  function OuterPoints(m: MathLib, rect: Rect, rays: nat): seq<Pos2>
    requires rays > 0
  {
    seq(rays, k requires 0 <= k < rays => PolarPoint(m, Center(rect), StarAngle(rays, k, 0.0), Width(rect) * 0.5))
  }

  /** The notches between the rays: half a step further round, on the circle
      scaled down by `ratio`. */
  function InnerPoints(m: MathLib, rect: Rect, rays: nat, ratio: real): seq<Pos2>
    requires rays > 0
  {
    seq(rays, k requires 0 <= k < rays => PolarPoint(m, Center(rect), StarAngle(rays, k, 0.5), Width(rect) * 0.5 * ratio))
  }

  /** The corners of the star polygon: tips and notches interleaved. */
  function StarPoints(m: MathLib, rect: Rect, rays: nat, ratio: real): (points: seq<Pos2>)
    requires rays > 0
    ensures |points| == 2 * rays
  {
    InterleaveAt(OuterPoints(m, rect, rays), InnerPoints(m, rect, rays, ratio));
    Interleave(OuterPoints(m, rect, rays), InnerPoints(m, rect, rays, ratio))
  }

  /** `MarkerShape::Star(rays, ratio)` painted into `rect`. */
  method PaintStar(painter: Painter, m: MathLib, rect: Rect, rays: nat, ratio: real, fill: Color32, stroke: Stroke)
    requires ValidStar(rays, ratio)
    modifies painter
    ensures painter.commands == old(painter.commands) + [ConvexPolygon(StarPoints(m, rect, rays, ratio), fill, stroke)]
  {
    var outerPoints := OuterPoints(m, rect, rays);
    var innerPoints := InnerPoints(m, rect, rays, ratio);
    painter.Add(ConvexPolygon(Interleave(outerPoints, innerPoints), fill, stroke));
  }

  /** The star polygon has `2 * rays` corners: corner 2k is tip k, in
      direction `-TAU / 4 + TAU * k / rays` at radius `width / 2`; corner
      2k + 1 is notch k, half a step further round at `ratio` times that
      radius. */
  lemma StarPointsLayout(m: MathLib, rect: Rect, rays: nat, ratio: real)
    requires rays > 0
    ensures |StarPoints(m, rect, rays, ratio)| == 2 * rays
    ensures forall k :: 0 <= k < rays ==>
      StarPoints(m, rect, rays, ratio)[2 * k] == PolarPoint(m, Center(rect), StarAngle(rays, k, 0.0), Width(rect) * 0.5)
    ensures forall k :: 0 <= k < rays ==>
      StarPoints(m, rect, rays, ratio)[2 * k + 1] == PolarPoint(m, Center(rect), StarAngle(rays, k, 0.5), Width(rect) * 0.5 * ratio)
  {
    var outer := OuterPoints(m, rect, rays);
    var inner := InnerPoints(m, rect, rays, ratio);
    InterleaveAt(outer, inner);
    var star := StarPoints(m, rect, rays, ratio);
    assert star == Interleave(outer, inner);
    forall k | 0 <= k < rays
      ensures star[2 * k] == PolarPoint(m, Center(rect), StarAngle(rays, k, 0.0), Width(rect) * 0.5)
      ensures star[2 * k + 1] == PolarPoint(m, Center(rect), StarAngle(rays, k, 0.5), Width(rect) * 0.5 * ratio)
    {
      assert star[2 * k] == outer[k];
      assert star[2 * k + 1] == inner[k];
    }
  }

  /** Consecutive corners of the star are half a step of `TAU / rays` apart:
      the notch after tip k, then tip k + 1. */
  lemma StarAnglesAlternate(rays: nat, k: nat)
    requires rays > 0
    ensures StarAngle(rays, 0, 0.0) == -TAU * 0.25
    ensures StarAngle(rays, k, 0.5) - StarAngle(rays, k, 0.0) == TAU / (2.0 * rays as real)
    ensures StarAngle(rays, k + 1, 0.0) - StarAngle(rays, k, 0.5) == TAU / (2.0 * rays as real)
  {
  }
}

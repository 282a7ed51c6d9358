/**
 * The geometric helpers of the edge-geometry crop: the inside test of a vertex
 * against the crop box, and the parametric slab clip that moves the outside
 * vertex of a boundary-crossing edge onto the box.
 *
 * Coordinates are reals. The source computes in 32-bit floats; the values the
 * crop is documented with (0.25, 0.5, 1.5, 1.75, -0.5) are exact in both.
 */
module EdgeClip {

  /** The largest finite 32-bit float, std::numeric_limits<float32>::max(). */
  const FloatMax: real := 340282346638528859811704183484516925440.0

  /** std::numeric_limits<float32>::lowest(), the most negative finite float. */
  const FloatLowest: real := -FloatMax

  /** A coordinate a finite 32-bit float can hold lies in [lowest(), max()]. */
  predicate Finite(c: real)
  {
    FloatLowest <= c <= FloatMax
  }

  datatype Vec3 = Vec3(x: real, y: real, z: real)
  {
    predicate IsFinite()
    {
      Finite(x) && Finite(y) && Finite(z)
    }
  }

  /** The crop box in the order the algorithm stores it:
      (x_min, y_min, z_min, x_max, y_max, z_max). */
  datatype BoundingBox = BoundingBox(xMin: real, yMin: real, zMin: real, xMax: real, yMax: real, zMax: real)

  /** The box built from the crop parameters: a selected axis takes the given
      minimum and maximum, an unselected one the float bounds lowest() and max(). */
  function MakeBoundingBox(cropX: bool, cropY: bool, cropZ: bool, minCoords: seq<real>, maxCoords: seq<real>): BoundingBox
    requires |minCoords| == 3 && |maxCoords| == 3
  {
    BoundingBox(
      if cropX then minCoords[0] else FloatLowest,
      if cropY then minCoords[1] else FloatLowest,
      if cropZ then minCoords[2] else FloatLowest,
      if cropX then maxCoords[0] else FloatMax,
      if cropY then maxCoords[1] else FloatMax,
      if cropZ then maxCoords[2] else FloatMax)
  }

  /** is_inside: each coordinate between its axis's bounds, both bounds included. */
  predicate IsInside(v: Vec3, box: BoundingBox)
  {
    (v.x >= box.xMin && v.x <= box.xMax) && (v.y >= box.yMin && v.y <= box.yMax) && (v.z >= box.zMin && v.z <= box.zMax)
  }

  /** A finite vertex is inside the box of the crop parameters iff it lies within
      [min, max] on every selected axis: an unselected axis never excludes it. */
  lemma InsideIffWithinSelectedAxes(v: Vec3, cropX: bool, cropY: bool, cropZ: bool, minCoords: seq<real>, maxCoords: seq<real>)
    requires |minCoords| == 3 && |maxCoords| == 3 && v.IsFinite()
    ensures IsInside(v, MakeBoundingBox(cropX, cropY, cropZ, minCoords, maxCoords))
      <==> ((cropX ==> minCoords[0] <= v.x <= maxCoords[0])
        && (cropY ==> minCoords[1] <= v.y <= maxCoords[1])
        && (cropZ ==> minCoords[2] <= v.z <= maxCoords[2]))
  {
  }

  function Min(a: real, b: real): real
  {
    if b < a then b else a
  }

  function Max(a: real, b: real): real
  {
    if a < b then b else a
  }

  /** clip never divides by zero: a coordinate both vertices share lies within
      the axis's bounds. Every vertex the algorithm clips from is inside. */
  predicate ClipDefined(v1: real, v2: real, vmin: real, vmax: real)
  {
    v1 == v2 ==> vmin <= v1 <= vmax
  }

  /** clip: narrows the interval [tMin, tMax] of the segment v1 + t * (v2 - v1)
      along one axis, moving towards increasing or decreasing coordinate. */
  function Clip(tMin: real, tMax: real, v1: real, v2: real, vmin: real, vmax: real): (real, real)
    requires ClipDefined(v1, v2, vmin, vmax)
  {
    if v1 < v2 then
      (if v2 < vmin then Max(tMin, (vmin - v1) / (v2 - v1)) else tMin,
       if v2 > vmax then Min(tMax, (vmax - v1) / (v2 - v1)) else tMax)
    else
      (if v2 > vmax then Max(tMin, (vmax - v1) / (v2 - v1)) else tMin,
       if v2 < vmin then Min(tMax, (vmin - v1) / (v2 - v1)) else tMax)
  }

  /** The coordinate at parameter t of the segment from v1 to v2 on one axis. */
  function Along(v1: real, v2: real, t: real): real
  {
    v1 + t * (v2 - v1)
  }

  /** Clipping from a coordinate within the bounds leaves tMin at 0 and keeps
      the new tMax within [0, tMax]: no denominator the clip divides by is zero
      and every quotient it takes is in [0, 1]. */
  lemma ClipFromInside(tMax: real, v1: real, v2: real, vmin: real, vmax: real)
    requires vmin <= v1 <= vmax && 0.0 <= tMax <= 1.0
    ensures Clip(0.0, tMax, v1, v2, vmin, vmax).0 == 0.0
    ensures 0.0 <= Clip(0.0, tMax, v1, v2, vmin, vmax).1 <= tMax
  {
    if v1 < v2 && v2 > vmax {
      QuotientInUnit(vmax - v1, v2 - v1);
    } else if v2 < v1 && v2 < vmin {
      assert (vmin - v1) / (v2 - v1) == (v1 - vmin) / (v1 - v2);
      QuotientInUnit(v1 - vmin, v1 - v2);
    }
  }

  /** 0 <= a <= d with d > 0 gives a / d in [0, 1]. */
  lemma QuotientInUnit(a: real, d: real)
    requires 0.0 <= a <= d && 0.0 < d
    ensures 0.0 <= a / d <= 1.0
  {
    assert (a / d) * d == a;
    assert d / d == 1.0;
  }

  /** Every point of the segment from a coordinate within the bounds, up to the
      clipped tMax, is within the bounds on this axis. */
  lemma ClipPointInside(tMax: real, v1: real, v2: real, vmin: real, vmax: real, t: real)
    requires vmin <= v1 <= vmax && 0.0 <= tMax <= 1.0
    requires 0.0 <= t <= Clip(0.0, tMax, v1, v2, vmin, vmax).1
    ensures vmin <= Along(v1, v2, t) <= vmax
  {
    ClipFromInside(tMax, v1, v2, vmin, vmax);
    if v1 < v2 {
      TowardsMaxInside(v1, v2, vmin, vmax, t);
    } else if v2 < v1 {
      assert v2 < vmin ==> (vmin - v1) / (v2 - v1) == (v1 - vmin) / (v1 - v2);
      TowardsMinInside(v1, v2, vmin, vmax, t);
    }
  }

  /** Moving towards increasing coordinate, a parameter t in [0, 1] that is no
      larger than the quotient at which the segment reaches vmax keeps the point
      between v1 and vmax. */
  lemma TowardsMaxInside(v1: real, v2: real, vmin: real, vmax: real, t: real)
    requires v1 < v2 && vmin <= v1 <= vmax && 0.0 <= t <= 1.0
    requires v2 > vmax ==> t <= (vmax - v1) / (v2 - v1)
    ensures vmin <= v1 + t * (v2 - v1) <= vmax
  {
    ScaleWithinUnit(t, v2 - v1);
    if v2 > vmax {
      DivBound(t, vmax - v1, v2 - v1);
    }
  }

  /** The mirror image of TowardsMaxInside, moving towards decreasing coordinate. */
  lemma TowardsMinInside(v1: real, v2: real, vmin: real, vmax: real, t: real)
    requires v2 < v1 && vmin <= v1 <= vmax && 0.0 <= t <= 1.0
    requires v2 < vmin ==> t <= (v1 - vmin) / (v1 - v2)
    ensures vmin <= v1 + t * (v2 - v1) <= vmax
  {
    ScaleWithinUnit(t, v1 - v2);
    if v2 < vmin {
      DivBound(t, v1 - vmin, v1 - v2);
    }
    assert t * (v2 - v1) == -(t * (v1 - v2));
  }

  /** A step t in [0, 1] along a positive length d covers between 0 and d. */
  lemma ScaleWithinUnit(t: real, d: real)
    requires 0.0 <= t <= 1.0 && 0.0 < d
    ensures 0.0 <= t * d <= d
  {
  }

  /** t <= b / d with d > 0 gives t * d <= b. */
  lemma DivBound(t: real, b: real, d: real)
    requires 0.0 < d && t <= b / d
    ensures t * d <= b
  {
    assert (b / d) * d == b;
    assert t * d <= (b / d) * d;
  }

  /** Every axis of the box can be clipped from the inside vertex. */
  predicate Clippable(inside: Vec3, outside: Vec3, box: BoundingBox)
  {
    ClipDefined(inside.x, outside.x, box.xMin, box.xMax)
    && ClipDefined(inside.y, outside.y, box.yMin, box.yMax)
    && ClipDefined(inside.z, outside.z, box.zMin, box.zMax)
  }

  /** The interval (tMin, tMax) after clipping [0, 1] against the X, Y and Z slabs in turn. */
  function ClipParameters(inside: Vec3, outside: Vec3, box: BoundingBox): (real, real)
    requires Clippable(inside, outside, box)
  {
    var (tMinX, tMaxX) := Clip(0.0, 1.0, inside.x, outside.x, box.xMin, box.xMax);
    var (tMinY, tMaxY) := Clip(tMinX, tMaxX, inside.y, outside.y, box.yMin, box.yMax);
    Clip(tMinY, tMaxY, inside.z, outside.z, box.zMin, box.zMax)
  }

  /** The point at parameter t of the segment from a to b. */
  function Lerp(a: Vec3, b: Vec3, t: real): Vec3
  {
    Vec3(Along(a.x, b.x, t), Along(a.y, b.y, t), Along(a.z, b.z, t))
  }

  /** interpolate_outside_vertex: the point where the segment from the inside
      vertex leaves the box, at the clipped tMax; the outside vertex itself when
      the clipped interval is empty. */
  function InterpolateOutsideVertex(inside: Vec3, outside: Vec3, box: BoundingBox): Vec3
    requires Clippable(inside, outside, box)
  {
    var (tMin, tMax) := ClipParameters(inside, outside, box);
    if tMin > tMax then outside else Lerp(inside, outside, tMax)
  }

  /** From an inside vertex, the clipped interval is [0, t] with t in [0, 1] and
      t no larger than the tMax each slab's clip produced. */
  lemma ClipParametersFromInside(inside: Vec3, outside: Vec3, box: BoundingBox)
    requires IsInside(inside, box)
    ensures Clippable(inside, outside, box)
    ensures var cx := Clip(0.0, 1.0, inside.x, outside.x, box.xMin, box.xMax);
      var cy := Clip(0.0, cx.1, inside.y, outside.y, box.yMin, box.yMax);
      var cz := Clip(0.0, cy.1, inside.z, outside.z, box.zMin, box.zMax);
      && 0.0 <= cz.1 <= cy.1 <= cx.1 <= 1.0
      && ClipParameters(inside, outside, box) == (0.0, cz.1)
  {
    var cx := Clip(0.0, 1.0, inside.x, outside.x, box.xMin, box.xMax);
    ClipFromInside(1.0, inside.x, outside.x, box.xMin, box.xMax);
    var cy := Clip(0.0, cx.1, inside.y, outside.y, box.yMin, box.yMax);
    ClipFromInside(cx.1, inside.y, outside.y, box.yMin, box.yMax);
    ClipFromInside(cy.1, inside.z, outside.z, box.zMin, box.zMax);
  }

  /** From an inside vertex the empty-interval fallback is never taken: the
      interpolated vertex is the point at the clipped tMax, in [0, 1], of the
      segment, and it lies in the box. */
  lemma InterpolateFromInside(inside: Vec3, outside: Vec3, box: BoundingBox)
    requires IsInside(inside, box)
    ensures Clippable(inside, outside, box)
    ensures 0.0 <= ClipParameters(inside, outside, box).1 <= 1.0
    ensures InterpolateOutsideVertex(inside, outside, box)
      == Lerp(inside, outside, ClipParameters(inside, outside, box).1)
    ensures IsInside(InterpolateOutsideVertex(inside, outside, box), box)
  {
    ClipParametersFromInside(inside, outside, box);
    var cx := Clip(0.0, 1.0, inside.x, outside.x, box.xMin, box.xMax);
    var cy := Clip(0.0, cx.1, inside.y, outside.y, box.yMin, box.yMax);
    var t := ClipParameters(inside, outside, box).1;
    ClipPointInside(1.0, inside.x, outside.x, box.xMin, box.xMax, t);
    ClipPointInside(cx.1, inside.y, outside.y, box.yMin, box.yMax, t);
    ClipPointInside(cy.1, inside.z, outside.z, box.zMin, box.zMax, t);
  }

  /** An outside vertex that is in fact inside the box is returned unchanged:
      no slab narrows the interval. */
  lemma InterpolateInsideUnchanged(inside: Vec3, outside: Vec3, box: BoundingBox)
    requires IsInside(inside, box) && IsInside(outside, box)
    ensures InterpolateOutsideVertex(inside, outside, box) == outside
  {
    InterpolateFromInside(inside, outside, box);
    assert ClipParameters(inside, outside, box) == (0.0, 1.0);
  }

  /** An example of the fallback being taken from a vertex outside the box:
      from (2, 0, 0) towards (3, 0, 0) against the unit box the interval becomes
      [0, -1] and the outside vertex is returned as it is. That it is never
      taken from a vertex inside the box is InterpolateFromInside. */
  lemma FallbackNeedsOutsideStart()
    ensures var box := BoundingBox(0.0, 0.0, 0.0, 1.0, 1.0, 1.0);
      var a := Vec3(2.0, 0.0, 0.0);
      var b := Vec3(3.0, 0.0, 0.0);
      && !IsInside(a, box)
      && ClipParameters(a, b, box) == (0.0, -1.0)
      && InterpolateOutsideVertex(a, b, box) == b
  {
    var box := BoundingBox(0.0, 0.0, 0.0, 1.0, 1.0, 1.0);
    assert Clip(0.0, 1.0, 2.0, 3.0, 0.0, 1.0) == (0.0, -1.0);
  }
}

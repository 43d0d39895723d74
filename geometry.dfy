/** Points and axis-aligned bounding boxes: the part of the geometry library
    the packing engine relies on (Vec2/Vec3, BoundingBox, BoundingBox2d). */
module Geometry {
  /** A point or a dimension triple (x = width axis, y = height axis, z = depth axis). */
  datatype Vec3 = Vec3(x: real, y: real, z: real)
  {
    function Add(o: Vec3): Vec3 { Vec3(x + o.x, y + o.y, z + o.z) }
  }

  /** START_POSITION, the minimum corner of every bin. */
  const Origin: Vec3 := Vec3(0.0, 0.0, 0.0)

  predicate NonNeg(v: Vec3) { 0.0 <= v.x && 0.0 <= v.y && 0.0 <= v.z }

  /** Componentwise `p <= q`. */
  predicate Le(p: Vec3, q: Vec3) { p.x <= q.x && p.y <= q.y && p.z <= q.z }

  function Min(a: real, b: real): real { if a <= b then a else b }
  function Max(a: real, b: real): real { if a <= b then b else a }

  /** An axis-aligned box.  A planar box (BoundingBox2d) has no extent along z:
      its z components are 0 and play no part in intersection tests. */
  datatype BBox = BBox(lo: Vec3, hi: Vec3, planar: bool)

  /** The bounding box of the two corner points p and q (BoundingBox([p, q]),
      or BoundingBox2d of their x/y parts when planar). */
  function BoxOf(p: Vec3, q: Vec3, planar: bool): (b: BBox)
    ensures b.planar == planar && Le(b.lo, b.hi)
    ensures !planar && Le(p, q) ==> b == BBox(p, q, false)
    ensures planar && p.x <= q.x && p.y <= q.y ==>
              b == BBox(Vec3(p.x, p.y, 0.0), Vec3(q.x, q.y, 0.0), true)
  {
    if planar then
      BBox(Vec3(Min(p.x, q.x), Min(p.y, q.y), 0.0), Vec3(Max(p.x, q.x), Max(p.y, q.y), 0.0), true)
    else
      BBox(Vec3(Min(p.x, q.x), Min(p.y, q.y), Min(p.z, q.z)),
           Vec3(Max(p.x, q.x), Max(p.y, q.y), Max(p.z, q.z)), false)
  }

  /** Open intervals (alo, ahi) and (blo, bhi) share a point; touching ends do not. */
  predicate Overlap(alo: real, ahi: real, blo: real, bhi: real) { alo < bhi && blo < ahi }

  /** `a.intersect(b)`: the geometry library is not part of this model; it is
      taken to test strict overlap on every axis of the receiving box a, so
      boxes that only share a face do not intersect.  A planar receiver
      compares x and y only. */
  predicate Intersects(a: BBox, b: BBox)
  {
    Overlap(a.lo.x, a.hi.x, b.lo.x, b.hi.x) && Overlap(a.lo.y, a.hi.y, b.lo.y, b.hi.y) &&
    (a.planar || Overlap(a.lo.z, a.hi.z, b.lo.z, b.hi.z))
  }

  /** The anchor `pos` lies in the bin and `pos + dim` does not exceed its extents. */
  predicate Inside(pos: Vec3, dim: Vec3, extents: Vec3)
  {
    NonNeg(pos) && Le(pos.Add(dim), extents)
  }

  /** A box anchored at `pos` with non-negative dimensions lies within
      [origin, extents] whenever its anchor does. */
  lemma InsideBounds(pos: Vec3, dim: Vec3, extents: Vec3, planar: bool)
    requires NonNeg(dim) && Inside(pos, dim, extents)
    ensures var b := BoxOf(pos, pos.Add(dim), planar);
      0.0 <= b.lo.x && 0.0 <= b.lo.y && 0.0 <= b.lo.z &&
      b.hi.x <= extents.x && b.hi.y <= extents.y && (planar || b.hi.z <= extents.z)
  {
  }
}

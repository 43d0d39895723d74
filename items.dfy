/** Items and their rotations (RotationType, Axis, Item, FlatItem). */
module Items {
  import opened Geometry

  /** The six orthogonal orientations, in declaration order. */
  datatype RotationType = WHD | HWD | HDW | DHW | DWH | WDH

  /** Iterating RotationType yields its members in declaration order. */
  const AllRotations: seq<RotationType> := [WHD, HWD, HDW, DHW, DWH, WDH]

  /** Every rotation occurs in AllRotations. */
  lemma AllRotationsComplete()
    ensures forall rt :: rt in AllRotations
  {
    forall rt: RotationType
      ensures rt in AllRotations
    {
      match rt
      case WHD => assert AllRotations[0] == rt;
      case HWD => assert AllRotations[1] == rt;
      case HDW => assert AllRotations[2] == rt;
      case DHW => assert AllRotations[3] == rt;
      case DWH => assert AllRotations[4] == rt;
      case WDH => assert AllRotations[5] == rt;
    }
  }

  datatype Axis = WIDTH | HEIGHT | DEPTH

  /** `get_dimension`: the item's (width, height, depth) laid out along the
      bin's width, height and depth axes under rotation `rt`. */
  function Rotated(width: real, height: real, depth: real, rt: RotationType): Vec3
  {
    match rt
    case WHD => Vec3(width, height, depth)
    case HWD => Vec3(height, width, depth)
    case HDW => Vec3(height, depth, width)
    case DHW => Vec3(depth, height, width)
    case DWH => Vec3(depth, width, height)
    case WDH => Vec3(width, depth, height)
  }

  /** Every rotation lays out a permutation of (width, height, depth); WHD
      is the identity, and WHD and HWD (the two rotations of a flat item)
      keep the depth axis. */
  lemma RotatedIsPermutation(width: real, height: real, depth: real, rt: RotationType)
    ensures var r := Rotated(width, height, depth, rt);
      multiset{r.x, r.y, r.z} == multiset{width, height, depth} &&
      ((rt == WHD || rt == HWD) ==> r.z == depth) &&
      (rt == WHD ==> r == Vec3(width, height, depth))
  {
    match rt
    case WHD =>
    case HWD => Swap12(width, height, depth);
    case HDW => Rotate(width, height, depth);
    case DHW => Swap13(width, height, depth);
    case DWH => Rotate(width, height, depth); Rotate(height, depth, width);
    case WDH => Swap23(width, height, depth);
  }

  lemma Swap12(a: real, b: real, c: real) ensures multiset{a, b, c} == multiset{b, a, c} {}
  lemma Swap23(a: real, b: real, c: real) ensures multiset{a, b, c} == multiset{a, c, b} {}
  lemma Swap13(a: real, b: real, c: real) ensures multiset{a, b, c} == multiset{c, b, a} {}
  lemma Rotate(a: real, b: real, c: real) ensures multiset{a, b, c} == multiset{b, c, a} {}

  /** So the volume (`get_volume`) is the same under every rotation. */
  lemma RotatedVolume(width: real, height: real, depth: real, rt: RotationType)
    ensures var r := Rotated(width, height, depth, rt);
      r.x * r.y * r.z == width * height * depth
  {
    var wh := width * height;
    match rt
    case WHD =>
    case HWD => assert height * width == wh;
    case HDW => assert height * depth * width == wh * depth;
    case DHW => assert depth * height * width == wh * depth;
    case DWH => assert depth * width * height == wh * depth;
    case WDH => assert width * depth * height == wh * depth;
  }

  /** A packable unit.  Its size and weight never change; the packing engine
      moves it (position) and turns it (rotationType), and every such change
      recomputes its bounding box.  A flat item (FlatItem) has depth 1 and a
      planar bounding box. */
  class Item {
    const payload: object?
    const width: real
    const height: real
    const depth: real
    const weight: real
    const flat: bool
    var rotationType: RotationType
    var position: Vec3
    var bbox: BBox

    /** `get_dimension` for the current rotation. */
    function Dimension(): Vec3
      reads this
    {
      Rotated(width, height, depth, rotationType)
    }

    /** `get_volume` (the area of a flat item, whose depth is 1). */
    function Volume(): real
    {
      width * height * depth
    }

    /** The bounding box is never stale: it spans [position, position + Dimension()]. */
    ghost predicate Valid()
      reads this
    {
      bbox == BoxOf(position, position.Add(Dimension()), flat)
    }

    predicate NonNegDims()
    {
      0.0 <= width && 0.0 <= height && 0.0 <= depth
    }

    /** `Item(payload, width, height, depth, weight)` */
    constructor (payload: object?, width: real, height: real, depth: real, weight: real)
      ensures this.payload == payload && this.width == width && this.height == height
      ensures this.depth == depth && this.weight == weight && !flat
      ensures rotationType == WHD && position == Origin && Valid()
    {
      this.payload, this.width, this.height, this.depth := payload, width, height, depth;
      this.weight, this.flat := weight, false;
      rotationType, position := WHD, Origin;
      new;
      UpdateBBox();
    }

    /** `FlatItem(payload, width, height, weight)`: depth fixed to 1. */
    constructor Flat(payload: object?, width: real, height: real, weight: real)
      ensures this.payload == payload && this.width == width && this.height == height
      ensures depth == 1.0 && this.weight == weight && flat
      ensures rotationType == WHD && position == Origin && Valid()
    {
      this.payload, this.width, this.height, this.depth := payload, width, height, 1.0;
      this.weight, this.flat := weight, true;
      rotationType, position := WHD, Origin;
      new;
      UpdateBBox();
    }

    /** `copy`: a new record sharing the same payload reference. */
    method Copy() returns (c: Item)
      ensures fresh(c)
      ensures c.payload == payload && c.width == width && c.height == height && c.depth == depth
      ensures c.weight == weight && c.flat == flat
      ensures c.rotationType == rotationType && c.position == position && c.bbox == bbox
    {
      c := new Item.Clone(this);
    }

    /** Field-by-field duplicate of `other`. */
    constructor Clone(other: Item)
      ensures payload == other.payload && width == other.width && height == other.height
      ensures depth == other.depth && weight == other.weight && flat == other.flat
      ensures rotationType == other.rotationType && position == other.position && bbox == other.bbox
    {
      payload, width, height, depth := other.payload, other.width, other.height, other.depth;
      weight, flat := other.weight, other.flat;
      rotationType, position, bbox := other.rotationType, other.position, other.bbox;
    }

    /** `_update_bbox` */
    method UpdateBBox()
      modifies this
      ensures rotationType == old(rotationType) && position == old(position) && Valid()
    {
      bbox := BoxOf(position, position.Add(Dimension()), flat);
    }

    /** The `rotation_type` setter. */
    method SetRotation(rt: RotationType)
      modifies this
      ensures rotationType == rt && position == old(position) && Valid()
    {
      rotationType := rt;
      UpdateBBox();
    }

    /** The `position` setter. */
    method SetPosition(p: Vec3)
      modifies this
      ensures position == p && rotationType == old(rotationType) && Valid()
    {
      position := p;
      UpdateBBox();
    }
  }
}

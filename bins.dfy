/** Bins (Box, Envelope) and the placement test `put_item`. */
module Bins {
  import opened Geometry
  import opened Items
  import opened Errors

  /** UNLIMITED_WEIGHT = 1e99, the default weight limit of a bin. */
  const UNLIMITED_WEIGHT: real := 1000000000000000000000000000000000000000000000000000000000000000000000000000000000000000000000000000.0

  /** What the placement test sees of a bin: its extents, its weight limit,
      the bounding boxes of its placed items in placement order, and their
      total weight. */
  datatype Slot = Slot(extents: Vec3, maxWeight: real, placed: seq<BBox>, load: real)

  /** What the placement test sees of an item: its immutable attributes. */
  datatype Piece = Piece(width: real, height: real, depth: real, weight: real, flat: bool)

  function PieceOf(it: Item): Piece
  {
    Piece(it.width, it.height, it.depth, it.weight, it.flat)
  }

  /** `any(b.intersect(p) for p in placed)` */
  predicate HitsAny(b: BBox, placed: seq<BBox>)
  {
    placed != [] && (HitsAny(b, placed[..|placed| - 1]) || Intersects(b, placed[|placed| - 1]))
  }

  /** `HitsAny` is the existential it abbreviates. */
  lemma {:induction false} HitsAnyExists(b: BBox, placed: seq<BBox>)
    ensures HitsAny(b, placed) <==> exists i | 0 <= i < |placed| :: Intersects(b, placed[i])
  {
    if placed != [] {
      var n := |placed| - 1;
      HitsAnyExists(b, placed[..n]);
      assert forall i | 0 <= i < n :: placed[..n][i] == placed[i];
    }
  }

  /** Rotation `rt` of piece `p` at `pivot` passes the three tests of
      `put_item`: it stays within the extents (touching them is allowed), it
      intersects no placed item, and the weight limit still holds. */
  predicate Accepts(s: Slot, p: Piece, rt: RotationType, pivot: Vec3)
  {
    var dim := Rotated(p.width, p.height, p.depth, rt);
    Le(pivot.Add(dim), s.extents) &&
    !HitsAny(BoxOf(pivot, pivot.Add(dim), p.flat), s.placed) &&
    s.load + p.weight <= s.maxWeight
  }

  /** Index of the first rotation of `rots` that passes, or |rots| if none does. */
  function FirstFit(s: Slot, p: Piece, rots: seq<RotationType>, pivot: Vec3): (k: nat)
    ensures k <= |rots|
  {
    if rots == [] then 0
    else if Accepts(s, p, rots[0], pivot) then 0
    else 1 + FirstFit(s, p, rots[1..], pivot)
  }

  /** `FirstFit` is the first passing rotation: every rotation before it
      fails, and it passes unless it is |rots|. */
  lemma {:induction false} FirstFitFirst(s: Slot, p: Piece, rots: seq<RotationType>, pivot: Vec3)
    ensures forall j | 0 <= j < FirstFit(s, p, rots, pivot) :: !Accepts(s, p, rots[j], pivot)
    ensures FirstFit(s, p, rots, pivot) < |rots| ==> Accepts(s, p, rots[FirstFit(s, p, rots, pivot)], pivot)
  {
    if rots != [] && !Accepts(s, p, rots[0], pivot) {
      FirstFitFirst(s, p, rots[1..], pivot);
      forall j | 1 <= j < FirstFit(s, p, rots, pivot)
        ensures !Accepts(s, p, rots[j], pivot)
      {
        assert rots[j] == rots[1..][j - 1];
      }
    }
  }

  /** A rotation that fails moves the first fit past it. */
  lemma FirstFitSkip(s: Slot, p: Piece, rots: seq<RotationType>, pivot: Vec3, k: nat)
    requires k < |rots| && k <= FirstFit(s, p, rots, pivot) && !Accepts(s, p, rots[k], pivot)
    ensures k + 1 <= FirstFit(s, p, rots, pivot)
  {
    FirstFitFirst(s, p, rots, pivot);
  }

  /** The first rotation at or after the first fit that passes is the first fit. */
  lemma FirstFitHit(s: Slot, p: Piece, rots: seq<RotationType>, pivot: Vec3, k: nat)
    requires k < |rots| && k <= FirstFit(s, p, rots, pivot) && Accepts(s, p, rots[k], pivot)
    ensures k == FirstFit(s, p, rots, pivot)
  {
    FirstFitFirst(s, p, rots, pivot);
  }

  /** `sum(item.weight for item in s)`, accumulated left to right. */
  function SumWeights(s: seq<Item>): real
  {
    if s == [] then 0.0 else SumWeights(s[..|s| - 1]) + s[|s| - 1].weight
  }

  /** `sum(item.get_volume() for item in s)`, accumulated left to right. */
  function SumVolumes(s: seq<Item>): real
  {
    if s == [] then 0.0 else SumVolumes(s[..|s| - 1]) + s[|s| - 1].Volume()
  }

  /** What the bin invariant sees of one placed item. */
  datatype Placement = Placement(position: Vec3, rotation: RotationType, bbox: BBox, piece: Piece)
  {
    function Dim(): Vec3
    {
      Rotated(piece.width, piece.height, piece.depth, rotation)
    }
  }

  function PlacementOf(it: Item): Placement
    reads it
  {
    Placement(it.position, it.rotationType, it.bbox, PieceOf(it))
  }

  /** The placements of `s`, in order. */
  function Placements(s: seq<Item>): (r: seq<Placement>)
    reads s
    ensures |r| == |s|
  {
    if s == [] then [] else Placements(s[..|s| - 1]) + [PlacementOf(s[|s| - 1])]
  }

  lemma PlacementsAt(s: seq<Item>, j: nat)
    requires j < |s|
    ensures Placements(s)[j] == PlacementOf(s[j])
  {
    if j < |s| - 1 {
      PlacementsAt(s[..|s| - 1], j);
    }
  }

  lemma PlacementsAppend(s: seq<Item>, x: Item)
    ensures Placements(s + [x]) == Placements(s) + [PlacementOf(x)]
  {
    assert (s + [x])[..|s|] == s;
  }

  /** A consistent item is placed at its position, turned as it is turned. */
  lemma PlacementOfValid(it: Item)
    requires it.Valid()
    ensures PlacementOf(it) == PlaceAt(it.position, it.rotationType, PieceOf(it))
  {
  }

  /** The bounding boxes of `ps`, in order. */
  function BoxesOf(ps: seq<Placement>): (r: seq<BBox>)
    ensures |r| == |ps|
  {
    if ps == [] then [] else BoxesOf(ps[..|ps| - 1]) + [ps[|ps| - 1].bbox]
  }

  lemma {:induction false} BoxesOfAt(ps: seq<Placement>, i: nat)
    requires i < |ps|
    ensures BoxesOf(ps)[i] == ps[i].bbox
  {
    var n := |ps| - 1;
    if i < n {
      BoxesOfAt(ps[..n], i);
    }
  }

  /** The sum of the weights of the placed pieces. */
  function LoadOf(ps: seq<Placement>): real
  {
    if ps == [] then 0.0 else LoadOf(ps[..|ps| - 1]) + ps[|ps| - 1].piece.weight
  }

  lemma LoadOfAppend(ps: seq<Placement>, pl: Placement)
    ensures LoadOf(ps + [pl]) == LoadOf(ps) + pl.piece.weight
  {
    assert (ps + [pl])[..|ps|] == ps;
  }

  /** The weight of the placed items is the weight of their placements. */
  lemma {:induction false} LoadOfPlacements(s: seq<Item>)
    ensures LoadOf(Placements(s)) == SumWeights(s)
  {
    if s != [] {
      LoadOfPlacements(s[..|s| - 1]);
    }
  }

  /** What the placement test uses of a bin's attributes: its extents, its
      weight limit and the rotations it tries, in order. */
  datatype BinShape = BinShape(extents: Vec3, maxWeight: real, rots: seq<RotationType>)

  /** A bin of shape `b` holding the placements `ps`, as the placement test
      sees it. */
  function SlotWith(b: BinShape, ps: seq<Placement>): Slot
  {
    Slot(b.extents, b.maxWeight, BoxesOf(ps), LoadOf(ps))
  }

  /** Piece `p` at `pivot` turned to `rt`, with its bounding box current. */
  function PlaceAt(pivot: Vec3, rt: RotationType, p: Piece): Placement
  {
    Placement(pivot, rt, BoxOf(pivot, pivot.Add(Rotated(p.width, p.height, p.depth, rt)), p.flat), p)
  }

  /** One placed item: its bounding box is current, its dimensions are not
      negative, and it lies inside the bin. */
  predicate PlacedInside(p: Placement, extents: Vec3)
  {
    p.bbox == BoxOf(p.position, p.position.Add(p.Dim()), p.piece.flat) &&
    0.0 <= p.piece.width && 0.0 <= p.piece.height && 0.0 <= p.piece.depth &&
    Inside(p.position, p.Dim(), extents)
  }

  /** Every placement lies inside the bin. */
  predicate AllInside(extents: Vec3, ps: seq<Placement>)
  {
    ps == [] || (AllInside(extents, ps[..|ps| - 1]) && PlacedInside(ps[|ps| - 1], extents))
  }

  /** Each box, when it was appended, intersected none of the boxes before it
      (the test `put_item` makes). */
  predicate Separated(boxes: seq<BBox>)
  {
    boxes == [] ||
    (Separated(boxes[..|boxes| - 1]) && !HitsAny(boxes[|boxes| - 1], boxes[..|boxes| - 1]))
  }

  /** The arrangement `put_item` builds. */
  predicate Arranged(extents: Vec3, ps: seq<Placement>)
  {
    AllInside(extents, ps) && Separated(BoxesOf(ps))
  }

  lemma {:induction false} AllInsideAt(extents: Vec3, ps: seq<Placement>, i: nat)
    requires AllInside(extents, ps) && i < |ps|
    ensures PlacedInside(ps[i], extents)
  {
    var n := |ps| - 1;
    if i < n {
      AllInsideAt(extents, ps[..n], i);
      assert ps[..n][i] == ps[i];
    }
  }

  /** Separated boxes are pairwise disjoint: no box intersects an earlier one. */
  lemma {:induction false} SeparatedPairwise(boxes: seq<BBox>)
    ensures Separated(boxes) <==>
      forall i, j | 0 <= i < j < |boxes| :: !Intersects(boxes[j], boxes[i])
  {
    if boxes != [] {
      var n := |boxes| - 1;
      var front := boxes[..n];
      SeparatedPairwise(front);
      HitsAnyExists(boxes[n], front);
      assert forall i | 0 <= i < n :: front[i] == boxes[i];
    }
  }

  lemma BoxesOfAppend(ps: seq<Placement>, p: Placement)
    ensures BoxesOf(ps + [p]) == BoxesOf(ps) + [p.bbox]
  {
    assert (ps + [p])[..|ps|] == ps;
  }

  /** Appending a placement that lies inside the bin and intersects none of
      the placed boxes keeps the arrangement. */
  lemma ArrangedAppend(extents: Vec3, ps: seq<Placement>, p: Placement)
    requires Arranged(extents, ps) && PlacedInside(p, extents)
    requires !HitsAny(p.bbox, BoxesOf(ps))
    ensures Arranged(extents, ps + [p])
  {
    BoxesOfAppend(ps, p);
    assert (ps + [p])[..|ps|] == ps;
    assert (BoxesOf(ps) + [p.bbox])[..|ps|] == BoxesOf(ps);
  }

  /** An item whose box is current, whose dimensions are not negative and
      which lies inside the bin is a valid placement. */
  lemma PlacedInsideOf(it: Item, extents: Vec3)
    requires it.Valid() && it.NonNegDims()
    requires NonNeg(it.position) && Le(it.position.Add(it.Dimension()), extents)
    ensures PlacedInside(PlacementOf(it), extents)
  {
  }

  lemma SumWeightsAppend(s: seq<Item>, x: Item)
    ensures SumWeights(s + [x]) == SumWeights(s) + x.weight
  {
    assert (s + [x])[..|s|] == s;
  }

  lemma SumVolumesAppend(s: seq<Item>, x: Item)
    ensures SumVolumes(s + [x]) == SumVolumes(s) + x.Volume()
  {
    assert (s + [x])[..|s|] == s;
  }

  /** A box of non-negative sides within non-negative extents has at most
      their volume. */
  lemma ProductWithin(a: real, b: real, c: real, x: real, y: real, z: real)
    requires 0.0 <= a <= x && 0.0 <= b <= y && 0.0 <= c <= z
    ensures a * b * c <= x * y * z
  {
    assert a * b <= x * b by {
      assert (x - a) * b >= 0.0;
    }
    assert x * b <= x * y by {
      assert x * (y - b) >= 0.0;
    }
    assert a * b * c <= x * y * c by {
      assert (x * y - a * b) * c >= 0.0;
    }
    assert x * y * c <= x * y * z by {
      assert x * y * (z - c) >= 0.0;
    }
  }

  lemma VolumeOfPiece(x: Item, pl: Placement, extents: Vec3)
    requires PlacedInside(pl, extents) && pl.piece == PieceOf(x)
    ensures x.Volume() <= extents.x * extents.y * extents.z
  {
    PlacedVolume(pl, extents);
  }

  /** Every item of `s` placed inside `extents` has at most their volume. */
  lemma ItemsWithin(extents: Vec3, s: seq<Item>)
    requires AllInside(extents, Placements(s))
    ensures forall x | x in s :: x.Volume() <= extents.x * extents.y * extents.z
  {
    forall x | x in s
      ensures x.Volume() <= extents.x * extents.y * extents.z
    {
      var i :| 0 <= i < |s| && s[i] == x;
      var pl := Placements(s)[i];
      assert PlacedInside(pl, extents) by {
        AllInsideAt(extents, Placements(s), i);
      }
      assert pl.piece == PieceOf(x) by {
        PlacementsAt(s, i);
      }
      VolumeOfPiece(x, pl, extents);
    }
  }

  /** An item placed inside a bin has at most the bin's capacity as volume. */
  lemma PlacedVolume(pl: Placement, extents: Vec3)
    requires PlacedInside(pl, extents)
    ensures pl.piece.width * pl.piece.height * pl.piece.depth <= extents.x * extents.y * extents.z
  {
    var d := pl.Dim();
    RotatedIsPermutation(pl.piece.width, pl.piece.height, pl.piece.depth, pl.rotation);
    RotatedVolume(pl.piece.width, pl.piece.height, pl.piece.depth, pl.rotation);
    assert 0.0 <= d.x && 0.0 <= d.y && 0.0 <= d.z;
    ProductWithin(d.x, d.y, d.z, extents.x, extents.y, extents.z);
  }

  /** A container (Box, or Envelope for flat items). */
  class Bin {
    const name: string
    const width: real
    const height: real
    const depth: real
    const maxWeight: real
    const envelope: bool
    var items: seq<Item>
    var unfittedItems: seq<Item>

    /** `Box(name, width, height, depth, max_weight)` */
    constructor Box(name: string, width: real, height: real, depth: real, maxWeight: real := UNLIMITED_WEIGHT)
      ensures this.name == name && this.width == width && this.height == height
      ensures this.depth == depth && this.maxWeight == maxWeight && !envelope
      ensures items == [] && unfittedItems == []
    {
      this.name, this.width, this.height, this.depth := name, width, height, depth;
      this.maxWeight, this.envelope := maxWeight, false;
      items, unfittedItems := [], [];
    }

    /** `Envelope(name, width, height, max_weight)`: depth fixed to 1. */
    constructor Envelope(name: string, width: real, height: real, maxWeight: real := UNLIMITED_WEIGHT)
      ensures this.name == name && this.width == width && this.height == height
      ensures depth == 1.0 && this.maxWeight == maxWeight && envelope
      ensures Capacity() == width * height
      ensures items == [] && unfittedItems == []
    {
      this.name, this.width, this.height, this.depth := name, width, height, 1.0;
      this.maxWeight, this.envelope := maxWeight, true;
      items, unfittedItems := [], [];
    }

    /** `copy`: a new bin with the same attributes whose two lists are new
        lists holding the same item references. */
    method Copy() returns (b: Bin)
      ensures fresh(b)
      ensures b.name == name && b.width == width && b.height == height && b.depth == depth
      ensures b.maxWeight == maxWeight && b.envelope == envelope
      ensures b.items == items && b.unfittedItems == unfittedItems
    {
      b := new Bin.Clone(this);
    }

    /** Field-by-field duplicate of `other`. */
    constructor Clone(other: Bin)
      ensures name == other.name && width == other.width && height == other.height
      ensures depth == other.depth && maxWeight == other.maxWeight && envelope == other.envelope
      ensures items == other.items && unfittedItems == other.unfittedItems
    {
      name, width, height, depth := other.name, other.width, other.height, other.depth;
      maxWeight, envelope := other.maxWeight, other.envelope;
      items, unfittedItems := other.items, other.unfittedItems;
    }

    function Extents(): Vec3
    {
      Vec3(width, height, depth)
    }

    /** The attributes the placement test uses. */
    function Shape(): BinShape
    {
      BinShape(Extents(), maxWeight, Rotations())
    }

    /** `rotations`: a Box tries the six rotations in declaration order, an
        Envelope only WHD then HWD. */
    function Rotations(): (r: seq<RotationType>)
      ensures |r| > 0 && r[0] == WHD
      ensures envelope ==> r == [WHD, HWD]
    {
      if envelope then [WHD, HWD] else AllRotations
    }

    /** A Box tries each of the six rotations exactly once, an Envelope each
        of its two. */
    lemma RotationsTried()
      ensures forall i, j | 0 <= i < j < |Rotations()| :: Rotations()[i] != Rotations()[j]
      ensures !envelope ==> |Rotations()| == 6 && forall rt :: rt in Rotations()
    {
      if !envelope {
        AllRotationsComplete();
      }
    }

    /** `get_capacity` */
    function Capacity(): real
    {
      width * height * depth
    }

    /** `get_capacity` bounds `get_volume`: every item in a consistently
        packed bin has at most the bin's capacity as volume. */
    lemma VolumeWithinCapacity()
      requires Packed()
      ensures forall x | x in items :: x.Volume() <= Capacity()
    {
      ItemsWithin(Extents(), items);
    }

    /** `get_total_weight` */
    function TotalWeight(): real
      reads this`items
    {
      SumWeights(items)
    }

    /** `get_total_volume` */
    function TotalVolume(): real
      reads this`items
    {
      SumVolumes(items)
    }

    /** `get_fill_ratio`: total volume over capacity; float division by a
        zero capacity raises ZeroDivisionError. */
    function FillRatio(): (r: Result<real>)
      reads this`items
      ensures r.Err? <==> Capacity() == 0.0
      ensures r.Err? ==> r.error == ZeroDivisionError
      ensures r.Ok? ==> r.value * Capacity() == TotalVolume()
    {
      if Capacity() == 0.0 then Err(ZeroDivisionError) else Ok(TotalVolume() / Capacity())
    }

    /** The bin as the placement test sees it. */
    ghost function Snapshot(): Slot
      reads this`items, items
    {
      Slot(Extents(), maxWeight, BoxesOf(Placements(items)), TotalWeight())
    }

    /** The snapshot is the bin's shape holding its placements. */
    lemma SnapshotOfShape()
      ensures Snapshot() == SlotWith(Shape(), Placements(items))
    {
      LoadOfPlacements(items);
    }

    /** The bin invariant: every placed item is inside the bin, no placed
        item intersects an earlier one, and the weight limit holds. */
    ghost predicate Packed()
      reads this`items, items
    {
      Arranged(Extents(), Placements(items)) && TotalWeight() <= maxWeight
    }

    /** One pass of the loop of `put_item`: turn the item (already at
        `pivot`) to `rt` and apply the extents test (touching the extents is
        allowed), then the intersection and weight tests. */
    method TryRotation(item: Item, pivot: Vec3, rt: RotationType) returns (pass: bool)
      requires item.position == pivot && item.Valid()
      modifies item
      ensures item.position == pivot && item.rotationType == rt && item.Valid()
      ensures pass <==>
                Le(pivot.Add(item.Dimension()), Extents()) &&
                !HitsAny(item.bbox, BoxesOf(Placements(items))) &&
                TotalWeight() + item.weight <= maxWeight
      ensures item !in items ==>
                Placements(items) == old(Placements(items)) &&
                pass == Accepts(old(Snapshot()), PieceOf(item), rt, pivot)
    {
      ghost var snap := Snapshot();
      item.SetRotation(rt);
      assert item !in items ==> Placements(items) == old(Placements(items)) && Snapshot() == snap;
      var dim := item.Dimension();
      if width < pivot.x + dim.x || height < pivot.y + dim.y || depth < pivot.z + dim.z {
        return false;
      }
      pass := !HitsAny(item.bbox, BoxesOf(Placements(items))) && TotalWeight() + item.weight <= maxWeight;
    }

    /** The loop of `put_item`: move the item to `pivot`, then turn it
        through `Rotations()` in order and stop at the first rotation that
        passes.  Returns its index, or |Rotations()| when none passes (the
        item is then left at the last rotation). */
    method SearchRotations(item: Item, pivot: Vec3) returns (k: nat)
      modifies item
      ensures k <= |Rotations()| && item.position == pivot && item.Valid()
      ensures k < |Rotations()| ==>
                item.rotationType == Rotations()[k] &&
                Le(pivot.Add(item.Dimension()), Extents()) &&
                !HitsAny(item.bbox, BoxesOf(Placements(items))) &&
                TotalWeight() + item.weight <= maxWeight
      ensures k == |Rotations()| ==> item.rotationType == Rotations()[|Rotations()| - 1]
      ensures item !in items ==> Placements(items) == old(Placements(items))
      ensures item !in items ==> Snapshot() == old(Snapshot()) && Packed() == old(Packed())
      ensures item !in items ==> k == FirstFit(old(Snapshot()), PieceOf(item), Rotations(), pivot)
    {
      ghost var snap := Snapshot();
      item.SetPosition(pivot);
      assert item !in items ==> Placements(items) == old(Placements(items)) && Snapshot() == snap;
      ghost var piece := PieceOf(item);
      var rots := Rotations();
      k := 0;
      while k < |rots|
        invariant 0 <= k <= |rots|
        invariant item.position == pivot && item.Valid()
        invariant k > 0 ==> item.rotationType == rots[k - 1]
        invariant item !in items ==> Placements(items) == old(Placements(items)) && Snapshot() == snap
        invariant item !in items ==> k <= FirstFit(snap, piece, rots, pivot)
      {
        var pass := TryRotation(item, pivot, rots[k]);
        if pass {
          if item !in items {
            FirstFitHit(snap, piece, rots, pivot, k);
          }
          return;
        }
        if item !in items {
          FirstFitSkip(snap, piece, rots, pivot, k);
        }
        k := k + 1;
      }
    }

    /** `self.unfitted_items.append(item)` */
    method Reject(item: Item)
      modifies this`unfittedItems
      ensures unfittedItems == old(unfittedItems) + [item] && items == old(items)
      ensures Packed() == old(Packed())
    {
      unfittedItems := unfittedItems + [item];
    }

    /** `self.items.append(item)`; the appended placement keeps the bin
        invariant when it passed the tests of `put_item`. */
    method Append(item: Item)
      modifies this
      ensures items == old(items) + [item] && unfittedItems == old(unfittedItems)
      ensures (old(Packed()) && item !in old(items) &&
               PlacedInside(PlacementOf(item), Extents()) &&
               !HitsAny(item.bbox, BoxesOf(old(Placements(items)))) &&
               old(TotalWeight()) + item.weight <= maxWeight) ==> Packed()
    {
      ghost var before := items;
      items := items + [item];
      PlacementsAppend(before, item);
      SumWeightsAppend(before, item);
      if old(Packed()) && item !in old(items) &&
         PlacedInside(PlacementOf(item), Extents()) &&
         !HitsAny(item.bbox, BoxesOf(old(Placements(items)))) {
        ArrangedAppend(Extents(), Placements(before), PlacementOf(item));
      }
    }

    /** `put_item`: try the rotations in order at `pivot` and append the item
        with the first one that passes; on failure restore its position (its
        rotation stays at the last one tried). */
    method PutItem(item: Item, pivot: Vec3) returns (ok: bool)
      modifies this, item
      ensures unfittedItems == old(unfittedItems) && item.Valid()
      ensures ok ==> items == old(items) + [item] && item.position == pivot && item.rotationType in Rotations()
      ensures !ok ==> items == old(items) && item.position == old(item.position)
      ensures !ok ==> item.rotationType == Rotations()[|Rotations()| - 1]
      ensures item !in old(items) ==>
                var k := FirstFit(old(Snapshot()), PieceOf(item), Rotations(), pivot);
                ok == (k < |Rotations()|) && (ok ==> item.rotationType == Rotations()[k])
      ensures old(Packed()) && item !in old(items) && item.NonNegDims() && NonNeg(pivot) ==> Packed()
      ensures !ok && item !in old(items) ==>
                Placements(items) == old(Placements(items)) && Snapshot() == old(Snapshot()) &&
                Packed() == old(Packed())
    {
      var validPosition := item.position;
      var k := SearchRotations(item, pivot);
      if k < |Rotations()| {
        if old(Packed()) && item !in old(items) && item.NonNegDims() && NonNeg(pivot) {
          assert Packed();
          PlacedInsideOf(item, Extents());
        }
        Append(item);
        return true;
      }
      ghost var searched := Snapshot();
      item.SetPosition(validPosition);
      assert item !in old(items) ==> Placements(items) == old(Placements(items)) && Snapshot() == searched;
      return false;
    }
  }
}

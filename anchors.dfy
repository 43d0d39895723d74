/** The extreme-point search of `Packer.pack_to_bin` and
    `FlatPacker.pack_to_bin`: where an item may be anchored next to the items
    already in a bin, and the first anchor at which `put_item` succeeds. */
module Anchors {
  import opened Geometry
  import opened Items
  import opened Bins
  import opened Errors

  /** The axes along which anchors are sought: all three for a Box, only
      WIDTH and HEIGHT for an Envelope. */
  function Axes(flat: bool): seq<Axis>
  {
    if flat then [WIDTH, HEIGHT] else [WIDTH, HEIGHT, DEPTH]
  }

  /** The anchor next to placed item `pl` along `axis`: its position moved by
      its extent along that axis.  A flat packer anchors at depth 0. */
  function Pivot(axis: Axis, pl: Placement, flat: bool): Vec3
  {
    var p := pl.position;
    var d := pl.Dim();
    match axis
    case WIDTH => Vec3(p.x + d.x, p.y, if flat then 0.0 else p.z)
    case HEIGHT => Vec3(p.x, p.y + d.y, if flat then 0.0 else p.z)
    case DEPTH => Vec3(p.x, p.y, p.z + d.z)
  }

  /** The anchors along one axis, one per placed item in placement order. */
  function Row(axis: Axis, ps: seq<Placement>, flat: bool): (r: seq<Vec3>)
    ensures |r| == |ps|
    ensures forall i | 0 <= i < |ps| :: r[i] == Pivot(axis, ps[i], flat)
  {
    if ps == [] then [] else Row(axis, ps[..|ps| - 1], flat) + [Pivot(axis, ps[|ps| - 1], flat)]
  }

  /** The anchors tried in a non-empty bin: axis by axis, and within an axis
      item by item. */
  function Candidates(axes: seq<Axis>, ps: seq<Placement>, flat: bool): seq<Vec3>
  {
    if axes == [] then [] else Candidates(axes[..|axes| - 1], ps, flat) + Row(axes[|axes| - 1], ps, flat)
  }

  /** Every anchor tried for a bin whose placements are `ps`: the origin
      (START_POSITION) alone when the bin is empty, else the candidates. */
  function AnchorPoints(ps: seq<Placement>, flat: bool): seq<Vec3>
  {
    if ps == [] then [Origin] else Candidates(Axes(flat), ps, flat)
  }

  /** The search is axis-major: every anchor along WIDTH, then every anchor
      along HEIGHT, then (3D only) every anchor along DEPTH, each row in
      placement order. */
  lemma AxisMajor(ps: seq<Placement>, flat: bool)
    ensures Candidates(Axes(flat), ps, flat) ==
              Row(WIDTH, ps, flat) + Row(HEIGHT, ps, flat) + (if flat then [] else Row(DEPTH, ps, flat))
  {
    assert [WIDTH][..0] == [] && [WIDTH, HEIGHT][..1] == [WIDTH];
    assert Candidates([WIDTH], ps, flat) == [] + Row(WIDTH, ps, flat) == Row(WIDTH, ps, flat);
    var two := Candidates([WIDTH, HEIGHT], ps, flat);
    assert two == Row(WIDTH, ps, flat) + Row(HEIGHT, ps, flat);
    if !flat {
      assert [WIDTH, HEIGHT, DEPTH][..2] == [WIDTH, HEIGHT];
    }
  }

  /** `put_item` succeeds at `pivot`: some rotation passes. */
  predicate Fits(s: Slot, p: Piece, rots: seq<RotationType>, pivot: Vec3)
  {
    FirstFit(s, p, rots, pivot) < |rots|
  }

  /** The first anchor of `cs` at which the piece fits, if any. */
  function Landing(s: Slot, p: Piece, rots: seq<RotationType>, cs: seq<Vec3>): Option<Vec3>
  {
    if cs == [] then None
    else
      var earlier := Landing(s, p, rots, cs[..|cs| - 1]);
      if earlier.Some? then earlier
      else if Fits(s, p, rots, cs[|cs| - 1]) then Some(cs[|cs| - 1])
      else None
  }

  /** No anchor of `cs` fits exactly when `Landing` finds none; otherwise
      the anchor it finds fits, and it is the first one that does. */
  lemma {:induction false} LandingFirst(s: Slot, p: Piece, rots: seq<RotationType>, cs: seq<Vec3>)
    ensures Landing(s, p, rots, cs).None? <==> forall i | 0 <= i < |cs| :: !Fits(s, p, rots, cs[i])
    ensures Landing(s, p, rots, cs).Some? ==>
              Fits(s, p, rots, Landing(s, p, rots, cs).value) &&
              exists i | 0 <= i < |cs| :: cs[i] == Landing(s, p, rots, cs).value &&
                forall t | 0 <= t < i :: !Fits(s, p, rots, cs[t])
  {
    if cs != [] {
      var n := |cs| - 1;
      LandingFirst(s, p, rots, cs[..n]);
      assert forall i | 0 <= i < n :: cs[..n][i] == cs[i];
      if Landing(s, p, rots, cs[..n]).Some? {
        var i :| 0 <= i < n && cs[..n][i] == Landing(s, p, rots, cs[..n]).value &&
                 forall t | 0 <= t < i :: !Fits(s, p, rots, cs[..n][t]);
        assert cs[i] == Landing(s, p, rots, cs).value;
      }
    }
  }

  /** Anchors after the first one that fits are never looked at. */
  lemma {:induction false} LandingPrefix(s: Slot, p: Piece, rots: seq<RotationType>, xs: seq<Vec3>, ys: seq<Vec3>)
    requires Landing(s, p, rots, xs).Some?
    ensures Landing(s, p, rots, xs + ys) == Landing(s, p, rots, xs)
  {
    if ys != [] {
      var n := |ys| - 1;
      LandingPrefix(s, p, rots, xs, ys[..n]);
      assert (xs + ys)[..|xs + ys| - 1] == xs + ys[..n];
      assert (xs + ys)[|xs + ys| - 1] == ys[n];
    } else {
      assert xs + ys == xs;
    }
  }

  lemma LandingNext(s: Slot, p: Piece, rots: seq<RotationType>, xs: seq<Vec3>, c: Vec3)
    requires Landing(s, p, rots, xs).None?
    ensures Landing(s, p, rots, xs + [c]) == if Fits(s, p, rots, c) then Some(c) else None
  {
    assert (xs + [c])[..|xs|] == xs;
  }

  lemma RowNext(axis: Axis, ps: seq<Placement>, j: nat, flat: bool)
    requires j < |ps|
    ensures Row(axis, ps[..j + 1], flat) == Row(axis, ps[..j], flat) + [Pivot(axis, ps[j], flat)]
  {
    assert ps[..j + 1][..j] == ps[..j];
  }

  lemma CandidatesNext(axes: seq<Axis>, ps: seq<Placement>, a: nat, flat: bool)
    requires a < |axes|
    ensures Candidates(axes[..a + 1], ps, flat) == Candidates(axes[..a], ps, flat) + Row(axes[a], ps, flat)
  {
    assert axes[..a + 1][..a] == axes[..a];
  }

  lemma {:induction false} RowAppend(axis: Axis, xs: seq<Placement>, ys: seq<Placement>, flat: bool)
    ensures Row(axis, xs + ys, flat) == Row(axis, xs, flat) + Row(axis, ys, flat)
  {
    if ys != [] {
      var n := |ys| - 1;
      RowAppend(axis, xs, ys[..n], flat);
      assert (xs + ys)[..|xs + ys| - 1] == xs + ys[..n];
      assert (xs + ys)[|xs + ys| - 1] == ys[n];
    } else {
      assert xs + ys == xs;
    }
  }

  lemma {:induction false} CandidatesAppend(xs: seq<Axis>, ys: seq<Axis>, ps: seq<Placement>, flat: bool)
    ensures Candidates(xs + ys, ps, flat) == Candidates(xs, ps, flat) + Candidates(ys, ps, flat)
  {
    if ys != [] {
      var n := |ys| - 1;
      CandidatesAppend(xs, ys[..n], ps, flat);
      assert (xs + ys)[..|xs + ys| - 1] == xs + ys[..n];
      assert (xs + ys)[|xs + ys| - 1] == ys[n];
    } else {
      assert xs + ys == xs;
    }
  }

  /** Once no anchor of `xs` fits, the landing is decided by what follows. */
  lemma {:induction false} LandingAfter(s: Slot, p: Piece, rots: seq<RotationType>, xs: seq<Vec3>, ys: seq<Vec3>)
    requires Landing(s, p, rots, xs).None?
    ensures Landing(s, p, rots, xs + ys) == Landing(s, p, rots, ys)
  {
    if ys != [] {
      var n := |ys| - 1;
      LandingAfter(s, p, rots, xs, ys[..n]);
      assert (xs + ys)[..|xs + ys| - 1] == xs + ys[..n];
      assert (xs + ys)[|xs + ys| - 1] == ys[n];
    } else {
      assert xs + ys == xs;
    }
  }

  lemma CandidatesSplitAxis(axes: seq<Axis>, ps: seq<Placement>, a: nat, flat: bool)
    requires a < |axes|
    ensures Candidates(axes, ps, flat) ==
              Candidates(axes[..a], ps, flat) + Row(axes[a], ps, flat) + Candidates(axes[a + 1..], ps, flat)
  {
    assert axes == axes[..a + 1] + axes[a + 1..];
    CandidatesAppend(axes[..a + 1], axes[a + 1..], ps, flat);
    CandidatesNext(axes, ps, a, flat);
  }

  lemma RowSplit(axis: Axis, ps: seq<Placement>, j: nat, flat: bool)
    requires j < |ps|
    ensures Row(axis, ps, flat) == Row(axis, ps[..j], flat) + [Pivot(axis, ps[j], flat)] + Row(axis, ps[j + 1..], flat)
  {
    assert ps == ps[..j + 1] + ps[j + 1..];
    RowAppend(axis, ps[..j + 1], ps[j + 1..], flat);
    RowNext(axis, ps, j, flat);
  }

  /** A flat packer anchors every item at depth 0. */
  lemma {:induction false} FlatAnchorsOnFloor(ps: seq<Placement>)
    ensures forall c | c in AnchorPoints(ps, true) :: c.z == 0.0
  {
    if ps != [] {
      AxisMajor(ps, true);
      RowOnFloor(WIDTH, ps);
      RowOnFloor(HEIGHT, ps);
    }
  }

  lemma {:induction false} RowOnFloor(axis: Axis, ps: seq<Placement>)
    requires axis != DEPTH
    ensures forall c | c in Row(axis, ps, true) :: c.z == 0.0
  {
    if ps != [] {
      RowOnFloor(axis, ps[..|ps| - 1]);
    }
  }

  /** Anchors taken from items placed inside a bin never leave the
      non-negative octant. */
  lemma {:induction false} AnchorsNonNeg(extents: Vec3, ps: seq<Placement>, flat: bool)
    requires AllInside(extents, ps)
    ensures forall c | c in AnchorPoints(ps, flat) :: NonNeg(c)
  {
    if ps != [] {
      var axes := Axes(flat);
      CandidatesNonNeg(extents, axes, ps, flat);
    }
  }

  lemma {:induction false} CandidatesNonNeg(extents: Vec3, axes: seq<Axis>, ps: seq<Placement>, flat: bool)
    requires AllInside(extents, ps)
    ensures forall c | c in Candidates(axes, ps, flat) :: NonNeg(c)
  {
    if axes != [] {
      CandidatesNonNeg(extents, axes[..|axes| - 1], ps, flat);
      RowNonNeg(extents, axes[|axes| - 1], ps, flat);
    }
  }

  lemma {:induction false} RowNonNeg(extents: Vec3, axis: Axis, ps: seq<Placement>, flat: bool)
    requires AllInside(extents, ps)
    ensures forall c | c in Row(axis, ps, flat) :: NonNeg(c)
  {
    if ps != [] {
      var n := |ps| - 1;
      RowNonNeg(extents, axis, ps[..n], flat);
      PivotNonNeg(axis, ps[n], extents, flat);
    }
  }

  lemma PivotNonNeg(axis: Axis, pl: Placement, extents: Vec3, flat: bool)
    requires PlacedInside(pl, extents)
    ensures NonNeg(Pivot(axis, pl, flat))
  {
    RotatedIsPermutation(pl.piece.width, pl.piece.height, pl.piece.depth, pl.rotation);
  }

  /** One step along a row: when no earlier anchor of the row fits, the
      anchor next to item j either is where the row lands, or is passed over. */
  lemma RowStep(s: Slot, p: Piece, rots: seq<RotationType>, axis: Axis, ps: seq<Placement>, j: nat, flat: bool)
    requires j < |ps| && Landing(s, p, rots, Row(axis, ps[..j], flat)).None?
    ensures var c := Pivot(axis, ps[j], flat);
      (Fits(s, p, rots, c) ==> Landing(s, p, rots, Row(axis, ps, flat)) == Some(c)) &&
      (!Fits(s, p, rots, c) ==> Landing(s, p, rots, Row(axis, ps[..j + 1], flat)).None?)
  {
    var c := Pivot(axis, ps[j], flat);
    RowNext(axis, ps, j, flat);
    RowSplit(axis, ps, j, flat);
    LandingNext(s, p, rots, Row(axis, ps[..j], flat), c);
    if Fits(s, p, rots, c) {
      LandingPrefix(s, p, rots, Row(axis, ps[..j], flat) + [c], Row(axis, ps[j + 1..], flat));
    }
  }

  /** The inner loop of `pack_to_bin`: try the anchor along `axis` next to
      each placed item in turn, and stop at the first where `put_item`
      succeeds. */
  method TryRow(box: Bin, item: Item, axis: Axis, flat: bool) returns (ok: bool)
    requires item.Valid()
    modifies box, item
    ensures item.Valid() && box.unfittedItems == old(box.unfittedItems)
    ensures ok ==> box.items == old(box.items) + [item]
    ensures !ok ==> box.items == old(box.items) && item.position == old(item.position)
    ensures item !in old(box.items) ==>
              var landing := Landing(old(box.Snapshot()), PieceOf(item), box.Rotations(),
                                     Row(axis, old(Placements(box.items)), flat));
              (ok <==> landing.Some?) &&
              (ok ==> item.position == landing.value &&
                      var k := FirstFit(old(box.Snapshot()), PieceOf(item), box.Rotations(), landing.value);
                      k < |box.Rotations()| && item.rotationType == box.Rotations()[k])
    ensures item !in old(box.items) && !ok ==>
              Placements(box.items) == old(Placements(box.items)) && box.Snapshot() == old(box.Snapshot()) &&
              box.Packed() == old(box.Packed())
    ensures old(box.Packed()) && item !in old(box.items) && item.NonNegDims() ==> box.Packed()
  {
    ghost var snap := box.Snapshot();
    ghost var ps := Placements(box.items);
    ghost var piece := PieceOf(item);
    ghost var apart := item !in box.items;
    ghost var rots := box.Rotations();
    ok := false;
    var j := 0;
    while j < |box.items|
      invariant 0 <= j <= |box.items|
      invariant box.items == old(box.items) && box.unfittedItems == old(box.unfittedItems)
      invariant item.position == old(item.position) && item.Valid()
      invariant apart ==> Placements(box.items) == ps && box.Snapshot() == snap
      invariant apart ==> box.Packed() == old(box.Packed())
      invariant apart ==> Landing(snap, piece, rots, Row(axis, ps[..j], flat)).None?
    {
      var ib := box.items[j];
      var pivot := Pivot(axis, PlacementOf(ib), flat);
      if apart {
        PlacementsAt(box.items, j);
        RowStep(snap, piece, rots, axis, ps, j, flat);
        if box.Packed() {
          AllInsideAt(box.Extents(), ps, j);
          PivotNonNeg(axis, ps[j], box.Extents(), flat);
        }
      }
      ok := box.PutItem(item, pivot);
      if ok {
        return;
      }
      j := j + 1;
    }
    assert ps[..|ps|] == ps;
  }

  /** The outer loop of `pack_to_bin` (a non-empty bin): try the axes in
      order, and along each the anchors next to the placed items; stop at
      the first anchor where `put_item` succeeds. */
  method SearchAnchors(box: Bin, item: Item, flat: bool) returns (ok: bool)
    requires item.Valid()
    modifies box, item
    ensures item.Valid() && box.unfittedItems == old(box.unfittedItems)
    ensures ok ==> box.items == old(box.items) + [item]
    ensures !ok ==> box.items == old(box.items) && item.position == old(item.position)
    ensures item !in old(box.items) ==>
              var landing := Landing(old(box.Snapshot()), PieceOf(item), box.Rotations(),
                                     Candidates(Axes(flat), old(Placements(box.items)), flat));
              (ok <==> landing.Some?) &&
              (ok ==> item.position == landing.value &&
                      var k := FirstFit(old(box.Snapshot()), PieceOf(item), box.Rotations(), landing.value);
                      k < |box.Rotations()| && item.rotationType == box.Rotations()[k])
    ensures old(box.Packed()) && item !in old(box.items) && item.NonNegDims() ==> box.Packed()
  {
    ghost var snap := box.Snapshot();
    ghost var ps := Placements(box.items);
    ghost var piece := PieceOf(item);
    ghost var apart := item !in box.items;
    ghost var rots := box.Rotations();
    var axes := Axes(flat);
    ok := false;
    var a := 0;
    while a < |axes|
      invariant 0 <= a <= |axes|
      invariant box.items == old(box.items) && box.unfittedItems == old(box.unfittedItems)
      invariant item.position == old(item.position) && item.Valid()
      invariant apart ==> Placements(box.items) == ps && box.Snapshot() == snap
      invariant apart ==> box.Packed() == old(box.Packed())
      invariant apart ==> Landing(snap, piece, rots, Candidates(axes[..a], ps, flat)).None?
    {
      ok := TryRow(box, item, axes[a], flat);
      if apart {
        AxisStep(snap, piece, rots, axes, ps, a, flat);
      }
      if ok {
        break;
      }
      a := a + 1;
    }
    assert axes[..|axes|] == axes;
  }

  /** One axis of the search, on values: when no anchor along the axes
      before `axes[a]` fits, the search finds what the row along `axes[a]`
      finds, if anything, and otherwise goes on to the next axis. */
  lemma AxisStep(s: Slot, p: Piece, rots: seq<RotationType>, axes: seq<Axis>, ps: seq<Placement>, a: nat, flat: bool)
    requires a < |axes| && Landing(s, p, rots, Candidates(axes[..a], ps, flat)).None?
    ensures Landing(s, p, rots, Row(axes[a], ps, flat)).None? ==>
              Landing(s, p, rots, Candidates(axes[..a + 1], ps, flat)).None?
    ensures Landing(s, p, rots, Row(axes[a], ps, flat)).Some? ==>
              Landing(s, p, rots, Candidates(axes, ps, flat)) == Landing(s, p, rots, Row(axes[a], ps, flat))
  {
    var tried := Candidates(axes[..a], ps, flat);
    CandidatesNext(axes, ps, a, flat);
    LandingAfter(s, p, rots, tried, Row(axes[a], ps, flat));
    if Landing(s, p, rots, Row(axes[a], ps, flat)).Some? {
      CandidatesSplitAxis(axes, ps, a, flat);
      LandingPrefix(s, p, rots, tried + Row(axes[a], ps, flat), Candidates(axes[a + 1..], ps, flat));
    }
  }

  /** `pack_to_bin`: anchor `item` at the first anchor where `put_item`
      succeeds (only the origin for an empty bin); when there is none,
      append the item to the bin's unfitted items.  `flat` selects the
      FlatPacker variant.  For an item not yet in the bin, the placements
      grow exactly by what `Land` computes on values. */
  method PackToBin(box: Bin, item: Item, flat: bool)
    requires item.Valid()
    modifies box, item
    ensures item.Valid()
    ensures (box.items == old(box.items) + [item] && box.unfittedItems == old(box.unfittedItems)) ||
            (box.items == old(box.items) && box.unfittedItems == old(box.unfittedItems) + [item] &&
             item.position == old(item.position))
    ensures item !in old(box.items) ==>
              var land := Land(box.Shape(), old(Placements(box.items)), PieceOf(item), flat);
              (box.items == old(box.items) + [item] <==> land.Some?) &&
              Placements(box.items) == old(Placements(box.items)) + (if land.Some? then [land.value] else [])
    ensures item !in old(box.items) ==>
              var landing := Landing(old(box.Snapshot()), PieceOf(item), box.Rotations(),
                                     AnchorPoints(old(Placements(box.items)), flat));
              (box.items == old(box.items) + [item] <==> landing.Some?) &&
              (landing.Some? ==>
                 item.position == landing.value &&
                 var k := FirstFit(old(box.Snapshot()), PieceOf(item), box.Rotations(), landing.value);
                 k < |box.Rotations()| && item.rotationType == box.Rotations()[k])
    ensures old(box.Packed()) && item !in old(box.items) && item.NonNegDims() ==> box.Packed()
  {
    ghost var before := box.items;
    box.SnapshotOfShape();
    AnchorOrReject(box, item, flat);
    if item !in before && box.items == before + [item] {
      PlacementsAppend(before, item);
      PlacementOfValid(item);
    }
  }

  /** The search of `pack_to_bin`, stated on the bin's snapshot: the item
      lands at the first anchor where some rotation fits, turned to the
      first such rotation, or joins the unfitted items. */
  method AnchorOrReject(box: Bin, item: Item, flat: bool)
    requires item.Valid()
    modifies box, item
    ensures item.Valid()
    ensures (box.items == old(box.items) + [item] && box.unfittedItems == old(box.unfittedItems)) ||
            (box.items == old(box.items) && box.unfittedItems == old(box.unfittedItems) + [item] &&
             item.position == old(item.position))
    ensures item !in old(box.items) ==>
              var landing := Landing(old(box.Snapshot()), PieceOf(item), box.Rotations(),
                                     AnchorPoints(old(Placements(box.items)), flat));
              (box.items == old(box.items) + [item] <==> landing.Some?) &&
              (landing.Some? ==>
                 item.position == landing.value &&
                 var k := FirstFit(old(box.Snapshot()), PieceOf(item), box.Rotations(), landing.value);
                 k < |box.Rotations()| && item.rotationType == box.Rotations()[k])
    ensures old(box.Packed()) && item !in old(box.items) && item.NonNegDims() ==> box.Packed()
  {
    ghost var snap := box.Snapshot();
    ghost var ps := Placements(box.items);
    var ok;
    if |box.items| == 0 {
      assert AnchorPoints(ps, flat) == [] + [Origin];
      LandingNext(snap, PieceOf(item), box.Rotations(), [], Origin);
      ok := box.PutItem(item, Origin);
    } else {
      assert AnchorPoints(ps, flat) == Candidates(Axes(flat), ps, flat);
      ok := SearchAnchors(box, item, flat);
    }
    if !ok {
      box.Reject(item);
    }
  }

  /** `pack_to_bin` on values: where piece `p` goes in a bin of shape `b`
      holding the placements `ps`, if anywhere.  It goes to the first anchor
      that fits, turned to the first rotation that passes there. */
  function Land(b: BinShape, ps: seq<Placement>, p: Piece, flat: bool): Option<Placement>
  {
    var s := SlotWith(b, ps);
    var cs := AnchorPoints(ps, flat);
    match Landing(s, p, b.rots, cs)
    case None => None
    case Some(v) =>
      LandingFirst(s, p, b.rots, cs);
      Some(PlaceAt(v, b.rots[FirstFit(s, p, b.rots, v)], p))
  }

  /** An empty bin tries only the origin: the piece lands there, turned to
      the first rotation that passes, or nowhere. */
  lemma EmptyBinLand(b: BinShape, p: Piece, flat: bool)
    ensures var k := FirstFit(SlotWith(b, []), p, b.rots, Origin);
      Land(b, [], p, flat) == if k < |b.rots| then Some(PlaceAt(Origin, b.rots[k], p)) else None
  {
    assert AnchorPoints([], flat) == [] + [Origin];
    LandingNext(SlotWith(b, []), p, b.rots, [], Origin);
  }

  /** A landing keeps the bin invariant: the new placement lies inside the
      bin, hits no placed item, and the load stays within the weight limit. */
  lemma LandArranged(b: BinShape, ps: seq<Placement>, p: Piece, flat: bool)
    requires Arranged(b.extents, ps) && LoadOf(ps) <= b.maxWeight
    requires 0.0 <= p.width && 0.0 <= p.height && 0.0 <= p.depth
    ensures Land(b, ps, p, flat).Some? ==>
              var pl := Land(b, ps, p, flat).value;
              Arranged(b.extents, ps + [pl]) && LoadOf(ps + [pl]) <= b.maxWeight
  {
    var s := SlotWith(b, ps);
    var cs := AnchorPoints(ps, flat);
    LandingFirst(s, p, b.rots, cs);
    if Landing(s, p, b.rots, cs).Some? {
      var v := Landing(s, p, b.rots, cs).value;
      var k := FirstFit(s, p, b.rots, v);
      var pl := PlaceAt(v, b.rots[k], p);
      assert Accepts(s, p, b.rots[k], v) by {
        FirstFitFirst(s, p, b.rots, v);
      }
      assert NonNeg(v) by {
        assert v in cs;
        AnchorsNonNeg(b.extents, ps, flat);
      }
      AcceptedInside(s, p, b.rots[k], v);
      ArrangedAppend(b.extents, ps, pl);
      LoadOfAppend(ps, pl);
    }
  }

  /** A piece with no negative dimension, accepted at a pivot with no
      negative coordinate, lies inside the slot once placed there. */
  lemma AcceptedInside(s: Slot, p: Piece, rt: RotationType, v: Vec3)
    requires Accepts(s, p, rt, v) && NonNeg(v)
    requires 0.0 <= p.width && 0.0 <= p.height && 0.0 <= p.depth
    ensures PlacedInside(PlaceAt(v, rt, p), s.extents)
  {
    RotatedIsPermutation(p.width, p.height, p.depth, rt);
  }
}

# Bin packing (ezdxf `binpacking` add-on) in Dafny

This project models the 3D and 2D bin-packing engine of the ezdxf add-on
`binpacking` and proves properties of it. The engine is:

- **Items.** An `Item` has a width, height, depth and weight. A `FlatItem`
  is the same with depth 1 and a planar bounding box. The engine moves an
  item (`position`) and turns it (`rotation_type`, six orientations). Every
  change recomputes the item's bounding box.
- **Bins.** A `Box` has width, height, depth and a weight limit. An
  `Envelope` is a box of depth 1 that tries only the rotations WHD and HWD.
  `put_item` places an item at an anchor point (a pivot). It tries the
  bin's rotations in order and accepts the first one whose far corner does
  not exceed the bin's extents (touching the walls is allowed), that
  intersects no placed item and that keeps the total weight within the
  limit. When every rotation fails, it restores
  the item's position.
- **Anchor search.** `pack_to_bin` tries only the origin on an empty bin.
  Otherwise it tries the anchors next to the placed items, axis by axis
  (WIDTH, HEIGHT, DEPTH; a flat packer uses WIDTH and HEIGHT at depth 0) and
  item by item. It stops at the first anchor where `put_item` succeeds, and
  otherwise records the item as unfitted.
- **Packers.** `Packer` and `FlatPacker` keep a list of bins and a list of
  pending items. `pack` orders both lists by the pick strategy:
  - SMALLER_FIRST: stable sort by capacity and by volume, ascending;
  - BIGGER_FIRST: the same sort, descending;
  - SHUFFLE: a random permutation.

  Then each bin in turn is offered every pending item. With
  `distribute_items`, the items a bin took are removed from the pending
  list before the next bin. `copy` duplicates a packer that has not packed
  yet and raises TypeError afterwards.

Modules:
- `Geometry`: points and bounding boxes.
- `Items`: rotations and `Item`.
- `Bins`: `Bin` and `put_item`.
- `Anchors`: `pack_to_bin`.
- `Sorting`: Python's stable `list.sort`.
- `Packing`: the packer classes and `pack`.
- `Errors`: the Python exceptions that the model returns as values.

How the source's entities are modelled:
- Items, bins and packers are classes whose methods update their fields in
  place. The item objects are shared references, as in the source.
- `Packer` and `FlatPacker` are one class with a constant `flat`.
- `Box` and `Envelope` are one class with a constant `envelope`.

Two invariants carry most of the proofs:
- The **bin invariant** `Bin.Packed`:
  - every placed item lies inside the bin;
  - no placed item intersects an item placed before it;
  - the total weight is within the limit.
- A **clean run** (`CleanRun`) is the precondition of the `pack`
  guarantees:
  - no bin or item is listed twice;
  - every bin starts empty (no placed and no unfitted items) with a
    non-negative weight limit;
  - no item has a negative size.

Two functions on values specify the loops:
- `Anchors.Land`: where `pack_to_bin` puts an item in a bin holding given
  placements, if anywhere;
- `Packing.Fill`: which items of an offered list a bin takes, and its
  placements afterwards.

## Model

| member | source | states |
|---|---|---|
| Items.RotatedIsPermutation | src/ezdxf/addons/binpacking.py:123-137 | every rotation lays out a permutation of (width, height, depth); WHD is the identity; WHD and HWD keep the depth |
| Items.RotatedVolume | src/ezdxf/addons/binpacking.py:87-88 | the volume of the rotated dimensions equals width*height*depth for every rotation |
| Items.AllRotationsComplete | src/ezdxf/addons/binpacking.py:40-46 | iterating RotationType yields every member |
| Items.Item.constructor | src/ezdxf/addons/binpacking.py:65-81 | a new item keeps its size, weight and payload, starts at START_POSITION in rotation WHD, and has a current bounding box |
| Items.Item.Flat | src/ezdxf/addons/binpacking.py:156-164 | a FlatItem has depth 1, is flat, and starts at the origin in WHD with a current box |
| Items.Item.Copy | src/ezdxf/addons/binpacking.py:83-85 | a shallow copy: a new object with every attribute equal and the same payload reference |
| Items.Item.UpdateBBox | src/ezdxf/addons/binpacking.py:90-92 | the bounding box spans position to position + dimension (planar for a flat item); position and rotation are unchanged |
| Items.Item.SetRotation | src/ezdxf/addons/binpacking.py:109-112 | the rotation setter changes the rotation only and leaves the box current |
| Items.Item.SetPosition | src/ezdxf/addons/binpacking.py:118-121 | the position setter changes the position only and leaves the box current |
| Geometry.BoxOf | src/ezdxf/addons/binpacking.py:166-168 | the box of two corners is ordered; for ordered corners it is exactly those corners, projected to x/y for the planar box |
| Bins.Bin.Box | src/ezdxf/addons/binpacking.py:179-193 | a new Box has the given extents and weight limit and two empty lists |
| Bins.Bin.Envelope | src/ezdxf/addons/binpacking.py:254-261 | a new Envelope has depth 1, the given width, height and weight limit, two empty lists, and its capacity is its area width*height |
| Bins.Bin.Copy | src/ezdxf/addons/binpacking.py:195-199 | a new bin with equal attributes whose lists hold the same item references |
| Bins.Bin.Rotations | src/ezdxf/addons/binpacking.py:270-271 | an Envelope tries exactly WHD then HWD; every bin tries WHD first |
| Bins.Bin.RotationsTried | src/ezdxf/addons/binpacking.py:245-246 | no rotation is tried twice; a Box tries all six |
| Bins.Bin.VolumeWithinCapacity | src/ezdxf/addons/binpacking.py:229-231 | in a bin that keeps the bin invariant, no item's volume exceeds the bin's capacity |
| Bins.ItemsWithin | src/ezdxf/addons/binpacking.py:229-231 | every item placed inside the given extents has at most their product as volume, whatever its rotation |
| Bins.Bin.FillRatio | src/ezdxf/addons/binpacking.py:241-243 | ZeroDivisionError exactly when the capacity is 0; otherwise ratio * capacity == total volume |
| Bins.SumWeightsAppend | src/ezdxf/addons/binpacking.py:233-235 | appending an item adds exactly its weight to the total weight |
| Bins.SumVolumesAppend | src/ezdxf/addons/binpacking.py:237-239 | appending an item adds exactly its volume to the total volume |
| Bins.HitsAnyExists | src/ezdxf/addons/binpacking.py:220 | the intersection test holds iff some placed box intersects the new one |
| Bins.FirstFitFirst | src/ezdxf/addons/binpacking.py:213-224 | the rotation chosen is the first that passes the three tests; every earlier one fails |
| Bins.SeparatedPairwise | src/ezdxf/addons/binpacking.py:219-223 | boxes placed one by one past the intersection test pass it iff every later box misses every earlier one (`Intersects` with the later box as receiver) |
| Bins.ArrangedAppend | src/ezdxf/addons/binpacking.py:216-223 | appending an item that lies inside the bin and hits no placed box keeps every item inside and all boxes disjoint |
| Bins.Bin.TryRotation | src/ezdxf/addons/binpacking.py:214-222 | after turning the item, it passes iff its far corner is within the extents (touching allowed), it intersects no placed item and the weight stays within the limit; for an item new to the bin this is exactly `Accepts` |
| Bins.Bin.SearchRotations | src/ezdxf/addons/binpacking.py:209-225 | the loop stops at the first passing rotation (the `FirstFit` index); on failure the item is left at the last rotation; the bin is unchanged |
| Bins.Bin.Reject | src/ezdxf/addons/binpacking.py:360 | the item is appended to the unfitted items; the placed items and the bin invariant are unchanged |
| Bins.Bin.Append | src/ezdxf/addons/binpacking.py:223 | the item is appended last; an item that passed the tests keeps the bin invariant |
| Bins.Bin.PutItem | src/ezdxf/addons/binpacking.py:208-227 | accepted iff some rotation passes; on success the item is last in `items` at the pivot with the first passing rotation; on failure items are unchanged, the position is restored and the rotation is the last tried; the bin invariant is preserved |
| Anchors.Row | src/ezdxf/addons/binpacking.py:363-372 | the anchors along one axis are one per placed item, in placement order, each the item's position moved by its extent along the axis (at depth 0 for a flat packer) |
| Anchors.AxisMajor | src/ezdxf/addons/binpacking.py:362-363 | the anchors of a non-empty bin are every WIDTH anchor, then every HEIGHT anchor, then (3D only) every DEPTH anchor; the flat variant (line 411) has no DEPTH row |
| Anchors.LandingFirst | src/ezdxf/addons/binpacking.py:362-377 | there is no landing iff no anchor fits; otherwise the landing anchor fits and no anchor before it does |
| Anchors.LandingPrefix | src/ezdxf/addons/binpacking.py:375-376 | anchors after the first that fits are never looked at |
| Anchors.FlatAnchorsOnFloor | src/ezdxf/addons/binpacking.py:411-418 | every anchor of a flat packer has z == 0 |
| Anchors.AnchorsNonNeg | src/ezdxf/addons/binpacking.py:363-372 | anchors next to items placed inside a bin are never negative |
| Anchors.TryRow | src/ezdxf/addons/binpacking.py:363-376 | along one axis, the item lands at the first anchor (item order) where `put_item` succeeds, with the first passing rotation; a failed row changes neither the bin's placements nor the bin invariant, and leaves the position restored |
| Anchors.AxisStep | src/ezdxf/addons/binpacking.py:362-376 | when no earlier axis had a landing, a landing on this axis is the landing of the whole search, and no landing here carries "none so far" to the next axis |
| Anchors.SearchAnchors | src/ezdxf/addons/binpacking.py:362-377 | axis-major, item-minor search: success iff some candidate fits, at the first such candidate; the bin invariant is preserved |
| Anchors.AnchorOrReject | src/ezdxf/addons/binpacking.py:356-377 | exactly one of the two lists gains the item; for an item not already in the bin, it lands at the first anchor where some rotation passes (only the origin for an empty bin), turned to the first such rotation, or joins the unfitted items with its position restored |
| Anchors.PackToBin | src/ezdxf/addons/binpacking.py:356-377 | exactly one of the two lists gains the item; for an item new to the bin it is placed iff `Land` finds a placement, and the bin's placements grow by exactly that placement; the flat variant (lines 404-423) is the `flat` case; the bin invariant is preserved |
| Anchors.EmptyBinLand | src/ezdxf/addons/binpacking.py:356-360 | in an empty bin the item is tried at the origin only: it lands there turned to the first passing rotation, or nowhere |
| Anchors.LandArranged | src/ezdxf/addons/binpacking.py:356-377 | a placement found by `Land` lies inside the bin, hits no placed item, and keeps the load within the weight limit |
| Sorting.SortByCorrect | src/ezdxf/addons/binpacking.py:308-309 | the sort is a permutation, non-decreasing by the key, and stable |
| Sorting.SortByStable | src/ezdxf/addons/binpacking.py:308-309 | elements with equal keys keep their original relative order |
| Packing.OrderedPermutes | src/ezdxf/addons/binpacking.py:307-315 | every strategy permutes the list; SMALLER_FIRST is ascending, BIGGER_FIRST descending, both stable |
| Packing.RemoveFirstSpec | src/ezdxf/addons/binpacking.py:323 | `list.remove` fails (ValueError) iff the element is absent; otherwise it deletes the first occurrence |
| Packing.RemoveFirstCount | src/ezdxf/addons/binpacking.py:323 | a successful removal takes exactly one occurrence out of the multiset |
| Packing.RemoveAllSpec | src/ezdxf/addons/binpacking.py:322-323 | removing a bin's items succeeds iff they are a sub-multiset of the pending items; the rest is then exactly the difference |
| Packing.RemoveAllWithin | src/ezdxf/addons/binpacking.py:322-323 | whatever is left after the removals was pending before |
| Packing.SelectSplit | src/ezdxf/addons/binpacking.py:318-319 | every offered item ends up in exactly one of the bin's two lists |
| Packing.FillArranged | src/ezdxf/addons/binpacking.py:318-319 | offering any list of pieces to a bin keeps the bin invariant on values |
| Packing.FillPlaces | src/ezdxf/addons/binpacking.py:318-319 | filling never moves an earlier placement, and the new placements hold exactly the accepted pieces, in offer order |
| Packing.Offer | src/ezdxf/addons/binpacking.py:319 | one offer appends the item to exactly one of the bin's lists; for an item new to the bin it is placed iff `Land` finds a placement, which the bin's placements gain; the bin invariant is kept |
| Packing.OfferAll | src/ezdxf/addons/binpacking.py:318-319 | the offer loop from a given start: the bin's two lists gain the accepted and the rejected items in order, and for new, different items what it takes is what `Fill` computes |
| Packing.FillBin | src/ezdxf/addons/binpacking.py:318-319 | the bin's items gain the accepted pending items and its unfitted items the others, each in pending order; for new, different items the accepted ones and the new placements are exactly what `Fill` computes; the bin invariant holds after the loop |
| Packing.Transfer | src/ezdxf/addons/binpacking.py:321-323 | moving the removed items into the bin loses, adds and repeats nothing |
| Packing.Distributed | src/ezdxf/addons/binpacking.py:321-323 | in a clean run removing a bin's items cannot fail, and no item is lost, added or in two places |
| Packing.FillOne | src/ezdxf/addons/binpacking.py:317-319 | filling bin k leaves the other bins' lists alone; when no bin or pending item is listed twice and the bins from k on are empty, bin k takes exactly what `Fill` computes for it while empty and its items sit where `Fill` put them; in a clean run with distribution every bin stays packed and no other bin's placements move |
| Packing.PackBin | src/ezdxf/addons/binpacking.py:317-323 | one pass of the outer loop: without distribution the pending list is unchanged; with it the pending list becomes the bin's items removed from it, and a failed removal is ValueError; in a clean run "placed + pending" stays a repetition-free permutation of the original items |
| Packing.PackAll | src/ezdxf/addons/binpacking.py:317-323 | bin k is offered `offered[k]` (the ordered items, or without distribution always them); in a clean run it takes exactly what `Fill` computes for it; with distribution nothing fails, each offered list is the previous one minus the previous bin's items, the items sit where `Fill` put them, none is lost or in two places, and every bin keeps the bin invariant |
| Packing.SharedItemTurned | src/ezdxf/addons/binpacking.py:317-319 | without distribution a shared item's last placement decides its position and rotation: a concrete item that fits a first box unturned is turned by a second box and then lies outside the first |
| Packing.PackLists | src/ezdxf/addons/binpacking.py:306-323 | the ordering by strategy followed by the loops, with PackAll's guarantees on the ordered lists |
| Packing.CopyBins | src/ezdxf/addons/binpacking.py:286 | new, pairwise different bin copies with the same attributes and item references |
| Packing.CopyItems | src/ezdxf/addons/binpacking.py:287-288 | new, pairwise different item copies |
| Packing.Packer.constructor | src/ezdxf/addons/binpacking.py:275-279 | a new packer has no bins or items and is in the init state |
| Packing.Packer.Flat | src/ezdxf/addons/binpacking.py:380 | a new FlatPacker (the inherited `_Packer.__init__`, lines 275-279) is flat, has no bins or items and is in the init state |
| Packing.Packer.Copy | src/ezdxf/addons/binpacking.py:281-289 | TypeError iff the packer has packed; otherwise a fresh packer in the init state with copies of every bin and item |
| Packing.Packer.AppendBin | src/ezdxf/addons/binpacking.py:294-295 | the bin is appended last |
| Packing.Packer.AppendItem | src/ezdxf/addons/binpacking.py:297-298 | the item is appended last |
| Packing.Packer.AddBox | src/ezdxf/addons/binpacking.py:331-341 | a fresh empty Box with the given attributes is appended and returned |
| Packing.Packer.AddItem | src/ezdxf/addons/binpacking.py:343-353 | a fresh item at the origin in WHD is appended and returned |
| Packing.Packer.AddEnvelope | src/ezdxf/addons/binpacking.py:381-390 | a fresh empty Envelope of depth 1 is appended and returned |
| Packing.Packer.AddFlatItem | src/ezdxf/addons/binpacking.py:392-401 | a fresh FlatItem is appended and returned |
| Packing.Packer.Pack | src/ezdxf/addons/binpacking.py:300-323 | leaves the init state, so a later `copy` is refused; bins are in strategy order and bin k was offered `offered[k]`, starting from the items in strategy order; without distribution every bin is offered all of them and the call cannot fail; only a removal can fail (ValueError); `unfit_items` is untouched; from a clean start every bin took exactly what `Fill` computes for it; with distribution also no failure, every item in exactly one bin or still pending, each bin's items where `Fill` put them and every bin packed consistently |

## Left out

- `get_transformation` (lines 139-153) is not modelled. It builds a matrix for WHD and HWD and raises NotImplementedError for the other four rotations. Matrices belong to the geometry library, which is not part of this model.
- `__str__` of every class, `export_dxf` and the `_Packer.pack_to_bin` stub are left out: they produce text or nothing.
- The geometry library (Vec2, Vec3, BoundingBox, BoundingBox2d) is not part of this model. `Geometry.Intersects` takes `intersect` to test strict overlap on every axis of the receiving box, so boxes that only touch do not intersect. A planar box compares x and y only.
- Python floats are modelled as exact reals: rounding is not modelled. UNLIMITED_WEIGHT is the exact value 1e99, the default weight limit of `Box` and `Envelope`.
- `random.shuffle` is not modelled. SHUFFLE takes the shuffled lists as parameters of `Packing.Packer.Pack`, required to be permutations of the current lists.
- The keyword defaults of `add_box`, `add_item`, `add_envelope` and `pack` (`max_weight=UNLIMITED_WEIGHT`, `weight=0.0`, `pick_strategy=BIGGER_FIRST`, `distribute_items=False`) are explicit parameters.
- The unreachable `raise ValueError(rt)` in `get_dimension` and `raise TypeError(axis)` in `pack_to_bin` are left out: the enumerations have no other members.
- `Packer` and `FlatPacker` are one class: `AddBox`/`AddItem` require a 3D packer and `AddEnvelope`/`AddFlatItem` a flat one, one method per subclass.
- `unfit_items` is created and copied but never filled by the code, and `Packing.Packer.Pack` states that it stays unchanged.
- `append_bin` and `append_item` are modelled as written: they do not check the init state.
- Packing.Packer.Pack: what each bin was offered and took is stated for every run from a clean start (`CleanStart`); where its items sit, that no item is lost or in two places and that every bin keeps the bin invariant are stated only for a clean start with `distribute_items`. Without distribution the same item object is placed in several bins, and each later attempt may turn it, and each later placement also moves it, inside the earlier bins (a failed `put_item` restores the position but leaves the last rotation tried) (`Packing.SharedItemTurned`); the model keeps that aliasing and claims nothing about the earlier bins' layout.
- Packing.PackAll: as for `Pack`, its packing guarantees are stated only for a clean run (`CleanRun`), and the layout and conservation guarantees only with distribution.
- Bins.Bin.PutItem: whether and where the item is accepted (`FirstFit`) is characterised only for an item not already in the bin. The bin invariant is preserved only for items with non-negative dimensions at a non-negative pivot.
- Bins.Bin.TryRotation: the equivalence with `Accepts` on the bin as it was is stated only for an item not already in the bin (an item already in the bin moves its own placed box when turned).
- Bins.Bin.SearchRotations: that it stops at `FirstFit` and leaves the bin unchanged is stated only for an item not already in the bin.
- Anchors.TryRow: the landing, and that a failed row changes nothing, are stated only for an item not already in the bin.
- Anchors.SearchAnchors: the landing characterisation is stated only for an item not already in the bin; the bin invariant also needs non-negative item dimensions.
- Anchors.AnchorOrReject: the landing is stated only for an item not already in the bin; the bin invariant also needs non-negative item dimensions.
- Anchors.PackToBin: the landing characterisation and the bin invariant are stated only for an item not already in the bin. The bin invariant also needs non-negative item dimensions.

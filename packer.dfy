/** The packers (`_Packer`, `Packer`, `FlatPacker`): the list of bins, the
    list of pending items, the pick strategies and the bin-major packing
    loop with its optional removal of placed items. */
module Packing {
  import opened Errors
  import opened Geometry
  import opened Items
  import opened Bins
  import opened Anchors
  import opened Sorting

  datatype PickStrategy = SMALLER_FIRST | BIGGER_FIRST | SHUFFLE

  /* ---------------------------------------------------------------- */
  /* Lists without repeated elements                                   */

  /** No element occurs twice. */
  ghost predicate Distinct<T>(s: seq<T>)
  {
    s == [] || (Distinct(s[..|s| - 1]) && s[|s| - 1] !in s[..|s| - 1])
  }

  /** Equivalently, every element occurs at most once. */
  lemma {:induction false} DistinctCounts<T>(s: seq<T>)
    ensures Distinct(s) <==> forall x :: multiset(s)[x] <= 1
  {
    if s != [] {
      var n := |s| - 1;
      var p, y := s[..n], s[n];
      assert s == p + [y];
      DistinctCounts(p);
      assert forall x :: multiset(s)[x] == multiset(p)[x] + (if x == y then 1 else 0);
      if forall x :: multiset(s)[x] <= 1 {
        assert multiset(p)[y] == 0;
      }
    }
  }

  lemma DistinctAt<T>(s: seq<T>, i: nat)
    requires Distinct(s) && i < |s|
    ensures s[i] !in s[..i]
  {
    DistinctCounts(s);
    assert s == s[..i] + [s[i]] + s[i + 1..];
    assert multiset(s)[s[i]] == multiset(s[..i])[s[i]] + 1 + multiset(s[i + 1..])[s[i]];
  }

  lemma DistinctApart<T>(s: seq<T>, i: nat, j: nat)
    requires Distinct(s) && i < j < |s|
    ensures s[i] != s[j]
  {
    DistinctAt(s, j);
    assert s[..j][i] == s[i];
  }

  lemma DistinctSplit<T>(a: seq<T>, b: seq<T>, x: T)
    requires Distinct(a + b) && x in a
    ensures x !in b
  {
    DistinctCounts(a + b);
    assert multiset(a + b)[x] == multiset(a)[x] + multiset(b)[x];
  }

  lemma DistinctRight<T>(a: seq<T>, b: seq<T>)
    requires Distinct(a + b)
    ensures Distinct(b)
  {
    DistinctCounts(a + b);
    DistinctCounts(b);
    forall x ensures multiset(b)[x] <= 1 {
      assert multiset(a + b)[x] == multiset(a)[x] + multiset(b)[x];
    }
  }

  /** Reordering keeps a list free of repetitions. */
  lemma DistinctReordered<T>(a: seq<T>, b: seq<T>)
    requires Distinct(a) && multiset(a) == multiset(b)
    ensures Distinct(b)
  {
    DistinctCounts(a);
    DistinctCounts(b);
  }

  /* ---------------------------------------------------------------- */
  /* list.remove                                                       */

  /** `list.remove(x)`: the list without the first occurrence of `x`, or
      None where Python raises ValueError. */
  function RemoveFirst<T(==)>(s: seq<T>, x: T): Option<seq<T>>
  {
    if s == [] then None
    else if s[0] == x then Some(s[1..])
    else match RemoveFirst(s[1..], x)
      case None => None
      case Some(t) => Some([s[0]] + t)
  }

  /** Where `x` first occurs in `s`. */
  function FirstIndex<T(==)>(s: seq<T>, x: T): nat
    requires x in s
  {
    if s[0] == x then 0 else 1 + FirstIndex(s[1..], x)
  }

  lemma {:induction false} FirstIndexSpec<T>(s: seq<T>, x: T)
    requires x in s
    ensures FirstIndex(s, x) < |s| && s[FirstIndex(s, x)] == x && x !in s[..FirstIndex(s, x)]
  {
    if s[0] != x {
      assert x in s[1..];
      FirstIndexSpec(s[1..], x);
      assert s[..FirstIndex(s, x)] == [s[0]] + s[1..][..FirstIndex(s[1..], x)];
    }
  }

  /** `remove` succeeds iff `x` occurs; it then deletes exactly the first
      occurrence and keeps the order of the others. */
  lemma {:induction false} RemoveFirstSpec<T>(s: seq<T>, x: T)
    ensures RemoveFirst(s, x).Some? <==> x in s
    ensures x in s ==>
              var i := FirstIndex(s, x);
              i < |s| && RemoveFirst(s, x).value == s[..i] + s[i + 1..]
  {
    if s != [] && s[0] != x {
      RemoveFirstSpec(s[1..], x);
      assert s == [s[0]] + s[1..];
      if x in s[1..] {
        FirstIndexSpec(s[1..], x);
        var j := FirstIndex(s[1..], x);
        assert s[..j + 1] == [s[0]] + s[1..][..j];
        assert s[j + 2..] == s[1..][j + 1..];
      }
    }
  }

  /** So the multiset loses exactly one `x`. */
  lemma RemoveFirstCount<T>(s: seq<T>, x: T)
    requires x in s
    ensures RemoveFirst(s, x).Some?
    ensures multiset(RemoveFirst(s, x).value) == multiset(s) - multiset{x}
  {
    RemoveFirstSpec(s, x);
    FirstIndexSpec(s, x);
    var i := FirstIndex(s, x);
    var front, back := s[..i], s[i + 1..];
    assert s == front + [x] + back;
    assert multiset(s) == multiset(front) + multiset{x} + multiset(back);
    assert multiset(front + back) == multiset(front) + multiset(back);
  }

  /** `for item in xs: s.remove(item)`: the list after the removals and
      whether all of them succeeded (false at the first ValueError, with
      the removals made before it kept). */
  function RemoveAll<T(==)>(s: seq<T>, xs: seq<T>): (seq<T>, bool)
    decreases |xs|
  {
    if xs == [] then (s, true)
    else match RemoveFirst(s, xs[0])
      case None => (s, false)
      case Some(t) => RemoveAll(t, xs[1..])
  }

  /** The removals succeed iff every element to remove occurs often enough,
      and then exactly those elements are gone; in any case nothing is
      added. */
  lemma {:induction false} RemoveAllSpec<T>(s: seq<T>, xs: seq<T>)
    ensures RemoveAll(s, xs).1 <==> multiset(xs) <= multiset(s)
    ensures RemoveAll(s, xs).1 ==> multiset(RemoveAll(s, xs).0) == multiset(s) - multiset(xs)
    ensures multiset(RemoveAll(s, xs).0) <= multiset(s)
  {
    if xs != [] {
      assert xs == [xs[0]] + xs[1..];
      RemoveFirstSpec(s, xs[0]);
      if xs[0] in s {
        RemoveFirstCount(s, xs[0]);
        var t := RemoveFirst(s, xs[0]).value;
        RemoveAllSpec(t, xs[1..]);
        assert multiset(xs) == multiset{xs[0]} + multiset(xs[1..]);
        assert multiset(xs) <= multiset(s) <==> multiset(xs[1..]) <= multiset(t);
      } else {
        assert xs[0] in multiset(xs);
        assert xs[0] !in multiset(s);
      }
    }
  }

  /** Whatever survives the removals was there to begin with. */
  lemma RemoveAllWithin<T>(s: seq<T>, xs: seq<T>)
    ensures forall it | it in RemoveAll(s, xs).0 :: it in s
  {
    RemoveAllSpec(s, xs);
    assert forall it | it in RemoveAll(s, xs).0 :: it in multiset(s);
  }

  /* ---------------------------------------------------------------- */
  /* Splitting the pending items by outcome                            */

  /** The elements of `s` whose flag in `fits` is `keep`, in order. */
  function Select<T>(s: seq<T>, fits: seq<bool>, keep: bool): seq<T>
    requires |fits| == |s|
  {
    if s == [] then []
    else Select(s[..|s| - 1], fits[..|s| - 1], keep) +
         (if fits[|s| - 1] == keep then [s[|s| - 1]] else [])
  }

  lemma SelectStep<T>(s: seq<T>, fits: seq<bool>, fit: bool, i: nat, keep: bool)
    requires i < |s| && |fits| == i
    ensures Select(s[..i + 1], fits + [fit], keep) ==
              Select(s[..i], fits, keep) + (if fit == keep then [s[i]] else [])
  {
    assert s[..i + 1][..i] == s[..i];
    assert (fits + [fit])[..i] == fits;
  }

  /** Every element goes to exactly one side. */
  lemma {:induction false} SelectSplit<T>(s: seq<T>, fits: seq<bool>)
    requires |fits| == |s|
    ensures multiset(Select(s, fits, true)) + multiset(Select(s, fits, false)) == multiset(s)
  {
    if s != [] {
      var n := |s| - 1;
      SelectSplit(s[..n], fits[..n]);
      assert s == s[..n] + [s[n]];
    }
  }

  /* ---------------------------------------------------------------- */
  /* Pick strategies                                                   */

  function CapacityKey(b: Bin): real
  {
    b.Capacity()
  }

  function VolumeKey(it: Item): real
  {
    it.Volume()
  }

  function Negated<T>(key: T -> real): T -> real
  {
    x => -key(x)
  }

  /** The order `pack` gives a list: a stable sort by the key, ascending
      (SMALLER_FIRST) or descending (BIGGER_FIRST, `reverse=True`, which
      keeps equal keys in their original order), or the shuffled order,
      which is a parameter. */
  function Ordered<T>(strategy: PickStrategy, s: seq<T>, shuffled: seq<T>, key: T -> real): seq<T>
  {
    match strategy
    case SMALLER_FIRST => SortBy(s, key)
    case BIGGER_FIRST => SortBy(s, Negated(key))
    case SHUFFLE => shuffled
  }

  lemma {:induction false} WithNegatedKey<T>(s: seq<T>, key: T -> real, v: real)
    ensures WithKey(s, Negated(key), -v) == WithKey(s, key, v)
  {
    if s != [] {
      WithNegatedKey(s[1..], key, v);
      assert Negated(key)(s[0]) == -key(s[0]);
    }
  }

  /** Every strategy reorders without adding or losing elements; the two
      sorting strategies order by the key (ascending or descending) and
      keep elements with equal keys in their original order. */
  lemma OrderedPermutes<T>(strategy: PickStrategy, s: seq<T>, shuffled: seq<T>, key: T -> real)
    requires strategy == SHUFFLE ==> multiset(shuffled) == multiset(s)
    ensures var r := Ordered(strategy, s, shuffled, key);
      multiset(r) == multiset(s) &&
      (strategy == SMALLER_FIRST ==> forall i, j | 0 <= i < j < |r| :: key(r[i]) <= key(r[j])) &&
      (strategy == BIGGER_FIRST ==> forall i, j | 0 <= i < j < |r| :: key(r[j]) <= key(r[i])) &&
      (strategy != SHUFFLE ==> forall v :: WithKey(r, key, v) == WithKey(s, key, v))
  {
    match strategy
    case SMALLER_FIRST =>
      SortByCorrect(s, key);
    case BIGGER_FIRST =>
      var r := SortBy(s, Negated(key));
      SortByCorrect(s, Negated(key));
      forall i, j | 0 <= i < j < |r| ensures key(r[j]) <= key(r[i]) {
        assert Negated(key)(r[i]) <= Negated(key)(r[j]);
      }
      forall v ensures WithKey(r, key, v) == WithKey(s, key, v) {
        WithNegatedKey(r, key, v);
        WithNegatedKey(s, key, v);
      }
    case SHUFFLE =>
  }

  /* ---------------------------------------------------------------- */
  /* Copies                                                            */

  ghost predicate SameBin(c: Bin, b: Bin)
    reads c, b
  {
    c.name == b.name && c.width == b.width && c.height == b.height && c.depth == b.depth &&
    c.maxWeight == b.maxWeight && c.envelope == b.envelope &&
    c.items == b.items && c.unfittedItems == b.unfittedItems
  }

  ghost predicate SameItem(c: Item, it: Item)
    reads c, it
  {
    c.payload == it.payload && c.width == it.width && c.height == it.height &&
    c.depth == it.depth && c.weight == it.weight && c.flat == it.flat &&
    c.rotationType == it.rotationType && c.position == it.position && c.bbox == it.bbox
  }

  /** `[box.copy() for box in bins]`: new, pairwise different bins, each
      with the attributes and (shared) item references of its original. */
  method CopyBins(bins: seq<Bin>) returns (cs: seq<Bin>)
    ensures |cs| == |bins|
    ensures forall i | 0 <= i < |bins| :: fresh(cs[i]) && SameBin(cs[i], bins[i])
    ensures forall i, j | 0 <= i < j < |cs| :: cs[i] != cs[j]
  {
    cs := [];
    for i := 0 to |bins|
      invariant |cs| == i
      invariant forall j | 0 <= j < i :: fresh(cs[j]) && SameBin(cs[j], bins[j])
      invariant forall j, l | 0 <= j < l < i :: cs[j] != cs[l]
    {
      var c := bins[i].Copy();
      cs := cs + [c];
    }
  }

  /** `[item.copy() for item in items]`: new, pairwise different items,
      each a field-by-field duplicate of its original. */
  method CopyItems(items: seq<Item>) returns (cs: seq<Item>)
    ensures |cs| == |items|
    ensures forall i | 0 <= i < |items| :: fresh(cs[i]) && SameItem(cs[i], items[i])
    ensures forall i, j | 0 <= i < j < |cs| :: cs[i] != cs[j]
  {
    cs := [];
    for i := 0 to |items|
      invariant |cs| == i
      invariant forall j | 0 <= j < i :: fresh(cs[j]) && SameItem(cs[j], items[j])
      invariant forall j, l | 0 <= j < l < i :: cs[j] != cs[l]
    {
      var c := items[i].Copy();
      cs := cs + [c];
    }
  }

  /* ---------------------------------------------------------------- */
  /* Packing                                                           */

  /** All items of the bins, bin after bin. */
  ghost function Placed(bins: seq<Bin>): seq<Item>
    reads bins`items
  {
    if bins == [] then [] else Placed(bins[..|bins| - 1]) + bins[|bins| - 1].items
  }

  lemma {:induction false} PlacedMember(bins: seq<Bin>, j: nat, x: Item)
    requires j < |bins| && x in bins[j].items
    ensures x in Placed(bins)
  {
    var n := |bins| - 1;
    if j < n {
      PlacedMember(bins[..n], j, x);
    }
  }

  lemma PlacedStep(bins: seq<Bin>, k: nat)
    requires k < |bins|
    ensures Placed(bins[..k + 1]) == Placed(bins[..k]) + bins[k].items
  {
    assert bins[..k + 1][..k] == bins[..k];
  }

  /** In a list without repetitions, the item at `i` is not among those
      taken from before it. */
  lemma NotYetPlaced(pending: seq<Item>, fits: seq<bool>, i: nat)
    requires Distinct(pending) && i < |pending| && |fits| == i
    ensures pending[i] !in Select(pending[..i], fits, true)
  {
    DistinctAt(pending, i);
    SelectSplit(pending[..i], fits);
    assert pending[i] !in multiset(pending[..i]);
  }

  /** The sizes and weights of the items of `s`, in order. */
  function PiecesOf(s: seq<Item>): (r: seq<Piece>)
    ensures |r| == |s|
  {
    if s == [] then [] else PiecesOf(s[..|s| - 1]) + [PieceOf(s[|s| - 1])]
  }

  /** The inner loop of `pack` on values: the pieces are offered in order to
      a bin of shape `b` holding the placements `ps`; which of them it takes,
      and its placements afterwards. */
  function Fill(b: BinShape, ps: seq<Placement>, pieces: seq<Piece>, flat: bool): (r: (seq<bool>, seq<Placement>))
    ensures |r.0| == |pieces|
  {
    if pieces == [] then ([], ps)
    else
      var (fits, qs) := Fill(b, ps, pieces[..|pieces| - 1], flat);
      match Land(b, qs, pieces[|pieces| - 1], flat)
      case None => (fits + [false], qs)
      case Some(pl) => (fits + [true], qs + [pl])
  }

  /** Filling keeps the bin invariant on values: every taken piece lies
      inside the bin and hits no other, and the weight limit holds. */
  lemma {:induction false} FillArranged(b: BinShape, ps: seq<Placement>, pieces: seq<Piece>, flat: bool)
    requires Arranged(b.extents, ps) && LoadOf(ps) <= b.maxWeight
    requires forall p | p in pieces :: 0.0 <= p.width && 0.0 <= p.height && 0.0 <= p.depth
    ensures Arranged(b.extents, Fill(b, ps, pieces, flat).1)
    ensures LoadOf(Fill(b, ps, pieces, flat).1) <= b.maxWeight
  {
    if pieces != [] {
      var n := |pieces| - 1;
      assert pieces[n] in pieces;
      FillArranged(b, ps, pieces[..n], flat);
      LandArranged(b, Fill(b, ps, pieces[..n], flat).1, pieces[n], flat);
    }
  }

  /** Fill takes exactly the pieces it places, in order, and never moves a
      placement made before. */
  lemma {:induction false} FillPlaces(b: BinShape, ps: seq<Placement>, pieces: seq<Piece>, flat: bool)
    ensures var r := Fill(b, ps, pieces, flat);
      |r.1| >= |ps| && r.1[..|ps|] == ps &&
      PiecesPlaced(r.1[|ps|..]) == Select(pieces, r.0, true)
  {
    if pieces != [] {
      var n := |pieces| - 1;
      FillPlaces(b, ps, pieces[..n], flat);
      var r0 := Fill(b, ps, pieces[..n], flat);
      var land := FillStep(b, ps, pieces, flat);
      SelectStep(pieces, r0.0, land.Some?, n, true);
      assert pieces[..n + 1] == pieces;
      if land.Some? {
        AppendSplit(r0.1, land.value, |ps|);
        PiecesPlacedAppend(r0.1[|ps|..], land.value);
      }
    }
  }

  /** Appending leaves a prefix alone and extends the suffix. */
  lemma AppendSplit<T>(s: seq<T>, x: T, n: nat)
    requires n <= |s|
    ensures (s + [x])[..n] == s[..n] && (s + [x])[n..] == s[n..] + [x]
  {
  }

  lemma PiecesPlacedAppend(ps: seq<Placement>, pl: Placement)
    ensures PiecesPlaced(ps + [pl]) == PiecesPlaced(ps) + [pl.piece]
  {
    assert (ps + [pl])[..|ps|] == ps;
  }

  /** One step of `Fill`: the last piece is offered to the bin as the
      earlier pieces left it. */
  lemma FillStep(b: BinShape, ps: seq<Placement>, pieces: seq<Piece>, flat: bool) returns (land: Option<Placement>)
    requires pieces != []
    ensures var n := |pieces| - 1;
      var r0 := Fill(b, ps, pieces[..n], flat);
      land == Land(b, r0.1, pieces[n], flat) &&
      Fill(b, ps, pieces, flat).0 == r0.0 + [land.Some?] &&
      Fill(b, ps, pieces, flat).1 == r0.1 + (if land.Some? then [land.value] else []) &&
      (land.Some? ==> land.value.piece == pieces[n])
  {
    var n := |pieces| - 1;
    land := Land(b, Fill(b, ps, pieces[..n], flat).1, pieces[n], flat);
  }

  /** The pieces of a list of placements, in order. */
  function PiecesPlaced(ps: seq<Placement>): (r: seq<Piece>)
    ensures |r| == |ps|
  {
    if ps == [] then [] else PiecesPlaced(ps[..|ps| - 1]) + [ps[|ps| - 1].piece]
  }

  /** `pack_to_bin(box, item)` as the packing loop sees it: the item goes
      to exactly one of the bin's two lists (`fit` tells which) and the bin
      invariant survives when the item is new to the bin.  For an item new
      to the bin, `fit` is whether `Land` places it, and the bin's
      placements gain that placement. */
  method Offer(box: Bin, item: Item, flat: bool) returns (ghost fit: bool)
    requires item.Valid()
    modifies box, item
    ensures item.Valid()
    ensures fit ==> box.items == old(box.items) + [item] && box.unfittedItems == old(box.unfittedItems)
    ensures !fit ==> box.items == old(box.items) && box.unfittedItems == old(box.unfittedItems) + [item]
    ensures (old(box.Packed()) && item !in old(box.items) && item.NonNegDims()) ==> box.Packed()
    ensures item !in old(box.items) ==>
              var land := Land(box.Shape(), old(Placements(box.items)), PieceOf(item), flat);
              (fit <==> land.Some?) &&
              Placements(box.items) == old(Placements(box.items)) + (if fit then [land.value] else [])
  {
    PackToBin(box, item, flat);
    fit := |box.items| == |old(box.items)| + 1;
  }

  /** One pass of the inner loop of `pack`: offer `pending[i]` and record
      whether the bin took it. */
  method OfferNext(box: Bin, pending: seq<Item>, i: nat, flat: bool, ghost start: seq<Item>,
                   ghost unfitted: seq<Item>, ghost fits: seq<bool>, ghost p0: seq<Placement>,
                   ghost apart: bool, ghost clean: bool)
    returns (ghost fits': seq<bool>)
    requires i < |pending| && |fits| == i
    requires box.items == start + Select(pending[..i], fits, true)
    requires box.unfittedItems == unfitted + Select(pending[..i], fits, false)
    requires forall it | it in pending :: it.Valid()
    requires apart ==> Distinct(pending) && forall it | it in pending :: it !in start
    requires apart ==> (fits, Placements(box.items)) == Fill(box.Shape(), p0, PiecesOf(pending[..i]), flat)
    requires clean ==> apart && box.Packed() && forall it | it in pending :: it.NonNegDims()
    modifies box, pending[i]
    ensures |fits'| == i + 1
    ensures box.items == start + Select(pending[..i + 1], fits', true)
    ensures box.unfittedItems == unfitted + Select(pending[..i + 1], fits', false)
    ensures forall it | it in pending :: it.Valid()
    ensures apart ==> (fits', Placements(box.items)) == Fill(box.Shape(), p0, PiecesOf(pending[..i + 1]), flat)
    ensures clean ==> box.Packed()
  {
    if apart {
      NotYetPlaced(pending, fits, i);
    }
    ghost var ps := Placements(box.items);
    ghost var fit := Offer(box, pending[i], flat);
    SelectStep(pending, fits, fit, i, true);
    SelectStep(pending, fits, fit, i, false);
    fits' := fits + [fit];
    if apart {
      FillNext(box.Shape(), p0, pending, i, fits, ps, fit, Placements(box.items), flat);
    }
  }

  /** The loop's record on values after one more offer: the piece of
      `pending[i]` was taken iff `Land` placed it. */
  lemma FillNext(b: BinShape, p0: seq<Placement>, pending: seq<Item>, i: nat, fits: seq<bool>,
                 ps: seq<Placement>, fit: bool, ps': seq<Placement>, flat: bool)
    requires i < |pending| && (fits, ps) == Fill(b, p0, PiecesOf(pending[..i]), flat)
    requires var land := Land(b, ps, PieceOf(pending[i]), flat);
      (fit <==> land.Some?) && ps' == ps + (if fit then [land.value] else [])
    ensures (fits + [fit], ps') == Fill(b, p0, PiecesOf(pending[..i + 1]), flat)
  {
    PiecesOfStep(pending, i);
    var land := FillStep(b, p0, PiecesOf(pending[..i + 1]), flat);
  }

  lemma PiecesOfStep(s: seq<Item>, i: nat)
    requires i < |s|
    ensures PiecesOf(s[..i + 1]) == PiecesOf(s[..i]) + [PieceOf(s[i])]
  {
    assert s[..i + 1][..i] == s[..i];
  }

  /** Moving the items a bin took from the pending list into the bin
      neither adds nor loses nor repeats anything. */
  lemma Transfer<T>(done: seq<T>, taken: seq<T>, pending: seq<T>, rest: seq<T>)
    requires multiset(taken) <= multiset(pending)
    requires multiset(rest) == multiset(pending) - multiset(taken)
    requires Distinct(done + pending)
    ensures multiset(done + taken + rest) == multiset(done + pending)
    ensures Distinct(done + taken + rest)
  {
    calc {
      multiset(done + taken + rest);
      multiset(done) + multiset(taken) + multiset(rest);
      multiset(done) + multiset(pending);
      multiset(done + pending);
    }
    DistinctReordered(done + pending, done + taken + rest);
  }

  /** The inner loop of `pack`: every pending item, in order, goes through
      `pack_to_bin` for `box`.  `fits` records which of them were placed:
      the placed ones are appended to the bin's items and the others to its
      unfitted items, each in pending order.  If the pending items are
      different objects none of which is in the bin yet, the bin invariant
      survives the whole loop. */
  method FillBin(box: Bin, pending: seq<Item>, flat: bool) returns (ghost fits: seq<bool>)
    requires forall it | it in pending :: it.Valid()
    modifies box, set it | it in pending
    ensures |fits| == |pending|
    ensures box.items == old(box.items) + Select(pending, fits, true)
    ensures box.unfittedItems == old(box.unfittedItems) + Select(pending, fits, false)
    ensures forall it | it in pending :: it.Valid()
    ensures (old(box.Packed()) && Distinct(pending) &&
             forall it | it in pending :: it !in old(box.items) && it.NonNegDims()) ==> box.Packed()
    ensures (Distinct(pending) && forall it | it in pending :: it !in old(box.items)) ==>
              (fits, Placements(box.items)) == Fill(box.Shape(), old(Placements(box.items)), PiecesOf(pending), flat)
  {
    ghost var start := box.items;
    ghost var p0 := Placements(box.items);
    ghost var apart := Distinct(pending) && forall it | it in pending :: it !in start;
    ghost var clean := apart && box.Packed() && forall it | it in pending :: it.NonNegDims();
    fits := OfferAll(box, pending, flat, start, old(box.unfittedItems), p0, apart, clean);
  }

  /** The inner loop of `pack`, from the state FillBin starts in. */
  method OfferAll(box: Bin, pending: seq<Item>, flat: bool, ghost start: seq<Item>, ghost unfitted: seq<Item>,
                  ghost p0: seq<Placement>, ghost apart: bool, ghost clean: bool)
    returns (ghost fits: seq<bool>)
    requires box.items == start && box.unfittedItems == unfitted && Placements(box.items) == p0
    requires forall it | it in pending :: it.Valid()
    requires apart ==> Distinct(pending) && forall it | it in pending :: it !in start
    requires clean ==> apart && box.Packed() && forall it | it in pending :: it.NonNegDims()
    modifies box, set it | it in pending
    ensures |fits| == |pending|
    ensures box.items == start + Select(pending, fits, true)
    ensures box.unfittedItems == unfitted + Select(pending, fits, false)
    ensures forall it | it in pending :: it.Valid()
    ensures apart ==> (fits, Placements(box.items)) == Fill(box.Shape(), p0, PiecesOf(pending), flat)
    ensures clean ==> box.Packed()
  {
    fits := [];
    assert Select(pending[..0], fits, true) == [] && PiecesOf(pending[..0]) == [];
    for i := 0 to |pending|
      invariant |fits| == i
      invariant box.items == start + Select(pending[..i], fits, true)
      invariant box.unfittedItems == unfitted + Select(pending[..i], fits, false)
      invariant forall it | it in pending :: it.Valid()
      invariant apart ==> (fits, Placements(box.items)) == Fill(box.Shape(), p0, PiecesOf(pending[..i]), flat)
      invariant clean ==> box.Packed()
    {
      fits := OfferNext(box, pending, i, flat, start, unfitted, fits, p0, apart, clean);
    }
    assert pending[..|pending|] == pending;
  }

  /** `_Packer` with its two subclasses folded into one class: `flat` tells
      a FlatPacker (envelopes, flat items, planar anchors) from a Packer. */
  class Packer {
    const flat: bool
    var bins: seq<Bin>
    var items: seq<Item>
    /** `unfit_items`: initialised and copied, never filled. */
    var unfitItems: seq<Item>
    var initState: bool

    /** `Packer()` */
    constructor ()
      ensures !flat && bins == [] && items == [] && unfitItems == [] && initState
    {
      flat := false;
      bins, items, unfitItems, initState := [], [], [], true;
    }

    /** `FlatPacker()` */
    constructor Flat()
      ensures flat && bins == [] && items == [] && unfitItems == [] && initState
    {
      flat := true;
      bins, items, unfitItems, initState := [], [], [], true;
    }

    /** `copy`: refused (TypeError) once `pack` has run; otherwise a new
        packer of the same kind, in the init state, whose bins and items are
        new copies of the originals, in the same order. */
    method Copy() returns (r: Result<Packer>)
      ensures r.Err? <==> !initState
      ensures r.Err? ==> r.error == TypeError
      ensures r.Ok? ==>
        var p := r.value;
        fresh(p) && p.flat == flat && p.initState &&
        |p.bins| == |bins| && |p.items| == |items| && |p.unfitItems| == |unfitItems| &&
        (forall i | 0 <= i < |bins| :: fresh(p.bins[i]) && SameBin(p.bins[i], bins[i])) &&
        (forall i | 0 <= i < |items| :: fresh(p.items[i]) && SameItem(p.items[i], items[i])) &&
        (forall i | 0 <= i < |unfitItems| :: fresh(p.unfitItems[i]) && SameItem(p.unfitItems[i], unfitItems[i]))
    {
      if !initState {
        return Err(TypeError);
      }
      var p: Packer;
      if flat {
        p := new Packer.Flat();
      } else {
        p := new Packer();
      }
      var bs := CopyBins(bins);
      var its := CopyItems(items);
      var us := CopyItems(unfitItems);
      p.bins, p.items, p.unfitItems := bs, its, us;
      r := Ok(p);
    }

    /** `append_bin` (no init-state check). */
    method AppendBin(b: Bin)
      modifies this`bins
      ensures bins == old(bins) + [b]
    {
      bins := bins + [b];
    }

    /** `append_item` (no init-state check). */
    method AppendItem(it: Item)
      modifies this`items
      ensures items == old(items) + [it]
    {
      items := items + [it];
    }

    /** `Packer.add_box`: a new empty Box, appended. */
    method AddBox(name: string, width: real, height: real, depth: real, maxWeight: real) returns (b: Bin)
      requires !flat
      modifies this`bins
      ensures fresh(b) && bins == old(bins) + [b] && b.items == [] && b.unfittedItems == []
      ensures !b.envelope && b.name == name && b.Extents() == Vec3(width, height, depth) && b.maxWeight == maxWeight
    {
      b := new Bin.Box(name, width, height, depth, maxWeight);
      AppendBin(b);
    }

    /** `FlatPacker.add_envelope`: a new empty Envelope (depth 1), appended. */
    method AddEnvelope(name: string, width: real, height: real, maxWeight: real) returns (b: Bin)
      requires flat
      modifies this`bins
      ensures fresh(b) && bins == old(bins) + [b] && b.items == [] && b.unfittedItems == []
      ensures b.envelope && b.name == name && b.Extents() == Vec3(width, height, 1.0) && b.maxWeight == maxWeight
    {
      b := new Bin.Envelope(name, width, height, maxWeight);
      AppendBin(b);
    }

    /** `Packer.add_item`: a new Item at the origin in rotation WHD, appended. */
    method AddItem(payload: object?, width: real, height: real, depth: real, weight: real) returns (it: Item)
      requires !flat
      modifies this`items
      ensures fresh(it) && items == old(items) + [it] && it.Valid()
      ensures !it.flat && PieceOf(it) == Piece(width, height, depth, weight, false) && it.payload == payload
      ensures it.position == Origin && it.rotationType == WHD
    {
      it := new Item(payload, width, height, depth, weight);
      AppendItem(it);
    }

    /** `FlatPacker.add_item`: a new FlatItem (depth 1) at the origin, appended. */
    method AddFlatItem(payload: object?, width: real, height: real, weight: real) returns (it: Item)
      requires flat
      modifies this`items
      ensures fresh(it) && items == old(items) + [it] && it.Valid()
      ensures it.flat && PieceOf(it) == Piece(width, height, 1.0, weight, true) && it.payload == payload
      ensures it.position == Origin && it.rotationType == WHD
    {
      it := new Item.Flat(payload, width, height, weight);
      AppendItem(it);
    }

    /** The packer is ready for a clean run (see CleanRun). */
    ghost predicate CleanStart()
      reads this, bins
    {
      CleanRun(bins, items)
    }

    /** `pack`: leaves the init state, orders bins by capacity and items by
        volume as the strategy says, then runs the packing loops (PackAll)
        on the ordered lists.  `offered[k]` is the pending list bin k was
        offered, and `offered[|bins|]` what is left pending.  From a clean
        start every bin took exactly the items `Fill` accepts; with
        distribution, the items sit where `Fill` put them, each bin's items
        are removed before the next bin, no item is lost or in two places,
        and every bin is packed consistently. */
    method Pack(strategy: PickStrategy, distributeItems: bool, shuffledBins: seq<Bin>, shuffledItems: seq<Item>)
      returns (r: Outcome, ghost offered: seq<seq<Item>>, ghost fills: seq<Filling>)
      requires strategy == SHUFFLE ==>
                 multiset(shuffledBins) == multiset(bins) && multiset(shuffledItems) == multiset(items)
      requires forall it | it in items :: it.Valid()
      modifies this, set b | b in bins, set it | it in items
      ensures !initState && unfitItems == old(unfitItems)
      ensures bins == Ordered(strategy, old(bins), shuffledBins, CapacityKey)
      ensures r.Fail? ==> distributeItems && r.error == ValueError
      ensures !distributeItems ==> r == Pass && items == Ordered(strategy, old(items), shuffledItems, VolumeKey)
      ensures forall it | it in items :: it in old(items) && it.Valid()
      ensures r == Pass ==>
                |offered| == |bins| + 1 && offered[|bins|] == items &&
                offered[0] == Ordered(strategy, old(items), shuffledItems, VolumeKey)
      ensures !distributeItems ==>
                forall k | 0 <= k < |offered| :: offered[k] == Ordered(strategy, old(items), shuffledItems, VolumeKey)
      ensures old(CleanStart()) ==> r == Pass && Computed(bins, offered, fills, flat) && AllTook(bins, offered, fills)
      ensures old(CleanStart()) && distributeItems ==>
                Distinct(Placed(bins) + items) &&
                multiset(Placed(bins) + items) == multiset(old(items)) &&
                forall k | 0 <= k < |bins| :: Settled(bins[k], fills[k], offered[k], offered[k + 1])
    {
      var ob, rest;
      ob, rest, r, offered, fills := PackLists(strategy, distributeItems, bins, items, shuffledBins, shuffledItems, flat);
      Commit(ob, rest, offered, fills, old(CleanStart()), old(CleanStart()) && distributeItems);
    }

    /** The end state of `pack`: the ordered bins, the items still
        pending, and the init state left; the bins and the items are not
        touched. */
    method Commit(ob: seq<Bin>, rest: seq<Item>, ghost offered: seq<seq<Item>>, ghost fills: seq<Filling>,
                  ghost sound: bool, ghost packed: bool)
      requires forall it | it in rest :: it.Valid()
      requires sound ==> Computed(ob, offered, fills, flat) && AllTook(ob, offered, fills)
      requires packed ==> sound && forall k | 0 <= k < |ob| :: Settled(ob[k], fills[k], offered[k], offered[k + 1])
      modifies this`bins, this`items, this`initState
      ensures bins == ob && items == rest && !initState
      ensures Placed(bins) == old(Placed(ob))
      ensures forall it | it in items :: it.Valid()
      ensures sound ==> Computed(ob, offered, fills, flat) && AllTook(ob, offered, fills)
      ensures packed ==> forall k | 0 <= k < |ob| :: Settled(ob[k], fills[k], offered[k], offered[k + 1])
    {
      Install(ob, rest);
    }

    /** Sets the fields that `pack` leaves behind. */
    method Install(ob: seq<Bin>, rest: seq<Item>)
      modifies this`bins, this`items, this`initState
      ensures bins == ob && items == rest && !initState
    {
      bins, items, initState := ob, rest, false;
    }
  }

  /** What `Fill` computes for one bin: which offered pieces it accepted,
      and the placements it ended with. */
  type Filling = (seq<bool>, seq<Placement>)

  /** `fills[k]` is what `Fill` computes for `bins[k]` offered `offered[k]`
      while empty, for every bin. */
  ghost predicate Computed(bins: seq<Bin>, offered: seq<seq<Item>>, fills: seq<Filling>, flat: bool)
  {
    |fills| == |bins| && |offered| == |bins| + 1 &&
    forall k | 0 <= k < |bins| :: Filled(bins[k], offered[k], fills[k], flat)
  }

  /** `fill` is what `Fill` computes for bin `b` offered `offered` while
      empty. */
  ghost predicate Filled(b: Bin, offered: seq<Item>, fill: Filling, flat: bool)
  {
    fill == Fill(b.Shape(), [], PiecesOf(offered), flat)
  }

  /** The bins before `k` were offered `offered[j]` while empty and took
      what `Fill` computed for them, `fills[j]`. */
  ghost predicate Recorded(bins: seq<Bin>, k: nat, offered: seq<seq<Item>>, fills: seq<Filling>, flat: bool)
    reads set b | b in bins
  {
    k <= |bins| && |offered| == k + 1 && |fills| == k &&
    forall j | 0 <= j < k :: Filled(bins[j], offered[j], fills[j], flat) && Took(bins[j], offered[j], fills[j])
  }

  /** The items of the bins before `k` sit where `Fill` put them, and each
      bin's list of what is left after it is its offered list with its
      items removed. */
  ghost predicate Chained(bins: seq<Bin>, k: nat, offered: seq<seq<Item>>, fills: seq<Filling>)
    reads (set b | b in bins), ItemsOf(bins)
  {
    k <= |bins| && |offered| == k + 1 && |fills| == k &&
    forall j | 0 <= j < k :: Laid(bins[j], fills[j]) && offered[j + 1] == RemoveAll(offered[j], bins[j].items).0
  }

  /** The items held by the bins. */
  ghost function ItemsOf(bins: seq<Bin>): (r: set<Item>)
    reads set b | b in bins
    ensures forall j, x | 0 <= j < |bins| && x in bins[j].items :: x in r
  {
    set j, x | 0 <= j < |bins| && x in bins[j].items :: x
  }

  /** Took holds of every bin. */
  ghost predicate AllTook(bins: seq<Bin>, offered: seq<seq<Item>>, fills: seq<Filling>)
    requires |offered| == |bins| + 1 && |fills| == |bins|
    reads bins
  {
    forall k | 0 <= k < |bins| :: Took(bins[k], offered[k], fills[k])
  }

  /** Bin `b` is packed, its items sit where `fill` put them, and `after`
      is what is left of `offered` once its items are removed. */
  ghost predicate Settled(b: Bin, fill: Filling, offered: seq<Item>, after: seq<Item>)
    reads b, b.items
  {
    b.Packed() && Laid(b, fill) && after == RemoveAll(offered, b.items).0
  }

  /** Bin `b`, offered the items `offered` in order while empty, took
      exactly the items `fill` accepted and listed the others as unfitted,
      each in offer order. */
  ghost predicate Took(b: Bin, offered: seq<Item>, fill: Filling)
    reads b
  {
    |fill.0| == |offered| &&
    b.items == Select(offered, fill.0, true) && b.unfittedItems == Select(offered, fill.0, false)
  }

  /** The items of bin `b` sit at the placements of `fill`. */
  ghost predicate Laid(b: Bin, fill: Filling)
    reads b, b.items
  {
    Placements(b.items) == fill.1
  }

  /** `pack` on the two lists: order them as the strategy says, then run
      the packing loops (PackAll) on the ordered lists. */
  method PackLists(strategy: PickStrategy, distributeItems: bool, bins: seq<Bin>, items: seq<Item>,
                   shuffledBins: seq<Bin>, shuffledItems: seq<Item>, flat: bool)
    returns (ob: seq<Bin>, rest: seq<Item>, r: Outcome, ghost offered: seq<seq<Item>>, ghost fills: seq<Filling>)
    requires strategy == SHUFFLE ==>
               multiset(shuffledBins) == multiset(bins) && multiset(shuffledItems) == multiset(items)
    requires forall it | it in items :: it.Valid()
    modifies set b | b in bins, set it | it in items
    ensures ob == Ordered(strategy, bins, shuffledBins, CapacityKey)
    ensures r.Fail? ==> distributeItems && r.error == ValueError
    ensures !distributeItems ==> r == Pass && rest == Ordered(strategy, items, shuffledItems, VolumeKey)
    ensures forall it | it in rest :: it in items && it.Valid()
    ensures r == Pass ==>
              |offered| == |ob| + 1 && offered[|ob|] == rest &&
              offered[0] == Ordered(strategy, items, shuffledItems, VolumeKey)
    ensures !distributeItems ==>
              forall k | 0 <= k < |offered| :: offered[k] == Ordered(strategy, items, shuffledItems, VolumeKey)
    ensures old(CleanRun(bins, items)) ==>
              r == Pass && Computed(ob, offered, fills, flat) && AllTook(ob, offered, fills)
    ensures old(CleanRun(bins, items)) && distributeItems ==>
              Distinct(Placed(ob) + rest) &&
              multiset(Placed(ob) + rest) == multiset(items) &&
              forall k | 0 <= k < |ob| :: Settled(ob[k], fills[k], offered[k], offered[k + 1])
  {
    ob := Ordered(strategy, bins, shuffledBins, CapacityKey);
    var oi := Ordered(strategy, items, shuffledItems, VolumeKey);
    assert multiset(ob) == multiset(bins) by {
      OrderedPermutes(strategy, bins, shuffledBins, CapacityKey);
    }
    assert multiset(oi) == multiset(items) by {
      OrderedPermutes(strategy, items, shuffledItems, VolumeKey);
    }
    assert forall b | b in ob :: b in multiset(bins);
    assert forall it | it in oi :: it in multiset(items);
    if CleanRun(bins, items) {
      DistinctReordered(bins, ob);
      DistinctReordered(items, oi);
      assert CleanRun(ob, oi);
    }
    rest, r, offered, fills := PackAll(ob, oi, flat, distributeItems);
  }

  /** The conditions under which `pack` runs cleanly: no bin and no item
      listed twice, every bin empty (no placed and no unfitted items) and
      within its own weight limit, and no negative item size. */
  ghost predicate CleanRun(bins: seq<Bin>, pending: seq<Item>)
    reads bins
  {
    Distinct(bins) && Distinct(pending) &&
    (forall b | b in bins :: b.items == [] && b.unfittedItems == [] && 0.0 <= b.maxWeight) &&
    (forall it | it in pending :: it.NonNegDims())
  }

  /** Two different positions of a list without repetitions hold different bins. */
  lemma BinsApart(bins: seq<Bin>, k: nat)
    requires Distinct(bins) && k < |bins|
    ensures forall j | 0 <= j < |bins| && j != k :: bins[j] != bins[k]
  {
    forall j | 0 <= j < |bins| && j != k
      ensures bins[j] != bins[k]
    {
      if j < k {
        DistinctApart(bins, j, k);
      } else {
        DistinctApart(bins, k, j);
      }
    }
  }

  /** The two loops of `pack`: every bin in turn is offered every pending
      item; with `distributeItems` the items a bin took are removed from
      the pending list (`rest`) before the next bin, and the first removal
      that fails ends the run with ValueError.  `offered[k]` is the list
      bin k was offered. */
  method PackAll(bins: seq<Bin>, pending: seq<Item>, flat: bool, distributeItems: bool)
    returns (rest: seq<Item>, r: Outcome, ghost offered: seq<seq<Item>>, ghost fills: seq<Filling>)
    requires forall it | it in pending :: it.Valid()
    modifies set b | b in bins, set it | it in pending
    ensures forall it | it in rest :: it in pending && it.Valid()
    ensures !distributeItems ==> r == Pass && rest == pending
    ensures r.Fail? ==> distributeItems && r.error == ValueError
    ensures r == Pass ==> |offered| == |bins| + 1 && offered[0] == pending && offered[|bins|] == rest
    ensures !distributeItems ==> forall k | 0 <= k < |offered| :: offered[k] == pending
    ensures old(CleanRun(bins, pending)) ==>
              r == Pass && Computed(bins, offered, fills, flat) && AllTook(bins, offered, fills)
    ensures old(CleanRun(bins, pending)) && distributeItems ==>
              Distinct(Placed(bins) + rest) &&
              multiset(Placed(bins) + rest) == multiset(pending) &&
              forall k | 0 <= k < |bins| :: Settled(bins[k], fills[k], offered[k], offered[k + 1])
  {
    ghost var sound := CleanRun(bins, pending);
    ghost var clean := sound && distributeItems;
    if clean {
      forall b | b in bins ensures b.Packed() {
        assert b.items == [];
      }
    }
    rest, r := pending, Pass;
    offered, fills := [pending], [];
    assert Placed(bins[..0]) + rest == pending by {
      assert bins[..0] == [];
    }
    for k := 0 to |bins|
      invariant forall it | it in rest :: it in pending && it.Valid()
      invariant !distributeItems ==> rest == pending
      invariant r == Pass
      invariant |offered| == k + 1 && offered[0] == pending && offered[k] == rest && |fills| == k
      invariant !distributeItems ==> forall j | 0 <= j <= k :: offered[j] == pending
      invariant sound ==> Distinct(bins) && Distinct(rest)
      invariant sound ==> forall j | k <= j < |bins| :: bins[j].items == [] && bins[j].unfittedItems == []
      invariant sound ==> Recorded(bins, k, offered, fills, flat)
      invariant clean ==> Chained(bins, k, offered, fills)
      invariant clean ==> Distinct(Placed(bins[..k]) + rest)
      invariant clean ==> multiset(Placed(bins[..k]) + rest) == multiset(pending)
      invariant clean ==> forall b | b in bins :: b.Packed()
    {
      var pending' := rest;
      rest, r, offered, fills := PackBin(bins, k, pending', flat, distributeItems, Placed(bins[..k]), offered, fills, clean, sound);
      if r.Fail? {
        return;
      }
    }
    assert bins[..|bins|] == bins;
    if sound {
      Complete(bins, offered, fills, flat);
    }
    if clean {
      Settle(bins, offered, fills);
    }
  }

  /** Records for every bin are what Computed and AllTook say. */
  lemma Complete(bins: seq<Bin>, offered: seq<seq<Item>>, fills: seq<Filling>, flat: bool)
    requires Recorded(bins, |bins|, offered, fills, flat)
    ensures Computed(bins, offered, fills, flat) && AllTook(bins, offered, fills)
  {
    forall k | 0 <= k < |bins|
      ensures Filled(bins[k], offered[k], fills[k], flat) && Took(bins[k], offered[k], fills[k])
    {
    }
  }

  /** Every bin of a clean run with distribution is settled. */
  lemma Settle(bins: seq<Bin>, offered: seq<seq<Item>>, fills: seq<Filling>)
    requires Chained(bins, |bins|, offered, fills)
    requires forall b | b in bins :: b.Packed()
    ensures forall k | 0 <= k < |bins| :: Settled(bins[k], fills[k], offered[k], offered[k + 1])
  {
    forall k | 0 <= k < |bins|
      ensures Settled(bins[k], fills[k], offered[k], offered[k + 1])
    {
      assert bins[k] in bins;
    }
  }

  /** Without `distribute_items` the same item object is offered to every
      bin, and its position and rotation are those of its last placement.
      A 2x1x1 item goes unturned into a 2x1x1 box; a later 1x2x1 box turns
      it to HWD, and so turned it no longer lies inside the first box. */
  lemma SharedItemTurned()
    ensures var p := Piece(2.0, 1.0, 1.0, 0.0, false);
      var first := BinShape(Vec3(2.0, 1.0, 1.0), UNLIMITED_WEIGHT, AllRotations);
      var second := BinShape(Vec3(1.0, 2.0, 1.0), UNLIMITED_WEIGHT, AllRotations);
      Land(first, [], p, false) == Some(PlaceAt(Origin, WHD, p)) &&
      Land(second, [], p, false) == Some(PlaceAt(Origin, HWD, p)) &&
      !PlacedInside(Land(second, [], p, false).value, first.extents)
  {
    var p := Piece(2.0, 1.0, 1.0, 0.0, false);
    FirstBoxUnturned(p);
    SecondBoxTurns(p);
    assert PlaceAt(Origin, HWD, p).Dim() == Vec3(1.0, 2.0, 1.0);
  }

  /** The 2x1x1 piece passes unturned at the origin of an empty 2x1x1 box. */
  lemma FirstBoxUnturned(p: Piece)
    requires p == Piece(2.0, 1.0, 1.0, 0.0, false)
    ensures Land(BinShape(Vec3(2.0, 1.0, 1.0), UNLIMITED_WEIGHT, AllRotations), [], p, false) ==
              Some(PlaceAt(Origin, WHD, p))
  {
    var first := BinShape(Vec3(2.0, 1.0, 1.0), UNLIMITED_WEIGHT, AllRotations);
    EmptyBinLand(first, p, false);
    assert Accepts(SlotWith(first, []), p, WHD, Origin);
  }

  /** The 2x1x1 piece fails WHD and passes HWD at the origin of an empty
      1x2x1 box. */
  lemma SecondBoxTurns(p: Piece)
    requires p == Piece(2.0, 1.0, 1.0, 0.0, false)
    ensures Land(BinShape(Vec3(1.0, 2.0, 1.0), UNLIMITED_WEIGHT, AllRotations), [], p, false) ==
              Some(PlaceAt(Origin, HWD, p))
  {
    var second := BinShape(Vec3(1.0, 2.0, 1.0), UNLIMITED_WEIGHT, AllRotations);
    EmptyBinLand(second, p, false);
    var s2 := SlotWith(second, []);
    assert !Accepts(s2, p, WHD, Origin) && Accepts(s2, p, HWD, Origin);
    assert AllRotations[1..][0] == HWD;
    assert FirstFit(s2, p, AllRotations, Origin) == 1;
  }

  /** Before bin `k` is filled in a clean run: the pending items are
      different objects, `bins[k]` is none of the bins before or after it,
      and no item of another bin is pending. */
  lemma Separate(bins: seq<Bin>, k: nat, pending: seq<Item>)
    requires k < |bins|
    requires Distinct(bins) && Distinct(Placed(bins[..k]) + pending)
    requires forall j | k <= j < |bins| :: bins[j].items == []
    ensures Distinct(pending)
    ensures bins[k] !in bins[..k]
    ensures forall j | k < j < |bins| :: bins[j] != bins[k]
    ensures forall b, x | b in bins && b != bins[k] && x in b.items :: x !in pending
  {
    DistinctRight(Placed(bins[..k]), pending);
    DistinctAt(bins, k);
    forall j | k < j < |bins| ensures bins[j] != bins[k] {
      DistinctApart(bins, k, j);
    }
    forall b, x | b in bins && b != bins[k] && x in b.items ensures x !in pending {
      var j :| 0 <= j < |bins| && bins[j] == b;
      if j < k {
        PlacedMember(bins[..k], j, x);
        DistinctSplit(Placed(bins[..k]), pending, x);
      }
    }
  }

  /** Bins whose item lists did not change hold the same items. */
  twostate lemma {:induction false} PlacedFrame(bins: seq<Bin>)
    requires forall b | b in bins :: old(b.items) == b.items
    ensures old(Placed(bins)) == Placed(bins)
  {
    if bins != [] {
      PlacedFrame(bins[..|bins| - 1]);
    }
  }

  /** The inner loop of `pack` for `bins[k]`, seen from the whole bin list:
      only `bins[k]` gains items.  When the bins are different and empty
      from `k` on and the pending items are different, `bins[k]` takes what
      `Fill` accepts.  In a clean run every bin stays consistently packed,
      no other bin's items move, and the bins up to `k` hold what they held
      before plus what `bins[k]` took. */
  method FillOne(bins: seq<Bin>, k: nat, pending: seq<Item>, flat: bool, ghost done: seq<Item>,
                 ghost clean: bool, ghost sound: bool)
    returns (ghost fits: seq<bool>, ghost fill: Filling)
    requires k < |bins|
    requires forall it | it in pending :: it.Valid()
    requires sound ==> Distinct(bins) && Distinct(pending)
    requires sound ==> forall j | k <= j < |bins| :: bins[j].items == [] && bins[j].unfittedItems == []
    requires done == Placed(bins[..k])
    requires clean ==> sound && Distinct(done + pending)
    requires clean ==> forall b | b in bins :: b.Packed()
    requires clean ==> forall it | it in pending :: it.NonNegDims()
    modifies bins[k], set it | it in pending
    ensures |fits| == |pending|
    ensures bins[k].items == old(bins[k].items) + Select(pending, fits, true)
    ensures forall it | it in pending :: it.Valid()
    ensures sound ==> Filled(bins[k], pending, fill, flat)
    ensures sound ==> Took(bins[k], pending, fill) && Laid(bins[k], fill)
    ensures sound ==> forall j | k < j < |bins| :: bins[j].items == [] && bins[j].unfittedItems == []
    ensures clean ==> forall b | b in bins :: b.Packed()
    ensures clean ==> bins[k].items == Select(pending, fits, true)
    ensures clean ==> Placed(bins[..k + 1]) == done + bins[k].items
    ensures forall b | b in bins && b != bins[k] :: b.items == old(b.items) && b.unfittedItems == old(b.unfittedItems)
    ensures clean ==> forall b | b in bins && b != bins[k] :: Placements(b.items) == old(Placements(b.items))
  {
    if sound {
      BinsApart(bins, k);
    }
    if clean {
      Separate(bins, k, pending);
    }
    var box := bins[k];
    fits := FillBin(box, pending, flat);
    fill := (fits, Placements(box.items));
    if clean {
      forall b | b in bins && b != box
        ensures b.Packed() && Placements(b.items) == old(Placements(b.items))
      {
        forall x | x in b.items
          ensures x.rotationType == old(x.rotationType) && x.position == old(x.position) && x.bbox == old(x.bbox)
        {
          assert x !in pending;
        }
        PlacementsFrame(b.items);
        assert b.TotalWeight() == old(b.TotalWeight());
      }
      PlacedFrame(bins[..k]);
      PlacedStep(bins, k);
    }
  }

  /** Items whose placement fields did not change have the same placements. */
  twostate lemma {:induction false} PlacementsFrame(s: seq<Item>)
    requires forall x | x in s ::
               x.rotationType == old(x.rotationType) && x.position == old(x.position) && x.bbox == old(x.bbox)
    ensures Placements(s) == old(Placements(s))
  {
    if s != [] {
      assert forall x | x in s[..|s| - 1] :: x in s;
      PlacementsFrame(s[..|s| - 1]);
    }
  }

  /** The removal step of `pack` in a clean run: the pending items are
      different objects not yet placed (`done`), and the bin took some of
      them in order; removing those succeeds, and nothing is lost, added or
      repeated. */
  lemma Distributed(done: seq<Item>, pending: seq<Item>, fits: seq<bool>)
    requires |fits| == |pending|
    requires Distinct(done + pending)
    ensures RemoveAll(pending, Select(pending, fits, true)).1
    ensures Distinct(done + Select(pending, fits, true) + RemoveAll(pending, Select(pending, fits, true)).0)
    ensures multiset(done + Select(pending, fits, true) + RemoveAll(pending, Select(pending, fits, true)).0) ==
              multiset(done + pending)
  {
    var taken := Select(pending, fits, true);
    RemoveAllSpec(pending, taken);
    SelectSplit(pending, fits);
    Transfer(done, taken, pending, RemoveAll(pending, taken).0);
  }

  /** One pass of the outer loop of `pack`: fill `bins[k]` from the
      pending items, then (with `distributeItems`) remove what it took.
      `fill` is what `Fill` computes for `bins[k]`; the bins before `k`
      keep their records for the lists `offered` they were offered and
      the fillings `fills` computed for them. */
  method PackBin(bins: seq<Bin>, k: nat, pending: seq<Item>, flat: bool, distributeItems: bool, ghost done: seq<Item>,
                 ghost offered: seq<seq<Item>>, ghost fills: seq<Filling>, ghost clean: bool, ghost sound: bool)
    returns (rest: seq<Item>, r: Outcome, ghost offered': seq<seq<Item>>, ghost fills': seq<Filling>)
    requires k < |bins| && |offered| == k + 1 && offered[k] == pending && |fills| == k
    requires forall it | it in pending :: it.Valid()
    requires sound ==> Distinct(bins) && Distinct(pending)
    requires sound ==> forall j | k <= j < |bins| :: bins[j].items == [] && bins[j].unfittedItems == []
    requires sound ==> Recorded(bins, k, offered, fills, flat)
    requires clean <==> sound && distributeItems
    requires clean ==> Chained(bins, k, offered, fills)
    requires done == Placed(bins[..k])
    requires clean ==> Distinct(done + pending)
    requires clean ==> forall b | b in bins :: b.Packed()
    requires clean ==> forall it | it in pending :: it.NonNegDims()
    modifies bins[k], set it | it in pending
    ensures forall it | it in rest :: it in pending && it.Valid()
    ensures !distributeItems ==> r == Pass && rest == pending
    ensures distributeItems ==>
              rest == RemoveAll(pending, bins[k].items).0 && (r == Pass <==> RemoveAll(pending, bins[k].items).1)
    ensures r.Fail? ==> distributeItems && r.error == ValueError
    ensures sound ==> Distinct(rest)
    ensures offered' == offered + [rest] && |fills'| == k + 1
    ensures sound ==> forall j | k < j < |bins| :: bins[j].items == [] && bins[j].unfittedItems == []
    ensures sound ==> Recorded(bins, k + 1, offered', fills', flat)
    ensures clean ==> Chained(bins, k + 1, offered', fills')
    ensures clean && distributeItems ==>
              r == Pass && Distinct(Placed(bins[..k + 1]) + rest) &&
              multiset(Placed(bins[..k + 1]) + rest) == multiset(done + pending)
    ensures clean ==> forall b | b in bins :: b.Packed()
  {
    ghost var fits, fill;
    fits, fill := FillKept(bins, k, pending, flat, done, offered, fills, clean, sound);
    rest, r := pending, Pass;
    if distributeItems {
      var taken := bins[k].items;
      for i := 0 to |taken|
        invariant RemoveAll(rest, taken[i..]) == RemoveAll(pending, taken)
      {
        assert taken[i..][1..] == taken[i + 1..];
        var after := RemoveFirst(rest, taken[i]);
        if after.None? {
          r := Fail(ValueError);
          break;
        }
        rest := after.value;
      }
      RemoveAllWithin(pending, taken);
      if clean {
        Distributed(done, pending, fits);
        DistinctRight(Placed(bins[..k + 1]), rest);
      }
    }
    offered', fills' := offered + [rest], fills + [fill];
    if sound {
      ExtendRecorded(bins, k, offered, fills, rest, fill, offered', fills', flat);
      if clean {
        ExtendChained(bins, k, offered, fills, rest, fill, offered', fills');
      }
    }
  }

  /** FillOne, seen from the bins before `k`: they keep their records. */
  method FillKept(bins: seq<Bin>, k: nat, pending: seq<Item>, flat: bool, ghost done: seq<Item>,
                  ghost offered: seq<seq<Item>>, ghost fills: seq<Filling>, ghost clean: bool, ghost sound: bool)
    returns (ghost fits: seq<bool>, ghost fill: Filling)
    requires k < |bins| && |offered| == k + 1 && |fills| == k
    requires forall it | it in pending :: it.Valid()
    requires sound ==> Distinct(bins) && Distinct(pending)
    requires sound ==> forall j | k <= j < |bins| :: bins[j].items == [] && bins[j].unfittedItems == []
    requires sound ==> Recorded(bins, k, offered, fills, flat)
    requires clean ==> sound && Chained(bins, k, offered, fills)
    requires done == Placed(bins[..k])
    requires clean ==> Distinct(done + pending)
    requires clean ==> forall b | b in bins :: b.Packed()
    requires clean ==> forall it | it in pending :: it.NonNegDims()
    modifies bins[k], set it | it in pending
    ensures |fits| == |pending|
    ensures bins[k].items == old(bins[k].items) + Select(pending, fits, true)
    ensures forall it | it in pending :: it.Valid()
    ensures sound ==> Filled(bins[k], pending, fill, flat)
    ensures sound ==> Took(bins[k], pending, fill) && Laid(bins[k], fill)
    ensures sound ==> forall j | k < j < |bins| :: bins[j].items == [] && bins[j].unfittedItems == []
    ensures clean ==> forall b | b in bins :: b.Packed()
    ensures clean ==> bins[k].items == Select(pending, fits, true)
    ensures clean ==> Placed(bins[..k + 1]) == done + bins[k].items
    ensures sound ==> Recorded(bins, k, offered, fills, flat)
    ensures clean ==> Chained(bins, k, offered, fills)
  {
    fits, fill := FillOne(bins, k, pending, flat, done, clean, sound);
    if sound {
      BinsApart(bins, k);
      forall j | 0 <= j < k
        ensures Filled(bins[j], offered[j], fills[j], flat) && Took(bins[j], offered[j], fills[j])
        ensures clean ==> Laid(bins[j], fills[j]) && offered[j + 1] == RemoveAll(offered[j], bins[j].items).0
      {
        assert bins[j] in bins && bins[j] != bins[k];
      }
    }
  }

  /** The records of the bins up to `k` carry over to the offered lists
      `o` extended by what is left for the next bin, and the fillings `f`
      extended by the one of `bins[k]`. */
  lemma ExtendRecorded(bins: seq<Bin>, k: nat, offered: seq<seq<Item>>, fills: seq<Filling>, rest: seq<Item>,
                       fill: Filling, o: seq<seq<Item>>, f: seq<Filling>, flat: bool)
    requires k < |bins| && o == offered + [rest] && f == fills + [fill]
    requires Recorded(bins, k, offered, fills, flat)
    requires Filled(bins[k], offered[k], fill, flat) && Took(bins[k], offered[k], fill)
    ensures Recorded(bins, k + 1, o, f, flat)
  {
    forall j | 0 <= j < k + 1
      ensures Filled(bins[j], o[j], f[j], flat) && Took(bins[j], o[j], f[j])
    {
      if j < k {
        assert o[j] == offered[j] && f[j] == fills[j];
        assert Filled(bins[j], offered[j], fills[j], flat) && Took(bins[j], offered[j], fills[j]);
      } else {
        assert o[j] == offered[k] && f[j] == fill;
      }
    }
  }

  /** The same for where their items sit and what they left. */
  lemma ExtendChained(bins: seq<Bin>, k: nat, offered: seq<seq<Item>>, fills: seq<Filling>, rest: seq<Item>,
                      fill: Filling, o: seq<seq<Item>>, f: seq<Filling>)
    requires k < |bins| && o == offered + [rest] && f == fills + [fill]
    requires Chained(bins, k, offered, fills)
    requires Laid(bins[k], fill) && rest == RemoveAll(offered[k], bins[k].items).0
    ensures Chained(bins, k + 1, o, f)
  {
    forall j | 0 <= j < k + 1
      ensures Laid(bins[j], f[j]) && o[j + 1] == RemoveAll(o[j], bins[j].items).0
    {
      if j < k {
        assert o[j] == offered[j] && f[j] == fills[j] && o[j + 1] == offered[j + 1];
      }
    }
  }
}

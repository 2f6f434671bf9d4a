/** The axis bookkeeping that `gridfill.fill` does around the relaxation
    solver: move the caller's y and x dimensions to the front, collapse every
    other dimension into one trailing stack axis, and afterwards undo both.
    An array is modelled by its axes only (see module Axes). */
module GridFill {
  import opened Axes

  /** The ValueError raised for bad dimension numbers, and numpy's refusal
      of a reshape that changes the number of elements. */
  datatype Error = DimensionError | ReshapeError

  datatype Result<T> = Ok(value: T) | Err(error: Error)

  /** An array with dimensions numbered 0..n-1 in order, of the given shape:
      the caller's view of its own data. */
  function Labelled(shape: seq<nat>): seq<Axis>
  {
    seq(|shape|, k requires 0 <= k < |shape| => Axis(k, shape[k]))
  }

  /** s holds each of 0..n-1 exactly once. */
  ghost predicate IsPermutation(s: seq<int>, n: nat)
  {
    && |s| == n
    && (forall k :: 0 <= k < n ==> 0 <= s[k] < n)
    && (forall i, j :: 0 <= i < j < n ==> s[i] != s[j])
    && (forall d :: 0 <= d < n ==> d in s)
  }

  ghost predicate Increasing(s: seq<int>)
  {
    forall i, j :: 0 <= i < j < |s| ==> s[i] < s[j]
  }

  // ---------------------------------------------------------------------------
  // _order_dims

  /** The two dimension numbers name two different axes of an n-dimensional array. */
  predicate ValidDims(n: nat, xpos: int, ypos: int)
  {
    0 <= xpos < n && 0 <= ypos < n && xpos != ypos
  }

  /** The dimension numbers other than xpos and ypos, in ascending order. */
  function Others(n: nat, xpos: int, ypos: int): (r: seq<int>)
    requires ValidDims(n, xpos, ypos)
    ensures |r| == n - 2 && forall m :: 0 <= m < |r| ==> 0 <= r[m] < n
  {
    var lo := if xpos < ypos then xpos else ypos;
    var hi := if xpos < ypos then ypos else xpos;
    seq(n - 2, m => if m < lo then m else if m + 1 < hi then m + 1 else m + 2)
  }

  /** The order in which the caller's dimensions are laid out internally. */
  function OutOrder(n: nat, xpos: int, ypos: int): (r: seq<int>)
    requires ValidDims(n, xpos, ypos)
    ensures |r| == n && forall k :: 0 <= k < n ==> 0 <= r[k] < n
  {
    [ypos, xpos] + Others(n, xpos, ypos)
  }

  datatype Ordered = Ordered(grid: seq<Axis>, outorder: seq<int>)

  /** What `_order_dims` returns: the axes taken in the order OutOrder, with
      that order; or the ValueError. */
  function OrderedDims(grid: seq<Axis>, xpos: int, ypos: int): (r: Result<Ordered>)
    ensures r.Err? <==> !ValidDims(|grid|, xpos, ypos)
    ensures r.Ok? ==> |r.value.grid| == |grid| && |r.value.outorder| == |grid|
  {
    if ValidDims(|grid|, xpos, ypos) then
      var order := OutOrder(|grid|, xpos, ypos);
      Ok(Ordered(Gather(grid, order), order))
    else
      Err(DimensionError)
  }

  /** The other dimensions are listed in ascending order and skip x and y. */
  lemma OthersAscending(n: nat, xpos: int, ypos: int)
    requires ValidDims(n, xpos, ypos)
    ensures Increasing(Others(n, xpos, ypos))
    ensures forall m :: 0 <= m < n - 2 ==>
      Others(n, xpos, ypos)[m] != xpos && Others(n, xpos, ypos)[m] != ypos
  {
  }

  /** Every dimension other than x and y is among the others. */
  lemma OthersComplete(n: nat, xpos: int, ypos: int, d: int)
    requires ValidDims(n, xpos, ypos)
    requires 0 <= d < n && d != xpos && d != ypos
    ensures d in Others(n, xpos, ypos)
  {
    var lo := if xpos < ypos then xpos else ypos;
    var hi := if xpos < ypos then ypos else xpos;
    var m := if d < lo then d else if d < hi then d - 1 else d - 2;
    assert Others(n, xpos, ypos)[m] == d;
  }

  /** The internal order starts with y and x, and the rest are the other
      dimensions, each once, in ascending order. */
  lemma OutOrderIsPermutation(n: nat, xpos: int, ypos: int)
    requires ValidDims(n, xpos, ypos)
    ensures var order := OutOrder(n, xpos, ypos);
      && IsPermutation(order, n)
      && order[0] == ypos && order[1] == xpos
      && Increasing(order[2..])
  {
    var order := OutOrder(n, xpos, ypos);
    var rest := Others(n, xpos, ypos);
    assert order[2..] == rest;
    OthersAscending(n, xpos, ypos);
    forall i, j | 0 <= i < j < n ensures order[i] != order[j] {
      if i >= 2 {
        assert order[i] == rest[i - 2] && order[j] == rest[j - 2];
      } else {
        assert order[j] == if j == 1 then xpos else rest[j - 2];
      }
    }
    forall d | 0 <= d < n ensures d in order {
      if d == ypos {
        assert order[0] == d;
      } else if d == xpos {
        assert order[1] == d;
      } else {
        OthersComplete(n, xpos, ypos, d);
      }
    }
  }

  /** `range(n)` with x removed. */
  function RangeWithout(n: nat, xpos: int): seq<int>
    requires 0 <= xpos < n
  {
    seq(n - 1, j => if j < xpos then j else j + 1)
  }

  /** Removing x from `range(n)` skips over x and leaves the rest in order. */
  lemma RemoveFromRangeOnce(n: nat, xpos: int)
    requires 0 <= xpos < n
    ensures Remove(Range(n), xpos) == Some(RangeWithout(n, xpos))
  {
    var range := Range(n);
    RemoveAt(range, xpos, xpos);
    assert range[..xpos] + range[xpos + 1..] == RangeWithout(n, xpos);
  }

  /** Deleting y's position from `range(n)` without x leaves the other
      dimensions in ascending order. */
  lemma RangeWithoutBoth(n: nat, xpos: int, ypos: int)
    requires ValidDims(n, xpos, ypos)
    ensures var rest, at := RangeWithout(n, xpos), if ypos < xpos then ypos else ypos - 1;
      at < |rest| && rest[at] == ypos && ypos !in rest[..at] &&
      rest[..at] + rest[at + 1..] == Others(n, xpos, ypos)
  {
    var rest := RangeWithout(n, xpos);
    var at := if ypos < xpos then ypos else ypos - 1;
    assert forall j :: 0 <= j < at ==> rest[..at][j] == rest[j] < ypos;
    var removed := rest[..at] + rest[at + 1..];
    var others := Others(n, xpos, ypos);
    forall m | 0 <= m < n - 2 ensures removed[m] == others[m] {
      if m < at {
        assert removed[m] == rest[m];
      } else {
        assert removed[m] == rest[m + 1];
      }
    }
    assert |removed| == |others|;
    assert removed == others;
  }

  /** Removing x and then y from `range(n)` leaves the other dimensions in
      ascending order. */
  lemma RemoveFromRange(n: nat, xpos: int, ypos: int)
    requires ValidDims(n, xpos, ypos)
    ensures Remove(Range(n), xpos).Some?
    ensures Remove(Remove(Range(n), xpos).value, ypos) == Some(Others(n, xpos, ypos))
  {
    RemoveFromRangeOnce(n, xpos);
    RangeWithoutBoth(n, xpos, ypos);
    RemoveAt(RangeWithout(n, xpos), ypos, if ypos < xpos then ypos else ypos - 1);
  }

  /** After `range(n)` loses x, the list still holds y exactly when y is a
      dimension number other than x. */
  lemma InRangeWithout(n: nat, xpos: int, ypos: int)
    requires 0 <= xpos < n
    ensures Remove(Range(n), xpos).Some?
    ensures ypos in Remove(Range(n), xpos).value <==> ValidDims(n, xpos, ypos)
  {
    RemoveFromRangeOnce(n, xpos);
    if ValidDims(n, xpos, ypos) {
      var at := if ypos < xpos then ypos else ypos - 1;
      assert RangeWithout(n, xpos)[at] == ypos;
    }
  }

  /** Rolling axis x to the front and then axis y, with y shifted by one when
      it sat before x, lays the axes out in the order OutOrder. */
  lemma TwoRollsReorder<T>(grid: seq<T>, xpos: int, ypos: int)
    requires ValidDims(|grid|, xpos, ypos)
    ensures var y := if ypos < xpos then ypos + 1 else ypos;
      && y < |grid|
      && RollAxis(RollAxis(grid, xpos), y) == Gather(grid, OutOrder(|grid|, xpos, ypos))
  {
    var y := if ypos < xpos then ypos + 1 else ypos;
    var once := RollAxis(grid, xpos);
    assert once[y] == grid[ypos];
    var twice := RollAxis(once, y);
    var order := OutOrder(|grid|, xpos, ypos);
    forall k | 0 <= k < |grid| ensures twice[k] == grid[order[k]] {
      if k >= 2 {
        if k <= y {
          assert twice[k] == once[k - 1];
        } else {
          assert twice[k] == once[k];
        }
      }
    }
  }

  /** `_order_dims`: remove x and y from `range(ndim)` (either removal may
      raise ValueError), put y and x in front, then roll axis x and axis y
      to the front of the array. */
  method OrderDims(grid: seq<Axis>, xpos: int, ypos: int) returns (r: Result<Ordered>)
    ensures r == OrderedDims(grid, xpos, ypos)
    ensures r.Err? <==> !ValidDims(|grid|, xpos, ypos)
    ensures r.Ok? ==> |r.value.grid| == |grid| && |r.value.outorder| == |grid|
    ensures r.Ok? ==> forall k :: 0 <= k < |grid| ==>
      0 <= r.value.outorder[k] < |grid| && r.value.grid[k] == grid[r.value.outorder[k]]
  {
    var n := |grid|;
    var outorder := Range(n);
    assert 0 <= xpos < n ==> outorder[xpos] == xpos;
    var removed := Remove(outorder, xpos);
    if removed.None? {
      return Err(DimensionError);
    }
    outorder := removed.value;
    InRangeWithout(n, xpos, ypos);
    removed := Remove(outorder, ypos);
    if removed.None? {
      return Err(DimensionError);
    }
    RemoveFromRange(n, xpos, ypos);
    outorder := [ypos, xpos] + removed.value;
    var rolled := RollAxis(grid, xpos);
    var y := ypos;
    if y < xpos {
      y := y + 1;
    }
    TwoRollsReorder(grid, xpos, ypos);
    rolled := RollAxis(rolled, y);
    r := Ok(Ordered(rolled, outorder));
  }

  // ---------------------------------------------------------------------------
  // _prep_data

  /** What `_prep_data` records for `_recover_data`: the shape before the
      stack axes were merged, the internal order of the caller's dimensions,
      and the caller's number of dimensions. */
  datatype Info = Info(intshape: seq<nat>, intorder: seq<int>, origndim: nat)

  /** The 3-D array handed to the solver (its shape) and the info to undo the layout. */
  datatype Prepared = Prepared(grid: seq<nat>, info: Info)

  /** numpy's `reshape(shape[:2] + (prod(shape[2:]),))`. */
  function Reshape3(shape: seq<nat>): seq<nat>
    requires |shape| >= 2
  {
    shape[..2] + [Product(shape[2..])]
  }

  /** `_prep_data`. */
  function PrepData(grid: seq<Axis>, xdim: int, ydim: int): (r: Result<Prepared>)
    ensures r.Err? <==> !ValidDims(|grid|, xdim, ydim)
    ensures r.Ok? ==> |r.value.grid| == 3 && r.value.info.origndim == |grid|
  {
    match OrderedDims(grid, xdim, ydim)
    case Err(e) => Err(e)
    case Ok(ordered) =>
      var intshape := Extents(ordered.grid);
      Ok(Prepared(Reshape3(intshape), Info(intshape, ordered.outorder, |grid|)))
  }

  /** The solver sees a 3-D array whose first two extents are those of the
      y and x dimensions, whose third is the product of the others (1 for a
      2-D array), and which holds as many elements as the caller's array. */
  lemma PrepDataShape(grid: seq<Axis>, xdim: int, ydim: int)
    ensures PrepData(grid, xdim, ydim).Ok? <==> ValidDims(|grid|, xdim, ydim)
    ensures PrepData(grid, xdim, ydim).Ok? ==>
      var shape := PrepData(grid, xdim, ydim).value.grid;
      && |shape| == 3
      && shape[0] == grid[ydim].extent
      && shape[1] == grid[xdim].extent
      && shape[2] == Product(Extents(Gather(grid, Others(|grid|, xdim, ydim))))
      && (|grid| == 2 ==> shape[2] == 1)
      && Product(shape) == Product(Extents(grid))
  {
    if ValidDims(|grid|, xdim, ydim) {
      var n := |grid|;
      var order := OutOrder(n, xdim, ydim);
      var intshape := Extents(Gather(grid, order));
      assert intshape[2..] == Extents(Gather(grid, Others(n, xdim, ydim)));
      var y := if ydim < xdim then ydim + 1 else ydim;
      TwoRollsReorder(grid, xdim, ydim);
      ExtentsRollAxis(grid, xdim);
      ExtentsRollAxis(RollAxis(grid, xdim), y);
      ProductRollAxis(Extents(grid), xdim);
      ProductRollAxis(RollAxis(Extents(grid), xdim), y);
      assert Product(intshape) == Product(Extents(grid));
      ProductReshape3(intshape);
    }
  }

  /** Merging the trailing axes keeps the number of elements. */
  lemma ProductReshape3(shape: seq<nat>)
    requires |shape| >= 2
    ensures Product(Reshape3(shape)) == Product(shape)
  {
    var front, rest := shape[..2], Product(shape[2..]);
    assert shape == front + shape[2..];
    ProductConcat(front, shape[2..]);
    ProductConcat(front, [rest]);
    ProductSingleton(rest);
  }

  /** Info that `_recover_data` can undo: one extent and one dimension number
      per caller dimension, the numbers a permutation of 0..origndim-1. */
  ghost predicate ValidInfo(info: Info)
  {
    |info.intshape| == info.origndim && IsPermutation(info.intorder, info.origndim)
  }

  /** `_prep_data` records the reordered shape before merging, the order
      OutOrder and the caller's number of dimensions, and that info is
      always one `_recover_data` accepts for the array it returns. */
  lemma PrepDataInfo(grid: seq<Axis>, xdim: int, ydim: int)
    requires ValidDims(|grid|, xdim, ydim)
    ensures PrepData(grid, xdim, ydim).Ok?
    ensures var p := PrepData(grid, xdim, ydim).value;
      && p.info.origndim == |grid|
      && p.info.intorder == OutOrder(|grid|, xdim, ydim)
      && |p.info.intshape| == |grid|
      && (forall k :: 0 <= k < |grid| ==> p.info.intshape[k] == grid[p.info.intorder[k]].extent)
      && ValidInfo(p.info)
      && Product(p.grid) == Product(p.info.intshape)
  {
    OutOrderIsPermutation(|grid|, xdim, ydim);
    ProductReshape3(PrepData(grid, xdim, ydim).value.info.intshape);
  }

  // ---------------------------------------------------------------------------
  // _recover_data

  /** numpy's `reshape(shape)`, which refuses to change the number of elements. */
  function Reshape(grid: seq<nat>, shape: seq<nat>): Option<seq<nat>>
  {
    if Product(grid) == Product(shape) then Some(shape) else None
  }

  /** The axes of the array after `reshape(info['intshape'])`: internal axis
      k holds the caller's dimension intorder[k], and the array's shape is
      intshape. */
  function InternalAxes(info: Info): (r: seq<Axis>)
    requires ValidInfo(info)
    ensures |r| == info.origndim
    ensures Extents(r) == info.intshape
    ensures forall k :: 0 <= k < |r| ==> r[k].dim == info.intorder[k]
  {
    seq(info.origndim, k requires 0 <= k < info.origndim => Axis(info.intorder[k], info.intshape[k]))
  }

  /** The list comprehension building `rolldims`: entry k is the internal
      position of the caller's dimension origndim-1-k. */
  method InitialRollDims(intorder: seq<int>, origndim: nat) returns (rolldims: seq<int>)
    requires IsPermutation(intorder, origndim)
    ensures |rolldims| == origndim
    ensures forall k :: 0 <= k < origndim ==>
      0 <= rolldims[k] < origndim && intorder[rolldims[k]] == origndim - 1 - k
    ensures IsPermutation(rolldims, origndim)
  {
    rolldims := [];
    for k := 0 to origndim
      invariant |rolldims| == k
      invariant forall j :: 0 <= j < k ==>
        0 <= rolldims[j] < origndim && intorder[rolldims[j]] == origndim - 1 - j
    {
      var dim := origndim - 1 - k;
      var position := IndexOf(intorder, dim);
      rolldims := rolldims + [position.value];
    }
    forall p | 0 <= p < origndim ensures p in rolldims {
      var k := origndim - 1 - intorder[p];
      assert intorder[rolldims[k]] == intorder[p];
    }
  }

  /** The `np.where` update of `rolldims` after the axis at `pivot` has been
      rolled to the front: every position before it moves back by one. */
  function Shifted(rolldims: seq<int>, pivot: int): seq<int>
  {
    seq(|rolldims|, j requires 0 <= j < |rolldims| =>
      if rolldims[j] < pivot then rolldims[j] + 1 else rolldims[j])
  }

  /** After `rollaxis(a, pivot)`, every shifted entry of `rolldims` other than
      the pivot's still points at the axis it pointed at before the roll. */
  lemma ShiftedTracksRoll<T>(s: seq<T>, rolldims: seq<int>, pivot: nat)
    requires pivot < |s|
    ensures forall j :: 0 <= j < |rolldims| && 0 <= rolldims[j] < |s| && rolldims[j] != pivot ==>
      0 <= Shifted(rolldims, pivot)[j] < |s| && RollAxis(s, pivot)[Shifted(rolldims, pivot)[j]] == s[rolldims[j]]
  {
    var rolled, shifted := RollAxis(s, pivot), Shifted(rolldims, pivot);
    forall j | 0 <= j < |rolldims| && 0 <= rolldims[j] < |s| && rolldims[j] != pivot
      ensures 0 <= shifted[j] < |s| && rolled[shifted[j]] == s[rolldims[j]]
    {
      if rolldims[j] < pivot {
        assert shifted[j] == rolldims[j] + 1;
      } else {
        assert shifted[j] == rolldims[j];
      }
    }
  }

  /** `out` is the caller's array as the info describes it: dimension
      intorder[k] sits at position intorder[k] and has extent intshape[k]. */
  ghost predicate Recovers(info: Info, out: seq<Axis>)
    requires ValidInfo(info)
  {
    |out| == info.origndim &&
    forall k :: 0 <= k < info.origndim ==>
      out[info.intorder[k]] == Axis(info.intorder[k], info.intshape[k])
  }

  /** What the recovery loop knows before iteration i: the first i
      positions hold the caller's dimensions n-i .. n-1 in order, each entry
      of `rolldims` from i on gives the current position of dimension
      n-1-j, and every axis is one of the internal axes. */
  ghost predicate RollInvariant(axes: seq<Axis>, rolldims: seq<int>, i: nat, n: nat, start: seq<Axis>)
  {
    && |axes| == n && |rolldims| == n && i <= n
    && (forall j :: i <= j < n ==> 0 <= rolldims[j] < n && axes[rolldims[j]].dim == n - 1 - j)
    && (forall p :: 0 <= p < i ==> axes[p].dim == n - i + p)
    && (forall p :: 0 <= p < n ==> axes[p] in start)
  }

  /** One iteration of the recovery loop: rolling dimension n-1-i to the
      front and shifting the positions before it keeps the invariant. */
  lemma RollStep(axes: seq<Axis>, rolldims: seq<int>, i: nat, n: nat, start: seq<Axis>)
    requires RollInvariant(axes, rolldims, i, n, start) && i < n
    ensures 0 <= rolldims[i] < n
    ensures RollInvariant(RollAxis(axes, rolldims[i]), Shifted(rolldims, rolldims[i]), i + 1, n, start)
  {
    var pivot := rolldims[i];
    var rolled := RollAxis(axes, pivot);
    var shifted := Shifted(rolldims, pivot);
    assert axes[pivot].dim == n - 1 - i;
    assert pivot >= i;
    ShiftedTracksRoll(axes, rolldims, pivot);
    forall j | i + 1 <= j < n
      ensures 0 <= shifted[j] < n && rolled[shifted[j]].dim == n - 1 - j
    {
      assert axes[rolldims[j]].dim != axes[pivot].dim;
    }
    forall p | 0 <= p < i + 1 ensures rolled[p].dim == n - (i + 1) + p {
      if p > 0 {
        assert rolled[p] == axes[p - 1];
      }
    }
    forall p | 0 <= p < n ensures rolled[p] in start {
      if p == 0 {
        assert rolled[p] == axes[pivot];
      } else if p <= pivot {
        assert rolled[p] == axes[p - 1];
      } else {
        assert rolled[p] == axes[p];
      }
    }
  }

  /** Once every dimension has been rolled, position d holds dimension d,
      taken from the internal axis that recorded it. */
  lemma RolledBack(info: Info, axes: seq<Axis>)
    requires ValidInfo(info)
    requires |axes| == info.origndim
    requires forall p :: 0 <= p < info.origndim ==> axes[p].dim == p && axes[p] in InternalAxes(info)
    ensures Recovers(info, axes)
  {
    var n := info.origndim;
    var start := InternalAxes(info);
    forall k | 0 <= k < n ensures axes[info.intorder[k]] == Axis(info.intorder[k], info.intshape[k]) {
      var p := info.intorder[k];
      assert axes[p] in start;
      var k' :| 0 <= k' < n && start[k'] == axes[p];
      assert info.intorder[k'] == p;
    }
  }

  /** `_recover_data`: reshape to the internal shape, then roll the caller's
      dimensions to the front from the last to the first, keeping the
      position table `rolldims` up to date. */
  method RecoverData(grid: seq<nat>, info: Info) returns (r: Result<seq<Axis>>)
    requires ValidInfo(info)
    ensures r.Err? <==> Product(grid) != Product(info.intshape)
    ensures r.Ok? ==> Recovers(info, r.value)
  {
    var reshaped := Reshape(grid, info.intshape);
    if reshaped.None? {
      return Err(ReshapeError);
    }
    var n := info.origndim;
    // The reshaped array, seen through its axes: its shape is the one the
    // reshape returned, and axis k carries the caller's dimension intorder[k].
    var axes := InternalAxes(info);
    assert Extents(axes) == reshaped.value;
    ghost var start := axes;
    var rolldims := InitialRollDims(info.intorder, n);
    for i := 0 to n
      invariant RollInvariant(axes, rolldims, i, n, start)
    {
      RollStep(axes, rolldims, i, n, start);
      var pivot := rolldims[i];
      axes := RollAxis(axes, pivot);
      rolldims := Shifted(rolldims, pivot);
    }
    RolledBack(info, axes);
    r := Ok(axes);
  }

  // ---------------------------------------------------------------------------
  // fill

  /** The axes `_recover_data` must produce from `_prep_data`'s info are the
      caller's own, in the caller's order. */
  lemma RoundTrip(shape: seq<nat>, xdim: int, ydim: int, out: seq<Axis>)
    requires ValidDims(|shape|, xdim, ydim)
    requires PrepData(Labelled(shape), xdim, ydim).Ok?
    requires ValidInfo(PrepData(Labelled(shape), xdim, ydim).value.info)
    requires Recovers(PrepData(Labelled(shape), xdim, ydim).value.info, out)
    ensures out == Labelled(shape)
  {
    var grid := Labelled(shape);
    var info := PrepData(grid, xdim, ydim).value.info;
    PrepDataInfo(grid, xdim, ydim);
    OutOrderIsPermutation(|shape|, xdim, ydim);
    forall d | 0 <= d < |shape| ensures out[d] == grid[d] {
      assert d in info.intorder;
      var k :| 0 <= k < |shape| && info.intorder[k] == d;
      assert out[d] == Axis(d, info.intshape[k]);
    }
  }

  /** The two layouts the package's tests use: a 2-D (y, x) grid goes to the
      solver as (y, x, 1), and a (t, y, x) stack as (y, x, t). */
  lemma TestLayouts(t: nat, ny: nat, nx: nat)
    ensures PrepData(Labelled([ny, nx]), 1, 0) ==
      Ok(Prepared([ny, nx, 1], Info([ny, nx], [0, 1], 2)))
    ensures PrepData(Labelled([t, ny, nx]), 2, 1) ==
      Ok(Prepared([ny, nx, t], Info([ny, nx, t], [1, 2, 0], 3)))
  {
    var flat := Labelled([ny, nx]);
    assert OutOrder(2, 1, 0) == [0, 1];
    assert Gather(flat, [0, 1]) == flat;
    assert Extents(flat) == [ny, nx];
    assert Extents(flat)[2..] == [];
    assert Reshape3([ny, nx]) == [ny, nx, 1];
    var stack := Labelled([t, ny, nx]);
    assert OutOrder(3, 2, 1) == [1, 2, 0];
    assert Gather(stack, [1, 2, 0]) == [Axis(1, ny), Axis(2, nx), Axis(0, t)];
    assert Extents(Gather(stack, [1, 2, 0])) == [ny, nx, t];
    assert [ny, nx, t][2..] == [t];
    ProductSingleton(t);
    assert Reshape3([ny, nx, t]) == [ny, nx, t];
  }

  /** The shape-level flow of `fill`: prepare, let the solver fill the 3-D
      array (it returns an array of the same shape), and recover. The caller
      gets back an array of its own shape and axis order, or the ValueError
      for bad xdim/ydim before anything is moved. */
  method Fill(shape: seq<nat>, xdim: int, ydim: int) returns (r: Result<seq<Axis>>)
    ensures r.Err? <==> !ValidDims(|shape|, xdim, ydim)
    ensures r.Err? ==> r.error == DimensionError
    ensures r.Ok? ==> r.value == Labelled(shape)
  {
    var prepared := PrepData(Labelled(shape), xdim, ydim);
    PrepDataShape(Labelled(shape), xdim, ydim);
    if prepared.Err? {
      return Err(prepared.error);
    }
    PrepDataInfo(Labelled(shape), xdim, ydim);
    var grids := prepared.value.grid;
    // The relaxation solver returns its filled grids in the shape it was given.
    var filled := grids;
    r := RecoverData(filled, prepared.value.info);
    if r.Ok? {
      RoundTrip(shape, xdim, ydim, r.value);
    }
  }
}

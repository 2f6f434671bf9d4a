# gridfill: axis bookkeeping around the Poisson fill

`gridfill.fill(grids, xdim, ydim, ...)` fills missing values in grids of any
number of dimensions. The compiled relaxation solver only works on a 3-D
array `[ny, nx, n]`, where the third axis is a stack of independent 2-D grids.
So `fill` first reorders and reshapes the caller's array into that layout, and
afterwards restores the caller's layout:

- `_order_dims` checks that `xdim` and `ydim` are two different dimension
  numbers of the array. It lists the internal order of dimensions
  (`[ydim, xdim]`, then the others ascending) and rolls the x axis and then
  the y axis to the front.
- `_prep_data` merges every axis after the first two into one stack axis. It
  records the shape before merging (`intshape`), the internal order
  (`intorder`) and the caller's number of dimensions (`origndim`).
- `_recover_data` reshapes back to `intshape`. It then rolls the caller's
  dimensions to the front, from the last one to the first. A table
  `rolldims` tracks where each dimension that has not been moved yet now sits.

The model sees an array only through its axes. Each axis is an `Axis(dim,
extent)`: the caller's dimension number it carries, and its length. The
caller's own array of shape `s` is `Labelled(s)`, where dimension `k` is at
position `k`. Element values are not modelled.

- `axes.dfy`, module `Axes`, holds the numpy and Python primitives the code
  uses: `rollaxis` with `start=0`, the element count (`np.prod`, where the
  empty product is 1), `list.index` and `list.remove`.
- `gridfill.dfy`, module `GridFill`, models the three functions and the
  shape-level flow of `fill`.

Each function keeps the form of its source:

- `_order_dims` updates a list in place and rebinds `grid` and `ypos` step by
  step. It is the method `OrderDims`, proved equal to the declarative
  `OrderedDims`.
- `_prep_data` is a straight composition of calls, so it is the function
  `PrepData`.
- `_recover_data` is a loop, so it is the method `RecoverData`, with the loop
  invariant `RollInvariant`.

After `reshape(info['intshape'])`, internal axis `k` is labelled with the
caller's dimension `intorder[k]`, which is what `_prep_data` recorded. The
round trip then says that the recovered axes are the caller's axes, in the
caller's order, with the caller's extents.

## Model

| member | source | states |
|---|---|---|
| `Axes.RollAxis` | lib/gridfill/gridfill.py:38-41 | `rollaxis(a, k)`: axis k comes first, the axes before k move back one place, the axes after k stay where they were |
| `Axes.Product` | lib/gridfill/gridfill.py:49 | `np.prod` of a shape: the element count, with the empty product 1; `ProductConcat`, `ProductRollAxis` and `ProductReshape3` state how it behaves under splitting, rolling and merging |
| `Axes.Range` | lib/gridfill/gridfill.py:29 | `range(grid.ndim)` as a list: entry i is i, for i in 0..ndim-1; `RemoveFromRange` and `InRangeWithout` state what the two `remove` calls leave |
| `Axes.Extents` | lib/gridfill/gridfill.py:48 | `grid.shape`: entry k is the extent of axis k; `ExtentsRollAxis` states that rolling the axes rolls the shape the same way |
| `Axes.ProductRollAxis` | lib/gridfill/gridfill.py:59 | rolling an axis does not change the array's element count |
| `Axes.ExtentsRollAxis` | lib/gridfill/gridfill.py:38-41 | rolling an array's axes rolls its `shape` tuple the same way, so the extents travel with their axes |
| `Axes.IndexOf` | lib/gridfill/gridfill.py:56-57 | `list.index`: returns the first position holding v, or fails (ValueError) exactly when v is absent |
| `Axes.Remove` | lib/gridfill/gridfill.py:31-32 | `list.remove`: fails (ValueError) exactly when v is absent; otherwise deletes the first occurrence of v and keeps every other element in its order |
| `Axes.RemoveAt` | lib/gridfill/gridfill.py:31-32 | when v first occurs at position i, `remove(v)` deletes exactly position i |
| `GridFill.OrderedDims` | lib/gridfill/gridfill.py:28-42 | reference definition of `_order_dims`: fails with the dimension error exactly when xdim/ydim are invalid, otherwise gives the axes in the order `OutOrder` and that order; one entry per dimension (the order's meaning is stated by `OutOrderIsPermutation` and `TwoRollsReorder`) |
| `GridFill.OrderDims` | lib/gridfill/gridfill.py:28-42 | fails exactly when xdim and ydim are not two different dimension numbers in 0..ndim-1; otherwise returns the order `OutOrder`, and axis k of the result is input axis `outorder[k]` |
| `GridFill.OutOrderIsPermutation` | lib/gridfill/gridfill.py:29-37 | `outorder` is `[ypos, xpos]` followed by the other dimensions, ascending, and is a permutation of 0..ndim-1 |
| `GridFill.RemoveFromRange` | lib/gridfill/gridfill.py:29-32 | removing xpos and then ypos from `range(ndim)` leaves exactly the other dimensions, ascending |
| `GridFill.InRangeWithout` | lib/gridfill/gridfill.py:30-36 | the second `remove` succeeds exactly when ypos is a dimension number other than xpos, so `ypos == xpos` raises ValueError |
| `GridFill.TwoRollsReorder` | lib/gridfill/gridfill.py:38-42 | rolling xpos to the front and then ypos (plus one when ypos < xpos) gives the axes in the order `outorder` |
| `GridFill.PrepData` | lib/gridfill/gridfill.py:45-51 | `_prep_data`: fails exactly when xdim/ydim are invalid; otherwise the solver's array has 3 axes and `origndim` is the caller's ndim (shape and info are stated in full by `PrepDataShape` and `PrepDataInfo`) |
| `GridFill.Reshape3` | lib/gridfill/gridfill.py:49 | `shape[:2] + (prod(shape[2:]),)`: keeps the first two extents and merges the rest into one; `ProductReshape3` proves the element count is kept |
| `GridFill.PrepDataShape` | lib/gridfill/gridfill.py:45-51 | the solver's array has 3 axes: the ydim extent, the xdim extent, and the product of the other extents (1 for 2-D input); the element count is unchanged; fails exactly on bad xdim/ydim |
| `GridFill.ProductReshape3` | lib/gridfill/gridfill.py:49 | merging every axis after the second into one keeps the element count |
| `GridFill.PrepDataInfo` | lib/gridfill/gridfill.py:46-50 | `intshape` is the full reordered shape, `intorder` is `outorder`, `origndim` is the input's ndim; this info is valid for `_recover_data` and matches the 3-D array's element count |
| `GridFill.Reshape` | lib/gridfill/gridfill.py:55 | numpy `reshape`: succeeds exactly when the new shape has the same element count; `RecoverData`'s ensures states the error case |
| `GridFill.InternalAxes` | lib/gridfill/gridfill.py:55 | the axes after `reshape(intshape)`: one axis per dimension, the shape is exactly `intshape`, and position k holds the caller's dimension `intorder[k]` |
| `GridFill.InitialRollDims` | lib/gridfill/gridfill.py:56-57 | `rolldims[k]` is the internal position of dimension origndim-1-k, and `rolldims` is a permutation of 0..origndim-1 |
| `GridFill.Shifted` | lib/gridfill/gridfill.py:60 | the `np.where` update: every entry below the rolled position moves up one; `ShiftedTracksRoll` states what this achieves |
| `GridFill.ShiftedTracksRoll` | lib/gridfill/gridfill.py:58-60 | after `rollaxis(a, p)`, each updated `rolldims` entry other than p still points at the axis it pointed at before the roll |
| `GridFill.RollStep` | lib/gridfill/gridfill.py:58-60 | one loop iteration keeps the invariant: positions 0..i hold dimensions origndim-1-i .. origndim-1 in order, and every unprocessed `rolldims[j]` gives the current position of dimension origndim-1-j |
| `GridFill.RolledBack` | lib/gridfill/gridfill.py:58-61 | when the loop ends, position d holds dimension d with the extent that `intshape` recorded for it |
| `GridFill.RecoverData` | lib/gridfill/gridfill.py:54-61 | fails exactly when the array's element count differs from `intshape`'s; otherwise dimension `intorder[k]` is at position `intorder[k]` with extent `intshape[k]` |
| `GridFill.RoundTrip` | lib/gridfill/gridfill.py:107-118 | any result `_recover_data` may return for `_prep_data`'s info is the caller's array: same shape, axes in order 0..ndim-1 |
| `GridFill.Fill` | lib/gridfill/gridfill.py:107-118 | `fill` returns an array of the caller's shape and axis order, and fails with the dimension error exactly when xdim/ydim are invalid |
| `GridFill.TestLayouts` | gridfill/tests/test_fill.py:63-73 | a 2-D grid with (xdim=1, ydim=0) reaches the solver as (ny, nx, 1); a 3-D stack with (xdim=2, ydim=1) reaches it as (ny, nx, t) with intorder [1, 2, 0] |

## Left out

- The relaxation solver (`gridfill_f.poisson_fill_grids`, and `poisson_fill` in lib/gridfill.py) is not part of this model. It is a compiled extension, and it does floating-point iteration. `GridFill.Fill` assumes only that it returns grids of the shape it was given.
- GridFill.Fill: does not model `grids.filled(fill_value=1.e20)` or the TypeError raised for input that is not a masked array (numpy masked-array behaviour).
- GridFill.Fill: does not model the convergence flags (`resmax > eps`), which are float comparisons on the solver's outputs. It also leaves out the `verbose` printing, which is I/O.
- lib/gridfill.py (a thin wrapper over the solver call) and setup.py (build configuration) are not modelled.
- Element values are not modelled. Only axis labels and extents are tracked, not how rollaxis and reshape move the elements.
- `range(grid.ndim).remove(...)` is modelled with Python 2 list semantics, as the code intends. On Python 3, `range` returns a range object, and the call would raise AttributeError instead.
- GridFill.RecoverData: requires that `info` is valid (`intshape` has origndim entries and `intorder` is a permutation of 0..origndim-1). `_prep_data` always produces such info (`GridFill.PrepDataInfo`), and `fill` is the only caller. The ValueError or AxisError that `list.index` and `rollaxis` would raise on malformed info are not modelled.
- `np.prod` of an empty tuple is the float `1.0` in numpy. The model takes the empty product as the integer 1. Newer numpy versions refuse a float as a reshape dimension, which affects 2-D input; that version-dependent behaviour is not modelled.
- numpy's negative axis numbers in `rollaxis` are not modelled. `_order_dims` never reaches `rollaxis` with them, because `list.remove` has already rejected any number outside 0..ndim-1.

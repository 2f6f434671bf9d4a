/** The shape of an n-dimensional array, seen as a sequence of labelled axes,
    and the numpy and Python list primitives that the grid-reordering code is
    built from (rollaxis, the element count `np.prod`, list.index,
    list.remove). Element values are
    not modelled: an axis is only the caller's dimension it came from and its
    length. */
module Axes {

  /** One axis of an array: the number of the caller's dimension it holds, and its length. */
  datatype Axis = Axis(dim: int, extent: nat)

  datatype Option<T> = None | Some(value: T)

  /** Number of elements of an array with these extents; the empty product is 1. */
  function Product(s: seq<nat>): nat
  {
    if s == [] then 1 else s[0] * Product(s[1..])
  }

  /** The shape of an array, as numpy's `shape` tuple. */
  function Extents(a: seq<Axis>): seq<nat>
  {
    seq(|a|, k requires 0 <= k < |a| => a[k].extent)
  }

  /** Python's `range(n)` as a list. */
  function Range(n: nat): seq<int>
  {
    seq(n, i => i)
  }

  /** numpy's `rollaxis(a, k)` with the default `start=0`: axis k moves to the
      front and the axes before it move one place back. */
  function RollAxis<T>(s: seq<T>, k: nat): (r: seq<T>)
    requires k < |s|
    ensures |r| == |s| && r[0] == s[k]
    ensures forall j :: 0 <= j < k ==> r[j + 1] == s[j]
    ensures forall j :: k < j < |s| ==> r[j] == s[j]
  {
    [s[k]] + s[..k] + s[k + 1..]
  }

  /** The sequence whose k-th entry is s[idx[k]]: the axes of s taken in the order idx. */
  function Gather<T>(s: seq<T>, idx: seq<int>): seq<T>
    requires forall k :: 0 <= k < |idx| ==> 0 <= idx[k] < |s|
  {
    seq(|idx|, k requires 0 <= k < |idx| => s[idx[k]])
  }

  /** Python's `list.index(v)`: the position of the first occurrence of v, or
      None where Python raises ValueError. */
  function IndexOf<T(==)>(s: seq<T>, v: T): (r: Option<nat>)
    ensures r.None? <==> v !in s
    ensures r.Some? ==> r.value < |s| && s[r.value] == v && v !in s[..r.value]
  {
    if s == [] then None
    else if s[0] == v then Some(0)
    else
      match IndexOf(s[1..], v)
      case None => None
      case Some(i) =>
        assert s[1..][..i] == s[1..i + 1];
        Some(i + 1)
  }

  /** Python's `list.remove(v)`: drop the first occurrence of v, or None where
      Python raises ValueError. */
  function Remove<T(==)>(s: seq<T>, v: T): (r: Option<seq<T>>)
    ensures r.None? <==> v !in s
    ensures r.Some? ==> exists i ::
      0 <= i < |s| && s[i] == v && v !in s[..i] && r.value == s[..i] + s[i + 1..]
  {
    match IndexOf(s, v)
    case None => None
    case Some(i) => Some(s[..i] + s[i + 1..])
  }

  /** Removing a value whose first occurrence is at position i deletes position i. */
  lemma RemoveAt<T>(s: seq<T>, v: T, i: nat)
    requires i < |s| && s[i] == v && v !in s[..i]
    ensures Remove(s, v) == Some(s[..i] + s[i + 1..])
  {
    var found := IndexOf(s, v);
    assert found.Some? && s[found.value] == v && v !in s[..found.value];
    assert forall j :: 0 <= j < i ==> s[j] == s[..i][j];
    assert forall j :: 0 <= j < found.value ==> s[j] == s[..found.value][j];
  }

  lemma {:induction false} ProductConcat(a: seq<nat>, b: seq<nat>)
    ensures Product(a + b) == Product(a) * Product(b)
  {
    if a == [] {
      assert a + b == b;
    } else {
      assert (a + b)[1..] == a[1..] + b;
      ProductConcat(a[1..], b);
    }
  }

  /** Splitting a shape around one axis splits its element count the same way. */
  lemma ProductSplitAt(s: seq<nat>, k: nat)
    requires k < |s|
    ensures Product(s) == Product(s[..k]) * (s[k] * Product(s[k + 1..]))
  {
    assert s[k..][1..] == s[k + 1..];
    assert s == s[..k] + s[k..];
    ProductConcat(s[..k], s[k..]);
  }

  // ProductCons, ProductSingleton and MulLeftCommute are single steps of the
  // element-count arithmetic. They are lemmas of their own so that each proof
  // that uses them sees one nonlinear fact at a time and stays within the
  // verifier's resource limit.

  lemma ProductCons(x: nat, t: seq<nat>)
    ensures Product([x] + t) == x * Product(t)
  {
    assert ([x] + t)[1..] == t;
  }

  lemma ProductSingleton(x: nat)
    ensures Product([x]) == x
  {
    assert [x][1..] == [];
  }

  /** Moving an axis changes neither the number of elements ... */
  lemma ProductRollAxis(s: seq<nat>, k: nat)
    requires k < |s|
    ensures Product(RollAxis(s, k)) == Product(s)
  {
    var before, x, after := s[..k], s[k], s[k + 1..];
    assert RollAxis(s, k) == [x] + (before + after);
    ProductCons(x, before + after);
    ProductConcat(before, after);
    ProductSplitAt(s, k);
    MulLeftCommute(Product(before), x, Product(after));
  }

  lemma MulLeftCommute(a: nat, b: nat, c: nat)
    ensures a * (b * c) == b * (a * c)
  {
  }

  /** ... nor, read off the labelled axes, the shape it is taken from. */
  lemma ExtentsRollAxis(a: seq<Axis>, k: nat)
    requires k < |a|
    ensures Extents(RollAxis(a, k)) == RollAxis(Extents(a), k)
  {
  }
}

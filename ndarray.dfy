/** What `np.array(x)` and `reshape(1, -1)` make of a JSON value: an n-dimensional
    array, kept as its shape and its elements in row-major order. */
module NdArrays {
  import opened Wrappers
  import opened JsonValues

  /** An n-dimensional array. The elements are the non-list JSON values at the
      bottom of the nesting (numbers, booleans, strings, None, dicts). */
  datatype NdArray = NdArray(shape: seq<nat>, flat: seq<Json>)

  function Product(shape: seq<nat>): nat {
    if shape == [] then 1 else shape[0] * Product(shape[1..])
  }

  /** The element count agrees with the shape. */
  predicate Valid(a: NdArray) {
    Product(a.shape) == |a.flat|
  }

  /** numpy stores anything that is not a list as one element. */
  predicate IsLeaf(j: Json) {
    !j.Arr?
  }

  /** numpy refuses nested lists whose lengths or depths do not agree. */
  const InhomogeneousShape := "setting an array element with a sequence. The requested array has an inhomogeneous shape"

  /** `np.array(j)`: a list becomes one more dimension over its items, which
      must all have the same shape; anything else is a 0-dimensional array. */
  function FromJson(j: Json): (r: Result<NdArray>)
    ensures r.Ok? ==> Valid(r.value)
    ensures r.Ok? && IsLeaf(j) ==> r.value == NdArray([], [j])
    ensures r.Ok? && j.Arr? ==> |r.value.shape| >= 1 && r.value.shape[0] == |j.elems|
    decreases j, 1
  {
    if j.Arr? then
      var items := Items(j.elems, j);
      if items.Err? then Err(items.error) else Stack(items.value)
    else Ok(NdArray([], [j]))
  }

  /** A list's array is its items' common shape under one new leading
      dimension: every dimension past the first is the first item's. */
  lemma ListShape(j: Json)
    requires j.Arr? && j.elems != [] && FromJson(j).Ok?
    ensures FromJson(j.elems[0]).Ok?
    ensures FromJson(j).value.shape == [|j.elems|] + FromJson(j.elems[0]).value.shape
  {
  }

  /** `np.array` of each item of a list, failing if any item fails. */
  function Items(elems: seq<Json>, ghost parent: Json): (r: Result<seq<NdArray>>)
    requires forall i :: 0 <= i < |elems| ==> elems[i] < parent
    ensures r.Ok? <==> forall i :: 0 <= i < |elems| ==> FromJson(elems[i]).Ok?
    ensures r.Ok? ==> |r.value| == |elems|
    ensures r.Ok? ==> forall i :: 0 <= i < |elems| ==> FromJson(elems[i]) == Ok(r.value[i])
    decreases parent, 0, |elems|
  {
    if elems == [] then Ok([])
    else
      var head := FromJson(elems[0]);
      var tail := Items(elems[1..], parent);
      if head.Err? then Err(head.error)
      else if tail.Err? then Err(tail.error)
      else Ok([head.value] + tail.value)
  }

  /** All arrays in `items` have the shape `shape`. */
  predicate SameShape(items: seq<NdArray>, shape: seq<nat>) {
    forall i :: 0 <= i < |items| ==> items[i].shape == shape
  }

  /** The elements of `items`, one array after another. */
  function Concat(items: seq<NdArray>): seq<Json> {
    if items == [] then [] else items[0].flat + Concat(items[1..])
  }

  /** `np.stack` of the items of a list: a new leading dimension. */
  function Stack(items: seq<NdArray>): (r: Result<NdArray>)
    requires forall i :: 0 <= i < |items| ==> Valid(items[i])
    ensures r.Ok? ==> Valid(r.value) && |r.value.shape| >= 1 && r.value.shape[0] == |items|
    ensures r.Ok? <==> (items == [] || SameShape(items, items[0].shape))
    ensures items == [] ==> r == Ok(NdArray([0], []))
    ensures r.Ok? && items != [] ==> r.value.shape == [|items|] + items[0].shape
    ensures r.Ok? ==> r.value.flat == Concat(items)
  {
    if items == [] then Ok(NdArray([0], []))
    else if SameShape(items, items[0].shape) then
      ConcatLength(items, items[0].shape);
      Ok(NdArray([|items|] + items[0].shape, Concat(items)))
    else Err(InhomogeneousShape)
  }

  lemma {:induction false} ConcatLength(items: seq<NdArray>, shape: seq<nat>)
    requires forall i :: 0 <= i < |items| ==> Valid(items[i])
    requires SameShape(items, shape)
    ensures |Concat(items)| == |items| * Product(shape)
  {
    if items != [] {
      ConcatLength(items[1..], shape);
      assert |Concat(items)| == Product(shape) + (|items| - 1) * Product(shape);
    }
  }

  /** `a.reshape(1, -1)`: one row holding every element, in order. */
  function Reshape(a: NdArray): (r: NdArray)
    ensures Valid(r) && r.shape == [1, |a.flat|] && r.flat == a.flat
  {
    assert Product([1, |a.flat|]) == Product([|a.flat|]) == |a.flat|;
    NdArray([1, |a.flat|], a.flat)
  }

  /** A list of lists, as JSON. */
  function RowsJson(rows: seq<seq<Json>>): (j: Json)
    ensures j.Arr? && |j.elems| == |rows|
    ensures forall i :: 0 <= i < |rows| ==> j.elems[i] == Arr(rows[i])
  {
    Arr(seq(|rows|, i requires 0 <= i < |rows| => Arr(rows[i])))
  }

  /** The rows one after another. */
  function Flatten(rows: seq<seq<Json>>): seq<Json> {
    if rows == [] then [] else rows[0] + Flatten(rows[1..])
  }

  lemma {:induction false} FlattenLength(rows: seq<seq<Json>>, n: nat)
    requires forall i :: 0 <= i < |rows| ==> |rows[i]| == n
    ensures |Flatten(rows)| == |rows| * n
  {
    if rows != [] {
      FlattenLength(rows[1..], n);
      assert |Flatten(rows)| == n + (|rows| - 1) * n;
    }
  }

  predicate AllLeaves(xs: seq<Json>) {
    forall i :: 0 <= i < |xs| ==> IsLeaf(xs[i])
  }

  lemma {:induction false} ConcatOfScalars(items: seq<NdArray>, xs: seq<Json>)
    requires |items| == |xs|
    requires forall i :: 0 <= i < |xs| ==> items[i] == NdArray([], [xs[i]])
    ensures Concat(items) == xs
  {
    if xs != [] {
      ConcatOfScalars(items[1..], xs[1..]);
      assert xs == [xs[0]] + xs[1..];
    }
  }

  /** A flat list of non-list values is a 1-dimensional array of those values,
      in order. */
  lemma VectorOfLeaves(xs: seq<Json>)
    requires AllLeaves(xs)
    ensures FromJson(Arr(xs)) == Ok(NdArray([|xs|], xs))
  {
    var items := Items(xs, Arr(xs));
    assert items.Ok?;
    forall i | 0 <= i < |xs| ensures items.value[i] == NdArray([], [xs[i]]) {
      assert FromJson(xs[i]) == Ok(items.value[i]);
    }
    assert FromJson(Arr(xs)) == Stack(items.value);
    if xs != [] {
      assert SameShape(items.value, items.value[0].shape);
      ConcatOfScalars(items.value, xs);
      assert [|xs|] + items.value[0].shape == [|xs|];
    }
  }

  lemma {:induction false} ConcatOfVectors(items: seq<NdArray>, rows: seq<seq<Json>>)
    requires |items| == |rows|
    requires forall i :: 0 <= i < |rows| ==> items[i] == NdArray([|rows[i]|], rows[i])
    ensures Concat(items) == Flatten(rows)
  {
    if rows != [] {
      ConcatOfVectors(items[1..], rows[1..]);
    }
  }

  /** A non-empty list of lists of non-list values, all of length `n`, is an
      array with one row per inner list, in order, and `n` columns. */
  lemma MatrixOfRows(rows: seq<seq<Json>>, n: nat)
    requires |rows| > 0
    requires forall i :: 0 <= i < |rows| ==> |rows[i]| == n && AllLeaves(rows[i])
    ensures FromJson(RowsJson(rows)) == Ok(NdArray([|rows|, n], Flatten(rows)))
  {
    var j := RowsJson(rows);
    var items := Items(j.elems, j);
    forall i | 0 <= i < |rows| ensures FromJson(j.elems[i]) == Ok(NdArray([n], rows[i])) {
      VectorOfLeaves(rows[i]);
    }
    assert items.Ok?;
    assert forall i :: 0 <= i < |rows| ==> items.value[i] == NdArray([n], rows[i]);
    assert SameShape(items.value, [n]);
    ConcatOfVectors(items.value, rows);
    assert FromJson(j) == Stack(items.value);
    assert [|rows|] + items.value[0].shape == [|rows|, n];
  }

  /** Inner lists of different lengths make numpy fail. */
  lemma RaggedRowsFail(rows: seq<seq<Json>>, k: nat)
    requires forall i :: 0 <= i < |rows| ==> AllLeaves(rows[i])
    requires 0 < k < |rows| && |rows[k]| != |rows[0]|
    ensures FromJson(RowsJson(rows)).Err?
  {
    var j := RowsJson(rows);
    var items := Items(j.elems, j);
    VectorOfLeaves(rows[0]);
    VectorOfLeaves(rows[k]);
    if items.Ok? {
      assert items.value[0].shape == [|rows[0]|];
      assert items.value[k].shape == [|rows[k]|];
    }
  }
}

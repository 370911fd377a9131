/**
  Bookkeeping around the per-pixel geometric-median composite: normalising a
  Dataset, a 4-D DataArray or a raw 4-D array into one (y, x, band, time)
  stack, validating the output mask, deciding how a dask stack is rechunked,
  blanking masked pixels and wrapping the (y, x, band) result back into the
  caller's container. The median solver itself is a parameter.
 */
module Geomedian {
  import opened Wrappers
  import opened Exceptions
  import opened Tensors
  import opened Labeled

  /** What the composite accepts and returns. */
  datatype Container = RawArray(raw: Array) | LabeledArray(da: DataArray) | LabeledDataset(ds: Dataset)

  predicate ValidContainer(c: Container) {
    match c
    case RawArray(a) => ValidArray(a)
    case LabeledArray(xx) => ValidDataArray(xx)
    case LabeledDataset(ds) => ValidDataset(ds)
  }

  /** A boolean array: the `where` argument. */
  type Mask = NdArray<bool>

  /** The external median solver (`nangeomedian_pcm`). */
  type Solver = Tensor<Cell> -> Tensor<Cell>

  /** The only thing known of the solver: a (y, x, band, time) stack gives a (y, x, band) array. */
  ghost predicate ReducesTime(solve: Solver) {
    forall s: Tensor<Cell>, shape: seq<nat> ::
      |shape| == 4 && HasShape(s, shape) ==> HasShape(solve(s), shape[..3])
  }

  // ---------------------------------------------------------------------
  // reshape_for_geomedian

  /** The dimensions of `dims` other than `axis`, in their original order. */
  function Without(dims: seq<Dim>, axis: Dim): (r: seq<Dim>)
    ensures forall d :: d in r <==> d in dims && d != axis
    ensures |r| <= |dims|
  {
    if |dims| == 0 then []
    else (if dims[0] == axis then [] else [dims[0]]) + Without(dims[1..], axis)
  }

  /** The two positions of a 3-tuple other than `k`, in order. */
  function Others(k: nat): (p: (nat, nat))
    requires k < 3
    ensures p.0 < p.1 < 3 && p.0 != k && p.1 != k
  {
    if k == 0 then (1, 2) else if k == 1 then (0, 2) else (0, 1)
  }

  /** The 3-tuple holding `t` at position `k` and `i`, `j` at the other two, in order. */
  function Place(i: nat, j: nat, t: nat, k: nat): (idx: seq<nat>)
    requires k < 3
    ensures |idx| == 3 && idx[k] == t && idx[Others(k).0] == i && idx[Others(k).1] == j
  {
    if k == 0 then [t, i, j] else if k == 1 then [i, t, j] else [i, j, t]
  }

  lemma {:induction false} WithoutOfTriple(dims: seq<Dim>, k: nat)
    requires |dims| == 3 && Distinct(dims) && k < 3
    ensures Without(dims, dims[k]) == [dims[Others(k).0], dims[Others(k).1]]
  {
    var axis := dims[k];
    assert dims[1..][1..][1..] == [];
    assert Without(dims[1..][1..], axis) == (if dims[2] == axis then [] else [dims[2]]) + Without(dims[1..][1..][1..], axis);
  }

  /** `getattr(v, 'nodata', None)`: the variable's `nodata` attribute, None when absent. */
  function NodataOf(v: Variable): Value {
    if "nodata" in v.attrs then v.attrs["nodata"] else NoneValue
  }

  /** The text an f-string gives for the axis argument. */
  function AxisText(axis: Option<Dim>): string {
    if axis.Some? then axis.value else "None"
  }

  /** The set holds a single element exactly when every band maps to the first band's value. */
  lemma SingletonImage<V>(ds: Dataset, image: set<V>, g: Variable -> V)
    requires ValidDataset(ds)
    requires image == set b | b in ds.vars :: g(ds.vars[b])
    ensures |image| == 1 <==>
      |ds.names| > 0 && forall b :: b in ds.vars ==> g(ds.vars[b]) == g(ds.vars[ds.names[0]])
    ensures |image| == 1 ==> image == {g(ds.vars[ds.names[0]])}
  {
    if |ds.names| == 0 {
      assert image == {};
    } else {
      var v0 := g(ds.vars[ds.names[0]]);
      assert ds.names[0] in ds.vars;
      assert v0 in image;
      if forall b :: b in ds.vars ==> g(ds.vars[b]) == v0 {
        assert image == {v0};
      } else {
        var b :| b in ds.vars && g(ds.vars[b]) != v0;
        assert g(ds.vars[b]) in image - {v0};
        assert |image - {v0}| == |image| - 1;
      }
    }
  }

  /** The band shape every variable has once all share one dimension tuple. */
  lemma SharedShape(ds: Dataset)
    requires ValidDataset(ds) && |ds.names| > 0
    requires forall b :: b in ds.vars ==> ds.vars[b].dims == ds.vars[ds.names[0]].dims
    ensures forall b :: b in ds.vars ==> ds.vars[b].shape == ds.vars[ds.names[0]].shape
  {
    var v0 := ds.vars[ds.names[0]];
    forall b | b in ds.vars ensures ds.vars[b].shape == v0.shape {
      var v := ds.vars[b];
      assert forall m :: 0 <= m < |v.shape| ==> v.shape[m] == ds.sizes[v.dims[m]] == v0.shape[m];
    }
  }

  /** The dask chunk size of dimension `d` of a dask-backed Dataset. */
  function ChunkOf(ds: Dataset, d: Dim): nat
    requires ValidDataset(ds) && ds.chunks.Some? && d in ds.sizes
  {
    ds.chunks.value[d]
  }

  /**
    `ds.to_array(dim='band').transpose(*canonical)`: the bands stacked along a
    new `band` axis (one dask chunk per band), then the axis `dims[k]` moved last.
   */
  function ToArray(ds: Dataset, dims: seq<Dim>, k: nat, canonical: seq<Dim>): (xx: DataArray)
    requires ValidDataset(ds) && |ds.names| > 0 && |dims| == 3 && k < 3
    requires forall b :: b in ds.vars ==> ds.vars[b].dims == dims
    ensures ValidArray(xx.arr) && |xx.arr.shape| == 4 && xx.dims == canonical
    ensures xx.arr.shape[2] == |ds.names|
  {
    SharedShape(ds);
    var v0 := ds.vars[ds.names[0]];
    var (a, c) := Others(k);
    var shape := StackShape(ds, v0.shape, k);
    var chunks :=
      if ds.chunks.Some? then Some([ChunkOf(ds, dims[a]), ChunkOf(ds, dims[c]), 1, ChunkOf(ds, dims[k])])
      else None;
    var bandLabels := seq(|ds.names|, i requires 0 <= i < |ds.names| => Text(ds.names[i]));
    DataArray(canonical, NdArray(shape, StackData(ds, v0.shape, k), chunks), ds.coords["band" := bandLabels], ds.attrs)
  }

  /** The shape of the stack: the two non-axis lengths, the number of bands, the axis length. */
  function StackShape(ds: Dataset, shape: seq<nat>, k: nat): (r: seq<nat>)
    requires |shape| == 3 && k < 3
  {
    [shape[Others(k).0], shape[Others(k).1], |ds.names|, shape[k]]
  }

  /** Element `idx` of the stack: band `idx[2]`'s element with `idx[3]` at position `k`. */
  function StackElem(ds: Dataset, shape: seq<nat>, k: nat, idx: seq<nat>): Cell
    requires ValidDataset(ds) && |shape| == 3 && k < 3
    requires forall b :: b in ds.vars ==> ds.vars[b].shape == shape
    requires InBounds(idx, StackShape(ds, shape, k))
  {
    assert ds.names[idx[2]] in ds.vars;
    At(ds.vars[ds.names[idx[2]]].data, shape, Place(idx[0], idx[1], idx[3], k))
  }

  /** The bands of `ds`, all of shape `shape`, stacked with the axis at position `k` moved last. */
  function StackData(ds: Dataset, shape: seq<nat>, k: nat): (t: Tensor<Cell>)
    requires ValidDataset(ds) && |shape| == 3 && k < 3
    requires forall b :: b in ds.vars ==> ds.vars[b].shape == shape
    ensures HasShape(t, StackShape(ds, shape, k))
    ensures forall idx :: InBounds(idx, StackShape(ds, shape, k)) ==>
      At(t, StackShape(ds, shape, k), idx) == StackElem(ds, shape, k, idx)
  {
    var f := (idx: seq<nat>) requires InBounds(idx, StackShape(ds, shape, k)) => StackElem(ds, shape, k, idx);
    var t := Build(StackShape(ds, shape, k), f);
    assert forall idx :: InBounds(idx, StackShape(ds, shape, k)) ==> At(t, StackShape(ds, shape, k), idx) == f(idx) by {
      forall idx | InBounds(idx, StackShape(ds, shape, k)) ensures At(t, StackShape(ds, shape, k), idx) == f(idx) {
        AtBuild(StackShape(ds, shape, k), f, idx);
      }
    }
    t
  }

  /** reshape_for_geomedian: the Dataset as one (y, x, band, time) DataArray. */
  function ReshapeForGeomedian(ds: Dataset, axis: Option<Dim>): (r: Result<DataArray, Exception>)
    requires ValidDataset(ds)
    ensures r.Success? ==> ValidArray(r.value.arr) && |r.value.arr.shape| == 4 && |r.value.dims| == 4
    ensures r.Success? ==> r.value.arr.shape[2] == |ds.names| && Distinct(r.value.dims[..2])
  {
    if |DimSet(ds)| != 1 then Failure(ValueError("All bands should have same dimensions"))
    else
      assert ds.names[0] in ds.vars;
      var dims := ds.vars[ds.names[0]].dims;
      if |dims| != 3 then Failure(ValueError("Expect 3 dimensions on input"))
      else if axis.None? || axis.value !in dims then Failure(ValueError("No such axis: " + AxisText(axis)))
      else
        var k := IndexOf(dims, axis.value);
        WithoutOfTriple(dims, k);
        var canonical := Without(dims, axis.value) + ["band", axis.value];
        assert canonical[..2] == [dims[Others(k).0], dims[Others(k).1]];
        var nodata := if |NodataSet(ds)| == 1 then NodataOf(ds.vars[ds.names[0]]) else NoneValue;
        var xx := ToArray(ds, dims, k, canonical);
        Success(if nodata != NoneValue then xx.(attrs := xx.attrs["nodata" := nodata]) else xx)
  }

  /** `set(ds[b].dims for b in ds.data_vars)`: it has one element exactly when the bands share their dimensions. */
  function DimSet(ds: Dataset): (s: set<seq<Dim>>)
    requires ValidDataset(ds)
    ensures |s| == 1 <==> BandsShareDims(ds)
  {
    var s := set b | b in ds.vars :: ds.vars[b].dims;
    SingletonImage(ds, s, (v: Variable) => v.dims);
    s
  }

  /** The set of the bands' `nodata` values: one element exactly when the bands agree. */
  function NodataSet(ds: Dataset): (s: set<Value>)
    requires ValidDataset(ds) && |ds.names| > 0
    ensures |s| == 1 <==> BandsShareNodata(ds)
  {
    var s := set b | b in ds.vars :: NodataOf(ds.vars[b]);
    SingletonImage(ds, s, NodataOf);
    s
  }

  /** Every band shares one dimension tuple: the set of the bands' tuples has one element. */
  predicate BandsShareDims(ds: Dataset)
    requires ValidDataset(ds)
  {
    |ds.names| > 0 && forall b :: b in ds.vars ==> ds.vars[b].dims == ds.vars[ds.names[0]].dims
  }

  /** Every band reports the first band's `nodata` value. */
  predicate BandsShareNodata(ds: Dataset)
    requires ValidDataset(ds) && |ds.names| > 0
  {
    forall b :: b in ds.vars ==> NodataOf(ds.vars[b]) == NodataOf(ds.vars[ds.names[0]])
  }

  /** The error, if any, that reshape_for_geomedian raises, in the order it checks. */
  lemma ReshapeOutcome(ds: Dataset, axis: Option<Dim>)
    requires ValidDataset(ds)
    ensures !BandsShareDims(ds) ==>
      ReshapeForGeomedian(ds, axis) == Failure(ValueError("All bands should have same dimensions"))
    ensures BandsShareDims(ds) && |ds.vars[ds.names[0]].dims| != 3 ==>
      ReshapeForGeomedian(ds, axis) == Failure(ValueError("Expect 3 dimensions on input"))
    ensures BandsShareDims(ds) && |ds.vars[ds.names[0]].dims| == 3
            && (axis.None? || axis.value !in ds.vars[ds.names[0]].dims) ==>
      ReshapeForGeomedian(ds, axis) == Failure(ValueError("No such axis: " + AxisText(axis)))
    ensures ReshapeForGeomedian(ds, axis).Success? <==>
      BandsShareDims(ds) && |ds.vars[ds.names[0]].dims| == 3 && axis.Some? && axis.value in ds.vars[ds.names[0]].dims
  {
  }

  /**
    The stack's dimensions are the two non-axis dimensions in their original
    order, then `band`, then the axis; its band coordinate lists the Dataset's
    variables in their order.
   */
  lemma ReshapeCanonicalOrder(ds: Dataset, axis: Option<Dim>)
    requires ValidDataset(ds) && ReshapeForGeomedian(ds, axis).Success?
    ensures BandsShareDims(ds) && axis.Some? && axis.value in ds.vars[ds.names[0]].dims
    ensures
      var dims := ds.vars[ds.names[0]].dims;
      var shape := ds.vars[ds.names[0]].shape;
      var k := IndexOf(dims, axis.value);
      var (a, c) := Others(k);
      var xx := ReshapeForGeomedian(ds, axis).value;
      && a < c
      && xx.dims == [dims[a], dims[c], "band", axis.value]
      && xx.arr.shape == [shape[a], shape[c], |ds.names|, shape[k]]
      && "band" in xx.coords && |xx.coords["band"]| == |ds.names|
      && forall i :: 0 <= i < |ds.names| ==> xx.coords["band"][i] == Text(ds.names[i])
  {
    ReshapeIsToArray(ds, axis);
    var dims := ds.vars[ds.names[0]].dims;
    WithoutOfTriple(dims, IndexOf(dims, axis.value));
  }

  /** A successful reshape is `ToArray` on the bands' shared dimensions. */
  lemma ReshapeIsToArray(ds: Dataset, axis: Option<Dim>)
    requires ValidDataset(ds) && ReshapeForGeomedian(ds, axis).Success?
    ensures BandsShareDims(ds) && |ds.vars[ds.names[0]].dims| == 3
    ensures axis.Some? && axis.value in ds.vars[ds.names[0]].dims
    ensures
      var dims := ds.vars[ds.names[0]].dims;
      var xx := ReshapeForGeomedian(ds, axis).value;
      var yy := ToArray(ds, dims, IndexOf(dims, axis.value), Without(dims, axis.value) + ["band", axis.value]);
      xx.arr == yy.arr && xx.dims == yy.dims && xx.coords == yy.coords
  {
    ReshapeOutcome(ds, axis);
  }

  /** Element (i, j, b, t) of the stack is band b's element with `t` at the axis position. */
  lemma ReshapeStacksBands(ds: Dataset, axis: Option<Dim>, i: nat, j: nat, b: nat, t: nat)
    requires ValidDataset(ds) && ReshapeForGeomedian(ds, axis).Success?
    requires InBounds([i, j, b, t], ReshapeForGeomedian(ds, axis).value.arr.shape)
    ensures BandsShareDims(ds) && axis.Some? && axis.value in ds.vars[ds.names[0]].dims
    ensures b < |ds.names| && ds.names[b] in ds.vars
    ensures
      var v := ds.vars[ds.names[b]];
      var k := IndexOf(v.dims, axis.value);
      var xx := ReshapeForGeomedian(ds, axis).value;
      && InBounds(Place(i, j, t, k), v.shape)
      && At(xx.arr.data, xx.arr.shape, [i, j, b, t]) == At(v.data, v.shape, Place(i, j, t, k))
  {
    ReshapeIsToArray(ds, axis);
    SharedShape(ds);
    var dims := ds.vars[ds.names[0]].dims;
    var v0 := ds.vars[ds.names[0]];
    var k := IndexOf(dims, axis.value);
    var (a, c) := Others(k);
    var yy := ToArray(ds, dims, k, Without(dims, axis.value) + ["band", axis.value]);
    assert yy.arr.shape == StackShape(ds, v0.shape, k) && yy.arr.data == StackData(ds, v0.shape, k);
    assert At(yy.arr.data, yy.arr.shape, [i, j, b, t]) == StackElem(ds, v0.shape, k, [i, j, b, t]);
  }

  /**
    The stack carries a `nodata` attribute taken from the bands exactly when
    every band reports the same value and that value is not None;
    disagreement leaves the attributes as they were.
   */
  lemma ReshapeNodata(ds: Dataset, axis: Option<Dim>)
    requires ValidDataset(ds) && ReshapeForGeomedian(ds, axis).Success?
    ensures |ds.names| > 0
    ensures
      var v := NodataOf(ds.vars[ds.names[0]]);
      ReshapeForGeomedian(ds, axis).value.attrs ==
        if BandsShareNodata(ds) && v != NoneValue then ds.attrs["nodata" := v] else ds.attrs
  {
    ReshapeOutcome(ds, axis);
  }

  // ---------------------------------------------------------------------
  // norm_input

  /** The input as (Dataset or None, DataArray or None, array to reduce). */
  datatype Normalised = Normalised(ds: Option<Dataset>, xx: Option<DataArray>, data: Array)

  predicate ValidNormalised(n: Normalised) {
    && ValidArray(n.data) && |n.data.shape| == 4
    && (n.xx.Some? ==> |n.xx.value.dims| == 4 && n.xx.value.arr == n.data)
    && (n.ds.Some? ==>
          && n.xx.Some? && ValidDataset(n.ds.value) && n.data.shape[2] == |n.ds.value.names|
          && Distinct(n.xx.value.dims[..2]))
  }

  function NormInput(input: Container, axis: Option<Dim>): (r: Result<Normalised, Exception>)
    requires ValidContainer(input)
    ensures r.Success? ==> ValidNormalised(r.value)
  {
    match input
    case LabeledArray(xx) =>
      if |xx.dims| != 4 then Failure(ValueError("Expect 4 dimensions on input: y,x,band,time"))
      else if axis.Some? && xx.dims[3] != axis.value then
        Failure(ValueError("Can only reduce last dimension, expect: y,x,band," + axis.value))
      else Success(Normalised(None, Some(xx), xx.arr))
    case LabeledDataset(ds) =>
      var xx :- ReshapeForGeomedian(ds, axis);
      Success(Normalised(Some(ds), Some(xx), xx.arr))
    case RawArray(a) =>
      if |a.shape| != 4 then Failure(ValueError("Expect 4 dimensions on input: y,x,band,time"))
      else Success(Normalised(None, None, a))
  }

  /**
    A DataArray is accepted exactly when it has four dimensions and, when an
    axis is named, the last one is that axis; a raw array exactly when it has
    four axes. Each is passed on unchanged.
   */
  lemma NormInputChecks(input: Container, axis: Option<Dim>)
    requires ValidContainer(input)
    ensures input.LabeledArray? ==>
      (NormInput(input, axis).Success? <==>
        |input.da.dims| == 4 && (axis.Some? ==> input.da.dims[3] == axis.value))
    ensures input.LabeledArray? && |input.da.dims| == 4 && axis.Some? && input.da.dims[3] != axis.value ==>
      NormInput(input, axis) == Failure(ValueError("Can only reduce last dimension, expect: y,x,band," + axis.value))
    ensures input.LabeledArray? && NormInput(input, axis).Success? ==>
      NormInput(input, axis).value == Normalised(None, Some(input.da), input.da.arr)
    ensures input.RawArray? ==>
      (NormInput(input, axis).Success? <==> |input.raw.shape| == 4)
    ensures input.RawArray? && |input.raw.shape| != 4 ==>
      NormInput(input, axis) == Failure(ValueError("Expect 4 dimensions on input: y,x,band,time"))
    ensures input.RawArray? && NormInput(input, axis).Success? ==>
      NormInput(input, axis).value == Normalised(None, None, input.raw)
  {
  }

  // ---------------------------------------------------------------------
  // The dask rechunk decision and the output mask

  /**
    Lines 79-80: when the band and time axes are not each one chunk, rechunk to
    the same spatial chunk sizes with band and time whole.
   */
  function RechunkPlan(shape: seq<nat>, chunks: seq<nat>): (r: seq<nat>)
    requires |shape| == 4 && |chunks| == 4
  {
    if shape[2..] != chunks[2..] then chunks[..2] + [shape[2], shape[3]] else chunks
  }

  /** The plan keeps the spatial chunk sizes, leaves band and time one chunk each, and changes nothing already so. */
  lemma RechunkPlanKeepsSpatialChunks(shape: seq<nat>, chunks: seq<nat>)
    requires |shape| == 4 && |chunks| == 4
    ensures |RechunkPlan(shape, chunks)| == 4
    ensures RechunkPlan(shape, chunks)[..2] == chunks[..2]
    ensures RechunkPlan(shape, chunks)[2] == shape[2] && RechunkPlan(shape, chunks)[3] == shape[3]
    ensures chunks[2] == shape[2] && chunks[3] == shape[3] ==> RechunkPlan(shape, chunks) == chunks
  {
    if shape[2..] == chunks[2..] {
      assert shape[2] == shape[2..][0] && shape[3] == shape[2..][1];
    }
  }

  /** `~where`. */
  function Invert(where: Mask): (r: Tensor<bool>)
    requires ValidArray(where)
    ensures HasShape(r, where.shape)
    ensures forall idx :: InBounds(idx, where.shape) ==> At(r, where.shape, idx) == !At(where.data, where.shape, idx)
  {
    var f := (idx: seq<nat>) requires InBounds(idx, where.shape) => !At(where.data, where.shape, idx);
    var r := Build(where.shape, f);
    assert forall idx :: InBounds(idx, where.shape) ==> At(r, where.shape, idx) == f(idx) by {
      forall idx | InBounds(idx, where.shape) ensures At(r, where.shape, idx) == f(idx) {
        AtBuild(where.shape, f, idx);
      }
    }
    r
  }

  /** `data[set_nan, :] = nan` on a (y, x, band) array value. */
  function Blank(cube: Tensor<Cell>, shape: seq<nat>, setNan: Tensor<bool>): (r: Tensor<Cell>)
    requires |shape| == 3 && HasShape(cube, shape) && HasShape(setNan, shape[..2])
    ensures HasShape(r, shape)
  {
    Build(shape, (idx: seq<nat>) requires InBounds(idx, shape) =>
      if At(setNan, shape[..2], idx[..2]) then None else At(cube, shape, idx))
  }

  /** A pixel whose `set_nan` entry holds is NaN in every band; every other element is the input's. */
  lemma BlankAt(cube: Tensor<Cell>, shape: seq<nat>, setNan: Tensor<bool>, i: nat, j: nat, b: nat)
    requires |shape| == 3 && HasShape(cube, shape) && HasShape(setNan, shape[..2])
    requires InBounds([i, j, b], shape)
    ensures InBounds([i, j], shape[..2])
    ensures At(Blank(cube, shape, setNan), shape, [i, j, b]) ==
      if At(setNan, shape[..2], [i, j]) then None else At(cube, shape, [i, j, b])
  {
    var f := (idx: seq<nat>) requires InBounds(idx, shape) =>
      if At(setNan, shape[..2], idx[..2]) then None else At(cube, shape, idx);
    AtBuild(shape, f, [i, j, b]);
    assert [i, j, b][..2] == [i, j];
  }

  /** Pixel (i, j) of a (y, x, band) numpy buffer: its band values. */
  function PixelOf(a: array3<Cell>, i: nat, j: nat): (t: Tensor<Cell>)
    requires i < a.Length0 && j < a.Length1
    reads a
    ensures HasShape(t, [a.Length2])
  {
    Axis(seq(a.Length2, b reads a requires 0 <= b < a.Length2 => Scalar(a[i, j, b])))
  }

  /** Row i of a (y, x, band) numpy buffer. */
  function RowOf(a: array3<Cell>, i: nat): (t: Tensor<Cell>)
    requires i < a.Length0
    reads a
    ensures HasShape(t, [a.Length1, a.Length2])
  {
    var t := Axis(seq(a.Length1, j reads a requires 0 <= j < a.Length1 => PixelOf(a, i, j)));
    assert [a.Length1, a.Length2][1..] == [a.Length2];
    t
  }

  /** The array value a (y, x, band) numpy buffer holds. */
  function Contents(a: array3<Cell>): (t: Tensor<Cell>)
    reads a
    ensures HasShape(t, [a.Length0, a.Length1, a.Length2])
  {
    var t := Axis(seq(a.Length0, i reads a requires 0 <= i < a.Length0 => RowOf(a, i)));
    assert [a.Length0, a.Length1, a.Length2][1..] == [a.Length1, a.Length2];
    t
  }

  lemma ContentsAt(a: array3<Cell>, i: nat, j: nat, b: nat)
    requires i < a.Length0 && j < a.Length1 && b < a.Length2
    ensures InBounds([i, j, b], [a.Length0, a.Length1, a.Length2])
    ensures At(Contents(a), [a.Length0, a.Length1, a.Length2], [i, j, b]) == a[i, j, b]
  {
    var shape := [a.Length0, a.Length1, a.Length2];
    assert [i, j, b][1..] == [j, b] && [j, b][1..] == [b] && [b][1..] == [];
    assert shape[1..] == [a.Length1, a.Length2] && shape[1..][1..] == [a.Length2];
    assert Contents(a).items[i] == RowOf(a, i);
    assert RowOf(a, i).items[j] == PixelOf(a, i, j);
    assert At(Contents(a), shape, [i, j, b]) == At(RowOf(a, i), shape[1..], [j, b]);
    assert At(RowOf(a, i), shape[1..], [j, b]) == At(PixelOf(a, i, j), shape[1..][1..], [b]);
    assert PixelOf(a, i, j).items[b] == Scalar(a[i, j, b]);
    assert At(PixelOf(a, i, j), shape[1..][1..], [b]) == At(Scalar(a[i, j, b]), [], []);
  }

  /** A buffer that holds `t` element by element holds the array value `t`. */
  lemma ContentsFromElements(a: array3<Cell>, t: Tensor<Cell>)
    requires HasShape(t, [a.Length0, a.Length1, a.Length2])
    requires forall i, j, b :: 0 <= i < a.Length0 && 0 <= j < a.Length1 && 0 <= b < a.Length2 ==>
      a[i, j, b] == At(t, [a.Length0, a.Length1, a.Length2], [i, j, b])
    ensures Contents(a) == t
  {
    var shape := [a.Length0, a.Length1, a.Length2];
    forall idx | InBounds(idx, shape) ensures At(Contents(a), shape, idx) == At(t, shape, idx) {
      ContentsAt(a, idx[0], idx[1], idx[2]);
      assert idx == [idx[0], idx[1], idx[2]];
    }
    Extensionality(Contents(a), t, shape);
  }

  /** Element (i, j, b) of a (y, x, band) array value. */
  function Elem(t: Tensor<Cell>, shape: seq<nat>, i: nat, j: nat, b: nat): Cell
    requires |shape| == 3 && HasShape(t, shape) && i < shape[0] && j < shape[1] && b < shape[2]
  {
    assert InBounds([i, j, b], shape);
    At(t, shape, [i, j, b])
  }

  /** A fresh numpy buffer holding the array value `t` of shape `shape`. */
  method Materialise(t: Tensor<Cell>, shape: seq<nat>) returns (a: array3<Cell>)
    requires |shape| == 3 && HasShape(t, shape)
    ensures fresh(a) && a.Length0 == shape[0] && a.Length1 == shape[1] && a.Length2 == shape[2]
    ensures forall i, j, b :: 0 <= i < shape[0] && 0 <= j < shape[1] && 0 <= b < shape[2] ==>
      a[i, j, b] == Elem(t, shape, i, j, b)
  {
    a := new Cell[shape[0], shape[1], shape[2]]((i: nat, j: nat, b: nat)
      requires i < shape[0] && j < shape[1] && b < shape[2] => Elem(t, shape, i, j, b));
  }

  /** Line 91, in place: every band of each pixel whose `set_nan` entry holds becomes NaN. */
  method SetNaN(data: array3<Cell>, setNan: Tensor<bool>)
    requires HasShape(setNan, [data.Length0, data.Length1])
    modifies data
    ensures forall i, j, b :: 0 <= i < data.Length0 && 0 <= j < data.Length1 && 0 <= b < data.Length2 ==>
      data[i, j, b] == if At(setNan, [data.Length0, data.Length1], [i, j]) then None else old(data[i, j, b])
  {
    forall i, j, b | 0 <= i < data.Length0 && 0 <= j < data.Length1 && 0 <= b < data.Length2
      && At(setNan, [data.Length0, data.Length1], [i, j])
    {
      data[i, j, b] := None;
    }
  }

  // ---------------------------------------------------------------------
  // The composite and its wrapping

  /**
    Lines 65-91 once the input is normalised: validate `where`, run the
    solver (lazily, after the rechunk decision, for a dask stack) and blank
    the pixels `where` excludes. The result is a (y, x, band) array.
   */
  function Composite(n: Normalised, where: Option<Mask>, solve: Solver): (r: Result<Array, Exception>)
    requires ValidNormalised(n) && ReducesTime(solve) && (where.Some? ==> ValidArray(where.value))
    ensures r.Success? ==> ValidArray(r.value) && r.value.shape == n.data.shape[..3]
  {
    var x := n.data;
    var isDask := x.chunks.Some?;
    if where.Some? && isDask then
      Failure(NotImplementedError("Dask version doesn't support output masking currently"))
    else if where.Some? && where.value.shape != x.shape[..2] then
      Failure(ValueError("Shape for `where` parameter doesn't match"))
    else
      var shape := x.shape[..3];
      var solved := solve(x.data);
      if isDask then Success(NdArray(shape, solved, Some(RechunkPlan(x.shape, x.chunks.value)[..3])))
      else if where.Some? then
        assert shape[..2] == x.shape[..2];
        Success(NdArray(shape, Blank(solved, shape, Invert(where.value)), None))
      else Success(NdArray(shape, solved, None))
  }

  /** The coordinate xarray makes up for a dimension that has none: 0, 1, ..., size - 1. */
  function RangeCoord(size: nat): (c: seq<Value>)
    ensures |c| == size && forall i :: 0 <= i < size ==> c[i] == Number(i as real)
  {
    seq(size, i requires 0 <= i < size => Number(i as real))
  }

  /** Lines 96-98: the result labelled with the input's first three dimensions and their coordinates. */
  function OutArray(xx: DataArray, data: Array): (out: DataArray)
    requires |xx.dims| == 4 && ValidArray(xx.arr) && |xx.arr.shape| == 4
    ensures out.dims == xx.dims[..3] && out.arr == data && out.attrs == map[]
  {
    var dims := xx.dims[..3];
    var cc := map d | d in dims ::
      if d in xx.coords then xx.coords[d] else RangeCoord(xx.arr.shape[IndexOf(xx.dims, d)]);
    DataArray(dims, data, cc, map[])
  }

  /** Band `k` of a (y, x, band) array value. */
  function BandSlice(cube: Tensor<Cell>, shape: seq<nat>, k: nat): (t: Tensor<Cell>)
    requires |shape| == 3 && HasShape(cube, shape) && k < shape[2]
    ensures HasShape(t, shape[..2])
  {
    Build(shape[..2], (idx: seq<nat>) requires InBounds(idx, shape[..2]) =>
      assert InBounds(idx + [k], shape) by {
        assert forall m :: 0 <= m < 2 ==> (idx + [k])[m] == idx[m];
      }
      At(cube, shape, idx + [k]))
  }

  lemma BandSliceAt(cube: Tensor<Cell>, shape: seq<nat>, k: nat, i: nat, j: nat)
    requires |shape| == 3 && HasShape(cube, shape) && k < shape[2]
    requires i < shape[0] && j < shape[1]
    ensures InBounds([i, j], shape[..2]) && InBounds([i, j, k], shape)
    ensures At(BandSlice(cube, shape, k), shape[..2], [i, j]) == At(cube, shape, [i, j, k])
  {
    var f := (idx: seq<nat>) requires InBounds(idx, shape[..2]) =>
      assert InBounds(idx + [k], shape) by {
        assert forall m :: 0 <= m < 2 ==> (idx + [k])[m] == idx[m];
      }
      At(cube, shape, idx + [k]);
    AtBuild(shape[..2], f, [i, j]);
    assert [i, j] + [k] == [i, j, k];
  }

  /**
    `xx_out.to_dataset(dim='band')`: one variable per band label, each the
    (y, x) slice of that band with no attributes; the band coordinate is dropped.
   */
  function ToDatasetByBand(xx: DataArray, names: seq<string>): (ds: Dataset)
    requires |xx.dims| == 3 && Distinct(xx.dims[..2])
    requires ValidArray(xx.arr) && |xx.arr.shape| == 3 && xx.arr.shape[2] == |names| && Distinct(names)
    ensures ValidDataset(ds) && ds.names == names
    ensures forall b :: b in ds.vars ==>
      ds.vars[b] == Variable(xx.dims[..2], xx.arr.shape[..2], BandSlice(xx.arr.data, xx.arr.shape, IndexOf(names, b)), map[])
  {
    var shape := xx.arr.shape;
    var sizes := map[xx.dims[0] := shape[0], xx.dims[1] := shape[1]];
    var ds := Dataset(
      names,
      map b | b in names :: BandVariable(xx, IndexOf(names, b)),
      sizes,
      xx.coords - {"band"},
      if xx.arr.chunks.Some? then Some(map[xx.dims[0] := xx.arr.chunks.value[0], xx.dims[1] := xx.arr.chunks.value[1]])
      else None,
      xx.attrs);
    ds
  }

  /** The variable `to_dataset` makes of band `k`: its (y, x) slice, without attributes. */
  function BandVariable(xx: DataArray, k: nat): (v: Variable)
    requires |xx.dims| == 3 && Distinct(xx.dims[..2])
    requires ValidArray(xx.arr) && |xx.arr.shape| == 3 && k < xx.arr.shape[2]
    ensures ValidVariable(v, map[xx.dims[0] := xx.arr.shape[0], xx.dims[1] := xx.arr.shape[1]])
  {
    assert xx.dims[..2][0] != xx.dims[..2][1];
    Variable(xx.dims[..2], xx.arr.shape[..2], BandSlice(xx.arr.data, xx.arr.shape, k), map[])
  }

  /** One pass of lines 106-107: band `b` of `out` gets the attributes of band `b` of `src`. */
  function CopyAttrs(out: Dataset, src: Dataset, b: string): (r: Dataset)
    requires b in out.vars && b in src.vars
    ensures r.vars.Keys == out.vars.Keys
  {
    out.(vars := out.vars[b := out.vars[b].(attrs := out.vars[b].attrs + src.vars[b].attrs)])
  }

  /** Lines 105-107 over the bands `names`, in order. */
  function CopyBandAttrs(out: Dataset, src: Dataset, names: seq<string>): (r: Dataset)
    requires forall b :: b in names ==> b in out.vars && b in src.vars
    ensures r.vars.Keys == out.vars.Keys
    decreases |names|
  {
    if |names| == 0 then out
    else CopyAttrs(CopyBandAttrs(out, src, names[..|names| - 1]), src, names[|names| - 1])
  }

  /** The loop changes only the variables of the Dataset, and none of their names. */
  lemma {:induction false} CopyBandAttrsFrame(out: Dataset, src: Dataset, names: seq<string>)
    requires forall b :: b in names ==> b in out.vars && b in src.vars
    ensures CopyBandAttrs(out, src, names) == out.(vars := CopyBandAttrs(out, src, names).vars)
    decreases |names|
  {
    if |names| > 0 {
      CopyBandAttrsFrame(out, src, names[..|names| - 1]);
    }
  }

  /** After the loop band `b` carries its own attributes overridden by the source band's when listed, and is untouched otherwise. */
  lemma {:induction false} CopyBandAttrsAt(out: Dataset, src: Dataset, names: seq<string>, b: string)
    requires forall b :: b in names ==> b in out.vars && b in src.vars
    requires b in out.vars
    ensures CopyBandAttrs(out, src, names).vars[b] ==
      if b in names then out.vars[b].(attrs := out.vars[b].attrs + src.vars[b].attrs) else out.vars[b]
    decreases |names|
  {
    if |names| > 0 {
      var init := names[..|names| - 1];
      var last := names[|names| - 1];
      assert b in names <==> b in init || b == last by {
        assert names == init + [last];
      }
      CopyBandAttrsAt(out, src, init, b);
      if b == last && b in init {
        var m := out.vars[b].attrs + src.vars[b].attrs;
        assert m + src.vars[b].attrs == m;
      }
    }
  }

  /**
    After the loop each listed band carries its own attributes overridden by
    the source band's, every other band is untouched, and nothing else of the
    Dataset changes.
   */
  lemma CopyBandAttrsEffect(out: Dataset, src: Dataset, names: seq<string>)
    requires forall b :: b in names ==> b in out.vars && b in src.vars
    ensures CopyBandAttrs(out, src, names) == out.(vars := CopyBandAttrs(out, src, names).vars)
    ensures forall b :: b in out.vars ==>
      CopyBandAttrs(out, src, names).vars[b] ==
        if b in names then out.vars[b].(attrs := out.vars[b].attrs + src.vars[b].attrs) else out.vars[b]
  {
    CopyBandAttrsFrame(out, src, names);
    forall b | b in out.vars
      ensures CopyBandAttrs(out, src, names).vars[b] ==
        if b in names then out.vars[b].(attrs := out.vars[b].attrs + src.vars[b].attrs) else out.vars[b]
    {
      CopyBandAttrsAt(out, src, names, b);
    }
  }

  /** Copying attributes keeps a Dataset well formed. */
  lemma CopyBandAttrsKeepsValid(out: Dataset, src: Dataset, names: seq<string>)
    requires ValidDataset(out) && forall b :: b in names ==> b in out.vars && b in src.vars
    ensures ValidDataset(CopyBandAttrs(out, src, names))
  {
    CopyBandAttrsEffect(out, src, names);
  }

  /** Lines 93-109: the result in the caller's container. */
  function Wrap(n: Normalised, data: Array): (out: Container)
    requires ValidNormalised(n) && ValidArray(data) && data.shape == n.data.shape[..3]
  {
    if n.xx.None? then RawArray(data)
    else
      var xx := n.xx.value;
      var xxOut := OutArray(xx, data);
      if n.ds.None? then LabeledArray(xxOut.(attrs := xxOut.attrs + xx.attrs))
      else
        var ds := n.ds.value;
        var dsOut := ToDatasetByBand(xxOut, ds.names);
        LabeledDataset(CopyBandAttrs(dsOut, ds, ds.names))
  }

  /** xr_geomedian with the median solver `solve`. */
  function Geomedian(input: Container, axis: Option<Dim>, where: Option<Mask>, solve: Solver): (r: Result<Container, Exception>)
    requires ValidContainer(input) && ReducesTime(solve) && (where.Some? ==> ValidArray(where.value))
  {
    var n :- NormInput(input, axis);
    var data :- Composite(n, where, solve);
    Success(Wrap(n, data))
  }

  /**
    Lines 66-91, statement by statement: the buffer the solver returns is
    blanked in place.
   */
  method SolveStack(n: Normalised, where: Option<Mask>, solve: Solver) returns (r: Result<Array, Exception>)
    requires ValidNormalised(n) && ReducesTime(solve) && (where.Some? ==> ValidArray(where.value))
    ensures r == Composite(n, where, solve)
  {
    var x := n.data;
    var isDask := x.chunks.Some?;
    if where.Some? {
      if isDask {
        return Failure(NotImplementedError("Dask version doesn't support output masking currently"));
      }
      if where.value.shape != x.shape[..2] {
        return Failure(ValueError("Shape for `where` parameter doesn't match"));
      }
    }
    var shape := x.shape[..3];
    var data: Array;
    if isDask {
      data := NdArray(shape, solve(x.data), Some(RechunkPlan(x.shape, x.chunks.value)[..3]));
    } else {
      data := NdArray(shape, solve(x.data), None);
    }
    if where.Some? {
      assert shape[..2] == x.shape[..2];
      var setNan := Invert(where.value);
      var buf := Materialise(data.data, shape);
      assert shape[..2] == [buf.Length0, buf.Length1];
      assert shape == [buf.Length0, buf.Length1, buf.Length2];
      label Solved:
      SetNaN(buf, setNan);
      forall i, j, b | 0 <= i < shape[0] && 0 <= j < shape[1] && 0 <= b < shape[2]
        ensures buf[i, j, b] == At(Blank(data.data, shape, setNan), shape, [i, j, b])
      {
        BlankAt(data.data, shape, setNan, i, j, b);
        assert old@Solved(buf[i, j, b]) == Elem(data.data, shape, i, j, b);
      }
      ContentsFromElements(buf, Blank(data.data, shape, setNan));
      data := data.(data := Contents(buf));
    }
    return Success(data);
  }

  /** Lines 105-107: the loop copying every source band's attributes onto the output band. */
  method CopyBandAttrsLoop(out: Dataset, src: Dataset) returns (r: Dataset)
    requires forall b :: b in src.names ==> b in out.vars && b in src.vars
    ensures r == CopyBandAttrs(out, src, src.names)
  {
    r := out;
    var k := 0;
    while k < |src.names|
      invariant 0 <= k <= |src.names|
      invariant r == CopyBandAttrs(out, src, src.names[..k])
    {
      var b := src.names[k];
      assert src.names[..k + 1][..k] == src.names[..k];
      r := r.(vars := r.vars[b := r.vars[b].(attrs := r.vars[b].attrs + src.vars[b].attrs)]);
      k := k + 1;
    }
    assert src.names[..k] == src.names;
  }

  /** xr_geomedian with the median solver `solve`. */
  method XrGeomedian(input: Container, axis: Option<Dim>, where: Option<Mask>, solve: Solver)
    returns (r: Result<Container, Exception>)
    requires ValidContainer(input) && ReducesTime(solve) && (where.Some? ==> ValidArray(where.value))
    ensures r == Geomedian(input, axis, where, solve)
  {
    var n :- NormInput(input, axis);
    var data :- SolveStack(n, where, solve);
    var out := WrapOutput(n, data);
    return Success(out);
  }

  /** Lines 93-109, statement by statement. */
  method WrapOutput(n: Normalised, data: Array) returns (out: Container)
    requires ValidNormalised(n) && ValidArray(data) && data.shape == n.data.shape[..3]
    ensures out == Wrap(n, data)
  {
    if n.xx.None? {
      return RawArray(data);
    }
    var xx := n.xx.value;
    var xxOut := OutArray(xx, data);
    if n.ds.None? {
      return LabeledArray(xxOut.(attrs := xxOut.attrs + xx.attrs));
    }
    var ds := n.ds.value;
    var dsOut := CopyBandAttrsLoop(ToDatasetByBand(xxOut, ds.names), ds);
    return LabeledDataset(dsOut);
  }

  // ---------------------------------------------------------------------
  // Properties of xr_geomedian

  /**
    The errors xr_geomedian raises, in the order it checks: the input's
    shape, then `where` on a dask stack, then the shape of `where`. There is no
    other failure.
   */
  lemma GeomedianOutcome(input: Container, axis: Option<Dim>, where: Option<Mask>, solve: Solver)
    requires ValidContainer(input) && ReducesTime(solve) && (where.Some? ==> ValidArray(where.value))
    ensures NormInput(input, axis).Failure? ==>
      Geomedian(input, axis, where, solve) == Failure(NormInput(input, axis).error)
    ensures NormInput(input, axis).Success? && where.Some? && NormInput(input, axis).value.data.chunks.Some? ==>
      Geomedian(input, axis, where, solve) == Failure(NotImplementedError("Dask version doesn't support output masking currently"))
    ensures NormInput(input, axis).Success? && where.Some? && NormInput(input, axis).value.data.chunks.None?
            && where.value.shape != NormInput(input, axis).value.data.shape[..2] ==>
      Geomedian(input, axis, where, solve) == Failure(ValueError("Shape for `where` parameter doesn't match"))
    ensures Geomedian(input, axis, where, solve).Success? <==>
      && NormInput(input, axis).Success?
      && (where.Some? ==>
            NormInput(input, axis).value.data.chunks.None? && where.value.shape == NormInput(input, axis).value.data.shape[..2])
  {
    GeomedianSteps(input, axis, where, solve);
    if NormInput(input, axis).Success? {
      CompositeOutcome(NormInput(input, axis).value, where, solve);
    }
  }

  /** xr_geomedian fails with norm_input's error, then with the composite's, and otherwise wraps the composite. */
  lemma GeomedianSteps(input: Container, axis: Option<Dim>, where: Option<Mask>, solve: Solver)
    requires ValidContainer(input) && ReducesTime(solve) && (where.Some? ==> ValidArray(where.value))
    ensures NormInput(input, axis).Failure? ==> Geomedian(input, axis, where, solve) == Failure(NormInput(input, axis).error)
    ensures NormInput(input, axis).Success? ==>
      var n := NormInput(input, axis).value;
      && (Composite(n, where, solve).Failure? ==> Geomedian(input, axis, where, solve) == Failure(Composite(n, where, solve).error))
      && (Composite(n, where, solve).Success? ==> Geomedian(input, axis, where, solve) == Success(Wrap(n, Composite(n, where, solve).value)))
  {
  }

  /** The checks of lines 65-74, in order; once they pass the composite is computed. */
  lemma CompositeOutcome(n: Normalised, where: Option<Mask>, solve: Solver)
    requires ValidNormalised(n) && ReducesTime(solve) && (where.Some? ==> ValidArray(where.value))
    ensures where.Some? && n.data.chunks.Some? ==>
      Composite(n, where, solve) == Failure(NotImplementedError("Dask version doesn't support output masking currently"))
    ensures where.Some? && n.data.chunks.None? && where.value.shape != n.data.shape[..2] ==>
      Composite(n, where, solve) == Failure(ValueError("Shape for `where` parameter doesn't match"))
    ensures Composite(n, where, solve).Success? <==>
      where.Some? ==> n.data.chunks.None? && where.value.shape == n.data.shape[..2]
  {
  }

  /** Every check runs before the solver: whether and how the call fails does not depend on the solver. */
  lemma ValidationPrecedesSolve(input: Container, axis: Option<Dim>, where: Option<Mask>, solve1: Solver, solve2: Solver)
    requires ValidContainer(input) && ReducesTime(solve1) && ReducesTime(solve2)
    requires where.Some? ==> ValidArray(where.value)
    requires Geomedian(input, axis, where, solve1).Failure?
    ensures Geomedian(input, axis, where, solve2) == Geomedian(input, axis, where, solve1)
  {
    GeomedianOutcome(input, axis, where, solve1);
    GeomedianOutcome(input, axis, where, solve2);
  }

  /**
    With a mask, a pixel the mask excludes is NaN in every band and a pixel it
    keeps holds the solver's values; the result is a numpy array.
   */
  lemma CompositeBlanksExcludedPixels(n: Normalised, where: Option<Mask>, solve: Solver, i: nat, j: nat, b: nat)
    requires ValidNormalised(n) && ReducesTime(solve) && where.Some? && ValidArray(where.value)
    requires Composite(n, where, solve).Success?
    requires InBounds([i, j, b], n.data.shape[..3])
    ensures n.data.chunks.None? && Composite(n, where, solve).value.chunks.None?
    ensures where.value.shape == n.data.shape[..2] && InBounds([i, j], where.value.shape)
    ensures HasShape(solve(n.data.data), n.data.shape[..3])
    ensures At(Composite(n, where, solve).value.data, n.data.shape[..3], [i, j, b]) ==
      if At(where.value.data, where.value.shape, [i, j]) then At(solve(n.data.data), n.data.shape[..3], [i, j, b])
      else None
  {
    var shape := n.data.shape[..3];
    assert shape[..2] == n.data.shape[..2];
    var setNan := Invert(where.value);
    BlankAt(solve(n.data.data), shape, setNan, i, j, b);
  }

  /** Without a mask the result is exactly the solver's output. */
  lemma CompositeUnmasked(n: Normalised, solve: Solver)
    requires ValidNormalised(n) && ReducesTime(solve)
    ensures Composite(n, None, solve).Success?
    ensures Composite(n, None, solve).value.data == solve(n.data.data)
    ensures Composite(n, None, solve).value.shape == n.data.shape[..3]
  {
  }

  /**
    A dask stack gives a dask result chunked like the input in space, with
    the bands in one chunk; a numpy stack gives a numpy result.
   */
  lemma CompositeChunks(n: Normalised, where: Option<Mask>, solve: Solver)
    requires ValidNormalised(n) && ReducesTime(solve) && (where.Some? ==> ValidArray(where.value))
    requires Composite(n, where, solve).Success?
    ensures n.data.chunks.None? ==> Composite(n, where, solve).value.chunks.None?
    ensures n.data.chunks.Some? ==>
      where.None? &&
      Composite(n, where, solve).value.chunks ==
        Some([n.data.chunks.value[0], n.data.chunks.value[1], n.data.shape[2]])
  {
    if n.data.chunks.Some? {
      RechunkPlanKeepsSpatialChunks(n.data.shape, n.data.chunks.value);
      var plan := RechunkPlan(n.data.shape, n.data.chunks.value);
      assert plan[..3] == [plan[..2][0], plan[..2][1], plan[2]];
    }
  }

  /** A raw array comes back as a raw (y, x, band) array. */
  lemma RawInRawOut(a: Array, axis: Option<Dim>, where: Option<Mask>, solve: Solver)
    requires ValidArray(a) && ReducesTime(solve) && (where.Some? ==> ValidArray(where.value))
    requires Geomedian(RawArray(a), axis, where, solve).Success?
    ensures |a.shape| == 4
    ensures Geomedian(RawArray(a), axis, where, solve).value.RawArray?
    ensures Geomedian(RawArray(a), axis, where, solve).value.raw.shape == a.shape[..3]
    ensures Geomedian(RawArray(a), axis, where, solve).value.raw
         == Composite(Normalised(None, None, a), where, solve).value
  {
  }

  /**
    A DataArray comes back as a DataArray over its first three dimensions,
    with the input's coordinates along them (0, 1, ... where it has none)
    and the input's attributes.
   */
  lemma DataArrayKeepsLabels(xx: DataArray, axis: Option<Dim>, where: Option<Mask>, solve: Solver)
    requires ValidDataArray(xx) && ReducesTime(solve) && (where.Some? ==> ValidArray(where.value))
    requires Geomedian(LabeledArray(xx), axis, where, solve).Success?
    ensures |xx.dims| == 4
    ensures
      var out := Geomedian(LabeledArray(xx), axis, where, solve).value;
      && out.LabeledArray?
      && out.da.dims == xx.dims[..3]
      && out.da.attrs == xx.attrs
      && out.da.arr.shape == xx.arr.shape[..3]
      && out.da.coords.Keys == set d | d in xx.dims[..3]
      && (forall k :: 0 <= k < 3 && xx.dims[k] in xx.coords ==> out.da.coords[xx.dims[k]] == xx.coords[xx.dims[k]])
      && (forall k :: 0 <= k < 3 && xx.dims[k] !in xx.coords ==> out.da.coords[xx.dims[k]] == RangeCoord(xx.arr.shape[k]))
  {
    NormInputChecks(LabeledArray(xx), axis);
    var n := Normalised(None, Some(xx), xx.arr);
    GeomedianSteps(LabeledArray(xx), axis, where, solve);
    var data := Composite(n, where, solve).value;
    var out := OutArray(xx, data);
    assert Geomedian(LabeledArray(xx), axis, where, solve).value == LabeledArray(out.(attrs := out.attrs + xx.attrs));
    assert out.attrs + xx.attrs == xx.attrs;
    OutArrayLabels(xx, data);
  }

  /**
    Lines 96-98: the output is labelled with the input's first three
    dimensions, each with the input's coordinate or, where it has none, 0, 1, ...
   */
  lemma OutArrayLabels(xx: DataArray, data: Array)
    requires ValidDataArray(xx) && |xx.dims| == 4
    ensures
      var out := OutArray(xx, data);
      && out.coords.Keys == set d | d in xx.dims[..3]
      && (forall k :: 0 <= k < 3 && xx.dims[k] in xx.coords ==> out.coords[xx.dims[k]] == xx.coords[xx.dims[k]])
      && (forall k :: 0 <= k < 3 && xx.dims[k] !in xx.coords ==> out.coords[xx.dims[k]] == RangeCoord(xx.arr.shape[k]))
  {
    forall k | 0 <= k < 3 ensures IndexOf(xx.dims, xx.dims[k]) == k {
      var m := IndexOf(xx.dims, xx.dims[k]);
      assert m == k;
    }
  }

  /** The Dataset branch of the wrapping: the bands of the result are the output bands with the source attributes. */
  lemma WrapDatasetBranch(n: Normalised, data: Array)
    requires ValidNormalised(n) && ValidArray(data) && data.shape == n.data.shape[..3] && n.ds.Some?
    ensures
      var ds := n.ds.value;
      var start := ToDatasetByBand(OutArray(n.xx.value, data), ds.names);
      && Wrap(n, data) == LabeledDataset(CopyBandAttrs(start, ds, ds.names))
      && ValidDataset(Wrap(n, data).ds)
      && Wrap(n, data).ds.names == ds.names
      && forall c :: c in ds.vars ==>
           c in start.vars && Wrap(n, data).ds.vars[c] == start.vars[c].(attrs := ds.vars[c].attrs)
  {
    var ds := n.ds.value;
    var start := ToDatasetByBand(OutArray(n.xx.value, data), ds.names);
    assert Wrap(n, data) == LabeledDataset(CopyBandAttrs(start, ds, ds.names));
    CopyOntoBareBands(start, ds);
  }

  /** Copying the source attributes onto bands that have none gives each band exactly the source band's attributes. */
  lemma CopyOntoBareBands(start: Dataset, ds: Dataset)
    requires ValidDataset(start) && ValidDataset(ds) && start.names == ds.names
    requires forall c :: c in start.vars ==> start.vars[c].attrs == map[]
    ensures ValidDataset(CopyBandAttrs(start, ds, ds.names))
    ensures CopyBandAttrs(start, ds, ds.names).names == ds.names
    ensures forall c :: c in ds.vars ==>
      c in start.vars && CopyBandAttrs(start, ds, ds.names).vars[c] == start.vars[c].(attrs := ds.vars[c].attrs)
  {
    assert forall c :: c in ds.names ==> c in start.vars && c in ds.vars;
    CopyBandAttrsFrame(start, ds, ds.names);
    CopyBandAttrsKeepsValid(start, ds, ds.names);
    forall c | c in ds.vars
      ensures c in start.vars && CopyBandAttrs(start, ds, ds.names).vars[c] == start.vars[c].(attrs := ds.vars[c].attrs)
    {
      assert c in ds.names;
      CopyOntoBareBand(start, ds, ds.names, c);
    }
  }

  /** One band of `CopyOntoBareBands`. */
  lemma CopyOntoBareBand(start: Dataset, ds: Dataset, names: seq<string>, c: string)
    requires forall c :: c in names ==> c in start.vars && c in ds.vars
    requires c in names && start.vars[c].attrs == map[]
    ensures CopyBandAttrs(start, ds, names).vars[c] == start.vars[c].(attrs := ds.vars[c].attrs)
  {
    CopyBandAttrsAt(start, ds, names, c);
    var v := start.vars[c];
    assert v.attrs + ds.vars[c].attrs == ds.vars[c].attrs;
  }

  /** The Dataset branch of the wrapping, band by band. */
  lemma WrapSplitsBands(n: Normalised, data: Array, b: string, i: nat, j: nat)
    requires ValidNormalised(n) && ValidArray(data) && data.shape == n.data.shape[..3]
    requires n.ds.Some? && b in n.ds.value.vars
    ensures
      var ds := n.ds.value;
      var out := Wrap(n, data);
      && out.LabeledDataset?
      && ValidDataset(out.ds)
      && out.ds.names == ds.names
      && b in out.ds.vars
      && out.ds.vars[b].attrs == ds.vars[b].attrs
      && out.ds.vars[b].dims == n.xx.value.dims[..2]
      && out.ds.vars[b].shape == data.shape[..2]
      && (i < data.shape[0] && j < data.shape[1] ==>
            InBounds([i, j], data.shape[..2]) && InBounds([i, j, IndexOf(ds.names, b)], data.shape)
            && At(out.ds.vars[b].data, data.shape[..2], [i, j]) == At(data.data, data.shape, [i, j, IndexOf(ds.names, b)]))
  {
    WrapDatasetBranch(n, data);
    var ds := n.ds.value;
    var xxOut := OutArray(n.xx.value, data);
    var start := ToDatasetByBand(xxOut, ds.names);
    var k := IndexOf(ds.names, b);
    assert start.vars[b] == Variable(n.xx.value.dims[..3][..2], data.shape[..2], BandSlice(data.data, data.shape, k), map[]);
    assert n.xx.value.dims[..3][..2] == n.xx.value.dims[..2];
    if i < data.shape[0] && j < data.shape[1] {
      BandSliceAt(data.data, data.shape, k, i, j);
    }
  }

  /**
    A Dataset comes back as a Dataset with the same bands in the same order:
    each band is the (y, x) slice of the result for that band, over the two
    non-reduced dimensions, and carries its source band's attributes.
   */
  lemma DatasetKeepsBands(ds: Dataset, axis: Option<Dim>, where: Option<Mask>, solve: Solver, b: string, i: nat, j: nat)
    requires ValidDataset(ds) && ReducesTime(solve) && (where.Some? ==> ValidArray(where.value))
    requires Geomedian(LabeledDataset(ds), axis, where, solve).Success?
    requires b in ds.vars
    ensures NormInput(LabeledDataset(ds), axis).Success?
    ensures
      var n := NormInput(LabeledDataset(ds), axis).value;
      var out := Geomedian(LabeledDataset(ds), axis, where, solve).value;
      var data := Composite(n, where, solve).value;
      && out.LabeledDataset?
      && ValidDataset(out.ds)
      && out.ds.names == ds.names
      && b in out.ds.vars
      && out.ds.vars[b].attrs == ds.vars[b].attrs
      && out.ds.vars[b].dims == n.xx.value.dims[..2]
      && out.ds.vars[b].shape == data.shape[..2]
      && (i < data.shape[0] && j < data.shape[1] ==>
            InBounds([i, j], data.shape[..2]) && InBounds([i, j, IndexOf(ds.names, b)], data.shape)
            && At(out.ds.vars[b].data, data.shape[..2], [i, j]) == At(data.data, data.shape, [i, j, IndexOf(ds.names, b)]))
  {
    var n := NormInput(LabeledDataset(ds), axis).value;
    var data := Composite(n, where, solve).value;
    WrapSplitsBands(n, data, b, i, j);
  }

  // ---------------------------------------------------------------------
  // Line 91 as written

  /**
    xr_geomedian as written: line 91 uses `np`, which the module never
    imports, so every call that reaches the mask overwrite raises NameError.
   */
  function GeomedianAsWritten(input: Container, axis: Option<Dim>, where: Option<Mask>, solve: Solver): (r: Result<Container, Exception>)
    requires ValidContainer(input) && ReducesTime(solve) && (where.Some? ==> ValidArray(where.value))
  {
    var n :- NormInput(input, axis);
    var data :- Composite(n, where, solve);
    if where.Some? then Failure(NameError("np")) else Success(Wrap(n, data))
  }

  /**
    As written, a mask that passes every check never yields a result: the
    call raises NameError where the intended code returns the masked composite.
   */
  lemma MaskRaisesNameErrorAsWritten(input: Container, axis: Option<Dim>, where: Option<Mask>, solve: Solver)
    requires ValidContainer(input) && ReducesTime(solve) && where.Some? && ValidArray(where.value)
    requires Geomedian(input, axis, where, solve).Success?
    ensures GeomedianAsWritten(input, axis, where, solve) == Failure(NameError("np"))
    ensures GeomedianAsWritten(input, axis, where, solve) != Geomedian(input, axis, where, solve)
  {
  }

  /** Without a mask the code as written and the intended code agree. */
  lemma AsWrittenAgreesWithoutMask(input: Container, axis: Option<Dim>, solve: Solver)
    requires ValidContainer(input) && ReducesTime(solve)
    ensures GeomedianAsWritten(input, axis, None, solve) == Geomedian(input, axis, None, solve)
  {
  }
}

/**
  The labelled-array values the modelled code passes around: numpy / dask
  arrays, xarray DataArrays and Datasets. Only what the modelled code reads
  or writes is kept: dimension names, shapes, element values, chunk sizes,
  coordinates along each dimension and attribute dictionaries.
 */
module Labeled {
  import opened Wrappers
  import opened Tensors

  type Dim = string

  /** One array element: `Some(v)` for a number, `None` for NaN (missing). */
  type Cell = Option<real>

  /** A value stored in an attribute dictionary or a coordinate. */
  datatype Value = NoneValue | Number(number: real) | Text(text: string)

  type Attrs = map<string, Value>

  /**
    A numpy array (`chunks == None`) or a dask array whose blocks have
    `chunks[k]` elements along axis k (dask's `chunksize`). The elements of a
    dask array are those it computes to.
   */
  datatype NdArray<T> = NdArray(shape: seq<nat>, data: Tensor<T>, chunks: Option<seq<nat>>)

  type Array = NdArray<Cell>

  predicate ValidArray<T>(a: NdArray<T>) {
    && HasShape(a.data, a.shape)
    && (a.chunks.Some? ==> |a.chunks.value| == |a.shape|)
  }

  predicate Distinct<T(==)>(s: seq<T>) {
    forall i, j :: 0 <= i < j < |s| ==> s[i] != s[j]
  }

  /** xarray.DataArray: an array with a name per axis, coordinates and attributes. */
  datatype DataArray = DataArray(dims: seq<Dim>, arr: Array, coords: map<Dim, seq<Value>>, attrs: Attrs)

  predicate ValidDataArray(xx: DataArray) {
    && ValidArray(xx.arr)
    && |xx.dims| == |xx.arr.shape|
    && Distinct(xx.dims)
  }

  /** A data variable of a Dataset. */
  datatype Variable = Variable(dims: seq<Dim>, shape: seq<nat>, data: Tensor<Cell>, attrs: Attrs)

  /**
    xarray.Dataset: data variables `vars` in insertion order `names`; `sizes`
    is the length of each dimension (one length per name across the whole
    Dataset); `chunks` the dask chunk size per dimension when dask-backed.
   */
  datatype Dataset = Dataset(
    names: seq<string>,
    vars: map<string, Variable>,
    sizes: map<Dim, nat>,
    coords: map<Dim, seq<Value>>,
    chunks: Option<map<Dim, nat>>,
    attrs: Attrs)

  predicate ValidVariable(v: Variable, sizes: map<Dim, nat>) {
    && |v.shape| == |v.dims|
    && Distinct(v.dims)
    && HasShape(v.data, v.shape)
    && forall k :: 0 <= k < |v.dims| ==> v.dims[k] in sizes && v.shape[k] == sizes[v.dims[k]]
  }

  predicate ValidDataset(ds: Dataset) {
    && Distinct(ds.names)
    && ds.vars.Keys == (set b | b in ds.names)
    && (forall b :: b in ds.vars ==> ValidVariable(ds.vars[b], ds.sizes))
    && (ds.chunks.Some? ==> ds.sizes.Keys <= ds.chunks.value.Keys)
  }

  /** Appending a name not yet present keeps the names distinct. */
  lemma AppendFresh<T>(s: seq<T>, x: T)
    requires Distinct(s) && x !in s
    ensures Distinct(s + [x]) && (set y | y in s + [x]) == (set y | y in s) + {x}
  {
    var t := s + [x];
    forall i, j | 0 <= i < j < |t| ensures t[i] != t[j] {
      if j == |s| {
        assert t[i] == s[i];
      }
    }
  }

  /** The position of `x` in `s`. */
  function IndexOf<T(==)>(s: seq<T>, x: T): (k: nat)
    requires x in s
    ensures k < |s| && s[k] == x
    ensures forall j :: 0 <= j < k ==> s[j] != x
  {
    if s[0] == x then 0 else 1 + IndexOf(s[1..], x)
  }

  /** Element-wise `where`: keep an element where `keep` holds, NaN elsewhere. */
  function Where(t: Tensor<Cell>, keep: Tensor<bool>, shape: seq<nat>): (r: Tensor<Cell>)
    requires HasShape(t, shape) && HasShape(keep, shape)
    ensures HasShape(r, shape)
    ensures forall idx :: InBounds(idx, shape) ==>
      At(r, shape, idx) == if At(keep, shape, idx) then At(t, shape, idx) else None
  {
    var f := (idx: seq<nat>) requires InBounds(idx, shape) =>
      if At(keep, shape, idx) then At(t, shape, idx) else None;
    var r := Build(shape, f);
    assert forall idx :: InBounds(idx, shape) ==> At(r, shape, idx) == f(idx) by {
      forall idx | InBounds(idx, shape) ensures At(r, shape, idx) == f(idx) {
        AtBuild(shape, f, idx);
      }
    }
    r
  }
}

/**
  N-dimensional arrays as nested values. A `Tensor<T>` of rank n is a
  scalar (n = 0) or an axis holding tensors of rank n - 1; `HasShape` says
  that it is regular and of the given shape, `At` reads one element and
  `Build` makes the array whose elements are given by a function of the index.
 */
module Tensors {

  datatype Tensor<T> = Scalar(value: T) | Axis(items: seq<Tensor<T>>)

  /** `idx` addresses one element of an array of shape `shape`. */
  predicate InBounds(idx: seq<nat>, shape: seq<nat>) {
    |idx| == |shape| && forall k :: 0 <= k < |idx| ==> idx[k] < shape[k]
  }

  /** `t` is a regular array whose axes have the lengths listed in `shape`. */
  predicate HasShape<T>(t: Tensor<T>, shape: seq<nat>)
    decreases t
  {
    if |shape| == 0 then t.Scalar?
    else
      && t.Axis?
      && |t.items| == shape[0]
      && forall i :: 0 <= i < |t.items| ==> HasShape(t.items[i], shape[1..])
  }

  /** The element of `t` at `idx`. */
  function At<T>(t: Tensor<T>, shape: seq<nat>, idx: seq<nat>): T
    requires HasShape(t, shape) && InBounds(idx, shape)
    decreases |idx|
  {
    if |idx| == 0 then t.value
    else At(t.items[idx[0]], shape[1..], idx[1..])
  }

  /** `f` with its first index fixed to `i`. */
  function Curry<T>(f: seq<nat> --> T, i: nat): seq<nat> --> T {
    (idx: seq<nat>) requires f.requires([i] + idx) => f([i] + idx)
  }

  lemma ConsInBounds(i: nat, idx: seq<nat>, shape: seq<nat>)
    requires |shape| > 0 && i < shape[0] && InBounds(idx, shape[1..])
    ensures InBounds([i] + idx, shape)
  {
    forall k | 0 <= k < |[i] + idx| ensures ([i] + idx)[k] < shape[k] {
      if k > 0 {
        assert ([i] + idx)[k] == idx[k - 1];
      }
    }
  }

  /** The array of shape `shape` whose element at every index `idx` is `f(idx)`. */
  function Build<T>(shape: seq<nat>, f: seq<nat> --> T): (t: Tensor<T>)
    requires forall idx :: InBounds(idx, shape) ==> f.requires(idx)
    ensures HasShape(t, shape)
    decreases |shape|
  {
    if |shape| == 0 then
      assert InBounds([], shape);
      Scalar(f([]))
    else
      Axis(seq(shape[0], i requires 0 <= i < shape[0] =>
        assert forall idx :: InBounds(idx, shape[1..]) ==> Curry(f, i).requires(idx) by {
          forall idx | InBounds(idx, shape[1..]) ensures Curry(f, i).requires(idx) {
            ConsInBounds(i, idx, shape);
          }
        }
        Build(shape[1..], Curry(f, i))))
  }

  lemma {:induction false} AtBuild<T>(shape: seq<nat>, f: seq<nat> --> T, idx: seq<nat>)
    requires forall idx :: InBounds(idx, shape) ==> f.requires(idx)
    requires InBounds(idx, shape)
    ensures At(Build(shape, f), shape, idx) == f(idx)
    decreases |shape|
  {
    if |shape| > 0 {
      var i := idx[0];
      assert [i] + idx[1..] == idx;
      forall idx' | InBounds(idx', shape[1..]) ensures Curry(f, i).requires(idx') {
        ConsInBounds(i, idx', shape);
      }
      AtBuild(shape[1..], Curry(f, i), idx[1..]);
    }
  }

  /** Two arrays of one shape that agree at every index are equal. */
  lemma {:induction false} Extensionality<T>(a: Tensor<T>, b: Tensor<T>, shape: seq<nat>)
    requires HasShape(a, shape) && HasShape(b, shape)
    requires forall idx :: InBounds(idx, shape) ==> At(a, shape, idx) == At(b, shape, idx)
    ensures a == b
    decreases |shape|
  {
    if |shape| == 0 {
      assert InBounds([], shape);
    } else {
      forall i | 0 <= i < shape[0] ensures a.items[i] == b.items[i] {
        forall idx | InBounds(idx, shape[1..])
          ensures At(a.items[i], shape[1..], idx) == At(b.items[i], shape[1..], idx)
        {
          ConsInBounds(i, idx, shape);
          assert ([i] + idx)[1..] == idx;
          assert At(a, shape, [i] + idx) == At(b, shape, [i] + idx);
        }
        Extensionality(a.items[i], b.items[i], shape[1..]);
      }
      assert a.items == b.items;
    }
  }
}

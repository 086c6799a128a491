/**
 * The part of numpy's array algebra that omnom.py relies on: wrapping an array
 * in a new outer axis (`np.array([field])`), permuting its axes
 * (`field.transpose(...)`), combining two arrays element by element, and
 * picking out a sub-array by its leading indices (`field[t][d]`).
 *
 * An array is its shape together with the element at every index tuple; the
 * element type is left open.
 */
module NdArrays {
  import opened Prelude

  /** An array with extents `shape`; `at(idx)` is its element at the index tuple `idx`. */
  datatype NdArray<T> = NdArray(shape: seq<nat>, at: seq<nat> -> T)

  /** `idx` is one of the index tuples of an array of shape `shape`. */
  predicate InBounds(idx: seq<nat>, shape: seq<nat>) {
    |idx| == |shape| && forall k :: 0 <= k < |idx| ==> idx[k] < shape[k]
  }

  function Tail(s: seq<nat>): seq<nat> {
    if |s| == 0 then [] else s[1..]
  }

  // ---------------------------------------------------------------------------
  // np.array([a])
  // ---------------------------------------------------------------------------

  /** `np.array([a])`: a new outer axis of extent 1 holding `a`. */
  function Wrap<T>(a: NdArray<T>): (r: NdArray<T>)
    ensures r.shape == [1] + a.shape
  {
    NdArray([1] + a.shape, idx => a.at(Tail(idx)))
  }

  lemma WrapAt<T>(a: NdArray<T>, idx: seq<nat>)
    requires |idx| > 0
    ensures Wrap(a).at(idx) == a.at(idx[1..])
  {
    assert Tail(idx) == idx[1..];
  }

  // ---------------------------------------------------------------------------
  // axis permutations
  // ---------------------------------------------------------------------------

  /**
   * The axes numpy's transpose accepts for an array of `rank` axes: exactly
   * `rank` of them, each a valid axis, none repeated.
   */
  predicate IsAxisPermutation(axes: seq<nat>, rank: nat) {
    && |axes| == rank
    && (forall k :: 0 <= k < rank ==> axes[k] < rank)
    && (forall j, k :: 0 <= j < k < rank ==> axes[j] != axes[k])
  }

  /** The first position of `j` in `axes`, or |axes| when it does not occur. */
  function Position(axes: seq<nat>, j: nat): (k: nat)
    ensures k <= |axes|
    ensures k < |axes| ==> axes[k] == j
    ensures forall i :: 0 <= i < k ==> axes[i] != j
    decreases |axes|
  {
    if |axes| == 0 then 0
    else if axes[0] == j then 0
    else Position(axes[1..], j) + 1
  }

  /** The inverse permutation: output position j holds the position of j in `axes`. */
  function Inverse(axes: seq<nat>): seq<nat> {
    seq(|axes|, (j: int) requires 0 <= j < |axes| => Position(axes, j))
  }

  /** The values `axes[0..n)` form a set of n elements when they are distinct. */
  lemma {:induction false} DistinctImageSize(axes: seq<nat>, n: nat)
    requires n <= |axes|
    requires forall j, k :: 0 <= j < k < n ==> axes[j] != axes[k]
    ensures |set k | 0 <= k < n :: axes[k]| == n
  {
    if n > 0 {
      DistinctImageSize(axes, n - 1);
      var front := set k | 0 <= k < n - 1 :: axes[k];
      assert (set k | 0 <= k < n :: axes[k]) == front + {axes[n - 1]};
      assert axes[n - 1] !in front;
    }
  }

  /** Pigeonhole: n distinct axes below n name every axis below n. */
  lemma PermutationCovers(axes: seq<nat>, n: nat)
    requires IsAxisPermutation(axes, n)
    ensures forall j :: 0 <= j < n ==> Position(axes, j) < n
  {
    var image := set k | 0 <= k < n :: axes[k];
    var range := Range(n);
    var all := set k | 0 <= k < n :: range[k];
    DistinctImageSize(axes, n);
    DistinctImageSize(range, n);
    forall x | x in image
      ensures x in all
    {
      var k :| 0 <= k < n && axes[k] == x;
      assert range[x] == x;
    }
    forall j | 0 <= j < n
      ensures Position(axes, j) < n
    {
      if Position(axes, j) == n {
        assert range[j] == j;
        var rest := all - {j};
        assert all == rest + {j};
        assert |all| == |rest| + 1;
        assert image <= rest;
        SubsetSize(image, rest);
        assert false;
      }
    }
  }

  lemma SubsetSize(a: set<nat>, b: set<nat>)
    requires a <= b
    ensures |a| <= |b|
  {
    assert b == a + (b - a);
  }

  /** The inverse of an axis permutation is an axis permutation that undoes it, on both sides. */
  lemma InverseIsPermutation(axes: seq<nat>, n: nat)
    requires IsAxisPermutation(axes, n)
    ensures IsAxisPermutation(Inverse(axes), n)
    ensures forall j :: 0 <= j < n ==> axes[Inverse(axes)[j]] == j
    ensures forall k :: 0 <= k < n ==> Inverse(axes)[axes[k]] == k
  {
    PermutationCovers(axes, n);
    var inv := Inverse(axes);
    forall k | 0 <= k < n
      ensures inv[axes[k]] == k
    {
    }
    forall i, j | 0 <= i < j < n
      ensures inv[i] != inv[j]
    {
      assert axes[inv[i]] == i && axes[inv[j]] == j;
    }
  }

  // ---------------------------------------------------------------------------
  // a.transpose(axes)
  // ---------------------------------------------------------------------------

  /** s[axes[0]], s[axes[1]], … */
  function Gather(s: seq<nat>, axes: seq<nat>): (r: seq<nat>)
    requires forall k :: 0 <= k < |axes| ==> axes[k] < |s|
    ensures |r| == |axes| && forall k :: 0 <= k < |axes| ==> r[k] == s[axes[k]]
  {
    seq(|axes|, k requires 0 <= k < |axes| => s[axes[k]])
  }

  /** The source index tuple of the transposed element at `idx`: raw[axes[k]] = idx[k]. */
  function Scatter(idx: seq<nat>, axes: seq<nat>): seq<nat> {
    seq(|axes|, (j: int) requires 0 <= j < |axes| => var k := Position(axes, j); if k < |idx| then idx[k] else 0)
  }

  /** Scatter places idx[k] on axis axes[k]. */
  lemma ScatterAt(idx: seq<nat>, axes: seq<nat>, k: nat)
    requires IsAxisPermutation(axes, |axes|)
    requires k < |axes| && |idx| == |axes|
    ensures Scatter(idx, axes)[axes[k]] == idx[k]
  {
  }

  /**
   * `a.transpose(axes)`: output axis k is input axis axes[k]. numpy refuses
   * axes that are not a permutation of the array's axes.
   */
  function Transpose<T>(a: NdArray<T>, axes: seq<nat>): (r: Result<NdArray<T>>)
    ensures r.Ok? <==> IsAxisPermutation(axes, |a.shape|)
    ensures r.Err? ==> r.error == AxesDontMatch
    ensures r.Ok? ==> |r.value.shape| == |axes|
    ensures r.Ok? ==> forall k :: 0 <= k < |axes| ==> r.value.shape[k] == a.shape[axes[k]]
  {
    if IsAxisPermutation(axes, |a.shape|) then
      Ok(NdArray(Gather(a.shape, axes), idx => a.at(Scatter(idx, axes))))
    else
      Err(AxesDontMatch)
  }

  /**
   * The element of the transposed array at `idx` is the element of `a` at the
   * index tuple that holds idx[k] on axis axes[k], for every k.
   */
  lemma TransposeAt<T>(a: NdArray<T>, axes: seq<nat>, idx: seq<nat>, raw: seq<nat>)
    requires Transpose(a, axes).Ok?
    requires InBounds(idx, Transpose(a, axes).value.shape)
    requires |raw| == |a.shape|
    requires forall k :: 0 <= k < |axes| ==> raw[axes[k]] == idx[k]
    ensures InBounds(raw, a.shape)
    ensures Transpose(a, axes).value.at(idx) == a.at(raw)
  {
    var n := |a.shape|;
    InverseIsPermutation(axes, n);
    var inv := Inverse(axes);
    forall j | 0 <= j < n
      ensures raw[j] == idx[inv[j]] && raw[j] < a.shape[j]
    {
      assert raw[axes[inv[j]]] == idx[inv[j]];
    }
    assert Scatter(idx, axes) == raw;
  }

  /** Transposing by the inverse permutation gives back the original array. */
  lemma TransposeRoundTrip<T>(a: NdArray<T>, axes: seq<nat>)
    requires IsAxisPermutation(axes, |a.shape|)
    ensures Transpose(Transpose(a, axes).value, Inverse(axes)).Ok?
    ensures Transpose(Transpose(a, axes).value, Inverse(axes)).value.shape == a.shape
    ensures forall idx :: InBounds(idx, a.shape) ==>
              Transpose(Transpose(a, axes).value, Inverse(axes)).value.at(idx) == a.at(idx)
  {
    var n := |a.shape|;
    InverseIsPermutation(axes, n);
    var t := Transpose(a, axes).value;
    var inv := Inverse(axes);
    var b := Transpose(t, inv).value;
    forall j | 0 <= j < n
      ensures b.shape[j] == a.shape[j]
    {
      assert b.shape[j] == t.shape[inv[j]] == a.shape[axes[inv[j]]];
    }
    assert b.shape == a.shape;
    forall idx | InBounds(idx, a.shape)
      ensures b.at(idx) == a.at(idx)
    {
      var mid := Gather(idx, axes);
      forall k | 0 <= k < n
        ensures mid[inv[k]] == idx[k]
      {
      }
      TransposeAt(t, inv, idx, mid);
      TransposeAt(a, axes, mid, idx);
    }
  }

  // ---------------------------------------------------------------------------
  // element-wise operations and a[i][j]
  // ---------------------------------------------------------------------------

  /** An element-wise numpy operation on two arrays; arrays of different shapes are refused. */
  function Pointwise<T, U, V>(f: (T, U) -> V, a: NdArray<T>, b: NdArray<U>): (r: Result<NdArray<V>>)
    ensures r.Ok? <==> a.shape == b.shape
    ensures r.Err? ==> r.error == ShapeMismatch
    ensures r.Ok? ==> r.value.shape == a.shape
  {
    if a.shape == b.shape then Ok(NdArray(a.shape, idx => f(a.at(idx), b.at(idx))))
    else Err(ShapeMismatch)
  }

  lemma PointwiseAt<T, U, V>(f: (T, U) -> V, a: NdArray<T>, b: NdArray<U>, idx: seq<nat>)
    requires Pointwise(f, a, b).Ok?
    ensures Pointwise(f, a, b).value.at(idx) == f(a.at(idx), b.at(idx))
  {
  }

  /** `a[i][j]`: the sub-array at index i of axis 0 and j of axis 1. */
  function Index2<T>(a: NdArray<T>, i: nat, j: nat): (r: Result<NdArray<T>>)
    ensures r.Ok? <==> |a.shape| >= 2 && i < a.shape[0] && j < a.shape[1]
    ensures r.Err? ==> r.error == IndexOutOfRange
    ensures r.Ok? ==> r.value.shape == a.shape[2..]
  {
    if |a.shape| < 2 || i >= a.shape[0] || j >= a.shape[1] then Err(IndexOutOfRange)
    else Ok(NdArray(a.shape[2..], idx => a.at([i, j] + idx)))
  }

  lemma Index2At<T>(a: NdArray<T>, i: nat, j: nat, idx: seq<nat>)
    requires Index2(a, i, j).Ok?
    ensures Index2(a, i, j).value.at(idx) == a.at([i, j] + idx)
  {
  }
}

/** Embeddings as exact real vectors, and `np.mean(..., axis=0)` over a
    list of them: the column sums divided by the number of rows. */
module Vectors {

  type Vector = seq<real>

  /** Every vector in `vs` has `dim` components. */
  predicate HasDim(vs: seq<Vector>, dim: nat)
  {
    forall i :: 0 <= i < |vs| ==> |vs[i]| == dim
  }

  /** Component `j` of a vector, 0 where the vector is shorter. */
  function At(v: Vector, j: nat): real
  {
    if j < |v| then v[j] else 0.0
  }

  /** The sum of component `j` over the rows of `vs`. */
  function ColumnSum(vs: seq<Vector>, j: nat): real
  {
    if vs == [] then 0.0 else ColumnSum(vs[..|vs| - 1], j) + At(vs[|vs| - 1], j)
  }

  /** `np.mean(vs, axis=0)`: one component per column, each the column's
      sum divided by the number of rows. */
  function Mean(vs: seq<Vector>, dim: nat): (m: Vector)
    requires |vs| > 0 && HasDim(vs, dim)
    ensures |m| == dim
    ensures forall j :: 0 <= j < dim ==> m[j] * (|vs| as real) == ColumnSum(vs, j)
  {
    seq(dim, j requires 0 <= j < dim => ColumnSum(vs, j) / (|vs| as real))
  }

  lemma {:induction false} ColumnSumConcat(a: seq<Vector>, b: seq<Vector>, j: nat)
    ensures ColumnSum(a + b, j) == ColumnSum(a, j) + ColumnSum(b, j)
    decreases |b|
  {
    if b != [] {
      var b' := b[..|b| - 1];
      assert (a + b)[..|a + b| - 1] == a + b';
      ColumnSumConcat(a, b', j);
    } else {
      assert a + b == a;
    }
  }

  /** The mean depends only on the number of rows and the column sums, not
      on the order or grouping of the rows. */
  lemma MeanBySums(a: seq<Vector>, b: seq<Vector>, dim: nat)
    requires |a| > 0 && HasDim(a, dim) && HasDim(b, dim) && |b| == |a|
    requires forall j :: 0 <= j < dim ==> ColumnSum(a, j) == ColumnSum(b, j)
    ensures Mean(a, dim) == Mean(b, dim)
  {
    var ma, mb := Mean(a, dim), Mean(b, dim);
    forall j | 0 <= j < dim
      ensures ma[j] == mb[j]
    {
      assert ma[j] * (|a| as real) == mb[j] * (|a| as real);
    }
  }
}

/** Sensor vectors and their column-wise mean, shared by the Java service and the Python prototype. */
module Vectors {

  type SensorVector = seq<real>

  /** Every row has at least `dim` entries. */
  predicate Covers(rows: seq<SensorVector>, dim: nat) {
    forall k :: 0 <= k < |rows| ==> dim <= |rows[k]|
  }

  /** The sum of column `i`, added row by row in order. */
  function ColumnSum(rows: seq<SensorVector>, i: nat): real
    requires Covers(rows, i + 1)
  {
    if rows == [] then 0.0 else ColumnSum(rows[..|rows| - 1], i) + rows[|rows| - 1][i]
  }

  /** The element-wise mean of the first `dim` columns. */
  function ColumnMean(rows: seq<SensorVector>, dim: nat): (m: SensorVector)
    requires rows != [] && Covers(rows, dim)
    ensures |m| == dim
  {
    seq(dim, i requires 0 <= i < dim => ColumnSum(rows, i) / |rows| as real)
  }

  /** A column whose entries all equal `x` sums to `n * x`. */
  lemma {:induction false} ColumnSumOfConstant(rows: seq<SensorVector>, i: nat, x: real)
    requires Covers(rows, i + 1)
    requires forall k :: 0 <= k < |rows| ==> rows[k][i] == x
    ensures ColumnSum(rows, i) == |rows| as real * x
    decreases |rows|
  {
    if rows != [] {
      ColumnSumOfConstant(rows[..|rows| - 1], i, x);
    }
  }

  /** A cohort of identical vectors averages to that vector (in particular a single record averages to itself). */
  lemma MeanOfIdentical(rows: seq<SensorVector>, v: SensorVector)
    requires rows != [] && forall k :: 0 <= k < |rows| ==> rows[k] == v
    ensures ColumnMean(rows, |v|) == v
  {
    forall i | 0 <= i < |v|
      ensures ColumnMean(rows, |v|)[i] == v[i]
    {
      ColumnSumOfConstant(rows, i, v[i]);
    }
  }

  /** A column bounded by `lo` and `hi` sums to between `n * lo` and `n * hi`. */
  lemma {:induction false} ColumnSumBounds(rows: seq<SensorVector>, i: nat, lo: real, hi: real)
    requires Covers(rows, i + 1)
    requires forall k :: 0 <= k < |rows| ==> lo <= rows[k][i] <= hi
    ensures |rows| as real * lo <= ColumnSum(rows, i) <= |rows| as real * hi
    decreases |rows|
  {
    if rows != [] {
      ColumnSumBounds(rows[..|rows| - 1], i, lo, hi);
    }
  }

  /** Each entry of the mean lies between the smallest and the largest value of its column. */
  lemma MeanWithinColumnBounds(rows: seq<SensorVector>, dim: nat, i: nat, lo: real, hi: real)
    requires rows != [] && Covers(rows, dim) && i < dim
    requires forall k :: 0 <= k < |rows| ==> lo <= rows[k][i] <= hi
    ensures lo <= ColumnMean(rows, dim)[i] <= hi
  {
    ColumnSumBounds(rows, i, lo, hi);
    var n := |rows| as real;
    assert n * lo <= ColumnSum(rows, i) <= n * hi;
    assert ColumnMean(rows, dim)[i] == ColumnSum(rows, i) / n;
  }
}

/** Sparse real matrices, as the scipy.sparse values the coupling code
    builds and adds. */
module LinearAlgebra {

  /** A sparse matrix: its shape and its stored entries keyed by
      (row, column); an entry that is not stored is zero. */
  datatype Mat = Mat(rows: nat, cols: nat, entries: map<(nat, nat), real>)
  {
    /** Every stored entry lies inside the shape. */
    predicate Valid()
    {
      forall k :: k in entries ==> k.0 < rows && k.1 < cols
    }

    function At(i: nat, j: nat): real
    {
      if (i, j) in entries then entries[(i, j)] else 0.0
    }

    predicate IsDiagonal()
    {
      forall k :: k in entries ==> k.0 == k.1
    }
  }

  /** `sps.coo_matrix((rows, cols))`: an all-zero matrix of that shape. */
  function Zeros(rows: nat, cols: nat): (z: Mat)
    ensures z.Valid() && z.rows == rows && z.cols == cols && z.IsDiagonal()
    ensures forall i: nat, j: nat :: z.At(i, j) == 0.0
  {
    Mat(rows, cols, map[])
  }

  /** `sps.diags(d)`: the square matrix with `d` on its diagonal. */
  function Diag(d: seq<real>): (m: Mat)
    ensures m.Valid() && m.rows == |d| && m.cols == |d| && m.IsDiagonal()
    ensures forall i :: 0 <= i < |d| ==> m.At(i, i) == d[i]
    ensures forall i: nat, j: nat :: i != j ==> m.At(i, j) == 0.0
  {
    Mat(|d|, |d|, map i: nat | i < |d| :: (i, i) := d[i])
  }

  /** The sum of two matrices of the same shape (scipy refuses other
      shapes). */
  function Add(a: Mat, b: Mat): (c: Mat)
    requires a.rows == b.rows && a.cols == b.cols
    ensures c.rows == a.rows && c.cols == a.cols
    ensures a.Valid() && b.Valid() ==> c.Valid()
    ensures forall i: nat, j: nat :: c.At(i, j) == a.At(i, j) + b.At(i, j)
  {
    Mat(a.rows, a.cols,
        map k | k in a.entries.Keys + b.entries.Keys :: a.At(k.0, k.1) + b.At(k.0, k.1))
  }

  /** The first `n` terms of row `i` of `m` times `v`. */
  function RowDot(m: Mat, i: nat, v: seq<real>, n: nat): real
    requires n <= |v|
  {
    if n == 0 then 0.0 else RowDot(m, i, v, n - 1) + m.At(i, n - 1) * v[n - 1]
  }

  /** The sum of the first `n` entries of row `i`. */
  function RowSum(m: Mat, i: nat, n: nat): real
  {
    if n == 0 then 0.0 else RowSum(m, i, n - 1) + m.At(i, n - 1)
  }

  /** The product `m * v`. */
  function MatVec(m: Mat, v: seq<real>): (r: seq<real>)
    requires m.cols == |v|
    ensures |r| == m.rows
  {
    seq(m.rows, i requires 0 <= i < m.rows => RowDot(m, i, v, |v|))
  }

  /** A row times a constant vector is that constant times the row sum; with
      an averaging row (sum 1) the product is the constant itself. */
  lemma {:induction false} RowDotConstant(m: Mat, i: nat, v: seq<real>, n: nat, c: real)
    requires n <= |v|
    requires forall j :: 0 <= j < n ==> v[j] == c
    ensures RowDot(m, i, v, n) == c * RowSum(m, i, n)
  {
    if n > 0 {
      RowDotConstant(m, i, v, n - 1, c);
    }
  }
}

/**
 * Two-dimensional NumPy arrays as values: a matrix is the sequence of its
 * rows.  A particle set is a D x N matrix (one row per state component, one
 * column per particle), as in the tracker.
 */
module Matrices {
  import opened Numeric

  type Matrix = seq<seq<real>>

  /** `m` has shape (rows, cols). */
  predicate IsMatrix(m: Matrix, rows: nat, cols: nat)
  {
    |m| == rows && forall d :: 0 <= d < |m| ==> |m[d]| == cols
  }

  /** `np.zeros((rows, cols))`. */
  function Zeros(rows: nat, cols: nat): (m: Matrix)
    ensures IsMatrix(m, rows, cols)
    ensures forall d, j :: 0 <= d < rows && 0 <= j < cols ==> m[d][j] == 0.0
  {
    seq(rows, _ => seq(cols, _ => 0.0))
  }

  /** `m[:, j]`. */
  function Column(m: Matrix, j: nat): (c: seq<real>)
    requires forall d :: 0 <= d < |m| ==> j < |m[d]|
    ensures |c| == |m|
  {
    seq(|m|, d requires 0 <= d < |m| => m[d][j])
  }

  /** Every index is a valid position in a row of length n. */
  predicate IndicesBelow(idx: seq<nat>, n: nat)
  {
    forall k :: 0 <= k < |idx| ==> idx[k] < n
  }

  /** Fancy indexing `v[idx]` of a row. */
  function Gather(v: seq<real>, idx: seq<nat>): (r: seq<real>)
    requires IndicesBelow(idx, |v|)
    ensures |r| == |idx|
  {
    seq(|idx|, k requires 0 <= k < |idx| => v[idx[k]])
  }

  /** Fancy indexing of the columns, `m[:, idx]`. */
  function GatherColumns(m: Matrix, cols: nat, idx: seq<nat>): (r: Matrix)
    requires IsMatrix(m, |m|, cols) && IndicesBelow(idx, cols)
    ensures IsMatrix(r, |m|, |idx|)
  {
    seq(|m|, d requires 0 <= d < |m| => Gather(m[d], idx))
  }

  /** Column k of the gathered matrix is column idx[k] of the original. */
  lemma GatherColumnsAt(m: Matrix, cols: nat, idx: seq<nat>, d: nat, k: nat)
    requires IsMatrix(m, |m|, cols) && IndicesBelow(idx, cols)
    requires d < |m| && k < |idx|
    ensures GatherColumns(m, cols, idx)[d][k] == m[d][idx[k]]
  {
  }

  /** `m.T`: entry (d, j) of the transpose is entry (j, d) of m. */
  function Transpose(m: Matrix, cols: nat): (t: Matrix)
    requires IsMatrix(m, |m|, cols)
    ensures IsMatrix(t, cols, |m|)
    ensures forall d, j :: 0 <= d < cols && 0 <= j < |m| ==> t[d][j] == m[j][d]
  {
    seq(cols, d requires 0 <= d < cols => Column(m, d))
  }

  /** Inner product of two rows of the same length. */
  function Dot(a: seq<real>, b: seq<real>): real
    requires |a| == |b|
  {
    Sum(Mul(a, b))
  }

  /** The inner product splits off its first term. */
  lemma DotCons(a: seq<real>, b: seq<real>)
    requires |a| == |b| && |a| > 0
    ensures Dot(a, b) == a[0] * b[0] + Dot(a[1..], b[1..])
  {
    var tail := Mul(a[1..], b[1..]);
    forall j | 0 <= j < |tail| ensures Mul(a, b)[j + 1] == tail[j] {
    }
    assert Mul(a, b)[1..] == tail;
  }

  /** `np.dot(F, x)` for a |F| x |x| matrix F and a |x| x cols matrix x. */
  function MatMul(F: Matrix, x: Matrix, cols: nat): (r: Matrix)
    requires IsMatrix(F, |F|, |x|) && IsMatrix(x, |x|, cols)
    ensures IsMatrix(r, |F|, cols)
  {
    seq(|F|, d requires 0 <= d < |F| =>
      seq(cols, j requires 0 <= j < cols => Dot(F[d], Column(x, j))))
  }

  /** Elementwise `a + b` of two matrices of the same shape. */
  function Add(a: Matrix, b: Matrix, cols: nat): (r: Matrix)
    requires IsMatrix(a, |a|, cols) && IsMatrix(b, |a|, cols)
    ensures IsMatrix(r, |a|, cols)
  {
    seq(|a|, d requires 0 <= d < |a| =>
      seq(cols, j requires 0 <= j < cols => a[d][j] + b[d][j]))
  }

  /** `np.dot(M, v)` for a matrix M and a vector v. */
  function MatVec(M: Matrix, v: seq<real>): (r: seq<real>)
    requires IsMatrix(M, |M|, |v|)
    ensures |r| == |M|
  {
    seq(|M|, d requires 0 <= d < |M| => Dot(M[d], v))
  }

  /** `np.sum(m, axis=1) / n`: the mean of every row over n columns. */
  function RowMeans(m: Matrix, n: nat): (r: seq<real>)
    requires n > 0
    ensures |r| == |m|
  {
    seq(|m|, d requires 0 <= d < |m| => Sum(m[d]) / n as real)
  }

  /** `np.eye(n)`. */
  function Identity(n: nat): (m: Matrix)
    ensures IsMatrix(m, n, n)
  {
    seq(n, d => seq(n, e => if d == e then 1.0 else 0.0))
  }

  /** `np.diag(v)`. */
  function Diag(v: seq<real>): (m: Matrix)
    ensures IsMatrix(m, |v|, |v|)
  {
    seq(|v|, d requires 0 <= d < |v| => seq(|v|, e => if d == e then v[d] else 0.0))
  }

  /** The row of length n with 1 at position i and 0 elsewhere. */
  function Unit(n: nat, i: nat): (u: seq<real>)
    ensures |u| == n
  {
    seq(n, e => if e == i then 1.0 else 0.0)
  }

  /** Multiplying by a unit row picks one entry. */
  lemma {:induction false} DotUnit(n: nat, i: nat, v: seq<real>)
    requires i < n && |v| == n
    ensures Dot(Unit(n, i), v) == v[i]
    decreases n
  {
    var p := Mul(Unit(n, i), v);
    if i == 0 {
      var zeros := p[1..];
      assert forall k :: 0 <= k < |zeros| ==> zeros[k] == 0.0;
      SumConstant(zeros, 0.0);
    } else {
      var rest := Unit(n - 1, i - 1);
      assert Mul(rest, v[1..]) == p[1..];
      DotUnit(n - 1, i - 1, v[1..]);
    }
  }

  /** A row with ones at two distinct positions adds the two entries. */
  lemma DotTwoUnits(n: nat, i: nat, j: nat, row: seq<real>, v: seq<real>)
    requires i < n && j < n && i != j && |v| == n && |row| == n
    requires forall e :: 0 <= e < n ==> row[e] == if e == i || e == j then 1.0 else 0.0
    ensures Dot(row, v) == v[i] + v[j]
  {
    var pi, pj := Mul(Unit(n, i), v), Mul(Unit(n, j), v);
    SumPointwiseAdd(pi, pj, Mul(row, v));
    DotUnit(n, i, v);
    DotUnit(n, j, v);
  }

  /** A row equal to a unit row picks that entry. */
  lemma DotOneUnit(n: nat, i: nat, row: seq<real>, v: seq<real>)
    requires i < n && |v| == n && |row| == n
    requires forall e :: 0 <= e < n ==> row[e] == if e == i then 1.0 else 0.0
    ensures Dot(row, v) == v[i]
  {
    assert row == Unit(n, i);
    DotUnit(n, i, v);
  }
}

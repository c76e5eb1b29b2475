/** Dense vectors and matrices over the reals, the part of numpy the
    statistics engine uses: dot products, matrix products, transposes,
    diagonals, fancy-index selection and scalar multiplication. */
module LinAlg {

  type Vector = seq<real>
  type Matrix = seq<seq<real>>

  /** `m` has `rows` rows of length `cols` each. */
  predicate IsMatrix(m: Matrix, rows: nat, cols: nat) {
    |m| == rows && forall i :: 0 <= i < |m| ==> |m[i]| == cols
  }

  /** Every row of `m` has length `cols`. */
  predicate RowsOfLength(m: Matrix, cols: nat) {
    forall i :: 0 <= i < |m| ==> |m[i]| == cols
  }

  /** `m` is square of size `n` and equal to its transpose. */
  predicate IsSymmetric(m: Matrix, n: nat) {
    IsMatrix(m, n, n) && forall i, j :: 0 <= i < n && 0 <= j < n ==> m[i][j] == m[j][i]
  }

  /** Every index in `idx` is a valid index below `n`. */
  predicate IndicesBelow(idx: seq<nat>, n: nat) {
    forall k :: 0 <= k < |idx| ==> idx[k] < n
  }

  function Dot(u: Vector, v: Vector): real
    requires |u| == |v|
  {
    if |u| == 0 then 0.0 else u[0] * v[0] + Dot(u[1..], v[1..])
  }

  function AddVec(u: Vector, v: Vector): Vector
    requires |u| == |v|
  {
    seq(|u|, i requires 0 <= i < |u| => u[i] + v[i])
  }

  function ScaleVec(u: Vector, a: real): Vector {
    seq(|u|, i requires 0 <= i < |u| => a * u[i])
  }

  /** numpy's elementwise product `u * v` of two equally long vectors. */
  function ElemMul(u: Vector, v: Vector): Vector
    requires |u| == |v|
  {
    seq(|u|, i requires 0 <= i < |u| => u[i] * v[i])
  }

  /** numpy's `np.add.reduce(v, 0)`. */
  function Sum(v: Vector): real {
    if |v| == 0 then 0.0 else v[0] + Sum(v[1..])
  }

  /** Python's `range(n)`. */
  function Range(n: nat): seq<nat> {
    seq(n, i requires 0 <= i < n => i)
  }

  /** The standard basis vector of length `n` with its one at `c`. */
  function Unit(n: nat, c: nat): Vector {
    seq(n, k => if k == c then 1.0 else 0.0)
  }

  /** Column `j` of `m`. */
  function Column(m: Matrix, j: nat): Vector
    requires forall i :: 0 <= i < |m| ==> j < |m[i]|
  {
    seq(|m|, i requires 0 <= i < |m| => m[i][j])
  }

  /** numpy's `np.dot(m, v)` for a 2-d `m` and a 1-d `v`. */
  function MatVec(m: Matrix, v: Vector): Vector
    requires RowsOfLength(m, |v|)
  {
    seq(|m|, i requires 0 <= i < |m| => Dot(m[i], v))
  }

  /** numpy's `np.dot(u, m)` for a 1-d `u` and a 2-d `m` with `cols` columns. */
  function VecMat(u: Vector, m: Matrix, cols: nat): Vector
    requires IsMatrix(m, |u|, cols)
  {
    seq(cols, l requires 0 <= l < cols => Dot(u, Column(m, l)))
  }

  /** numpy's `np.transpose(m)` for an `m` whose rows all have `cols` entries. */
  function Transpose(m: Matrix, cols: nat): Matrix
    requires RowsOfLength(m, cols)
  {
    seq(cols, j requires 0 <= j < cols => Column(m, j))
  }

  /** numpy's `np.dot(a, b)` for 2-d arrays, `b` having `cols` columns. */
  function MatMul(a: Matrix, b: Matrix, cols: nat): Matrix
    requires IsMatrix(b, |b|, cols) && RowsOfLength(a, |b|)
  {
    seq(|a|, i requires 0 <= i < |a| =>
      seq(cols, j requires 0 <= j < cols => Dot(a[i], Column(b, j))))
  }

  /** numpy's `m * s` for a scalar `s`. */
  function ScaleMat(m: Matrix, s: real): Matrix {
    seq(|m|, i requires 0 <= i < |m| => seq(|m[i]|, j requires 0 <= j < |m[i]| => Scaled(m[i][j], s)))
  }

  /** `x` multiplied by the scale factor `s`. */
  function Scaled(x: real, s: real): real {
    x * s
  }

  /** numpy's `np.diag(m)` for a 2-d `m` whose rows are at least as long as it is tall. */
  function Diag(m: Matrix): Vector
    requires forall i :: 0 <= i < |m| ==> i < |m[i]|
  {
    seq(|m|, i requires 0 <= i < |m| => m[i][i])
  }

  /** numpy's `v[idx]` for an integer index array. */
  function Pick(v: Vector, idx: seq<nat>): Vector
    requires IndicesBelow(idx, |v|)
  {
    seq(|idx|, k requires 0 <= k < |idx| => v[idx[k]])
  }

  /** numpy's `m[idx]`: the rows at `idx`, in that order. */
  function RowsAt(m: Matrix, idx: seq<nat>): Matrix
    requires IndicesBelow(idx, |m|)
  {
    seq(|idx|, k requires 0 <= k < |idx| => m[idx[k]])
  }

  /** numpy's `m[:, idx]`: the columns at `idx`, in that order. */
  function ColumnsAt(m: Matrix, idx: seq<nat>, cols: nat): Matrix
    requires RowsOfLength(m, cols) && IndicesBelow(idx, cols)
  {
    seq(|m|, i requires 0 <= i < |m| => seq(|idx|, k requires 0 <= k < |idx| => m[i][idx[k]]))
  }

  /** The rows of the identity picked out by `idx`: the selector matrix `E`
      with `E · v == v[idx]`. */
  function SelectorRows(n: nat, idx: seq<nat>): Matrix {
    seq(|idx|, k requires 0 <= k < |idx| => Unit(n, idx[k]))
  }

  // ----- Lemmas -----

  lemma {:induction false} DotCommutes(u: Vector, v: Vector)
    requires |u| == |v|
    ensures Dot(u, v) == Dot(v, u)
  {
    if |u| > 0 {
      DotCommutes(u[1..], v[1..]);
    }
  }

  lemma {:induction false} DotAdd(u: Vector, w: Vector, v: Vector)
    requires |u| == |w| == |v|
    ensures Dot(AddVec(u, w), v) == Dot(u, v) + Dot(w, v)
  {
    if |u| > 0 {
      assert AddVec(u, w)[1..] == AddVec(u[1..], w[1..]);
      DotAdd(u[1..], w[1..], v[1..]);
    }
  }

  lemma {:induction false} DotScale(u: Vector, a: real, v: Vector)
    requires |u| == |v|
    ensures Dot(ScaleVec(u, a), v) == a * Dot(u, v)
  {
    if |u| > 0 {
      forall k | 0 <= k < |u| - 1
        ensures ScaleVec(u, a)[1..][k] == ScaleVec(u[1..], a)[k]
      {
        assert u[1..][k] == u[k + 1];
      }
      assert ScaleVec(u, a)[1..] == ScaleVec(u[1..], a);
      DotScale(u[1..], a, v[1..]);
      calc {
        Dot(ScaleVec(u, a), v);
        (a * u[0]) * v[0] + a * Dot(u[1..], v[1..]);
        a * (u[0] * v[0] + Dot(u[1..], v[1..]));
      }
    }
  }

  /** Summing an elementwise product is a dot product. */
  lemma {:induction false} SumOfProducts(u: Vector, v: Vector)
    requires |u| == |v|
    ensures Sum(ElemMul(u, v)) == Dot(u, v)
  {
    if |u| > 0 {
      forall k | 0 <= k < |u| - 1
        ensures ElemMul(u, v)[1..][k] == ElemMul(u[1..], v[1..])[k]
      {
        assert u[1..][k] == u[k + 1] && v[1..][k] == v[k + 1];
      }
      assert ElemMul(u, v)[1..] == ElemMul(u[1..], v[1..]);
      SumOfProducts(u[1..], v[1..]);
    }
  }

  /** Dotting with a basis vector picks out one entry. */
  lemma {:induction false} DotUnit(v: Vector, c: nat)
    requires c < |v|
    ensures Dot(Unit(|v|, c), v) == v[c]
  {
    if c == 0 {
      DotZero(Unit(|v|, 0)[1..], v[1..]);
    } else {
      assert Unit(|v|, c)[1..] == Unit(|v| - 1, c - 1);
      DotUnit(v[1..], c - 1);
    }
  }

  lemma {:induction false} DotZero(z: Vector, v: Vector)
    requires |z| == |v|
    requires forall k :: 0 <= k < |z| ==> z[k] == 0.0
    ensures Dot(z, v) == 0.0
  {
    if |z| > 0 {
      DotZero(z[1..], v[1..]);
    }
  }

  /** Moving the matrix across a bilinear form: `u · (N v) == (u N) · v`. */
  lemma {:induction false} BilinearShift(u: Vector, m: Matrix, v: Vector)
    requires IsMatrix(m, |u|, |v|)
    ensures Dot(u, MatVec(m, v)) == Dot(VecMat(u, m, |v|), v)
  {
    if |u| == 0 {
      DotZero(VecMat(u, m, |v|), v);
    } else {
      assert MatVec(m, v)[1..] == MatVec(m[1..], v);
      BilinearShift(u[1..], m[1..], v);
      VecMatSplit(u, m, |v|);
      DotAdd(ScaleVec(m[0], u[0]), VecMat(u[1..], m[1..], |v|), v);
      DotScale(m[0], u[0], v);
    }
  }

  /** `u N` is the first row of `N` scaled by `u[0]` plus `u[1..] N[1..]`. */
  lemma VecMatSplit(u: Vector, m: Matrix, cols: nat)
    requires |u| > 0 && IsMatrix(m, |u|, cols)
    ensures VecMat(u, m, cols) == AddVec(ScaleVec(m[0], u[0]), VecMat(u[1..], m[1..], cols))
  {
    forall l | 0 <= l < cols
      ensures VecMat(u, m, cols)[l] == AddVec(ScaleVec(m[0], u[0]), VecMat(u[1..], m[1..], cols))[l]
    {
      assert Column(m, l)[1..] == Column(m[1..], l);
    }
  }

  /** A symmetric matrix gives a symmetric bilinear form. */
  lemma BilinearSymmetric(u: Vector, m: Matrix, v: Vector)
    requires |u| == |v| && IsSymmetric(m, |v|)
    ensures Dot(u, MatVec(m, v)) == Dot(v, MatVec(m, u))
  {
    var n := |v|;
    BilinearShift(u, m, v);
    forall l | 0 <= l < n
      ensures VecMat(u, m, n)[l] == MatVec(m, u)[l]
    {
      assert Column(m, l) == m[l];
      DotCommutes(u, m[l]);
    }
    assert VecMat(u, m, n) == MatVec(m, u);
    DotCommutes(MatVec(m, u), v);
  }

  /** The matrix product `a · (n · oᵀ)` has the bilinear forms `a[i] · (n o[j])` as entries. */
  lemma ProductEntries(a: Matrix, nm: Matrix, o: Matrix, p: nat, i: nat, j: nat)
    requires IsMatrix(nm, p, p) && RowsOfLength(a, p) && RowsOfLength(o, p)
    requires i < |a| && j < |o|
    ensures IsMatrix(MatMul(nm, Transpose(o, p), |o|), p, |o|)
    ensures MatMul(a, MatMul(nm, Transpose(o, p), |o|), |o|)[i][j] == Dot(a[i], MatVec(nm, o[j]))
  {
    var inner := MatMul(nm, Transpose(o, p), |o|);
    assert Column(Transpose(o, p), j) == o[j];
    assert Column(inner, j) == MatVec(nm, o[j]);
  }

  /** `a · (n · oᵀ)` as a whole: its shape and every entry. */
  lemma ProductShapeAndEntries(a: Matrix, nm: Matrix, o: Matrix, p: nat)
    requires IsMatrix(nm, p, p) && RowsOfLength(a, p) && RowsOfLength(o, p)
    ensures IsMatrix(MatMul(nm, Transpose(o, p), |o|), p, |o|)
    ensures IsMatrix(MatMul(a, MatMul(nm, Transpose(o, p), |o|), |o|), |a|, |o|)
    ensures forall i, j :: 0 <= i < |a| && 0 <= j < |o| ==>
      MatMul(a, MatMul(nm, Transpose(o, p), |o|), |o|)[i][j] == Dot(a[i], MatVec(nm, o[j]))
  {
    forall i, j | 0 <= i < |a| && 0 <= j < |o|
      ensures MatMul(a, MatMul(nm, Transpose(o, p), |o|), |o|)[i][j] == Dot(a[i], MatVec(nm, o[j]))
    {
      ProductEntries(a, nm, o, p, i, j);
    }
  }

  /** Selector rows applied to a vector pick out its entries. */
  lemma SelectorPicks(n: nat, idx: seq<nat>, v: Vector)
    requires |v| == n && IndicesBelow(idx, n)
    ensures MatVec(SelectorRows(n, idx), v) == Pick(v, idx)
  {
    forall k | 0 <= k < |idx|
      ensures MatVec(SelectorRows(n, idx), v)[k] == Pick(v, idx)[k]
    {
      DotUnit(v, idx[k]);
    }
  }

  /** The bilinear form between two basis vectors is one matrix entry. */
  lemma UnitForm(m: Matrix, n: nat, a: nat, b: nat)
    requires IsMatrix(m, n, n) && a < n && b < n
    ensures Dot(Unit(n, a), MatVec(m, Unit(n, b))) == m[a][b]
  {
    forall k | 0 <= k < n
      ensures MatVec(m, Unit(n, b))[k] == m[k][b]
    {
      DotCommutes(m[k], Unit(n, b));
      DotUnit(m[k], b);
    }
    DotUnit(MatVec(m, Unit(n, b)), a);
  }
}

/** The numeric routines the statistics engine calls but does not define:
    numpy's square root and matrix inverse, the zero-safe reciprocal of the
    models' `utils` module, and scipy's Student-t and normal quantile
    functions. Nothing is assumed about them; every statistic is stated
    relative to whichever routines it is given. */
module Numerics {
  import opened LinAlg
  import opened Wrappers

  /** The reference distribution `conf_int` looks a quantile up in. */
  datatype Dist = StudentT | Normal

  datatype Numerics = Numerics(
    sqrt: real -> real,
    /** `recipr` from the models' `utils` module. */
    recipr: real -> real,
    /** `numpy.linalg.inv`; `None` stands for its singular-matrix error. */
    inv: Matrix -> Option<Matrix>,
    /** `dist.ppf(q, df)`. */
    ppf: (Dist, real, real) -> real
  )

  // Each routine applied through a function of its own, so that proofs
  // compare applications as plain terms.

  function Sqrt(num: Numerics, x: real): real {
    num.sqrt(x)
  }

  function Recipr(num: Numerics, x: real): real {
    num.recipr(x)
  }

  function Inv(num: Numerics, m: Matrix): Option<Matrix> {
    num.inv(m)
  }

  function Ppf(num: Numerics, d: Dist, q: real, df: real): real {
    num.ppf(d, q, df)
  }

  /** `np.sqrt` on a vector. */
  function SqrtVec(num: Numerics, v: Vector): (r: Vector)
    ensures |r| == |v| && forall i :: 0 <= i < |v| ==> r[i] == Sqrt(num, v[i])
  {
    seq(|v|, i requires 0 <= i < |v| => Sqrt(num, v[i]))
  }

  /** `recipr` on a vector. */
  function ReciprVec(num: Numerics, v: Vector): (r: Vector)
    ensures |r| == |v| && forall i :: 0 <= i < |v| ==> r[i] == Recipr(num, v[i])
  {
    seq(|v|, i requires 0 <= i < |v| => Recipr(num, v[i]))
  }

  /** `np.sqrt` on a 2-d array. */
  function SqrtMat(num: Numerics, m: Matrix): (r: Matrix)
    ensures |r| == |m|
    ensures forall i :: 0 <= i < |m| ==> |r[i]| == |m[i]|
    ensures forall i, j :: 0 <= i < |m| && 0 <= j < |m[i]| ==> r[i][j] == Sqrt(num, m[i][j])
  {
    seq(|m|, i requires 0 <= i < |m| => SqrtVec(num, m[i]))
  }

  /** What numpy's inverse promises about shape: a square matrix in, a
      square matrix of the same size out (or the singular-matrix error). */
  predicate InverseShaped(num: Numerics, m: Matrix, n: nat) {
    Inv(num, m).Some? ==> IsMatrix(Inv(num, m).value, n, n)
  }
}

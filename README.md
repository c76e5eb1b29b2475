# Likelihood-model results: a verified Dafny model

This project models the statistics engine of `LikelihoodModelResults` in
nipy's copy of the scipy `models` package. A results object holds three things:

- a parameter estimate `theta`;
- an optional normalised covariance matrix `normalized_cov_theta`;
- a `scale`.

From these it derives:

- `cov_theta`: the covariance of one parameter, of a block of parameters, or
  of linear contrasts `M·N·otherᵀ·scale`;
- `t`: per-parameter t statistics;
- `Tcontrast`: effect, standard deviation and t of a contrast;
- `Fcontrast`: the quadratic-form F statistic of a contrast;
- `conf_int`: symmetric confidence intervals.

The model also covers the method check in `LikelihoodModel.fit`.

Files:

- `Wrappers.dfy`: `Option`.
- `LinAlg.dfy`: the part of numpy the engine uses, over `real`. It covers dot
  and matrix products, transposes, diagonals, fancy indexing and scaling, with
  lemmas about bilinear forms and basis vectors.
- `Numerics.dfy`: the routines the engine calls but does not define: `sqrt`,
  `inv`, `recipr` from the models' `utils` module, and the Student-t/normal
  `ppf`. They are fields of a `Numerics` value passed in. Their values are
  left open. Two things are assumed:
  - numpy applies `sqrt` and `recipr` to arrays entry by entry;
  - `inv` of a q×q matrix returns a q×q matrix, or `None` for numpy's
    singular-matrix error.
- `Models.dfy`: the results classes and the operations. Errors are a `Result`:
  - a missing covariance gives `ValueError` with the source's message;
  - a missing `df_resid` gives `AttributeError`;
  - a singular matrix gives `LinAlgError`.
  `conf_int` is a method whose loop over `cols` appends to `lower`/`upper`.
  `fit` is a method on a class whose `results` slot it leaves unchanged.
- `Properties.dfy`: relations between the operations:
  - the column form of `cov_theta` against its contrast form;
  - transposition and symmetry of contrast covariances;
  - `t` against `Tcontrast`, and F against t²;
  - the `scale` and `invcov` arguments that change nothing.

Two places where the model follows the code rather than its comments or
docstrings:

- `conf_int` tests the class name for `'OLSModel'` first, but the if/else that
  follows overwrites that choice. Only the name `'Model'` selects the normal
  distribution.
- `fit` with `'newton'` calls `optimize.fmin`, but the import of `optimize` is
  commented out (model.py:3). That path raises `NameError`, and `_results` is
  never assigned on any path.

## Model

| member | source | states |
|---|---|---|
| Models.ChooseDistribution | nipy/fixes/scipy/stats/models/model.py:275-281 | written as the source is, with the "OLSModel" test followed by the if/else on "Model". The result is the normal exactly when the name is "Model" and Student-t otherwise, so "OLSModel" gets Student-t: the if/else overwrites the first test |
| Models.TransformCov | nipy/fixes/scipy/stats/models/model.py:186-190 | `matrix · N · otherᵀ * scale` is `|matrix|×|other|`, with entry (i,j) equal to `matrix[i] · (N other[j])` times the scale |
| Models.ColumnsCov | nipy/fixes/scipy/stats/models/model.py:180-185 | `N[cols][:, cols] * scale` is `|cols|×|cols|`, with entry (i,j) equal to `N[cols[i]][cols[j]]` times the scale |
| Models.Broadcast | nipy/fixes/scipy/stats/models/model.py:210-211 | `effect * recipr(sd)` under broadcasting: entry (i,j) is `effect[j] * recipr(sd[i][j])`, one row per row of `sd` |
| Models.FStatistic | nipy/fixes/scipy/stats/models/model.py:240 | the summed elementwise product `Σ (invcov·ct)_i · ct_i` is the quadratic form `ct · (invcov ct)`, times `recipr(q * scale)` |
| Models.Results.constructor | nipy/fixes/scipy/stats/models/model.py:89-103 | `theta` is stored as given, and `df_resid` is set only when supplied |
| Models.LikelihoodModelResults.constructor | nipy/fixes/scipy/stats/models/model.py:112-135 | `theta`, `normalized_cov_theta` and `scale` are stored unchanged, with `theta` held through `Results` |
| Models.LikelihoodModelResults.CovTheta | nipy/fixes/scipy/stats/models/model.py:165-190 | errors exactly when the covariance is None, with that message. The default scale is the stored one. A scalar column gives `N[c][c]*scale`; a column list gives the block; a column argument takes priority over `matrix`. `other` defaults to `matrix` |
| Models.LikelihoodModelResults.T | nipy/fixes/scipy/stats/models/model.py:143-163 | errors exactly when the covariance is None. A scalar column gives a scalar; otherwise one entry per requested column, all of `0..n-1` in order when `column` is None |
| Models.LikelihoodModelResults.TOfColumn | nipy/fixes/scipy/stats/models/model.py:157-162 | the t of column c is `theta[c] * recipr(sqrt(N[c][c] * scale))` |
| Models.LikelihoodModelResults.TOfColumns | nipy/fixes/scipy/stats/models/model.py:157-162 | taking the diagonal of the block covariance gives, at position k, the t of column `cols[k]` |
| Models.LikelihoodModelResults.ContrastSd | nipy/fixes/scipy/stats/models/model.py:208-209 | `sqrt(cov_theta(matrix=M))` is q×q and is the elementwise root of `M·N·Mᵀ·scale` |
| Models.LikelihoodModelResults.TContrast | nipy/fixes/scipy/stats/models/model.py:196-212 | errors exactly when the covariance is None (ValueError) or `df_resid` is unset (AttributeError). `effect` is always `M·theta`. `sd` and `t` are set exactly when their flags are. F and `df_num` are unset, and `df_denom == df_resid` |
| Models.LikelihoodModelResults.UnitScaleCov | nipy/fixes/scipy/stats/models/model.py:239 | `cov_theta(matrix=M, scale=1.0)` is q×q, with entries `M[i] · (N M[j])` |
| Models.LikelihoodModelResults.FContrast | nipy/fixes/scipy/stats/models/model.py:214-241 | errors exactly when the covariance is None, the inverse is singular, or `df_resid` is unset, with the matching error. F is the quadratic form of `M·theta` under `invcov` over `q * self.scale`. A supplied `invcov` is used as given. `df_num` is the row count of `invcov`; the other fields are unset |
| Models.LikelihoodModelResults.Interval | nipy/fixes/scipy/stats/models/model.py:283-294 | the interval of parameter i is symmetric about `theta[i]`. `lower <= upper` exactly when `ppf * sqrt(cov_ii) >= 0` |
| Models.LikelihoodModelResults.AllIntervals | nipy/fixes/scipy/stats/models/model.py:282-286 | without `cols`, one pair per parameter: entry k is `theta[k] ∓ q * sqrt(cov[k][k])` |
| Models.LikelihoodModelResults.ConfInt | nipy/fixes/scipy/stats/models/model.py:243-295 | succeeds whenever `df_resid` and the covariance are present, or `cols` is empty. With `cols` given, one interval per entry in `cols` order; every parameter in order when `cols` is None; an empty list for empty `cols`. A missing `df_resid` is reported before a missing covariance |
| Models.LikelihoodModel.constructor | nipy/fixes/scipy/stats/models/model.py:39-51 | `endog` and `exog` are stored; nothing is fitted yet |
| Models.LikelihoodModel.Fit | nipy/fixes/scipy/stats/models/model.py:73-78 | any method other than "newton" raises ValueError("Unknown fit method."), and "newton" raises NameError on `optimize`. `_results` is unchanged either way |
| Properties.ColumnsAreSelectorContrast | nipy/fixes/scipy/stats/models/model.py:180-190 | the covariance block of columns `cs` equals the covariance of the contrast whose rows are the basis vectors of `cs` |
| Properties.SelectorEntry | nipy/fixes/scipy/stats/models/model.py:180-190 | entry (i,j) of the column block agrees with entry (i,j) of the basis-row contrast covariance |
| Properties.ColumnIsUnitContrast | nipy/fixes/scipy/stats/models/model.py:180-190 | the variance of a scalar column equals the 1×1 covariance of its basis-row contrast |
| Properties.CovarianceTransposes | nipy/fixes/scipy/stats/models/model.py:186-190 | for symmetric N, swapping `matrix` and `other` transposes the result |
| Properties.ContrastCovarianceSymmetric | nipy/fixes/scipy/stats/models/model.py:186-190 | with `other` omitted and N symmetric, the contrast covariance is symmetric |
| Properties.TAgreesAcrossColumnForms | nipy/fixes/scipy/stats/models/model.py:154-162 | `t(c)`, `t([c])` and entry c of `t()` agree; `t()` has one entry per parameter |
| Properties.UnitContrastIsT | nipy/fixes/scipy/stats/models/model.py:207-211 | the T contrast on the basis row of c has effect `[theta[c]]` and t `[[t(c)]]` |
| Properties.SelectorContrastIsT | nipy/fixes/scipy/stats/models/model.py:154-162 | the T contrast whose rows are the basis vectors of `cs` has effect `theta[cs]`. The diagonal of its t matrix is `t(cs)` |
| Properties.SelectorDiagonal | nipy/fixes/scipy/stats/models/model.py:207-211 | entry (k,k) of that t matrix is the t of column `cs[k]` |
| Properties.UnitContrastSd | nipy/fixes/scipy/stats/models/model.py:209 | the sd of the basis-row contrast of c is `sqrt(N[c][c] * scale)` |
| Properties.ContrastsIgnoreScale | nipy/fixes/scipy/stats/models/model.py:196-241 | the `scale` argument of `Tcontrast` and `Fcontrast` never changes their result |
| Properties.SuppliedInverseUnchanged | nipy/fixes/scipy/stats/models/model.py:238-241 | supplying as `invcov` the inverse `Fcontrast` computes itself gives the same result |
| Properties.UnitFIsTSquared | nipy/fixes/scipy/stats/models/model.py:154-162 | on the basis row of c, F has one numerator degree of freedom. Where `inv`, `sqrt` and `recipr` are exact, F equals `t(c)²` |
| Properties.UnitFValue | nipy/fixes/scipy/stats/models/model.py:235-241 | on the basis row of c with exact `inv` and `recipr`, F is `theta[c]² / (N[c][c] * scale)` |
| Properties.UnitScaleCovOfUnit | nipy/fixes/scipy/stats/models/model.py:239 | the unit-scale covariance of the basis row of c is `[[N[c][c]]]` |
| Properties.FStatisticOfOne | nipy/fixes/scipy/stats/models/model.py:240 | the F formula for one row with inverse variance `1/v` is `th² / (v * s)` |
| Properties.RatioSquared | nipy/fixes/scipy/stats/models/model.py:162 | `th²/(v*s)` is the square of `th/r` when `r` is the positive root of `v*s` |
| LinAlg.SumOfProducts | nipy/fixes/scipy/stats/models/model.py:240 | `np.add.reduce(u * v)` is the dot product `u · v` |
| LinAlg.BilinearShift | nipy/fixes/scipy/stats/models/model.py:189 | `u · (N v) == (u N) · v` |
| LinAlg.BilinearSymmetric | nipy/fixes/scipy/stats/models/model.py:189 | for symmetric N, `u · (N v) == v · (N u)` |
| LinAlg.ProductShapeAndEntries | nipy/fixes/scipy/stats/models/model.py:189 | `np.dot(M, np.dot(N, otherᵀ))` has shape `|M|×|other|` and entries `M[i] · (N other[j])` |
| LinAlg.UnitForm | nipy/fixes/scipy/stats/models/model.py:180-190 | the bilinear form of two basis vectors is one entry of N |
| LinAlg.DotUnit | nipy/fixes/scipy/stats/models/model.py:207 | dotting with a basis vector picks out one entry |
| LinAlg.SelectorPicks | nipy/fixes/scipy/stats/models/model.py:207 | basis-vector rows applied to `theta` give `theta[cols]` |
| Numerics.SqrtMat | nipy/fixes/scipy/stats/models/model.py:209 | `np.sqrt` of a 2-d array keeps its shape and takes the root of each entry |

## Left out

- `LikelihoodModel.newton` and the optimiser are not modelled. `optimize` is never imported, so the "newton" path of `fit` is modelled only as the NameError it raises.
- The no-argument branch of `cov_theta` (model.py:191-194) is left out. It needs `resid` and `calc_theta`, which only concrete subclasses define. `ConfInt` takes its value as the parameter `noArgCov`.
- `CovTheta` requires a column argument or a matrix. The call with neither is the branch above.
- `sqrt`, `inv`, `recipr` and `ppf` are not modelled. They are parameters whose values are left open. The `utils` module that defines `recipr` is not part of this model.
- SqrtVec, ReciprVec and SqrtMat assume that the array forms of `sqrt` and `recipr` apply the scalar routine to each entry.
- Floating-point rounding is not modelled; all arithmetic is over `real`.
- `ContrastResults` (the `contrast` module) is not part of this model. It is represented by the `ContrastResult` datatype, with an unset field as `None`.
- The `**kwd` attribute injection of `Results.__init__` is reduced to the one attribute the engine reads, `df_resid`. `Results.initialize` and `LikelihoodModel.initialize` are no-ops.
- `Model.fit`, `Model.predict`, `llf`, `score`, `information` and the placeholder `normalized_cov_theta`/`scale` methods are not modelled. They raise `NotImplementedError` or call an attribute that is never set, and hold no logic.
- Python's `is` on strings (model.py:74, 275-277) is modelled as string equality.
- Negative and out-of-range numpy indices, and mismatched array shapes, are not modelled. They are stated as `requires` on the callers of the indexing operations.
- Models.LikelihoodModelResults.TContrast: requires `t ==> sd`. With `t=True, sd=False` the source passes `None` to `recipr`, whose behaviour the `utils` module would decide.
- Models.LikelihoodModelResults.TContrast: `matrix` is always 2-d. A 1-d row vector, for which numpy returns scalars, is modelled as a one-row matrix.
- Models.LikelihoodModelResults.CovTheta: in the matrix branch, `matrix` and `other` are always 2-d. A 1-d row vector, for which numpy returns a scalar, is modelled as a one-row matrix.
- Models.LikelihoodModelResults.constructor: takes `dfResid` and `className`, which the source's `__init__(theta, normalized_cov_theta=None, scale=1.)` does not. They stand for the `df_resid` attribute a concrete results class attaches through `Results`' keywords, and for `self.__class__.__name__`. The base constructor itself attaches no `df_resid`; that case is `dfResid == None`.
- Models.LikelihoodModelResults.FContrast: the `eff`, `t` and `sd` flags are accepted by the source and never read. They are not parameters of the model.
- Models.LikelihoodModelResults.FContrast: when `invcov` is omitted, requires that `inv` returns a q×q matrix or the singular error. This is numpy's contract for `inv`.

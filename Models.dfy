/** The results objects of likelihood-based models and the statistics they
    derive from a parameter estimate `theta`, its normalised covariance and
    a scale: covariances of columns and of linear contrasts, t statistics,
    T and F contrasts and confidence intervals; and the fitting-method check
    of `LikelihoodModel.fit`. */
module Models {
  import opened Wrappers
  import opened LinAlg
  import opened Numerics

  // The messages of the ValueErrors raised when the covariance is absent.
  const NoCovForT := "need covariance of parameters for computing T statistics"
  const NoCovForCov := "need covariance of parameters for computing (unnormalized) covariances"
  const NoCovForF := "need covariance of parameters for computing F statistics"
  const UnknownFitMethod := "Unknown fit method."

  /** The Python exceptions the engine lets escape. */
  datatype Error =
    | ValueError(message: string)
      /** An attribute read before anything set it (`df_resid`). */
    | AttributeError(name: string)
      /** `numpy.linalg.inv` given a singular matrix. */
    | LinAlgError
      /** A global name the module never binds. */
    | NameError(name: string)

  datatype Result<+T> = Ok(value: T) | Err(error: Error)

  /** The `column` argument: a scalar index or a sequence of indices. */
  datatype Columns = One(index: nat) | Many(indices: seq<nat>)

  /** What `cov_theta` returns: a scalar, or a 2-d array. */
  datatype Covariance = Entry(value: real) | Block(entries: Matrix)

  /** What `t` returns: a scalar for a scalar column, else one entry per column. */
  datatype TStatistic = Single(value: real) | PerColumn(values: Vector)

  /** The fields of a `ContrastResults` object; `None` is a field left unset. */
  datatype ContrastResult = ContrastResult(
    effect: Option<Vector>,
    sd: Option<Matrix>,
    t: Option<Matrix>,
    F: Option<real>,
    dfDenom: real,
    dfNum: Option<nat>)

  /** The distribution `conf_int` picks from the results object's class name:
      the normal for "Model" and Student-t for every other name. */
  function DistributionFor(className: string): (d: Dist)
    ensures d == Normal <==> className == "Model"
    ensures d == StudentT <==> className != "Model"
  {
    if className == "Model" then Normal else StudentT
  }

  /** The choice of distribution as `conf_int` writes it: a test for
      "OLSModel", then an if/else on "Model" that assigns on both branches
      and so overwrites whatever the first test chose. */
  method ChooseDistribution(className: string) returns (dist: Dist)
    ensures dist == DistributionFor(className)
    ensures className == "OLSModel" ==> dist == StudentT
  {
    if className == "OLSModel" {
      dist := StudentT;
    }
    if className == "Model" {
      dist := Normal;
    } else {
      dist := StudentT;
    }
  }

  function Indices(column: Columns): seq<nat> {
    match column
    case One(c) => [c]
    case Many(cs) => cs
  }

  /** `m · nm · oᵀ · s`, the covariance of two linear transforms of theta. */
  function TransformCov(nm: Matrix, m: Matrix, o: Matrix, p: nat, s: real): (r: Matrix)
    requires IsMatrix(nm, p, p) && RowsOfLength(m, p) && RowsOfLength(o, p)
    ensures IsMatrix(r, |m|, |o|)
    ensures forall i, j :: 0 <= i < |m| && 0 <= j < |o| ==> r[i][j] == Scaled(Dot(m[i], MatVec(nm, o[j])), s)
  {
    ProductShapeAndEntries(m, nm, o, p);
    ScaleMat(MatMul(m, MatMul(nm, Transpose(o, p), |o|), |o|), s)
  }

  /** `nm[cs][:, cs] * s`, the covariance block of the columns `cs`. */
  function ColumnsCov(nm: Matrix, cs: seq<nat>, p: nat, s: real): (r: Matrix)
    requires IsMatrix(nm, p, p) && IndicesBelow(cs, p)
    ensures IsMatrix(r, |cs|, |cs|)
    ensures forall i, j :: 0 <= i < |cs| && 0 <= j < |cs| ==> r[i][j] == Scaled(nm[cs[i]][cs[j]], s)
  {
    ScaleMat(ColumnsAt(RowsAt(nm, cs), cs, p), s)
  }

  /** `effect * recipr(sd)` under numpy broadcasting: `effect` runs along
      each row of `sd`. */
  function Broadcast(num: Numerics, effect: Vector, sd: Matrix): (r: Matrix)
    requires IsMatrix(sd, |sd|, |effect|)
    ensures IsMatrix(r, |sd|, |effect|)
    ensures forall i, j :: 0 <= i < |sd| && 0 <= j < |effect| ==> r[i][j] == effect[j] * Recipr(num, sd[i][j])
  {
    seq(|sd|, i requires 0 <= i < |sd| => ElemMul(effect, ReciprVec(num, sd[i])))
  }

  /** `np.add.reduce(np.dot(w, ct) * ct, 0) * recipr(q * scale)`: the
      quadratic form `ctᵀ · w · ct` over `q` times the scale. */
  function FStatistic(num: Numerics, w: Matrix, ct: Vector, q: nat, scale: real): (f: real)
    requires IsMatrix(w, |ct|, |ct|)
    ensures f == Dot(ct, MatVec(w, ct)) * Recipr(num, Scaled(q as real, scale))
  {
    SumOfProducts(MatVec(w, ct), ct);
    DotCommutes(MatVec(w, ct), ct);
    Sum(ElemMul(MatVec(w, ct), ct)) * Recipr(num, Scaled(q as real, scale))
  }

  /** The lower end of a confidence interval: estimate minus quantile times standard error. */
  function Lower(estimate: real, q: real, se: real): real {
    estimate - q * se
  }

  /** The upper end of a confidence interval: estimate plus quantile times standard error. */
  function Upper(estimate: real, q: real, se: real): real {
    estimate + q * se
  }

  /** The generic results container: a parameter vector plus the extra
      attributes handed over as keywords, of which only `df_resid` is read. */
  class Results {
    const theta: Vector
    /** `None` when no `df_resid` keyword was supplied. */
    const dfResid: Option<real>

    constructor (theta: Vector, dfResid: Option<real>)
      ensures this.theta == theta && this.dfResid == dfResid
    {
      this.theta := theta;
      this.dfResid := dfResid;
    }
  }

  class LikelihoodModelResults {
    /** The `Results` part of the object, set up by `super().__init__`. */
    const base: Results
    const normalizedCovTheta: Option<Matrix>
    const scale: real
    /** `self.__class__.__name__`, which `conf_int` inspects. */
    const className: string

    /** `dfResid` stands for the `df_resid` attribute a concrete results
        class attaches; the base constructor itself attaches none. */
    constructor (theta: Vector, normalizedCovTheta: Option<Matrix>, scale: real,
                 dfResid: Option<real>, className: string)
      ensures Theta() == theta && DfResid() == dfResid
      ensures this.normalizedCovTheta == normalizedCovTheta && this.scale == scale
      ensures this.className == className
    {
      base := new Results(theta, dfResid);
      this.normalizedCovTheta := normalizedCovTheta;
      this.scale := scale;
      this.className := className;
    }

    function Theta(): Vector {
      base.theta
    }

    function DfResid(): Option<real> {
      base.dfResid
    }

    predicate HasCov() {
      normalizedCovTheta.Some?
    }

    /** The normalised covariance, when present, is square with one row and
        one column per parameter. */
    predicate Valid() {
      HasCov() ==> IsMatrix(normalizedCovTheta.value, |Theta()|, |Theta()|)
    }

    predicate ColumnsInRange(column: Columns) {
      match column
      case One(c) => c < |Theta()|
      case Many(cs) => IndicesBelow(cs, |Theta()|)
    }

    /** The indices `t` works on: all parameters in order when `column` is None. */
    function Requested(column: Option<Columns>): seq<nat> {
      if column.None? then Range(|Theta()|) else Indices(column.value)
    }

    /** The argument shapes the covariance computation needs: a column
        argument in range, or else a matrix (and `other`) with one column
        per parameter. The branch taken without either is not modelled. */
    predicate CovArgsFit(matrix: Option<Matrix>, column: Option<Columns>, other: Option<Matrix>) {
      if column.Some? then ColumnsInRange(column.value)
      else (matrix.Some? && RowsOfLength(matrix.value, |Theta()|) &&
            (other.Some? ==> RowsOfLength(other.value, |Theta()|)))
    }

    function CovTheta(matrix: Option<Matrix>, column: Option<Columns>, scale: Option<real>,
                      other: Option<Matrix>): (r: Result<Covariance>)
      requires Valid()
      requires HasCov() ==> CovArgsFit(matrix, column, other)
      ensures r.Err? <==> !HasCov()
      ensures r.Err? ==> r.error == ValueError(NoCovForCov)
      ensures r.Ok? && column.Some? && column.value.One? ==>
        r.value == Entry(Scaled(normalizedCovTheta.value[column.value.index][column.value.index],
                                scale.GetOr(this.scale)))
      ensures r.Ok? && column.Some? && column.value.Many? ==>
        r.value == Block(ColumnsCov(normalizedCovTheta.value, column.value.indices, |Theta()|,
                                    scale.GetOr(this.scale)))
      ensures r.Ok? && column.None? ==>
        r.value == Block(TransformCov(normalizedCovTheta.value, matrix.value,
                                      other.GetOr(matrix.value), |Theta()|,
                                      scale.GetOr(this.scale)))
    {
      if !HasCov() then Err(ValueError(NoCovForCov))
      else if column.Some? then
        if column.value.One? then
          Ok(Entry(Scaled(normalizedCovTheta.value[column.value.index][column.value.index], scale.GetOr(this.scale))))
        else
          Ok(Block(ColumnsCov(normalizedCovTheta.value, column.value.indices, |Theta()|, scale.GetOr(this.scale))))
      else
        Ok(Block(TransformCov(normalizedCovTheta.value, matrix.value, other.GetOr(matrix.value), |Theta()|,
                              scale.GetOr(this.scale))))
    }

    /** The t statistic of each requested parameter: its estimate times
        the zero-safe reciprocal of the square root of its variance at the
        stored scale. A scalar column gives a scalar; no column means every
        parameter, in order. */
    function T(num: Numerics, column: Option<Columns>): (r: Result<TStatistic>)
      requires Valid()
      requires HasCov() && column.Some? ==> ColumnsInRange(column.value)
      ensures r.Err? <==> !HasCov()
      ensures r.Err? ==> r.error == ValueError(NoCovForT)
      ensures r.Ok? && column.Some? && column.value.One? ==> r.value == Single(TOfColumn(num, column.value.index))
      ensures r.Ok? && !(column.Some? && column.value.One?) ==> r.value == PerColumn(TOfColumns(num, Requested(column)))
    {
      if !HasCov() then Err(ValueError(NoCovForT))
      else if column.Some? && column.value.One? then Ok(Single(TOfColumn(num, column.value.index)))
      else Ok(PerColumn(TOfColumns(num, Requested(column))))
    }

    /** `t` for a scalar column: `cov_theta` returns a scalar variance. */
    function TOfColumn(num: Numerics, c: nat): (t: real)
      requires Valid() && HasCov() && c < |Theta()|
      ensures t == Theta()[c] * Recipr(num, Sqrt(num, Scaled(normalizedCovTheta.value[c][c], scale)))
    {
      var cov := CovTheta(None, Some(One(c)), None, None);
      assert cov.Ok? && cov.value.value == Scaled(normalizedCovTheta.value[c][c], scale);
      Theta()[c] * Recipr(num, Sqrt(num, cov.value.value))
    }

    /** `t` for a sequence of columns: the variances are the diagonal of
        the covariance block `cov_theta` returns. */
    function TOfColumns(num: Numerics, cs: seq<nat>): (ts: Vector)
      requires Valid() && HasCov() && IndicesBelow(cs, |Theta()|)
      ensures |ts| == |cs|
      ensures forall k :: 0 <= k < |cs| ==> ts[k] == TOfColumn(num, cs[k])
    {
      var cov := CovTheta(None, Some(Many(cs)), None, None);
      assert cov.Ok?;
      var d := Diag(cov.value.entries);
      assert forall k :: 0 <= k < |cs| ==> d[k] == Scaled(normalizedCovTheta.value[cs[k]][cs[k]], scale);
      ElemMul(Pick(Theta(), cs), ReciprVec(num, SqrtVec(num, d)))
    }

    /** `np.sqrt(cov_theta(matrix=matrix))`: the elementwise square root of
        the contrast covariance at the stored scale. */
    function ContrastSd(num: Numerics, matrix: Matrix): (sdm: Matrix)
      requires Valid() && HasCov() && RowsOfLength(matrix, |Theta()|)
      ensures IsMatrix(sdm, |matrix|, |matrix|)
      ensures forall i, j :: 0 <= i < |matrix| && 0 <= j < |matrix| ==>
        sdm[i][j] == Sqrt(num, TransformCov(normalizedCovTheta.value, matrix, matrix, |Theta()|, scale)[i][j])
    {
      var cov := CovTheta(Some(matrix), None, None, None);
      assert cov.Ok? && cov.value.entries == TransformCov(normalizedCovTheta.value, matrix, matrix, |Theta()|, scale);
      SqrtMat(num, cov.value.entries)
    }

    /** A T contrast for the rows of `matrix` (numpy broadcasting gives the
        `t` entry in row i, column j as `effect[j] * recipr(sd[i][j])`). The
        `scale` argument is accepted and never read. */
    function TContrast(num: Numerics, matrix: Matrix, t: bool, sd: bool, scale: Option<real>)
      : (r: Result<ContrastResult>)
      requires Valid()
      requires HasCov() ==> RowsOfLength(matrix, |Theta()|)
      requires t ==> sd
      ensures r.Err? <==> !HasCov() || DfResid().None?
      ensures !HasCov() ==> r == Err(ValueError(NoCovForT))
      ensures HasCov() && DfResid().None? ==> r == Err(AttributeError("df_resid"))
      ensures r.Ok? ==> r.value.effect == Some(MatVec(matrix, Theta()))
      ensures r.Ok? ==> (r.value.sd.Some? <==> sd) && (r.value.t.Some? <==> t)
      ensures r.Ok? && sd ==> r.value.sd.value == ContrastSd(num, matrix)
      ensures r.Ok? && t ==> r.value.t.value == Broadcast(num, MatVec(matrix, Theta()), ContrastSd(num, matrix))
      ensures r.Ok? ==> r.value.F.None? && r.value.dfNum.None? && r.value.dfDenom == DfResid().value
    {
      if !HasCov() then Err(ValueError(NoCovForT))
      else
        var effect := MatVec(matrix, Theta());
        var sdv: Option<Matrix> := if sd then Some(ContrastSd(num, matrix)) else None;
        var tv: Option<Matrix> := if t then Some(Broadcast(num, effect, sdv.value)) else None;
        if DfResid().None? then Err(AttributeError("df_resid"))
        else Ok(ContrastResult(Some(effect), sdv, tv, None, DfResid().value, None))
    }

    /** The matrix `Fcontrast` inverts when no `invcov` is given: the
        contrast covariance at scale 1. */
    function UnitScaleCov(matrix: Matrix): (c: Matrix)
      requires Valid() && HasCov() && RowsOfLength(matrix, |Theta()|)
      ensures IsMatrix(c, |matrix|, |matrix|)
      ensures forall i, j :: 0 <= i < |matrix| && 0 <= j < |matrix| ==>
        c[i][j] == Dot(matrix[i], MatVec(normalizedCovTheta.value, matrix[j]))
    {
      var cov := CovTheta(Some(matrix), None, Some(1.0), None);
      assert cov.Ok?;
      cov.value.entries
    }

    /** The inverse covariance `Fcontrast` uses: `invcov` when supplied,
        else the inverse of the unit-scale contrast covariance. */
    function InverseCov(num: Numerics, matrix: Matrix, invcov: Option<Matrix>): Option<Matrix>
      requires Valid() && HasCov() && RowsOfLength(matrix, |Theta()|)
    {
      if invcov.Some? then invcov else Inv(num, UnitScaleCov(matrix))
    }

    /** An F contrast for the rows of `matrix`. Its `scale` argument is
        accepted and never read: F divides by the stored scale. */
    function FContrast(num: Numerics, matrix: Matrix, scale: Option<real>, invcov: Option<Matrix>)
      : (r: Result<ContrastResult>)
      requires Valid()
      requires HasCov() ==> RowsOfLength(matrix, |Theta()|)
      requires HasCov() && invcov.Some? ==> IsMatrix(invcov.value, |matrix|, |matrix|)
      requires HasCov() && invcov.None? ==> InverseShaped(num, UnitScaleCov(matrix), |matrix|)
      ensures r.Err? <==> !HasCov() || InverseCov(num, matrix, invcov).None? || DfResid().None?
      ensures !HasCov() ==> r == Err(ValueError(NoCovForF))
      ensures HasCov() && InverseCov(num, matrix, invcov).None? ==> r == Err(LinAlgError)
      ensures HasCov() && InverseCov(num, matrix, invcov).Some? && DfResid().None? ==>
        r == Err(AttributeError("df_resid"))
      ensures r.Ok? ==>
        var w := InverseCov(num, matrix, invcov).value;
        var ct := MatVec(matrix, Theta());
        && IsMatrix(w, |matrix|, |matrix|)
        && r.value.F == Some(FStatistic(num, w, ct, |matrix|, this.scale))
        && r.value.dfNum == Some(|w|)
        && r.value.dfDenom == DfResid().value
        && r.value.effect.None? && r.value.sd.None? && r.value.t.None?
    {
      if !HasCov() then Err(ValueError(NoCovForF))
      else
        var ctheta := MatVec(matrix, Theta());
        var w := InverseCov(num, matrix, invcov);
        if w.None? then Err(LinAlgError)
        else
          var f := FStatistic(num, w.value, ctheta, |matrix|, this.scale);
          if DfResid().None? then Err(AttributeError("df_resid"))
          else Ok(ContrastResult(None, None, None, Some(f), DfResid().value, Some(|w.value|)))
    }

    /** The interval `conf_int` gives parameter `i`, `noArgCov` being the
        value of `cov_theta()` called without arguments: the estimate minus
        and plus the quantile times the standard error. */
    function Interval(num: Numerics, alpha: real, noArgCov: Matrix, i: nat): (iv: (real, real))
      requires DfResid().Some? && i < |Theta()| && IsMatrix(noArgCov, |Theta()|, |Theta()|)
      ensures Theta()[i] - iv.0 == iv.1 - Theta()[i]
      ensures iv.0 <= iv.1 <==>
        Ppf(num, DistributionFor(className), 1.0 - alpha / 2.0, DfResid().value) * Sqrt(num, noArgCov[i][i]) >= 0.0
    {
      var q := Ppf(num, DistributionFor(className), 1.0 - alpha / 2.0, DfResid().value);
      var se := Sqrt(num, noArgCov[i][i]);
      (Lower(Theta()[i], q, se), Upper(Theta()[i], q, se))
    }

    /** `conf_int` without `cols`, for quantile `q`: the vectors
        `theta ∓ q * diag(sqrt(cov))`, paired entry by entry. */
    function AllIntervals(num: Numerics, q: real, noArgCov: Matrix): (ivs: seq<(real, real)>)
      requires IsMatrix(noArgCov, |Theta()|, |Theta()|)
      ensures |ivs| == |Theta()|
      ensures forall k :: 0 <= k < |ivs| ==>
        ivs[k] == (Lower(Theta()[k], q, Sqrt(num, noArgCov[k][k])), Upper(Theta()[k], q, Sqrt(num, noArgCov[k][k])))
    {
      var se := Diag(SqrtMat(num, noArgCov));
      var lower := seq(|Theta()|, k requires 0 <= k < |Theta()| => Lower(Theta()[k], q, se[k]));
      var upper := seq(|Theta()|, k requires 0 <= k < |Theta()| => Upper(Theta()[k], q, se[k]));
      seq(|Theta()|, k requires 0 <= k < |Theta()| => (lower[k], upper[k]))
    }

    /** Confidence intervals for the parameters in `cols` (all of them, in
        order, when `cols` is None). `noArgCov` is the value `cov_theta()`
        gives without arguments. The quantile is looked up, and `df_resid`
        read, before `cov_theta()` is called; an empty `cols` reads neither. */
    method ConfInt(num: Numerics, alpha: real, cols: Option<seq<nat>>, noArgCov: Matrix)
      returns (r: Result<seq<(real, real)>>)
      requires Valid()
      requires cols.Some? ==> IndicesBelow(cols.value, |Theta()|)
      requires HasCov() ==> IsMatrix(noArgCov, |Theta()|, |Theta()|)
      ensures cols == Some([]) || (DfResid().Some? && HasCov()) ==> r.Ok?
      ensures cols == Some([]) ==> r == Ok([])
      ensures cols != Some([]) && DfResid().None? ==> r == Err(AttributeError("df_resid"))
      ensures cols != Some([]) && DfResid().Some? && !HasCov() ==> r == Err(ValueError(NoCovForCov))
      ensures r.Ok? ==>
        var req := if cols.None? then Range(|Theta()|) else cols.value;
        |r.value| == |req| &&
        forall k :: 0 <= k < |req| ==>
          DfResid().Some? && HasCov() && r.value[k] == Interval(num, alpha, noArgCov, req[k])
    {
      var dist := ChooseDistribution(className);
      if cols.None? {
        if DfResid().None? {
          return Err(AttributeError("df_resid"));
        }
        var q := Ppf(num, dist, 1.0 - alpha / 2.0, DfResid().value);
        if !HasCov() {
          return Err(ValueError(NoCovForCov));
        }
        r := Ok(AllIntervals(num, q, noArgCov));
      } else {
        var cs := cols.value;
        var lower: seq<real> := [];
        var upper: seq<real> := [];
        var k := 0;
        while k < |cs|
          invariant 0 <= k <= |cs|
          invariant |lower| == |upper| == k
          invariant k > 0 ==> DfResid().Some? && HasCov()
          invariant forall j :: 0 <= j < k ==>
            DfResid().Some? && HasCov() && (lower[j], upper[j]) == Interval(num, alpha, noArgCov, cs[j])
        {
          var i := cs[k];
          var th := Theta()[i];
          if DfResid().None? {
            return Err(AttributeError("df_resid"));
          }
          var q := Ppf(num, dist, 1.0 - alpha / 2.0, DfResid().value);
          if !HasCov() {
            return Err(ValueError(NoCovForCov));
          }
          var se := Diag(SqrtMat(num, noArgCov))[i];
          assert se == Sqrt(num, noArgCov[i][i]);
          lower := lower + [Lower(th, q, se)];
          upper := upper + [Upper(th, q, se)];
          k := k + 1;
        }
        r := Ok(seq(k, j requires 0 <= j < k => (lower[j], upper[j])));
        assert k == 0 ==> r.value == [];
      }
    }
  }

  /** A likelihood model; `results` is the `_results` slot `fit` would fill. */
  class LikelihoodModel {
    const endog: Vector
    const exog: Option<Matrix>
    var results: Option<LikelihoodModelResults>

    /** `initialize()` is a no-op in the base class. */
    constructor (endog: Vector, exog: Option<Matrix>)
      ensures this.endog == endog && this.exog == exog && results == None
    {
      this.endog := endog;
      this.exog := exog;
      results := None;
    }

    /** `fit` accepts only the method "newton"; any other raises a
        ValueError. The "newton" path calls `optimize.fmin`, but the module
        never binds `optimize` (its import is commented out), so that path
        raises a NameError. Either way `_results` is not assigned. */
    method Fit(theta: Vector, fitMethod: string) returns (err: Error)
      modifies this
      ensures results == old(results)
      ensures fitMethod != "newton" ==> err == ValueError(UnknownFitMethod)
      ensures fitMethod == "newton" ==> err == NameError("optimize")
    {
      if fitMethod == "newton" {
        err := NameError("optimize");
        return;
      }
      err := ValueError(UnknownFitMethod);
    }
  }
}

/** How the statistics of a likelihood model's results relate to one
    another: the column form of `cov_theta` against its contrast form, the
    symmetry of contrast covariances, `t` against `Tcontrast`, and the
    arguments of `Tcontrast` and `Fcontrast` that change nothing. */
module Properties {
  import opened Wrappers
  import opened LinAlg
  import opened Numerics
  import opened Models

  /** The covariance block of columns `cs` is the covariance of the contrast
      whose rows are the basis vectors of those columns. */
  lemma ColumnsAreSelectorContrast(res: LikelihoodModelResults, cs: seq<nat>, scale: Option<real>)
    requires res.Valid() && res.HasCov() && IndicesBelow(cs, |res.Theta()|)
    ensures res.CovTheta(None, Some(Many(cs)), scale, None)
         == res.CovTheta(Some(SelectorRows(|res.Theta()|, cs)), None, scale, None)
  {
    var a := res.CovTheta(None, Some(Many(cs)), scale, None).value.entries;
    var b := res.CovTheta(Some(SelectorRows(|res.Theta()|, cs)), None, scale, None).value.entries;
    forall i | 0 <= i < |cs|
      ensures a[i] == b[i]
    {
      forall j | 0 <= j < |cs|
        ensures a[i][j] == b[i][j]
      {
        SelectorEntry(res, cs, scale, i, j);
      }
    }
    assert a == b;
  }

  lemma SelectorEntry(res: LikelihoodModelResults, cs: seq<nat>, scale: Option<real>, i: nat, j: nat)
    requires res.Valid() && res.HasCov() && IndicesBelow(cs, |res.Theta()|)
    requires i < |cs| && j < |cs|
    ensures res.CovTheta(None, Some(Many(cs)), scale, None).Ok?
    ensures res.CovTheta(Some(SelectorRows(|res.Theta()|, cs)), None, scale, None).Ok?
    ensures IsMatrix(res.CovTheta(None, Some(Many(cs)), scale, None).value.entries, |cs|, |cs|)
    ensures IsMatrix(res.CovTheta(Some(SelectorRows(|res.Theta()|, cs)), None, scale, None).value.entries, |cs|, |cs|)
    ensures res.CovTheta(None, Some(Many(cs)), scale, None).value.entries[i][j]
         == res.CovTheta(Some(SelectorRows(|res.Theta()|, cs)), None, scale, None).value.entries[i][j]
  {
    var n := |res.Theta()|;
    var nm := res.normalizedCovTheta.value;
    var sel := SelectorRows(n, cs);
    var s := scale.GetOr(res.scale);
    var a := res.CovTheta(None, Some(Many(cs)), scale, None);
    var b := res.CovTheta(Some(sel), None, scale, None);
    assert a.value.entries[i][j] == Scaled(nm[cs[i]][cs[j]], s);
    assert b.value.entries == TransformCov(nm, sel, sel, n, s);
    assert b.value.entries[i][j] == Scaled(Dot(sel[i], MatVec(nm, sel[j])), s);
    assert sel[i] == Unit(n, cs[i]) && sel[j] == Unit(n, cs[j]);
    UnitForm(nm, n, cs[i], cs[j]);
    assert b.value.entries[i][j] == Scaled(nm[cs[i]][cs[j]], s);
  }

  /** The variance of a single column is the covariance of the contrast
      made of that column's basis vector alone. */
  lemma ColumnIsUnitContrast(res: LikelihoodModelResults, c: nat, scale: Option<real>)
    requires res.Valid() && res.HasCov() && c < |res.Theta()|
    ensures res.CovTheta(Some([Unit(|res.Theta()|, c)]), None, scale, None).Ok?
    ensures res.CovTheta(None, Some(One(c)), scale, None)
         == Ok(Entry(res.CovTheta(Some([Unit(|res.Theta()|, c)]), None, scale, None).value.entries[0][0]))
  {
    var n := |res.Theta()|;
    var nm := res.normalizedCovTheta.value;
    var u := Unit(n, c);
    var s := scale.GetOr(res.scale);
    var b := res.CovTheta(Some([u]), None, scale, None);
    assert b.value.entries == TransformCov(nm, [u], [u], n, s);
    assert b.value.entries[0][0] == Scaled(Dot(u, MatVec(nm, u)), s);
    UnitForm(nm, n, c, c);
    assert b.value.entries[0][0] == Scaled(nm[c][c], s);
    var col: Option<Columns> := Some(One(c));
    assert col.Some? && col.value.One? && col.value.index == c;
    var a := res.CovTheta(None, col, scale, None);
    assert a.Ok?;
    assert a.value == Entry(Scaled(nm[col.value.index][col.value.index], scale.GetOr(res.scale)));
    assert a.value == Entry(Scaled(nm[c][c], s));
  }

  /** With a symmetric normalised covariance, swapping `matrix` and `other`
      transposes the result. */
  lemma CovarianceTransposes(res: LikelihoodModelResults, m: Matrix, o: Matrix, scale: Option<real>)
    requires res.Valid() && res.HasCov()
    requires IsSymmetric(res.normalizedCovTheta.value, |res.Theta()|)
    requires RowsOfLength(m, |res.Theta()|) && RowsOfLength(o, |res.Theta()|)
    ensures res.CovTheta(Some(m), None, scale, Some(o)).Ok?
    ensures res.CovTheta(Some(o), None, scale, Some(m)).Ok?
    ensures IsMatrix(res.CovTheta(Some(m), None, scale, Some(o)).value.entries, |m|, |o|)
    ensures IsMatrix(res.CovTheta(Some(o), None, scale, Some(m)).value.entries, |o|, |m|)
    ensures forall i, j :: 0 <= i < |m| && 0 <= j < |o| ==>
      res.CovTheta(Some(m), None, scale, Some(o)).value.entries[i][j]
        == res.CovTheta(Some(o), None, scale, Some(m)).value.entries[j][i]
  {
    var nm := res.normalizedCovTheta.value;
    forall i, j | 0 <= i < |m| && 0 <= j < |o|
      ensures Dot(m[i], MatVec(nm, o[j])) == Dot(o[j], MatVec(nm, m[i]))
    {
      BilinearSymmetric(m[i], nm, o[j]);
    }
  }

  /** When `other` is left out, the covariance of a contrast is symmetric
      (given a symmetric normalised covariance). */
  lemma ContrastCovarianceSymmetric(res: LikelihoodModelResults, m: Matrix, scale: Option<real>)
    requires res.Valid() && res.HasCov()
    requires IsSymmetric(res.normalizedCovTheta.value, |res.Theta()|)
    requires RowsOfLength(m, |res.Theta()|)
    ensures res.CovTheta(Some(m), None, scale, None).Ok?
    ensures IsSymmetric(res.CovTheta(Some(m), None, scale, None).value.entries, |m|)
  {
    CovarianceTransposes(res, m, m, scale);
  }

  /** `t` of a scalar column, of the one-element column list and of every
      parameter (no column) agree at that parameter. */
  lemma TAgreesAcrossColumnForms(res: LikelihoodModelResults, num: Numerics, c: nat)
    requires res.Valid() && res.HasCov() && c < |res.Theta()|
    ensures res.T(num, Some(One(c))).Ok?
    ensures res.T(num, Some(Many([c]))) == Ok(PerColumn([res.T(num, Some(One(c))).value.value]))
    ensures res.T(num, None).Ok? && |res.T(num, None).value.values| == |res.Theta()|
    ensures res.T(num, None).value.values[c] == res.T(num, Some(One(c))).value.value
  {
    var one := res.TOfColumn(num, c);
    var single := res.TOfColumns(num, [c]);
    assert single == [one];
    assert Range(|res.Theta()|)[c] == c;
  }

  /** A T contrast on the basis row of parameter `c` has `theta[c]` as its
      effect and `t(c)` as its only t statistic. */
  lemma UnitContrastIsT(res: LikelihoodModelResults, num: Numerics, c: nat, scale: Option<real>)
    requires res.Valid() && res.HasCov() && res.DfResid().Some? && c < |res.Theta()|
    ensures res.TContrast(num, [Unit(|res.Theta()|, c)], true, true, scale).Ok?
    ensures res.TContrast(num, [Unit(|res.Theta()|, c)], true, true, scale).value.effect
         == Some([res.Theta()[c]])
    ensures res.TContrast(num, [Unit(|res.Theta()|, c)], true, true, scale).value.t
         == Some([[res.T(num, Some(One(c))).value.value]])
  {
    var m := [Unit(|res.Theta()|, c)];
    var effect := MatVec(m, res.Theta());
    DotUnit(res.Theta(), c);
    assert effect == [res.Theta()[c]];
    var sd := UnitContrastSd(res, num, c);
    var tm := Broadcast(num, effect, res.ContrastSd(num, m));
    assert tm[0][0] == res.Theta()[c] * Recipr(num, sd);
    assert tm[0][0] == res.TOfColumn(num, c);
    assert tm[0] == [res.TOfColumn(num, c)];
    assert tm == [[res.TOfColumn(num, c)]];
    assert res.TContrast(num, m, true, true, scale).value.t == Some(tm);
    var col: Option<Columns> := Some(One(c));
    assert col.value.index == c;
    assert res.T(num, col).value.value == res.TOfColumn(num, c);
  }

  /** The standard deviation of the basis-row contrast of parameter `c`:
      the square root of its variance at the stored scale. */
  lemma UnitContrastSd(res: LikelihoodModelResults, num: Numerics, c: nat) returns (sd: real)
    requires res.Valid() && res.HasCov() && c < |res.Theta()|
    ensures sd == Sqrt(num, Scaled(res.normalizedCovTheta.value[c][c], res.scale))
    ensures res.ContrastSd(num, [Unit(|res.Theta()|, c)]) == [[sd]]
  {
    var n := |res.Theta()|;
    var nm := res.normalizedCovTheta.value;
    var u := Unit(n, c);
    UnitForm(nm, n, c, c);
    var cov := TransformCov(nm, [u], [u], n, res.scale);
    assert cov[0][0] == Scaled(Dot(u, MatVec(nm, u)), res.scale);
    assert cov[0][0] == Scaled(nm[c][c], res.scale);
    sd := Sqrt(num, Scaled(nm[c][c], res.scale));
    var sdm := res.ContrastSd(num, [u]);
    assert sdm[0][0] == sd;
    assert sdm[0] == [sd];
  }

  /** A T contrast whose rows are the basis vectors of columns `cs` has
      `theta[cs]` as its effect, and the diagonal of its t matrix is
      `t(cs)`. */
  lemma SelectorContrastIsT(res: LikelihoodModelResults, num: Numerics, cs: seq<nat>, scale: Option<real>)
    requires res.Valid() && res.HasCov() && res.DfResid().Some? && IndicesBelow(cs, |res.Theta()|)
    ensures res.TContrast(num, SelectorRows(|res.Theta()|, cs), true, true, scale).Ok?
    ensures res.TContrast(num, SelectorRows(|res.Theta()|, cs), true, true, scale).value.effect
         == Some(Pick(res.Theta(), cs))
    ensures IsMatrix(res.TContrast(num, SelectorRows(|res.Theta()|, cs), true, true, scale).value.t.value, |cs|, |cs|)
    ensures res.T(num, Some(Many(cs))).Ok? && |res.T(num, Some(Many(cs))).value.values| == |cs|
    ensures forall k :: 0 <= k < |cs| ==>
      res.TContrast(num, SelectorRows(|res.Theta()|, cs), true, true, scale).value.t.value[k][k]
        == res.T(num, Some(Many(cs))).value.values[k]
  {
    var sel := SelectorRows(|res.Theta()|, cs);
    SelectorPicks(|res.Theta()|, cs, res.Theta());
    var tm := Broadcast(num, MatVec(sel, res.Theta()), res.ContrastSd(num, sel));
    assert res.TContrast(num, sel, true, true, scale).value.t == Some(tm);
    forall k | 0 <= k < |cs|
      ensures tm[k][k] == res.TOfColumn(num, cs[k])
    {
      SelectorDiagonal(res, num, cs, k);
    }
  }

  /** Entry (k, k) of the t matrix of the selector contrast of `cs` is the
      t of column `cs[k]`. */
  lemma SelectorDiagonal(res: LikelihoodModelResults, num: Numerics, cs: seq<nat>, k: nat)
    requires res.Valid() && res.HasCov() && IndicesBelow(cs, |res.Theta()|) && k < |cs|
    ensures IsMatrix(Broadcast(num, MatVec(SelectorRows(|res.Theta()|, cs), res.Theta()),
                               res.ContrastSd(num, SelectorRows(|res.Theta()|, cs))), |cs|, |cs|)
    ensures Broadcast(num, MatVec(SelectorRows(|res.Theta()|, cs), res.Theta()),
                      res.ContrastSd(num, SelectorRows(|res.Theta()|, cs)))[k][k]
         == res.TOfColumn(num, cs[k])
  {
    var n := |res.Theta()|;
    var nm := res.normalizedCovTheta.value;
    var sel := SelectorRows(n, cs);
    var c := cs[k];
    SelectorPicks(n, cs, res.Theta());
    var effect := MatVec(sel, res.Theta());
    assert effect[k] == res.Theta()[c];
    assert sel[k] == Unit(n, c);
    UnitForm(nm, n, c, c);
    var cov := TransformCov(nm, sel, sel, n, res.scale);
    assert cov[k][k] == Scaled(Dot(sel[k], MatVec(nm, sel[k])), res.scale);
    assert cov[k][k] == Scaled(nm[c][c], res.scale);
    var sdm := res.ContrastSd(num, sel);
    assert sdm[k][k] == Sqrt(num, Scaled(nm[c][c], res.scale));
    var tm := Broadcast(num, effect, sdm);
    assert tm[k][k] == effect[k] * Recipr(num, sdm[k][k]);
    assert tm[k][k] == res.Theta()[c] * Recipr(num, Sqrt(num, Scaled(nm[c][c], res.scale)));
  }

  /** `Tcontrast` and `Fcontrast` never read their `scale` argument. */
  lemma ContrastsIgnoreScale(res: LikelihoodModelResults, num: Numerics, m: Matrix, t: bool, sd: bool,
                             s1: Option<real>, s2: Option<real>, invcov: Option<Matrix>)
    requires res.Valid()
    requires res.HasCov() ==> RowsOfLength(m, |res.Theta()|)
    requires t ==> sd
    requires res.HasCov() && invcov.Some? ==> IsMatrix(invcov.value, |m|, |m|)
    requires res.HasCov() && invcov.None? ==> InverseShaped(num, res.UnitScaleCov(m), |m|)
    ensures res.TContrast(num, m, t, sd, s1) == res.TContrast(num, m, t, sd, s2)
    ensures res.FContrast(num, m, s1, invcov) == res.FContrast(num, m, s2, invcov)
  {
  }

  /** Supplying as `invcov` the inverse `Fcontrast` would compute itself
      gives the same result as leaving it out. */
  lemma SuppliedInverseUnchanged(res: LikelihoodModelResults, num: Numerics, m: Matrix, scale: Option<real>)
    requires res.Valid() && res.HasCov() && RowsOfLength(m, |res.Theta()|)
    requires InverseShaped(num, res.UnitScaleCov(m), |m|)
    requires Inv(num, res.UnitScaleCov(m)).Some?
    ensures res.FContrast(num, m, scale, None) == res.FContrast(num, m, scale, Inv(num, res.UnitScaleCov(m)))
  {
  }

  /** `inv` and `recipr` are exact at the numbers an F test of one
      parameter meets: its variance `v` and the scale `s`, both positive. */
  predicate InverseExactAt(num: Numerics, v: real, s: real) {
    && v > 0.0 && s > 0.0
    && Inv(num, [[v]]) == Some([[1.0 / v]])
    && Recipr(num, s) == 1.0 / s
  }

  /** `sqrt` and `recipr` are exact at the standard error `sqrt(v·s)` a t
      test of one parameter meets. */
  predicate RootExactAt(num: Numerics, v: real, s: real) {
    && Sqrt(num, Scaled(v, s)) > 0.0
    && Sqrt(num, Scaled(v, s)) * Sqrt(num, Scaled(v, s)) == Scaled(v, s)
    && Recipr(num, Sqrt(num, Scaled(v, s))) == 1.0 / Sqrt(num, Scaled(v, s))
  }

  /** An F contrast on the basis row of parameter `c` has one numerator
      degree of freedom and, where the numeric routines are exact, F equals
      the square of `t(c)`. */
  lemma UnitFIsTSquared(res: LikelihoodModelResults, num: Numerics, c: nat)
    requires res.Valid() && res.HasCov() && res.DfResid().Some? && c < |res.Theta()|
    requires InverseExactAt(num, res.normalizedCovTheta.value[c][c], res.scale)
    requires RootExactAt(num, res.normalizedCovTheta.value[c][c], res.scale)
    ensures res.UnitScaleCov([Unit(|res.Theta()|, c)]) == [[res.normalizedCovTheta.value[c][c]]]
    ensures res.T(num, Some(One(c))).Ok?
    ensures res.FContrast(num, [Unit(|res.Theta()|, c)], None, None).Ok?
    ensures res.FContrast(num, [Unit(|res.Theta()|, c)], None, None).value.F
         == Some(Square(res.T(num, Some(One(c))).value.value))
    ensures res.FContrast(num, [Unit(|res.Theta()|, c)], None, None).value.dfNum == Some(1)
  {
    var v := res.normalizedCovTheta.value[c][c];
    var th := res.Theta()[c];
    UnitFValue(res, num, c);
    var root := Sqrt(num, Scaled(v, res.scale));
    var t := res.TOfColumn(num, c);
    assert t == th * (1.0 / root);
    RatioSquared(th, v, res.scale, root, t);
    var col: Option<Columns> := Some(One(c));
    assert col.value.index == c;
    assert res.T(num, col).value.value == t;
  }

  /** The variance of the basis-row contrast of parameter `c` at scale 1. */
  lemma UnitScaleCovOfUnit(res: LikelihoodModelResults, c: nat)
    requires res.Valid() && res.HasCov() && c < |res.Theta()|
    ensures res.UnitScaleCov([Unit(|res.Theta()|, c)]) == [[res.normalizedCovTheta.value[c][c]]]
  {
    var nm := res.normalizedCovTheta.value;
    UnitForm(nm, |res.Theta()|, c, c);
    var cov := res.UnitScaleCov([Unit(|res.Theta()|, c)]);
    assert cov[0][0] == nm[c][c];
    assert cov[0] == [nm[c][c]];
  }

  /** The F contrast on the basis row of parameter `c`, written out where
      the routines are exact: `theta[c]² / (v · scale)`. */
  lemma UnitFValue(res: LikelihoodModelResults, num: Numerics, c: nat)
    requires res.Valid() && res.HasCov() && res.DfResid().Some? && c < |res.Theta()|
    requires InverseExactAt(num, res.normalizedCovTheta.value[c][c], res.scale)
    ensures res.UnitScaleCov([Unit(|res.Theta()|, c)]) == [[res.normalizedCovTheta.value[c][c]]]
    ensures res.FContrast(num, [Unit(|res.Theta()|, c)], None, None).Ok?
    ensures res.FContrast(num, [Unit(|res.Theta()|, c)], None, None).value.F
         == Some(SquaredOver(res.Theta()[c], res.normalizedCovTheta.value[c][c], res.scale))
    ensures res.FContrast(num, [Unit(|res.Theta()|, c)], None, None).value.dfNum == Some(1)
  {
    var v := res.normalizedCovTheta.value[c][c];
    var u := Unit(|res.Theta()|, c);
    UnitScaleCovOfUnit(res, c);
    DotUnit(res.Theta(), c);
    assert MatVec([u], res.Theta()) == [res.Theta()[c]];
    assert res.InverseCov(num, [u], None) == Some([[1.0 / v]]);
    FStatisticOfOne(num, v, res.Theta()[c], res.scale);
    var r := res.FContrast(num, [u], None, None);
    assert r.Ok?;
    assert r.value.F == Some(FStatistic(num, res.InverseCov(num, [u], None).value, MatVec([u], res.Theta()), |[u]|, res.scale));
    assert r.value.F == Some(FStatistic(num, [[1.0 / v]], [res.Theta()[c]], 1, res.scale));
  }

  /** `x` squared. */
  function Square(x: real): real {
    x * x
  }

  /** `th² / (v · s)`, written as the F statistic of one row computes it. */
  function SquaredOver(th: real, v: real, s: real): real
    requires v != 0.0 && s != 0.0
  {
    th * ((1.0 / v) * th) * (1.0 / s)
  }

  /** The F statistic of a single contrast row of variance `v`. */
  lemma FStatisticOfOne(num: Numerics, v: real, th: real, s: real)
    requires v != 0.0 && s != 0.0 && Recipr(num, s) == 1.0 / s
    ensures FStatistic(num, [[1.0 / v]], [th], 1, s) == SquaredOver(th, v, s)
  {
    var a := 1.0 / v;
    assert Dot([a], [th]) == a * th + Dot([a][1..], [th][1..]);
    assert MatVec([[a]], [th]) == [a * th];
    assert Dot([th], [a * th]) == th * (a * th) + Dot([th][1..], [a * th][1..]);
    assert Scaled(1 as real, s) == s;
  }

  /** `th²/(v·s)` is the square of `th/r` when `r` is the positive root of `v·s`. */
  lemma RatioSquared(th: real, v: real, s: real, r: real, t: real)
    requires v > 0.0 && s > 0.0 && r > 0.0 && r * r == v * s
    requires t == th * (1.0 / r)
    ensures SquaredOver(th, v, s) == Square(t)
  {
  }
}

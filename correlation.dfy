/** IVIVC correlation plumbing and validation: pooling of per-formulation profiles for a
    Level A correlation, the single-point Level C correlation with its degenerate-input
    sentinel, the %PE validation with its pass/fail flags, and the Level C matrix over
    every pair of named parameters. Linear regression itself is a parameter. */
module IvivcCalculations {
  import opened Numerics
  import opened Series

  /** The five numbers a least-squares fit reports. */
  datatype Regression = Regression(slope: real, intercept: real, rValue: real, pValue: real, stdErr: real)

  /** A correlation: the fit, r², and the arrays it was computed from. */
  datatype Correlation = Correlation(
    slope: real, intercept: real, rSquared: real, pValue: real, stdErr: real,
    xs: seq<real>, ys: seq<real>)

  /** Fewer than two points cannot be fitted: the report is slope 0, intercept 0, r² 0,
      p 1 and standard error 0. */
  function Degenerate(x: seq<real>, y: seq<real>): (c: Correlation)
    ensures c.slope == 0.0 && c.intercept == 0.0 && c.stdErr == 0.0
    ensures c.rSquared == 0.0 && c.pValue == 1.0 && c.xs == x && c.ys == y
  {
    Correlation(0.0, 0.0, 0.0, 1.0, 0.0, x, y)
  }

  // ---------------------------------------------------------------- Level C

  /** Level C: the sentinel when fewer than two in-vitro values are given (only x is
      counted), otherwise the regression of y on x with r² = r·r. The arrays are always
      echoed. The fit itself needs equally long arrays. */
  function LevelCCorrelation(regress: (seq<real>, seq<real>) -> Regression, x: seq<real>, y: seq<real>): (c: Correlation)
    requires 2 <= |x| ==> |x| == |y|
    ensures c.xs == x && c.ys == y
    ensures 0.0 <= c.rSquared
    ensures |x| < 2 ==> c == Degenerate(x, y)
    ensures 2 <= |x| ==>
      var fit := regress(x, y);
      c.slope == fit.slope && c.intercept == fit.intercept && c.pValue == fit.pValue
      && c.stdErr == fit.stdErr && c.rSquared == fit.rValue * fit.rValue
  {
    if |x| < 2 then Degenerate(x, y)
    else
      var fit := regress(x, y);
      SquareNonNegative(fit.rValue);
      Correlation(fit.slope, fit.intercept, fit.rValue * fit.rValue, fit.pValue, fit.stdErr, x, y)
  }

  lemma SquareNonNegative(r: real)
    ensures 0.0 <= r * r
  {
    if r < 0.0 {
      assert r * r == (-r) * (-r);
    }
  }

  /** The outcome of a Level C correlation depends only on its two arrays and the fit:
      two regressors that agree on them give the same report, and a short x never
      consults the regressor at all. */
  lemma LevelCUsesOnlyItsFit(f: (seq<real>, seq<real>) -> Regression, g: (seq<real>, seq<real>) -> Regression, x: seq<real>, y: seq<real>)
    requires 2 <= |x| ==> |x| == |y|
    requires 2 <= |x| ==> f(x, y) == g(x, y)
    ensures LevelCCorrelation(f, x, y) == LevelCCorrelation(g, x, y)
  {
  }

  // ---------------------------------------------------------------- Level A pooling

  /** The first k formulations' xs, each cut to the length it shares with its partner in
      ys, concatenated in order. Pool(ys, xs, k) is the matching pooled partner. */
  function Pool(xs: seq<seq<real>>, ys: seq<seq<real>>, k: nat): (p: seq<real>)
    requires k <= |xs| && k <= |ys|
    ensures |p| == PooledLength(xs, ys, k)
  {
    if k == 0 then []
    else Pool(xs, ys, k - 1) + xs[k - 1][..MinInt(|xs[k - 1]|, |ys[k - 1]|)]
  }

  /** Σ over the first k formulations of the shared length. */
  function PooledLength(xs: seq<seq<real>>, ys: seq<seq<real>>, k: nat): nat
    requires k <= |xs| && k <= |ys|
  {
    if k == 0 then 0 else PooledLength(xs, ys, k - 1) + MinInt(|xs[k - 1]|, |ys[k - 1]|)
  }

  /** Both pooled arrays hold Σ min(len(diss_i), len(abs_i)) entries, so they always have
      equal length. */
  lemma {:induction false} PoolLength(xs: seq<seq<real>>, ys: seq<seq<real>>, k: nat)
    requires k <= |xs| && k <= |ys|
    ensures |Pool(xs, ys, k)| == |Pool(ys, xs, k)|
    ensures PooledLength(xs, ys, k) == PooledLength(ys, xs, k)
  {
    if k > 0 {
      PoolLength(xs, ys, k - 1);
    }
  }

  /** Pooling keeps every earlier formulation's block in place. */
  lemma {:induction false} PoolPrefix(xs: seq<seq<real>>, ys: seq<seq<real>>, i: nat, k: nat)
    requires i <= k <= |xs| && k <= |ys|
    ensures |Pool(xs, ys, i)| <= |Pool(xs, ys, k)|
    ensures Pool(xs, ys, k)[..|Pool(xs, ys, i)|] == Pool(xs, ys, i)
    decreases k - i
  {
    if i < k {
      PoolPrefix(xs, ys, i, k - 1);
      var front := Pool(xs, ys, k - 1);
      assert Pool(xs, ys, k)[..|front|] == front;
    }
  }

  /** Pairs stay aligned: sample j of formulation i sits at the same offset in both pooled
      arrays, dissolved value beside absorbed value. */
  lemma PoolPairsAligned(xs: seq<seq<real>>, ys: seq<seq<real>>, k: nat, i: nat, j: nat)
    requires i < k <= |xs| && k <= |ys|
    requires j < MinInt(|xs[i]|, |ys[i]|)
    ensures |Pool(ys, xs, k)| == |Pool(xs, ys, k)|
    ensures PooledLength(xs, ys, i) + j < |Pool(xs, ys, k)|
    ensures Pool(xs, ys, k)[PooledLength(xs, ys, i) + j] == xs[i][j]
    ensures Pool(ys, xs, k)[PooledLength(xs, ys, i) + j] == ys[i][j]
  {
    PoolLength(xs, ys, k);
    PoolLength(xs, ys, i);
    var off := PooledLength(xs, ys, i);
    PoolSample(xs, ys, k, i, j, off);
    PoolSample(ys, xs, k, i, j, off);
  }

  lemma PoolSample(xs: seq<seq<real>>, ys: seq<seq<real>>, k: nat, i: nat, j: nat, off: nat)
    requires i < k <= |xs| && k <= |ys|
    requires j < MinInt(|xs[i]|, |ys[i]|) && off == |Pool(xs, ys, i)|
    ensures off + j < |Pool(xs, ys, k)| && Pool(xs, ys, k)[off + j] == xs[i][j]
  {
    PoolPrefix(xs, ys, i + 1, k);
    var block := Pool(xs, ys, i + 1);
    assert block == Pool(xs, ys, i) + xs[i][..MinInt(|xs[i]|, |ys[i]|)];
    assert block[off + j] == xs[i][j];
    assert Pool(xs, ys, k)[..|block|][off + j] == block[off + j];
  }

  /** Level A: extends the two pooled lists formulation by formulation (pairing stops at
      the shorter list of formulations), then correlates them as Level C does. */
  method LevelACorrelation(regress: (seq<real>, seq<real>) -> Regression, dissolved: seq<seq<real>>, absorbed: seq<seq<real>>)
    returns (c: Correlation)
    ensures var k := MinInt(|dissolved|, |absorbed|);
      |Pool(dissolved, absorbed, k)| == |Pool(absorbed, dissolved, k)| &&
      c == LevelCCorrelation(regress, Pool(dissolved, absorbed, k), Pool(absorbed, dissolved, k))
  {
    var allDissolved: seq<real> := [];
    var allAbsorbed: seq<real> := [];
    var k := MinInt(|dissolved|, |absorbed|);
    for i := 0 to k
      invariant allDissolved == Pool(dissolved, absorbed, i)
      invariant allAbsorbed == Pool(absorbed, dissolved, i)
    {
      var n := MinInt(|dissolved[i]|, |absorbed[i]|);
      allDissolved := allDissolved + dissolved[i][..n];
      allAbsorbed := allAbsorbed + absorbed[i][..n];
    }
    PoolLength(dissolved, absorbed, k);
    if |allDissolved| < 2 {
      c := Degenerate(allDissolved, allAbsorbed);
    } else {
      var fit := regress(allDissolved, allAbsorbed);
      SquareNonNegative(fit.rValue);
      c := Correlation(fit.slope, fit.intercept, fit.rValue * fit.rValue, fit.pValue, fit.stdErr, allDissolved, allAbsorbed);
    }
  }

  // ---------------------------------------------------------------- %PE validation

  datatype Validation = Validation(
    peValues: seq<real>,
    absPe: seq<real>,
    meanAbsPe: Scalar,
    maxAbsPe: real,
    passesMean: bool,
    passesIndividual: bool,
    passesOverall: bool)

  /** The FDA limits: mean |%PE| at most 10, every individual |%PE| at most 15. */
  const MeanLimit: real := 10.0
  const IndividualLimit: real := 15.0

  /** %PE at one point: (predicted − observed) / observed · 100, or 0 where the observed
      value is 0. */
  function PercentError(predicted: real, observed: real): (pe: real)
    ensures observed == 0.0 ==> pe == 0.0
    ensures predicted == observed ==> pe == 0.0
  {
    if observed != 0.0 then (predicted - observed) / observed * 100.0 else 0.0
  }

  function AbsAll(s: seq<real>): (a: seq<real>)
    ensures |a| == |s| && NonNegative(a)
    ensures forall i :: 0 <= i < |s| ==> a[i] == Abs(s[i])
  {
    seq(|s|, i requires 0 <= i < |s| => Abs(s[i]))
  }

  /** The mean of an array; "not a number" for an empty one. */
  function Mean(s: seq<real>): (m: Scalar)
    ensures m.NaN? <==> |s| == 0
  {
    if |s| == 0 then NaN else Finite(Sum(s) / |s| as real)
  }

  /** What the validation reports for these predictions. */
  function ValidationSpec(pe: seq<real>): (v: Validation)
    ensures v.peValues == pe && v.absPe == AbsAll(pe)
    ensures v.passesMean <==> AtMost(v.meanAbsPe, MeanLimit)
    ensures v.passesIndividual <==> v.maxAbsPe <= IndividualLimit
    ensures v.passesOverall <==> v.passesMean && v.passesIndividual
  {
    var absPe := AbsAll(pe);
    var mean := Mean(absPe);
    var max := if |absPe| > 0 then MaxOf(absPe) else 0.0;
    Validation(pe, absPe, mean, max, AtMost(mean, MeanLimit), max <= IndividualLimit,
      AtMost(mean, MeanLimit) && max <= IndividualLimit)
  }

  /** Writes %PE into a zeroed array at the positions where the observed value is
      non-zero, then summarises. */
  method ComputePredictionError(predicted: seq<real>, observed: seq<real>) returns (v: Validation)
    requires |predicted| == |observed|
    ensures |v.peValues| == |predicted|
    ensures forall i :: 0 <= i < |predicted| ==> v.peValues[i] == PercentError(predicted[i], observed[i])
    ensures v == ValidationSpec(v.peValues)
  {
    var n := |predicted|;
    var pe := new real[n](_ => 0.0);
    for i := 0 to n
      invariant forall k :: 0 <= k < i ==> pe[k] == PercentError(predicted[k], observed[k])
      invariant forall k :: i <= k < n ==> pe[k] == 0.0
    {
      if observed[i] != 0.0 {
        pe[i] := (predicted[i] - observed[i]) / observed[i] * 100.0;
      }
    }
    v := ValidationSpec(pe[..]);
  }

  /** The individual criterion holds exactly when every |%PE| is within 15. */
  lemma PassesIndividualIffAllWithin(pe: seq<real>)
    ensures ValidationSpec(pe).passesIndividual <==> forall i :: 0 <= i < |pe| ==> Abs(pe[i]) <= IndividualLimit
  {
    var absPe := AbsAll(pe);
    if |pe| > 0 {
      var k := ArgMax(absPe);
      assert absPe[k] == Abs(pe[k]);
    }
  }

  /** The mean |%PE| of a non-empty array never exceeds its maximum. */
  lemma MeanAtMostMax(pe: seq<real>)
    requires |pe| > 0
    ensures AtMost(ValidationSpec(pe).meanAbsPe, ValidationSpec(pe).maxAbsPe)
  {
    var absPe := AbsAll(pe);
    var max := MaxOf(absPe);
    SumAtMostCount(absPe, max);
    SumNonNegative(absPe);
    QuotientBetween(Sum(absPe), |absPe| as real, 0.0, max);
  }

  /** n values none above a bound sum to at most n times the bound. */
  lemma {:induction false} SumAtMostCount(s: seq<real>, bound: real)
    requires forall i :: 0 <= i < |s| ==> s[i] <= bound
    ensures Sum(s) <= bound * |s| as real
  {
    if |s| > 0 {
      var n := |s| - 1;
      SumAtMostCount(s[..n], bound);
      Distribute(bound, n as real, 1.0);
    }
  }

  /** Exact predictions of a non-empty set give every %PE 0, mean and maximum 0, and pass
      all three criteria. */
  lemma PerfectPredictionPasses(values: seq<real>)
    requires |values| > 0
    ensures forall i :: 0 <= i < |values| ==> PercentError(values[i], values[i]) == 0.0
    ensures var v := ValidationSpec(seq(|values|, i requires 0 <= i < |values| => PercentError(values[i], values[i])));
      v.meanAbsPe == Finite(0.0) && v.maxAbsPe == 0.0 && v.passesMean && v.passesIndividual && v.passesOverall
  {
    var pe := seq(|values|, i requires 0 <= i < |values| => PercentError(values[i], values[i]));
    var absPe := AbsAll(pe);
    forall i | 0 <= i < |absPe|
      ensures absPe[i] == 0.0
    {
      assert pe[i] == 0.0;
    }
    SumZero(absPe);
  }

  /** An empty validation has no mean: it fails the mean criterion, passes the individual
      one (its maximum is 0), and so fails overall. */
  lemma EmptyPredictionFails()
    ensures var v := ValidationSpec([]);
      v.meanAbsPe == NaN && v.maxAbsPe == 0.0 && !v.passesMean && v.passesIndividual && !v.passesOverall
  {
  }

  // ---------------------------------------------------------------- correlation matrix

  /** Fills r², slope and p of the Level C correlation of every (in-vitro, in-vivo)
      parameter pair into three n_iv × n_vivo matrices. A name is looked up only when the
      other list is non-empty, so only then must every name be present. */
  method BuildCorrelationMatrix(
    regress: (seq<real>, seq<real>) -> Regression,
    inVitro: map<string, seq<real>>, inVivo: map<string, seq<real>>,
    ivNames: seq<string>, vivoNames: seq<string>)
    returns (r2: array2<real>, slope: array2<real>, pValue: array2<real>)
    requires |vivoNames| > 0 ==> forall a :: a in ivNames ==> a in inVitro
    requires |ivNames| > 0 ==> forall b :: b in vivoNames ==> b in inVivo
    requires forall a, b :: a in ivNames && b in vivoNames && 2 <= |inVitro[a]| ==> |inVitro[a]| == |inVivo[b]|
    ensures fresh(r2) && fresh(slope) && fresh(pValue)
    ensures r2.Length0 == slope.Length0 == pValue.Length0 == |ivNames|
    ensures r2.Length1 == slope.Length1 == pValue.Length1 == |vivoNames|
    ensures forall i, j :: 0 <= i < |ivNames| && 0 <= j < |vivoNames| ==>
      var c := LevelCCorrelation(regress, inVitro[ivNames[i]], inVivo[vivoNames[j]]);
      r2[i, j] == c.rSquared && slope[i, j] == c.slope && pValue[i, j] == c.pValue
  {
    var nIv, nVivo := |ivNames|, |vivoNames|;
    r2 := new real[nIv, nVivo]((_, _) => 0.0);
    slope := new real[nIv, nVivo]((_, _) => 0.0);
    pValue := new real[nIv, nVivo]((_, _) => 0.0);
    for i := 0 to nIv
      invariant forall i', j :: 0 <= i' < i && 0 <= j < nVivo ==>
        var c := LevelCCorrelation(regress, inVitro[ivNames[i']], inVivo[vivoNames[j]]);
        r2[i', j] == c.rSquared && slope[i', j] == c.slope && pValue[i', j] == c.pValue
    {
      for j := 0 to nVivo
        invariant forall i', j' :: 0 <= i' < i && 0 <= j' < nVivo ==>
          var c := LevelCCorrelation(regress, inVitro[ivNames[i']], inVivo[vivoNames[j']]);
          r2[i', j'] == c.rSquared && slope[i', j'] == c.slope && pValue[i', j'] == c.pValue
        invariant forall j' :: 0 <= j' < j ==>
          var c := LevelCCorrelation(regress, inVitro[ivNames[i]], inVivo[vivoNames[j']]);
          r2[i, j'] == c.rSquared && slope[i, j'] == c.slope && pValue[i, j'] == c.pValue
      {
        var result := LevelCCorrelation(regress, inVitro[ivNames[i]], inVivo[vivoNames[j]]);
        r2[i, j] := result.rSquared;
        slope[i, j] := result.slope;
        pValue[i, j] := result.pValue;
      }
    }
  }
}

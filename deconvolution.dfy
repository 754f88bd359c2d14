/** Deconvolution of a plasma profile into an absorption profile: the Wagner–Nelson
    method for one-compartment kinetics and the point-area numerical deconvolution
    against a sampled impulse response. Both fill their arrays step by step, so each is
    a method proved equal to a specification function, and the properties are lemmas
    about the specification. */
module Deconvolution {
  import opened Numerics
  import opened Series

  // ================================================================ Wagner–Nelson

  datatype WagnerNelsonResult = WagnerNelsonResult(
    times: seq<real>,
    fractionAbsorbed: seq<real>,
    aucCumulative: seq<real>,
    aucTotal: real,
    amountAbsorbed: seq<real>)

  /** AUC(0, ∞): the last cumulative area plus the extrapolated tail C_last / ke, or no
      tail when ke is not positive (so ke is never a divisor there). */
  function AucTotal(cum: seq<real>, conc: seq<real>, ke: real): (total: real)
    requires |cum| == |conc| > 0
    ensures ke <= 0.0 ==> total == cum[|cum| - 1]
    ensures ke > 0.0 ==> ke * total == conc[|conc| - 1] + ke * cum[|cum| - 1]
  {
    var last := |cum| - 1;
    if ke > 0.0 then
      TailCancels(ke, cum[last], conc[last]);
      cum[last] + conc[last] / ke
    else cum[last]
  }

  /** The unnormalised amount absorbed C(t) + ke·AUC(0, t). */
  function AmountAbsorbed(conc: seq<real>, ke: real, cum: seq<real>): (amount: seq<real>)
    requires |conc| == |cum|
    ensures |amount| == |conc|
  {
    seq(|conc|, i requires 0 <= i < |conc| => conc[i] + ke * cum[i])
  }

  /** amount / denom clipped to [0, 1], or 0 when the denominator is not positive. */
  function FractionAt(amount: real, denom: real): (f: real)
    ensures 0.0 <= f <= 1.0
    ensures denom <= 0.0 ==> f == 0.0
  {
    if denom > 0.0 then Clip(amount / denom, 0.0, 1.0) else 0.0
  }

  function Fractions(amount: seq<real>, ke: real, total: real): (fa: seq<real>)
    ensures |fa| == |amount|
    ensures forall i :: 0 <= i < |amount| ==> fa[i] == FractionAt(amount[i], ke * total)
  {
    seq(|amount|, i requires 0 <= i < |amount| => FractionAt(amount[i], ke * total))
  }

  /** The loop both deconvolutions share: a zeroed array whose entry i becomes entry i − 1
      plus the trapezoid over [x[i−1], x[i]]. */
  method FillCumulativeArea(y: seq<real>, x: seq<real>) returns (cum: seq<real>)
    requires |y| == |x| > 0
    ensures cum == CumulativeTrapz(y, x)
  {
    var n := |y|;
    var area := new real[n](_ => 0.0);
    for i := 1 to n
      invariant forall k :: 0 <= k < i ==> area[k] == RunningTrapz(y, x, k)
    {
      var panel := 0.5 * (y[i - 1] + y[i]) * (x[i] - x[i - 1]);
      assert area[i - 1] + panel == RunningTrapz(y, x, i);
      area[i] := area[i - 1] + panel;
    }
    cum := area[..];
    assert forall k :: 0 <= k < n ==> cum[k] == RunningTrapz(y, x, k);
  }

  /** What the Wagner–Nelson method returns for these samples. */
  function WagnerNelsonSpec(times: seq<real>, conc: seq<real>, ke: real): (res: WagnerNelsonResult)
    requires |times| == |conc| > 0
    ensures res.times == times
    ensures |res.fractionAbsorbed| == |res.aucCumulative| == |res.amountAbsorbed| == |times|
  {
    var cum := CumulativeTrapz(conc, times);
    var total := AucTotal(cum, conc, ke);
    var amount := AmountAbsorbed(conc, ke, cum);
    WagnerNelsonResult(times, Fractions(amount, ke, total), cum, total, amount)
  }

  /** Fills the cumulative AUC array interval by interval, then extrapolates, normalises
      and clips. */
  method WagnerNelson(times: seq<real>, conc: seq<real>, ke: real) returns (res: WagnerNelsonResult)
    requires |times| == |conc| > 0
    ensures res == WagnerNelsonSpec(times, conc, ke)
  {
    var cum := FillCumulativeArea(conc, times);
    var total := AucTotal(cum, conc, ke);
    var amount := AmountAbsorbed(conc, ke, cum);
    res := WagnerNelsonResult(times, Fractions(amount, ke, total), cum, total, amount);
  }

  /** The cumulative AUC starts at 0 and, for non-negative concentrations over
      non-decreasing times, never decreases. */
  lemma AucCumulativeNonDecreasing(times: seq<real>, conc: seq<real>)
    requires |times| == |conc| > 0
    ensures CumulativeTrapz(conc, times)[0] == 0.0
    ensures NonNegative(conc) && NonDecreasing(times) ==> NonDecreasing(CumulativeTrapz(conc, times))
  {
    if NonNegative(conc) && NonDecreasing(times) {
      var cum := CumulativeTrapz(conc, times);
      forall i, j | 0 <= i <= j < |cum|
        ensures cum[i] <= cum[j]
      {
        RunningTrapzMonotone(conc, times, i, j);
      }
    }
  }

  /** Every fraction absorbed lies in [0, 1], and all are 0 when ke·AUC(0, ∞) ≤ 0. */
  lemma WagnerNelsonFractionsBounded(times: seq<real>, conc: seq<real>, ke: real)
    requires |times| == |conc| > 0
    ensures forall i :: 0 <= i < |times| ==> 0.0 <= WagnerNelsonSpec(times, conc, ke).fractionAbsorbed[i] <= 1.0
    ensures ke * WagnerNelsonSpec(times, conc, ke).aucTotal <= 0.0 ==>
      forall i :: 0 <= i < |times| ==> WagnerNelsonSpec(times, conc, ke).fractionAbsorbed[i] == 0.0
  {
    var res := WagnerNelsonSpec(times, conc, ke);
    assert res.fractionAbsorbed == Fractions(res.amountAbsorbed, ke, res.aucTotal);
  }

  /** With ke > 0 the tail is C_last / ke, so ke·AUC(0, ∞) is exactly the last amount
      absorbed: whenever that denominator is positive the last fraction is 1. */
  lemma WagnerNelsonEndsAtOne(times: seq<real>, conc: seq<real>, ke: real)
    requires |times| == |conc| > 0 && ke > 0.0
    ensures var res := WagnerNelsonSpec(times, conc, ke);
      ke * res.aucTotal == res.amountAbsorbed[|times| - 1]
    ensures var res := WagnerNelsonSpec(times, conc, ke);
      ke * res.aucTotal > 0.0 ==> res.fractionAbsorbed[|times| - 1] == 1.0
  {
    var res := WagnerNelsonSpec(times, conc, ke);
    var last := |times| - 1;
    var c, x := res.aucCumulative[last], conc[last];
    TailCancels(ke, c, x);
    var denom := ke * res.aucTotal;
    if denom > 0.0 {
      assert res.amountAbsorbed[last] / denom == 1.0;
    }
  }

  lemma TailCancels(ke: real, c: real, x: real)
    requires ke > 0.0
    ensures ke * (c + x / ke) == x + ke * c
  {
    assert ke * (x / ke) == x;
  }

  /** Normalising by one denominator and clipping keeps the order of the amounts. */
  lemma FractionsMonotone(amount: seq<real>, ke: real, total: real)
    requires NonDecreasing(amount)
    ensures NonDecreasing(Fractions(amount, ke, total))
  {
    var fa := Fractions(amount, ke, total);
    forall i, j | 0 <= i <= j < |amount|
      ensures fa[i] <= fa[j]
    {
      FractionAtMonotone(amount[i], amount[j], ke * total);
    }
  }

  lemma FractionAtMonotone(a: real, b: real, denom: real)
    requires a <= b
    ensures FractionAt(a, denom) <= FractionAt(b, denom)
  {
    if denom > 0.0 {
      DivideMonotone(a, b, denom);
      ClipMonotone(a / denom, b / denom, 0.0, 1.0);
    }
  }

  /** Where the amount absorbed never decreases, neither does the fraction absorbed. */
  lemma WagnerNelsonFractionMonotone(times: seq<real>, conc: seq<real>, ke: real)
    requires |times| == |conc| > 0
    requires NonDecreasing(WagnerNelsonSpec(times, conc, ke).amountAbsorbed)
    ensures NonDecreasing(WagnerNelsonSpec(times, conc, ke).fractionAbsorbed)
  {
    var res := WagnerNelsonSpec(times, conc, ke);
    assert res.fractionAbsorbed == Fractions(res.amountAbsorbed, ke, res.aucTotal);
    FractionsMonotone(res.amountAbsorbed, ke, res.aucTotal);
  }

  lemma DivideMonotone(a: real, b: real, d: real)
    requires a <= b && 0.0 < d
    ensures a / d <= b / d
  {
    assert a / d * d == a && b / d * d == b;
  }

  // ================================================================ point-area deconvolution

  datatype DeconvolutionResult = DeconvolutionResult(
    times: seq<real>,
    inputRate: seq<real>,
    fractionAbsorbed: seq<real>)

  /** The index of the right end of interval j, held at the last sample. */
  function IntervalEnd(n: nat, j: nat): (e: nat)
    requires j < n
    ensures e < n && (j + 1 < n ==> e == j + 1) && (j + 1 == n ==> e == j)
  {
    MinInt(j + 1, n - 1)
  }

  /** Σ_{k<j} r[k]·h[i−k]·(t[min(k+1, n−1)] − t[k]): what the earlier rates already
      contribute to the concentration at sample i. */
  function PriorSum(times: seq<real>, h: seq<real>, r: seq<real>, i: nat, j: nat): (s: real)
    requires j <= |r| && j <= i < |times| <= |h|
    ensures (forall k :: 0 <= k < j ==> r[k] == 0.0) ==> s == 0.0
  {
    if j == 0 then 0.0
    else
      var k := j - 1;
      PriorSum(times, h, r, i, k) + r[k] * h[i - k] * (times[IntervalEnd(|times|, k)] - times[k])
  }

  /** The rate at sample i = |r| given the earlier (un-floored) rates r: the residual
      concentration over h[0]·Δt_i, 0 for a non-positive step, conc[0] / (h[0]·dt) at
      the first sample, and 0 throughout when h[0] ≤ 0. */
  function NextRate(times: seq<real>, conc: seq<real>, h: seq<real>, dt: real, r: seq<real>): (rate: real)
    requires |r| < |times| <= |h| && |h| > 0
    requires h[0] > 0.0 ==> |conc| >= |times| && dt != 0.0
    ensures h[0] <= 0.0 ==> rate == 0.0
    ensures 0 < |r| && times[|r|] - times[|r| - 1] <= 0.0 ==> rate == 0.0
  {
    var i := |r|;
    if h[0] > 0.0 && i > 0 then
      var step := times[i] - times[i - 1];
      if step > 0.0 then (conc[i] - PriorSum(times, h, r, i, i)) / (h[0] * step) else 0.0
    else if i == 0 && h[0] > 0.0 then
      conc[0] / (h[0] * dt)
    else
      0.0
  }

  /** The first k un-floored rates of the recurrence. */
  function RawRates(times: seq<real>, conc: seq<real>, h: seq<real>, dt: real, k: nat): (r: seq<real>)
    requires k <= |times| <= |h| && |h| > 0
    requires h[0] > 0.0 ==> |conc| >= |times| && dt != 0.0
    ensures |r| == k
  {
    if k == 0 then []
    else
      var prev := RawRates(times, conc, h, dt, k - 1);
      prev + [NextRate(times, conc, h, dt, prev)]
  }

  function FloorAtZero(r: seq<real>): (f: seq<real>)
    ensures |f| == |r| && NonNegative(f)
    ensures forall i :: 0 <= i < |r| && 0.0 <= r[i] ==> f[i] == r[i]
  {
    seq(|r|, i requires 0 <= i < |r| => MaxReal(r[i], 0.0))
  }

  /** The cumulative curve divided by its final value when that value is positive. */
  function Normalised(cum: seq<real>): (fa: seq<real>)
    requires |cum| > 0
    ensures |fa| == |cum|
    ensures cum[|cum| - 1] <= 0.0 ==> fa == cum
    ensures cum[|cum| - 1] > 0.0 ==> forall i :: 0 <= i < |cum| ==> fa[i] == cum[i] / cum[|cum| - 1]
    ensures cum[|cum| - 1] > 0.0 ==> fa[|cum| - 1] == 1.0
    ensures cum[0] == 0.0 ==> fa[0] == 0.0
  {
    var last := cum[|cum| - 1];
    if last > 0.0 then
      var fa := seq(|cum|, i requires 0 <= i < |cum| => cum[i] / last);
      assert fa[|cum| - 1] == last / last == 1.0;
      fa
    else cum
  }

  /** What point-area deconvolution returns for these samples. */
  function NumericalDeconvolutionSpec(times: seq<real>, conc: seq<real>, h: seq<real>, dt: real): (res: DeconvolutionResult)
    requires 0 < |times| <= |h|
    requires h[0] > 0.0 ==> |conc| >= |times| && dt != 0.0
    ensures res.times == times && |res.inputRate| == |res.fractionAbsorbed| == |times|
  {
    var rates := FloorAtZero(RawRates(times, conc, h, dt, |times|));
    DeconvolutionResult(times, rates, Normalised(CumulativeTrapz(rates, times)))
  }

  /** The inner loop: what rates r[0..i) contribute at sample i. */
  method PriorContribution(times: seq<real>, h: seq<real>, r: array<real>, i: nat) returns (sumPrev: real)
    requires i < |times| <= |h| && |times| <= r.Length
    ensures sumPrev == PriorSum(times, h, r[..i], i, i)
  {
    var n := |times|;
    sumPrev := 0.0;
    for j := 0 to i
      invariant sumPrev == PriorSum(times, h, r[..i], i, j)
    {
      assert r[..i][j] == r[j];
      sumPrev := sumPrev + r[j] * h[i - j] * (times[MinInt(j + 1, n - 1)] - times[j]);
    }
  }

  /** The nested recurrence loop: for each sample, accumulate what the earlier rates
      contribute, then solve for the current rate. */
  method PointAreaRates(times: seq<real>, conc: seq<real>, h: seq<real>, dt: real) returns (raw: seq<real>)
    requires 0 < |times| <= |h|
    requires h[0] > 0.0 ==> |conc| >= |times| && dt != 0.0
    ensures raw == RawRates(times, conc, h, dt, |times|)
  {
    var n := |times|;
    var r := new real[n](_ => 0.0);
    for i := 0 to n
      invariant r[..i] == RawRates(times, conc, h, dt, i)
    {
      var sumPrev := PriorContribution(times, h, r, i);
      ghost var prev := r[..i];
      var rate := SolveRate(times, conc, h, dt, i, prev, sumPrev);
      r[i] := rate;
      assert r[..i + 1] == prev + [rate];
    }
    raw := r[..];
  }

  /** The loop body's solve step, given what the earlier rates contribute. */
  method SolveRate(times: seq<real>, conc: seq<real>, h: seq<real>, dt: real, i: nat, ghost prev: seq<real>, sumPrev: real)
    returns (rate: real)
    requires i == |prev| < |times| <= |h| && |h| > 0
    requires h[0] > 0.0 ==> |conc| >= |times| && dt != 0.0
    requires sumPrev == PriorSum(times, h, prev, |prev|, |prev|)
    ensures rate == NextRate(times, conc, h, dt, prev)
  {
    rate := 0.0;
    if h[0] > 0.0 && i > 0 {
      var timeStep := times[i] - times[i - 1];
      rate := if timeStep > 0.0 then (conc[i] - sumPrev) / (h[0] * timeStep) else 0.0;
    } else if i == 0 && h[0] > 0.0 {
      rate := conc[0] / (h[0] * dt);
    }
  }

  /** Divides every entry by the last one, in place, when the last one is positive. */
  method RescaleByLast(a: array<real>)
    requires a.Length > 0
    modifies a
    ensures a[..] == Normalised(old(a[..]))
  {
    var last := a[a.Length - 1];
    if last > 0.0 {
      for i := 0 to a.Length
        invariant forall k :: 0 <= k < i ==> a[k] == old(a[k]) / last
        invariant forall k :: i <= k < a.Length ==> a[k] == old(a[k])
      {
        a[i] := a[i] / last;
      }
    }
  }

  /** Point-area deconvolution: the rate recurrence, the floor at zero, the cumulative
      area of the floored rates, and its normalisation. */
  method NumericalDeconvolution(times: seq<real>, conc: seq<real>, h: seq<real>, dt: real) returns (res: DeconvolutionResult)
    requires 0 < |times| <= |h|
    requires h[0] > 0.0 ==> |conc| >= |times| && dt != 0.0
    ensures res == NumericalDeconvolutionSpec(times, conc, h, dt)
  {
    var raw := PointAreaRates(times, conc, h, dt);
    var rates := FloorAtZero(raw);
    var cum := FillCumulativeArea(rates, times);
    var fa := new real[|cum|](i requires 0 <= i < |cum| => cum[i]);
    assert fa[..] == cum;
    RescaleByLast(fa);
    res := DeconvolutionResult(times, rates, fa[..]);
  }

  /** Every returned input rate is non-negative; when h[0] ≤ 0 every rate is 0. */
  lemma {:induction false} RawRatesVanishWithoutResponse(times: seq<real>, conc: seq<real>, h: seq<real>, dt: real, k: nat)
    requires k <= |times| <= |h| && |h| > 0 && h[0] <= 0.0
    ensures forall i :: 0 <= i < k ==> RawRates(times, conc, h, dt, k)[i] == 0.0
  {
    if k > 0 {
      RawRatesVanishWithoutResponse(times, conc, h, dt, k - 1);
    }
  }

  lemma InputRateNonNegative(times: seq<real>, conc: seq<real>, h: seq<real>, dt: real)
    requires 0 < |times| <= |h|
    requires h[0] > 0.0 ==> |conc| >= |times| && dt != 0.0
    ensures NonNegative(NumericalDeconvolutionSpec(times, conc, h, dt).inputRate)
    ensures h[0] <= 0.0 ==> forall i :: 0 <= i < |times| ==>
      NumericalDeconvolutionSpec(times, conc, h, dt).inputRate[i] == 0.0
  {
    if h[0] <= 0.0 {
      RawRatesVanishWithoutResponse(times, conc, h, dt, |times|);
    }
  }

  /** Each raw rate is the recurrence step applied to the rates before it. */
  lemma {:induction false} RawRatesPrefix(times: seq<real>, conc: seq<real>, h: seq<real>, dt: real, i: nat, k: nat)
    requires i < k <= |times| <= |h| && |h| > 0
    requires h[0] > 0.0 ==> |conc| >= |times| && dt != 0.0
    ensures RawRates(times, conc, h, dt, k)[..i] == RawRates(times, conc, h, dt, i)
    ensures RawRates(times, conc, h, dt, k)[i] == NextRate(times, conc, h, dt, RawRates(times, conc, h, dt, i))
  {
    if i + 1 < k {
      RawRatesPrefix(times, conc, h, dt, i, k - 1);
      var prev := RawRates(times, conc, h, dt, k - 1);
      assert RawRates(times, conc, h, dt, k)[..k - 1] == prev;
    }
  }

  /** At a later sample with a non-positive step the raw rate is 0. */
  lemma RateZeroOnNonPositiveStep(times: seq<real>, conc: seq<real>, h: seq<real>, dt: real, i: nat)
    requires 0 < i < |times| <= |h|
    requires h[0] > 0.0 ==> |conc| >= |times| && dt != 0.0
    requires times[i] - times[i - 1] <= 0.0
    ensures RawRates(times, conc, h, dt, |times|)[i] == 0.0
  {
    RawRatesPrefix(times, conc, h, dt, i, |times|);
  }

  /** A cumulative curve that starts at 0 and never exceeds its non-negative final
      value normalises into [0, 1]; with a positive final value it ends at exactly 1. */
  lemma NormalisedBounded(cum: seq<real>)
    requires |cum| > 0 && cum[0] == 0.0
    requires forall i :: 0 <= i < |cum| ==> 0.0 <= cum[i] <= cum[|cum| - 1]
    ensures forall i :: 0 <= i < |cum| ==> 0.0 <= Normalised(cum)[i] <= 1.0
  {
    var last := cum[|cum| - 1];
    var fa := Normalised(cum);
    forall i | 0 <= i < |cum|
      ensures 0.0 <= fa[i] <= 1.0
    {
      if last > 0.0 {
        QuotientBetween(cum[i], last, 0.0, 1.0);
      }
    }
  }

  /** The normalised cumulative area of any rates starts at 0 and ends at exactly 1
      whenever the total area is positive. */
  lemma NormalisedAreaEnds(rates: seq<real>, times: seq<real>)
    requires |rates| == |times| > 0
    ensures Normalised(CumulativeTrapz(rates, times))[0] == 0.0
    ensures RunningTrapz(rates, times, |times| - 1) > 0.0 ==>
      Normalised(CumulativeTrapz(rates, times))[|times| - 1] == 1.0
  {
    var cum := CumulativeTrapz(rates, times);
    assert cum[0] == 0.0;
    assert cum[|times| - 1] == RunningTrapz(rates, times, |times| - 1);
  }

  /** The cumulative fraction of the deconvolution starts at 0 and ends at exactly 1
      whenever the total area of the floored rates is positive. */
  lemma DeconvolutionFractionEnds(times: seq<real>, conc: seq<real>, h: seq<real>, dt: real)
    requires 0 < |times| <= |h|
    requires h[0] > 0.0 ==> |conc| >= |times| && dt != 0.0
    ensures var res := NumericalDeconvolutionSpec(times, conc, h, dt);
      res.fractionAbsorbed[0] == 0.0
      && (RunningTrapz(res.inputRate, times, |times| - 1) > 0.0 ==> res.fractionAbsorbed[|times| - 1] == 1.0)
  {
    var res := NumericalDeconvolutionSpec(times, conc, h, dt);
    NormalisedAreaEnds(res.inputRate, times);
  }

  /** Over non-decreasing times the cumulative fraction lies in [0, 1]. */
  lemma DeconvolutionFractionBounded(times: seq<real>, conc: seq<real>, h: seq<real>, dt: real)
    requires 0 < |times| <= |h|
    requires h[0] > 0.0 ==> |conc| >= |times| && dt != 0.0
    requires NonDecreasing(times)
    ensures var res := NumericalDeconvolutionSpec(times, conc, h, dt);
      forall i :: 0 <= i < |times| ==> 0.0 <= res.fractionAbsorbed[i] <= 1.0
  {
    var res := NumericalDeconvolutionSpec(times, conc, h, dt);
    var rates := res.inputRate;
    var n := |times|;
    var cum := CumulativeTrapz(rates, times);
    forall i | 0 <= i < n
      ensures 0.0 <= cum[i] <= cum[n - 1]
    {
      RunningTrapzMonotone(rates, times, 0, i);
      RunningTrapzMonotone(rates, times, i, n - 1);
    }
    assert res.fractionAbsorbed == Normalised(cum);
    NormalisedBounded(cum);
  }
}

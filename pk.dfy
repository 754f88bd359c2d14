/** Plasma-concentration models and their exposure summaries: the one-compartment oral
    model, the IV-bolus impulse response, the bi-exponential depot, discrete convolution
    of a release rate with an impulse response, and AUC, AUMC and MRT. */
module PkModels {
  import opened Numerics
  import opened Series

  /** Below this gap between ka and ke the oral model switches to its limiting form. */
  const RateTolerance: real := 0.0000000001

  // ---------------------------------------------------------------- small sign facts

  lemma ProductNonNegative(a: real, b: real)
    requires (0.0 <= a && 0.0 <= b) || (a <= 0.0 && b <= 0.0)
    ensures 0.0 <= a * b
  {
    if 0.0 <= a && 0.0 <= b {
      ScaleBetween(a, b, 0.0, a);
    } else {
      assert 0.0 <= (-a) * (-b) by {
        ScaleBetween(-a, -b, 0.0, -a);
      }
    }
  }

  lemma QuotientSign(n: real, d: real)
    requires 0.0 <= n && d != 0.0
    ensures 0.0 < d ==> 0.0 <= n / d
    ensures d < 0.0 ==> n / d <= 0.0
  {
    assert n / d * d == n;
  }

  /** For rate, t ≥ 0 the decay factor e^(−rate·t) lies in (0, 1]. */
  lemma DecayBounded(m: Math, rate: real, t: real)
    requires Lawful(m) && 0.0 <= rate && 0.0 <= t
    ensures 0.0 < m.exp(-rate * t) <= 1.0
  {
    ProductNonNegative(rate, t);
  }

  // ---------------------------------------------------------------- one-compartment oral

  /** C(t) for first-order absorption and elimination; the limiting form
      (dose/vd)·ka·t·e^(−ke·t) when |ka − ke| < 1e-10. */
  function OneCompartmentAt(m: Math, t: real, dose: real, ka: real, ke: real, vd: real): (c: real)
    requires vd != 0.0
    ensures dose == 0.0 ==> c == 0.0
  {
    if Abs(ka - ke) < RateTolerance then LimitForm(dose, vd, ka, t, m.exp(-ke * t))
    else BatemanForm(dose, vd, ka, ke, m.exp(-ke * t), m.exp(-ka * t))
  }

  /** (dose/vd)·ka·t·e, with e = e^(−ke·t). */
  function LimitForm(dose: real, vd: real, ka: real, t: real, e: real): (v: real)
    requires vd != 0.0
    ensures t == 0.0 || e == 0.0 || dose == 0.0 ==> v == 0.0
  {
    (dose / vd) * ka * t * e
  }

  /** dose·ka / (vd·(ka − ke)) · (eKe − eKa), with eKe = e^(−ke·t) and eKa = e^(−ka·t). */
  function BatemanForm(dose: real, vd: real, ka: real, ke: real, eKe: real, eKa: real): (v: real)
    requires vd != 0.0 && ka != ke
    ensures eKe == eKa || dose == 0.0 ==> v == 0.0
  {
    (dose * ka) / (vd * (ka - ke)) * (eKe - eKa)
  }

  /** Nothing has been absorbed at dosing time: C(0) = 0 in both forms. */
  lemma OneCompartmentStartsAtZero(m: Math, dose: real, ka: real, ke: real, vd: real)
    requires Lawful(m) && vd != 0.0
    ensures OneCompartmentAt(m, 0.0, dose, ka, ke, vd) == 0.0
  {
    assert -ke * 0.0 == 0.0 && -ka * 0.0 == 0.0;
  }

  function OneCompartmentOral(m: Math, t: seq<real>, dose: real, ka: real, ke: real, vd: real): (c: seq<real>)
    requires vd != 0.0
    ensures |c| == |t|
    ensures forall i :: 0 <= i < |t| ==> c[i] == OneCompartmentAt(m, t[i], dose, ka, ke, vd)
  {
    seq(|t|, i requires 0 <= i < |t| => OneCompartmentAt(m, t[i], dose, ka, ke, vd))
  }

  /** e^x is monotone, as `Lawful` states it. */
  lemma ExpOrdered(m: Math, x: real, y: real)
    requires Lawful(m) && x <= y
    ensures m.exp(x) <= m.exp(y)
  {
  }

  /** The limiting form (dose/vd)·ka·t·e is non-negative for non-negative factors. */
  lemma LimitFormNonNegative(dose: real, vd: real, ka: real, t: real, e: real)
    requires 0.0 <= dose && 0.0 < vd && 0.0 <= ka && 0.0 <= t && 0.0 <= e
    ensures 0.0 <= LimitForm(dose, vd, ka, t, e)
  {
    var perVolume := dose / vd;
    QuotientSign(dose, vd);
    ProductNonNegative(perVolume, ka);
    ProductNonNegative(perVolume * ka, t);
    ProductNonNegative(perVolume * ka * t, e);
  }

  /** The Bateman form dose·ka / (vd·(ka − ke)) · (eKe − eKa) is non-negative when the
      faster rate has the smaller decay factor. */
  lemma BatemanFormNonNegative(dose: real, vd: real, ka: real, ke: real, eKe: real, eKa: real)
    requires 0.0 <= dose && 0.0 < vd && 0.0 <= ka && ka != ke
    requires ke < ka ==> eKa <= eKe
    requires ka < ke ==> eKe <= eKa
    ensures 0.0 <= BatemanForm(dose, vd, ka, ke, eKe, eKa)
  {
    var num, den := dose * ka, vd * (ka - ke);
    ProductNonNegative(dose, ka);
    if ke < ka {
      assert 0.0 < den by {
        ScaleBetween(ka - ke, vd, 0.0, ka - ke);
        assert 0.0 < (ka - ke) * vd;
      }
    } else {
      assert den < 0.0 by {
        assert 0.0 < (ke - ka) * vd;
      }
    }
    QuotientSign(num, den);
    ProductNonNegative(num / den, eKe - eKa);
  }

  /** A non-negative dose into a positive volume with non-negative rate constants never
      gives a negative concentration at t ≥ 0, in either branch: the coefficient and the
      difference of the two decays always share their sign. */
  lemma OneCompartmentNonNegative(m: Math, t: real, dose: real, ka: real, ke: real, vd: real)
    requires Lawful(m)
    requires 0.0 <= dose && 0.0 < vd && 0.0 <= ka && 0.0 <= ke && 0.0 <= t
    ensures 0.0 <= OneCompartmentAt(m, t, dose, ka, ke, vd)
  {
    var eKe, eKa := m.exp(-ke * t), m.exp(-ka * t);
    if Abs(ka - ke) < RateTolerance {
      DecayBounded(m, ke, t);
      LimitFormNonNegative(dose, vd, ka, t, eKe);
    } else {
      if ke < ka {
        ProductNonNegative(ka - ke, t);
        ExpOrdered(m, -ka * t, -ke * t);
      } else {
        ProductNonNegative(ke - ka, t);
        ExpOrdered(m, -ke * t, -ka * t);
      }
      BatemanFormNonNegative(dose, vd, ka, ke, eKe, eKa);
    }
  }

  // ---------------------------------------------------------------- impulse response

  /** The IV-bolus unit impulse response h(t) = e^(−ke·t) / vd. */
  function ImpulseAt(m: Math, t: real, ke: real, vd: real): (h: real)
    requires vd != 0.0
    ensures h * vd == m.exp(-ke * t)
  {
    (1.0 / vd) * m.exp(-ke * t)
  }

  /** The unit dose starts spread over the whole volume: h(0) = 1/vd. */
  lemma ImpulseStartsAtInverseVolume(m: Math, ke: real, vd: real)
    requires Lawful(m) && vd != 0.0
    ensures ImpulseAt(m, 0.0, ke, vd) == 1.0 / vd
  {
    assert -ke * 0.0 == 0.0;
  }

  function ImpulseResponse1Comp(m: Math, t: seq<real>, ke: real, vd: real): (h: seq<real>)
    requires vd != 0.0
    ensures |h| == |t|
    ensures forall i :: 0 <= i < |t| ==> h[i] == ImpulseAt(m, t[i], ke, vd)
  {
    seq(|t|, i requires 0 <= i < |t| => ImpulseAt(m, t[i], ke, vd))
  }

  /** At t ≥ 0, with ke ≥ 0 and a positive volume, h(t) lies in (0, 1/vd]. */
  lemma ImpulseBounded(m: Math, t: real, ke: real, vd: real)
    requires Lawful(m) && 0.0 <= ke && 0.0 < vd && 0.0 <= t
    ensures 0.0 < ImpulseAt(m, t, ke, vd) <= 1.0 / vd
  {
    var e := m.exp(-ke * t);
    assert 0.0 < e <= 1.0 by { DecayBounded(m, ke, t); }
    var scale := 1.0 / vd;
    assert 0.0 < scale * e <= scale by {
      ScaleBetween(e, scale, 0.0, 1.0);
    }
  }

  /** With ke ≥ 0, h never increases: s ≤ t gives h(t) ≤ h(s). */
  lemma ImpulseMonotone(m: Math, s: real, t: real, ke: real, vd: real)
    requires Lawful(m) && 0.0 <= ke && 0.0 < vd && s <= t
    ensures ImpulseAt(m, t, ke, vd) <= ImpulseAt(m, s, ke, vd)
  {
    assert -ke * t <= -ke * s by {
      ProductNonNegative(ke, t - s);
    }
    var es, et := m.exp(-ke * s), m.exp(-ke * t);
    ExpOrdered(m, -ke * t, -ke * s);
    ScaleBetween(et, 1.0 / vd, et, es);
  }

  /** With ke ≥ 0 and a positive volume the response is positive, never above its
      starting value 1/vd, and never increases over non-decreasing times. */
  lemma ImpulseResponseDecays(m: Math, t: seq<real>, ke: real, vd: real)
    requires Lawful(m) && 0.0 <= ke && 0.0 < vd
    requires NonDecreasing(t) && (forall i :: 0 <= i < |t| ==> 0.0 <= t[i])
    ensures forall i :: 0 <= i < |t| ==> 0.0 < ImpulseResponse1Comp(m, t, ke, vd)[i] <= 1.0 / vd
    ensures forall i, j :: 0 <= i <= j < |t| ==>
      ImpulseResponse1Comp(m, t, ke, vd)[j] <= ImpulseResponse1Comp(m, t, ke, vd)[i]
  {
    var h := ImpulseResponse1Comp(m, t, ke, vd);
    forall i | 0 <= i < |t|
      ensures 0.0 < h[i] <= 1.0 / vd
    {
      ImpulseBounded(m, t[i], ke, vd);
    }
    forall i, j | 0 <= i <= j < |t|
      ensures h[j] <= h[i]
    {
      ImpulseMonotone(m, t[i], t[j], ke, vd);
    }
  }

  // ---------------------------------------------------------------- bi-exponential depot

  /** C(t) = a1·e^(−α1·t)·(1 − e^(−ka·t)) + a2·e^(−α2·t). */
  function DepotAt(m: Math, t: real, a1: real, alpha1: real, ka: real, a2: real, alpha2: real): (c: real)
    ensures m.exp(-ka * t) == 1.0 ==> c == a2 * m.exp(-alpha2 * t)
  {
    a1 * m.exp(-alpha1 * t) * (1.0 - m.exp(-ka * t)) + a2 * m.exp(-alpha2 * t)
  }

  /** At injection only the immediately available part a2 is in plasma: C(0) = a2. */
  lemma DepotStartsAtA2(m: Math, a1: real, alpha1: real, ka: real, a2: real, alpha2: real)
    requires Lawful(m)
    ensures DepotAt(m, 0.0, a1, alpha1, ka, a2, alpha2) == a2
  {
    assert -alpha1 * 0.0 == 0.0 && -ka * 0.0 == 0.0 && -alpha2 * 0.0 == 0.0;
  }

  function BiexponentialDepot(m: Math, t: seq<real>, a1: real, alpha1: real, ka: real, a2: real, alpha2: real): (c: seq<real>)
    ensures |c| == |t|
    ensures forall i :: 0 <= i < |t| ==> c[i] == DepotAt(m, t[i], a1, alpha1, ka, a2, alpha2)
  {
    seq(|t|, i requires 0 <= i < |t| => DepotAt(m, t[i], a1, alpha1, ka, a2, alpha2))
  }

  /** Non-negative coefficients and rate constants give a non-negative depot curve at
      t ≥ 0, and a positive one when a2 > 0. */
  lemma DepotNonNegative(m: Math, t: real, a1: real, alpha1: real, ka: real, a2: real, alpha2: real)
    requires Lawful(m) && 0.0 <= t
    requires 0.0 <= a1 && 0.0 <= alpha1 && 0.0 <= ka && 0.0 <= a2 && 0.0 <= alpha2
    ensures 0.0 <= DepotAt(m, t, a1, alpha1, ka, a2, alpha2)
    ensures 0.0 < a2 ==> 0.0 < DepotAt(m, t, a1, alpha1, ka, a2, alpha2)
  {
    DecayBounded(m, alpha1, t);
    DecayBounded(m, ka, t);
    DecayBounded(m, alpha2, t);
    PhasesNonNegative(a1, m.exp(-alpha1 * t), m.exp(-ka * t), a2, m.exp(-alpha2 * t));
  }

  /** The sign argument for the depot curve, over the decay factors alone. */
  lemma PhasesNonNegative(a1: real, e1: real, eKa: real, a2: real, e2: real)
    requires 0.0 <= a1 && 0.0 < e1 && 0.0 < eKa <= 1.0 && 0.0 <= a2 && 0.0 < e2
    ensures 0.0 <= a1 * e1 * (1.0 - eKa) + a2 * e2
    ensures 0.0 < a2 ==> 0.0 < a1 * e1 * (1.0 - eKa) + a2 * e2
  {
    ProductNonNegative(a1, e1);
    ProductNonNegative(a1 * e1, 1.0 - eKa);
    ProductNonNegative(a2, e2);
    if 0.0 < a2 {
      assert 0.0 < a2 * e2 by {
        ScaleBetween(e2, a2, 0.0, e2);
        assert 0.0 < e2 * a2;
      }
    }
  }

  // ---------------------------------------------------------------- convolution

  /** The step dt the convolution is scaled by: the first sampling interval, or 1 when
      the grid has fewer than two points. */
  function ConvolutionStep(times: seq<real>): (dt: real)
    ensures |times| < 2 ==> dt == 1.0
    ensures 2 <= |times| ==> dt == times[1] - times[0]
  {
    if |times| > 1 then times[1] - times[0] else 1.0
  }

  /** rate[i]·h[k − i] when k − i indexes h, and 0 otherwise. */
  function ConvolutionTerm(rate: seq<real>, h: seq<real>, k: int, i: int): real
    requires 0 <= i < |rate|
  {
    if 0 <= k - i < |h| then rate[i] * h[k - i] else 0.0
  }

  function ConvolutionTerms(rate: seq<real>, h: seq<real>, k: int): (terms: seq<real>)
    ensures |terms| == |rate|
    ensures forall i :: 0 <= i < |rate| ==> terms[i] == ConvolutionTerm(rate, h, k, i)
  {
    seq(|rate|, i requires 0 <= i < |rate| => ConvolutionTerm(rate, h, k, i))
  }

  /** Entry k of the full discrete convolution: Σ over i + j = k of rate[i]·h[j]. */
  function FullConvolutionAt(rate: seq<real>, h: seq<real>, k: int): (r: real)
    ensures k < 0 || |rate| + |h| - 1 <= k ==> r == 0.0
  {
    var terms := ConvolutionTerms(rate, h, k);
    if k < 0 || |rate| + |h| - 1 <= k then
      SumZero(terms);
      Sum(terms)
    else
      Sum(terms)
  }

  /** The full convolution of rate and h (both non-empty, as the library demands) scaled
      by dt and cut to the length of the time grid. */
  function ConvolveDissolutionPk(times: seq<real>, rate: seq<real>, h: seq<real>): (c: seq<real>)
    requires |rate| > 0 && |h| > 0
    ensures |c| == MinInt(|times|, |rate| + |h| - 1)
    ensures forall k :: 0 <= k < |c| ==> c[k] == FullConvolutionAt(rate, h, k) * ConvolutionStep(times)
  {
    var dt := ConvolutionStep(times);
    seq(MinInt(|times|, |rate| + |h| - 1), k requires 0 <= k => FullConvolutionAt(rate, h, k) * dt)
  }

  /** A non-negative rate through a non-negative response over a grid whose first step is
      non-negative gives a non-negative concentration profile. */
  lemma ConvolutionNonNegative(times: seq<real>, rate: seq<real>, h: seq<real>)
    requires |rate| > 0 && |h| > 0
    requires NonNegative(rate) && NonNegative(h)
    requires 2 <= |times| ==> times[0] <= times[1]
    ensures NonNegative(ConvolveDissolutionPk(times, rate, h))
  {
    var c := ConvolveDissolutionPk(times, rate, h);
    var dt := ConvolutionStep(times);
    forall k | 0 <= k < |c|
      ensures 0.0 <= c[k]
    {
      var terms := ConvolutionTerms(rate, h, k);
      forall i | 0 <= i < |terms|
        ensures 0.0 <= terms[i]
      {
        if 0 <= k - i < |h| {
          ProductNonNegative(rate[i], h[k - i]);
        }
      }
      SumNonNegative(terms);
      ProductNonNegative(FullConvolutionAt(rate, h, k), dt);
    }
  }

  /** A single-sample response [c] acts as a scaled identity: entry k is dt·c·rate[k]. */
  lemma ConvolutionWithSingleSample(times: seq<real>, rate: seq<real>, c: real)
    requires |rate| > 0
    ensures forall k :: 0 <= k < |ConvolveDissolutionPk(times, rate, [c])| ==>
      ConvolveDissolutionPk(times, rate, [c])[k] == rate[k] * c * ConvolutionStep(times)
  {
    var out := ConvolveDissolutionPk(times, rate, [c]);
    forall k | 0 <= k < |out|
      ensures out[k] == rate[k] * c * ConvolutionStep(times)
    {
      var terms := ConvolutionTerms(rate, [c], k);
      forall i | 0 <= i < |terms| && i != k
        ensures terms[i] == 0.0
      {
      }
      SumSingleNonZero(terms, k);
    }
  }

  // ---------------------------------------------------------------- exposure summaries

  /** AUC: the trapezoid rule over the concentration samples. */
  function ComputeAuc(times: seq<real>, conc: seq<real>): (auc: real)
    requires |times| == |conc|
    ensures |conc| <= 1 ==> auc == 0.0
  {
    Trapz(conc, times)
  }

  /** AUMC: the trapezoid rule over t·C(t). */
  function ComputeAumc(times: seq<real>, conc: seq<real>): (aumc: real)
    requires |times| == |conc|
    ensures |conc| <= 1 ==> aumc == 0.0
  {
    Trapz(Products(times, conc), times)
  }

  /** MRT = AUMC / AUC, or 0 when the AUC is 0. */
  function ComputeMrt(times: seq<real>, conc: seq<real>): (mrt: real)
    requires |times| == |conc|
    ensures ComputeAuc(times, conc) == 0.0 ==> mrt == 0.0
  {
    var auc := ComputeAuc(times, conc);
    if auc == 0.0 then 0.0 else ComputeAumc(times, conc) / auc
  }

  /** AUC is the sum of the interval trapezoids, each ½(C[i] + C[i+1])·(t[i+1] − t[i]),
      and is never negative for non-negative samples over non-decreasing times. */
  lemma AucIsTrapezoidSum(times: seq<real>, conc: seq<real>)
    requires |times| == |conc|
    ensures NonNegative(conc) && NonDecreasing(times) ==> 0.0 <= ComputeAuc(times, conc)
    ensures 0 < |conc| ==>
      ComputeAuc(times, conc) == Sum(Panels(conc, times, |conc| - 1))
  {
    if NonNegative(conc) && NonDecreasing(times) {
      TrapzNonNegative(conc, times);
    }
    if 0 < |conc| {
      RunningTrapzIsPanelSum(conc, times, |conc| - 1);
    }
  }

  /** One trapezoid of t·C against the plain trapezoid of C over [ta, tb] ⊆ [lo, hi]:
      ½(ta·a + tb·b)·w lies between lo and hi times ½(a + b)·w. */
  lemma TrapezoidMomentBetween(a: real, b: real, ta: real, tb: real, lo: real, hi: real)
    requires 0.0 <= a && 0.0 <= b && lo <= ta <= tb <= hi
    ensures lo * (0.5 * (a + b) * (tb - ta)) <= 0.5 * (ta * a + tb * b) * (tb - ta)
    ensures 0.5 * (ta * a + tb * b) * (tb - ta) <= hi * (0.5 * (a + b) * (tb - ta))
  {
    var w := tb - ta;
    ScaleBetween(ta, a, lo, hi);
    ScaleBetween(tb, b, lo, hi);
    assert lo * (a + b) <= ta * a + tb * b <= hi * (a + b);
    ScaleBetween(ta * a + tb * b, 0.5 * w, lo * (a + b), hi * (a + b));
  }

  /** Each moment panel lies between lo and hi times the plain panel when its two
      sample times lie in [lo, hi]. */
  lemma MomentPanelBetween(times: seq<real>, conc: seq<real>, i: nat, lo: real, hi: real)
    requires |times| == |conc| && i + 1 < |conc|
    requires times[i] <= times[i + 1] && 0.0 <= conc[i] && 0.0 <= conc[i + 1]
    requires lo <= times[i] && times[i + 1] <= hi
    ensures lo * Panel(conc, times, i) <= Panel(Products(times, conc), times, i) <= hi * Panel(conc, times, i)
  {
    var a, b, ta, tb := conc[i], conc[i + 1], times[i], times[i + 1];
    TrapezoidMomentBetween(a, b, ta, tb, lo, hi);
    assert Panel(conc, times, i) == 0.5 * (a + b) * (tb - ta);
    assert Panel(Products(times, conc), times, i) == 0.5 * (ta * a + tb * b) * (tb - ta);
  }

  /** Every moment panel of a non-negative profile over non-decreasing times inside
      [lo, hi] lies between lo and hi times its plain panel. */
  lemma MomentPanelsBetween(times: seq<real>, conc: seq<real>, lo: real, hi: real)
    requires |times| == |conc| > 0
    requires NonDecreasing(times) && NonNegative(conc)
    requires forall i :: 0 <= i < |times| ==> lo <= times[i] <= hi
    ensures Bracketed(Panels(conc, times, |conc| - 1), Panels(Products(times, conc), times, |conc| - 1), lo, hi)
  {
    var n := |conc| - 1;
    var plain, moment := Panels(conc, times, n), Panels(Products(times, conc), times, n);
    forall i | 0 <= i < n
      ensures lo * plain[i] <= moment[i] <= hi * plain[i]
    {
      MomentPanelBetween(times, conc, i, lo, hi);
    }
    BracketedFrom(plain, moment, lo, hi);
  }

  /** The weighted-mean step on its own: with every moment panel between lo and hi times
      its plain panel and a positive AUC, MRT lies in [lo, hi]. */
  lemma MrtBetween(times: seq<real>, conc: seq<real>, lo: real, hi: real)
    requires |times| == |conc| > 0
    requires Bracketed(Panels(conc, times, |conc| - 1), Panels(Products(times, conc), times, |conc| - 1), lo, hi)
    requires 0.0 < ComputeAuc(times, conc)
    ensures lo <= ComputeMrt(times, conc) <= hi
  {
    var n := |conc| - 1;
    var plain, moment := Panels(conc, times, n), Panels(Products(times, conc), times, n);
    assert ComputeAuc(times, conc) == Sum(plain) by { RunningTrapzIsPanelSum(conc, times, n); }
    assert ComputeAumc(times, conc) == Sum(moment) by { RunningTrapzIsPanelSum(Products(times, conc), times, n); }
    WeightedMeanBetween(plain, moment, lo, hi);
  }

  /** For non-negative samples over non-decreasing times with a positive AUC, MRT is a
      concentration-weighted mean time and lies within the sampling window. */
  lemma MrtWithinSamplingWindow(times: seq<real>, conc: seq<real>)
    requires |times| == |conc| > 0
    requires NonDecreasing(times) && NonNegative(conc)
    requires 0.0 < ComputeAuc(times, conc)
    ensures times[0] <= ComputeMrt(times, conc) <= times[|times| - 1]
  {
    MomentPanelsBetween(times, conc, times[0], times[|times| - 1]);
    MrtBetween(times, conc, times[0], times[|times| - 1]);
  }
}

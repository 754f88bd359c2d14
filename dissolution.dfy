/** In-vitro release curves and their summary moments: first-order and Higuchi release,
    mean dissolution time, dissolution efficiency and the f1/f2 similarity factors.
    Every function maps whole sample arrays to arrays or scalars, as the vectorised
    originals do. */
module DissolutionModels {
  import opened Numerics
  import opened Series

  // ---------------------------------------------------------------- release curves

  /** First-order release at one time: fMax·(1 − e^(−k·t)); nothing while the
      exponential is still 1, and the plateau fMax once it has decayed to 0. */
  function FirstOrderAt(m: Math, t: real, k: real, fMax: real): (r: real)
    ensures m.exp(-k * t) == 1.0 ==> r == 0.0
    ensures m.exp(-k * t) == 0.0 ==> r == fMax
  {
    fMax * (1.0 - m.exp(-k * t))
  }

  /** First-order release F(t) = fMax·(1 − e^(−k·t)) at every sample time. */
  function FirstOrderRelease(m: Math, t: seq<real>, k: real, fMax: real): (r: seq<real>)
    ensures |r| == |t| && forall i :: 0 <= i < |t| ==> r[i] == FirstOrderAt(m, t[i], k, fMax)
  {
    seq(|t|, i requires 0 <= i < |t| => FirstOrderAt(m, t[i], k, fMax))
  }

  lemma FirstOrderPointBounded(m: Math, t: real, k: real, fMax: real)
    requires Lawful(m) && 0.0 <= k && 0.0 <= fMax && 0.0 <= t
    ensures 0.0 <= FirstOrderAt(m, t, k, fMax) <= fMax
  {
    assert -k * t <= 0.0 by {
      ScaleBetween(k, t, 0.0, k);
    }
    var e := m.exp(-k * t);
    assert 0.0 < e <= 1.0;
    ComplementScaled(e, fMax);
  }

  /** fMax·(1 − e) lies in [0, fMax] for e in [0, 1]. */
  lemma ComplementScaled(e: real, fMax: real)
    requires 0.0 <= e <= 1.0 && 0.0 <= fMax
    ensures 0.0 <= fMax * (1.0 - e) <= fMax
  {
    ScaleBetween(1.0 - e, fMax, 0.0, 1.0);
  }

  /** Nothing is released at t = 0, and with k, fMax ≥ 0 every sample at t ≥ 0 lies in
      [0, fMax]. */
  lemma FirstOrderReleaseBounded(m: Math, t: seq<real>, k: real, fMax: real)
    requires Lawful(m)
    ensures forall i :: 0 <= i < |t| && t[i] == 0.0 ==> FirstOrderRelease(m, t, k, fMax)[i] == 0.0
    ensures 0.0 <= k && 0.0 <= fMax ==>
      forall i :: 0 <= i < |t| && 0.0 <= t[i] ==> 0.0 <= FirstOrderRelease(m, t, k, fMax)[i] <= fMax
  {
    var r := FirstOrderRelease(m, t, k, fMax);
    forall i | 0 <= i < |t| && t[i] == 0.0
      ensures r[i] == 0.0
    {
      assert -k * t[i] == 0.0;
    }
    if 0.0 <= k && 0.0 <= fMax {
      forall i | 0 <= i < |t| && 0.0 <= t[i]
        ensures 0.0 <= r[i] <= fMax
      {
        FirstOrderPointBounded(m, t[i], k, fMax);
      }
    }
  }

  /** Later times never show less release than earlier ones. */
  lemma FirstOrderPointMonotone(m: Math, s: real, t: real, k: real, fMax: real)
    requires Lawful(m) && 0.0 <= k && 0.0 <= fMax && s <= t
    ensures FirstOrderAt(m, s, k, fMax) <= FirstOrderAt(m, t, k, fMax)
  {
    assert -k * t <= -k * s by {
      ScaleBetween(k, t - s, 0.0, k);
    }
    var es, et := m.exp(-k * s), m.exp(-k * t);
    assert et <= es;
    ScaleBetween(1.0 - es, fMax, 1.0 - es, 1.0 - et);
  }

  /** With k, fMax ≥ 0 release never decreases over non-decreasing sample times. */
  lemma FirstOrderReleaseNonDecreasing(m: Math, t: seq<real>, k: real, fMax: real)
    requires Lawful(m) && 0.0 <= k && 0.0 <= fMax && NonDecreasing(t)
    ensures NonDecreasing(FirstOrderRelease(m, t, k, fMax))
  {
    var r := FirstOrderRelease(m, t, k, fMax);
    forall i, j | 0 <= i <= j < |t|
      ensures r[i] <= r[j]
    {
      FirstOrderPointMonotone(m, t[i], t[j], k, fMax);
    }
  }


  /** Higuchi release kH·√t at one time, capped at fMax: never above the cap, never
      above the uncapped square-root law, and equal to one of the two. */
  function HiguchiAt(m: Math, t: real, kH: real, fMax: real): (r: real)
    ensures r <= fMax && r <= kH * m.sqrt(t)
    ensures r == fMax || r == kH * m.sqrt(t)
  {
    MinReal(kH * m.sqrt(t), fMax)
  }

  /** Higuchi release at every sample time. */
  function HiguchiRelease(m: Math, t: seq<real>, kH: real, fMax: real): (r: seq<real>)
    ensures |r| == |t|
    ensures forall i :: 0 <= i < |t| ==> r[i] == HiguchiAt(m, t[i], kH, fMax)
  {
    seq(|t|, i requires 0 <= i < |t| => HiguchiAt(m, t[i], kH, fMax))
  }

  /** With kH ≥ 0 and a non-negative cap every sample at t ≥ 0 lies in [0, fMax], and
      nothing is released at t = 0 when √0 = 0. */
  lemma HiguchiReleaseBounded(m: Math, t: seq<real>, kH: real, fMax: real)
    requires forall x: real :: 0.0 <= x ==> 0.0 <= m.sqrt(x)
    requires 0.0 <= kH && 0.0 <= fMax
    ensures forall i :: 0 <= i < |t| && 0.0 <= t[i] ==> 0.0 <= HiguchiRelease(m, t, kH, fMax)[i] <= fMax
    ensures m.sqrt(0.0) == 0.0 ==> forall i :: 0 <= i < |t| && t[i] == 0.0 ==> HiguchiRelease(m, t, kH, fMax)[i] == 0.0
  {
    var r := HiguchiRelease(m, t, kH, fMax);
    forall i | 0 <= i < |t| && 0.0 <= t[i]
      ensures 0.0 <= r[i] <= fMax
    {
      var s := m.sqrt(t[i]);
      assert 0.0 <= s;
      ScaleBetween(kH, s, 0.0, kH);
    }
    if m.sqrt(0.0) == 0.0 {
      forall i | 0 <= i < |t| && t[i] == 0.0
        ensures r[i] == 0.0
      {
        assert kH * m.sqrt(t[i]) == 0.0;
      }
    }
  }

  // ---------------------------------------------------------------- moments

  /** Mean dissolution time: the release-weighted mean of the interval midpoints,
      Σ t_mid·ΔF / Σ ΔF, or 0 when the increments sum to 0. */
  function ComputeMdt(times: seq<real>, release: seq<real>): (mdt: real)
    requires |times| == |release|
    ensures Sum(Diff(release)) == 0.0 ==> mdt == 0.0
  {
    var dF := Diff(release);
    var total := Sum(dF);
    if total == 0.0 then 0.0 else Sum(Products(Midpoints(times), dF)) / total
  }

  /** The increments sum to the net release, so MDT falls back to 0 exactly when the
      last sample equals the first. */
  lemma MdtFallsBackOnFlatProfile(times: seq<real>, release: seq<real>)
    requires |times| == |release| > 0
    ensures Sum(Diff(release)) == release[|release| - 1] - release[0]
    ensures release[|release| - 1] == release[0] ==> ComputeMdt(times, release) == 0.0
  {
    DiffTelescopes(release);
  }

  lemma MidpointsBetween(times: seq<real>)
    requires |times| > 0 && NonDecreasing(times)
    ensures forall i :: 0 <= i < |Midpoints(times)| ==>
      times[0] <= Midpoints(times)[i] <= times[|times| - 1]
  {
  }

  /** The weighted-mean step on its own: midpoints inside [lo, hi], non-negative
      increments and a positive total put MDT inside [lo, hi]. */
  lemma MdtBetween(times: seq<real>, release: seq<real>, lo: real, hi: real)
    requires |times| == |release| > 0
    requires forall i :: 0 <= i < |Midpoints(times)| ==> lo <= Midpoints(times)[i] <= hi
    requires NonNegative(Diff(release)) && 0.0 < Sum(Diff(release))
    ensures lo <= ComputeMdt(times, release) <= hi
  {
    var dF, mid := Diff(release), Midpoints(times);
    WeightsBracketed(mid, dF, lo, hi);
    WeightedMeanBetween(dF, Products(mid, dF), lo, hi);
  }

  /** For a non-decreasing profile over non-decreasing times with some net release,
      MDT is a weighted mean of the midpoints and so lies within the sampling window. */
  lemma MdtWithinSamplingWindow(times: seq<real>, release: seq<real>)
    requires |times| == |release| > 0
    requires NonDecreasing(times) && NonDecreasing(release)
    requires release[0] < release[|release| - 1]
    ensures times[0] <= ComputeMdt(times, release) <= times[|times| - 1]
  {
    DiffTelescopes(release);
    DiffNonNegative(release);
    MidpointsBetween(times);
    MdtBetween(times, release, times[0], times[|times| - 1]);
  }

  /** Dissolution efficiency: the area under the release curve as a percentage of the
      rectangle release[last]·(t_last − t_0), or 0 when that rectangle is empty. */
  function ComputeDe(times: seq<real>, release: seq<real>): (de: real)
    requires |times| == |release| > 0
    ensures release[|release| - 1] * (times[|times| - 1] - times[0]) == 0.0 ==> de == 0.0
  {
    var auc := Trapz(release, times);
    var maxPossible := release[|release| - 1] * (times[|times| - 1] - times[0]);
    if maxPossible == 0.0 then 0.0 else auc / maxPossible * 100.0
  }

  /** A non-negative, non-decreasing profile over non-decreasing times has an efficiency
      between 0 and 100 %. */
  lemma DeIsPercentage(times: seq<real>, release: seq<real>)
    requires |times| == |release| > 0
    requires NonDecreasing(times) && NonDecreasing(release) && 0.0 <= release[0]
    ensures 0.0 <= ComputeDe(times, release) <= 100.0
  {
    var n := |times| - 1;
    var top, width := release[n], times[n] - times[0];
    RunningTrapzBetween(release, times, n, 0.0, top);
    var auc, rect := Trapz(release, times), top * width;
    assert 0.0 <= auc <= rect;
    if rect != 0.0 {
      QuotientBetween(auc, rect, 0.0, 1.0);
      assert ComputeDe(times, release) == auc / rect * 100.0;
    }
  }

  // ---------------------------------------------------------------- similarity

  /** The difference factor f1 and the similarity factor f2. f2 is "not a number" for
      empty profiles, where the mean squared difference divides by zero. */
  datatype Similarity = Similarity(f1: real, f2: Scalar)

  function AbsDiffs(ref: seq<real>, test: seq<real>): (d: seq<real>)
    requires |ref| == |test|
    ensures |d| == |ref| && NonNegative(d)
  {
    seq(|ref|, i requires 0 <= i < |ref| => Abs(ref[i] - test[i]))
  }

  function SquaredDiffs(ref: seq<real>, test: seq<real>): (d: seq<real>)
    requires |ref| == |test|
    ensures |d| == |ref|
  {
    seq(|ref|, i requires 0 <= i < |ref| => (ref[i] - test[i]) * (ref[i] - test[i]))
  }

  lemma SquaredDiffsNonNegative(ref: seq<real>, test: seq<real>)
    requires |ref| == |test|
    ensures 0.0 <= Sum(SquaredDiffs(ref, test))
  {
    var d := SquaredDiffs(ref, test);
    forall i | 0 <= i < |d|
      ensures 0.0 <= d[i]
    {
      var e := ref[i] - test[i];
      assert 0.0 <= e * e;
    }
    SumNonNegative(d);
  }

  /** f1 = 100·Σ|R − T| / ΣR (0 when ΣR ≤ 0) and f2 = 50·log10(100 / √(1 + msd)) with msd
      the mean squared difference. f1 is never negative; √(1 + msd) ≥ 1, so the quotient
      inside the logarithm is always defined. */
  function ComputeF1F2(m: Math, ref: seq<real>, test: seq<real>): (s: Similarity)
    requires Lawful(m)
    requires |ref| == |test|
    ensures 0.0 <= s.f1
    ensures Sum(ref) <= 0.0 ==> s.f1 == 0.0
    ensures 0.0 < Sum(ref) ==> s.f1 == Sum(AbsDiffs(ref, test)) / Sum(ref) * 100.0
    ensures s.f2.NaN? <==> |ref| == 0
  {
    var diffSum := Sum(AbsDiffs(ref, test));
    var refSum := Sum(ref);
    SumNonNegative(AbsDiffs(ref, test));
    var f1 := if refSum > 0.0 then diffSum / refSum * 100.0 else 0.0;
    if |ref| == 0 then Similarity(f1, NaN)
    else
      SquaredDiffsNonNegative(ref, test);
      var meanSqDiff := Sum(SquaredDiffs(ref, test)) / |ref| as real;
      Similarity(f1, Finite(50.0 * m.log10(100.0 / m.sqrt(1.0 + meanSqDiff))))
  }

  /** Identical reference and test profiles give f1 = 0 and f2 = 50·log10(100) = 100. */
  lemma IdenticalProfilesAreSimilar(m: Math, profile: seq<real>)
    requires Lawful(m) && |profile| > 0
    ensures ComputeF1F2(m, profile, profile) == Similarity(0.0, Finite(100.0))
  {
    var absDiffs, sqDiffs := AbsDiffs(profile, profile), SquaredDiffs(profile, profile);
    forall i | 0 <= i < |profile|
      ensures absDiffs[i] == 0.0 && sqDiffs[i] == 0.0
    {
      var d := profile[i] - profile[i];
      assert absDiffs[i] == Abs(d) && sqDiffs[i] == d * d;
      assert d == 0.0;
    }
    SumZero(absDiffs);
    SumZero(sqDiffs);
  }

  /** With a positive reference total, f1 is zero exactly when the two profiles agree at
      every sample. */
  lemma F1ZeroIffIdentical(m: Math, ref: seq<real>, test: seq<real>)
    requires Lawful(m) && |ref| == |test| && 0.0 < Sum(ref)
    ensures ComputeF1F2(m, ref, test).f1 == 0.0 <==> ref == test
  {
    if ComputeF1F2(m, ref, test).f1 == 0.0 {
      NoDifferenceMeansIdentical(ref, test);
    }
    if ref == test {
      IdenticalProfilesAreSimilar(m, ref);
    }
  }

  /** A zero f1 quotient over a positive reference total leaves no sample difference. */
  lemma NoDifferenceMeansIdentical(ref: seq<real>, test: seq<real>)
    requires |ref| == |test| && 0.0 < Sum(ref)
    requires Sum(AbsDiffs(ref, test)) / Sum(ref) * 100.0 == 0.0
    ensures ref == test
  {
    var d := AbsDiffs(ref, test);
    PercentZero(Sum(d), Sum(ref));
    NonNegativeSumZero(d);
    forall i | 0 <= i < |ref|
      ensures ref[i] == test[i]
    {
      assert d[i] == Abs(ref[i] - test[i]);
    }
  }

  lemma PercentZero(a: real, r: real)
    requires 0.0 < r && a / r * 100.0 == 0.0
    ensures a == 0.0
  {
    assert a / r == 0.0;
    assert a / r * r == a;
  }
}

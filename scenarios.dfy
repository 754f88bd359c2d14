/** Assembly of the three teaching scenarios: the extended-release tablet series of
    Level A, its moment comparison for Level B, and the PLGA depot series of Level C.
    The curve models and summaries come from the other modules; what is modelled here is
    how each scenario calls them, in which order, and the small derivations it adds
    itself (Cmax and Tmax, the variance of dissolution time, nearest-sample lookup,
    normalisation to a reference peak, and the labelled f1/f2 comparisons). */
module SyntheticData {
  import opened Numerics
  import opened Series
  import opened DissolutionModels
  import opened PkModels
  import opened Deconvolution

  // ================================================================ sampling grids

  /** The spacing of `np.linspace(a, b, n)`. */
  function LinspaceStep(a: real, b: real, n: nat): real
    requires 2 <= n
  {
    (b - a) / ((n - 1) as real)
  }

  /** `np.linspace(a, b, n)`: n evenly spaced samples from a to b inclusive. */
  function Linspace(a: real, b: real, n: nat): (t: seq<real>)
    requires 2 <= n
    ensures |t| == n && t[0] == a && t[n - 1] == b
    ensures forall i :: 0 <= i < n ==> t[i] == a + (i as real) * LinspaceStep(a, b, n)
  {
    var t := seq(n, i requires 0 <= i < n => a + (i as real) * LinspaceStep(a, b, n));
    assert t[n - 1] == a + ((n - 1) as real) * LinspaceStep(a, b, n);
    t
  }

  /** Later multiples of a non-negative step from the same origin are no smaller. */
  lemma MultiplesOrdered(a: real, step: real, i: real, j: real)
    requires 0.0 <= step && i <= j
    ensures a + i * step <= a + j * step
  {
    ScaleBetween(step, j - i, 0.0, step);
    Distribute(step, j, -i);
  }

  /** An increasing range gives a non-decreasing grid. */
  lemma LinspaceNonDecreasing(a: real, b: real, n: nat)
    requires 2 <= n && a <= b
    ensures NonDecreasing(Linspace(a, b, n))
  {
    var step := LinspaceStep(a, b, n);
    assert 0.0 <= step;
    var t := Linspace(a, b, n);
    forall i, j | 0 <= i <= j < n
      ensures t[i] <= t[j]
    {
      MultiplesOrdered(a, step, i as real, j as real);
    }
  }

  // ================================================================ Cmax, Tmax and t50

  datatype PkParams = PkParams(cmax: real, tmax: real, auc: real, mrt: real)

  /** Cmax is the largest concentration sample and Tmax the sampling time of the first
      sample that attains it; AUC and MRT are the trapezoid summaries. */
  function PkParamsOf(times: seq<real>, pk: seq<real>): (p: PkParams)
    requires |times| == |pk| > 0
    ensures forall i :: 0 <= i < |pk| ==> pk[i] <= p.cmax
    ensures exists k :: (0 <= k < |pk| && pk[k] == p.cmax && times[k] == p.tmax
      && forall i :: 0 <= i < k ==> pk[i] < p.cmax)
    ensures p.auc == ComputeAuc(times, pk) && p.mrt == ComputeMrt(times, pk)
  {
    var k := ArgMax(pk);
    PkParams(pk[k], times[k], ComputeAuc(times, pk), ComputeMrt(times, pk))
  }

  /** The time to 50 % release of a first-order profile, ln 2 / k; `None` stands for the
      infinite half-time of a non-positive rate constant. */
  function HalfTime(m: Math, k: real): (t50: Option<real>)
    ensures t50.None? <==> k <= 0.0
    ensures t50.Some? ==> k * t50.value == m.ln(2.0)
  {
    if k > 0.0 then Some(m.ln(2.0) / k) else None
  }

  datatype DissolutionParams = DissolutionParams(mdt: real, de: real, t50: Option<real>, k: real)

  function DissolutionParamsOf(m: Math, times: seq<real>, diss: seq<real>, k: real): (p: DissolutionParams)
    requires |times| == |diss| > 0
    ensures p.k == k && (p.t50.None? <==> k <= 0.0)
    ensures p.mdt == ComputeMdt(times, diss) && p.de == ComputeDe(times, diss)
  {
    DissolutionParams(ComputeMdt(times, diss), ComputeDe(times, diss), HalfTime(m, k), k)
  }

  // ================================================================ Level A

  /** Compound Y: elimination rate (1/h), volume of distribution (L) and dose (mg). */
  const LevelAKe: real := 0.10
  const LevelAVd: real := 50.0
  const LevelADose: real := 100.0
  /** The first-order rate constant of the immediate-release reference. */
  const ImmediateReleaseK: real := 5.0

  const DissolutionTimes: seq<real> :=
    [0.0, 0.25, 0.5, 1.0, 2.0, 3.0, 4.0, 6.0, 8.0, 10.0, 12.0, 16.0, 20.0, 24.0]
  const PkTimes: seq<real> :=
    [0.0, 0.5, 1.0, 2.0, 3.0, 4.0, 6.0, 8.0, 10.0, 12.0, 16.0, 20.0, 24.0]

  /** The 500-sample grid over a day used for smooth curves. */
  function FineTimes(): (t: seq<real>)
    ensures |t| == 500
  {
    Linspace(0.0, 24.0, 500)
  }

  const FormulationNames: seq<string> := ["F1 (Fast)", "F2 (Medium)", "F3 (Slow)"]

  /** Everything Level A derives for one formulation with dissolution rate constant k. */
  datatype Formulation = Formulation(
    dissolution: seq<real>,
    dissolutionFine: seq<real>,
    pk: seq<real>,
    pkFine: seq<real>,
    fractionAbsorbed: WagnerNelsonResult,
    pkParams: PkParams,
    dissolutionParams: DissolutionParams)

  /** The three sampling grids of Level A: dissolution times, PK times and the fine
      plotting grid. */
  datatype Grids = Grids(dissolution: seq<real>, pk: seq<real>, fine: seq<real>)

  predicate ValidGrids(g: Grids) {
    |g.dissolution| > 0 && |g.pk| > 0
  }

  function LevelAGrids(): (g: Grids)
    ensures ValidGrids(g)
  {
    Grids(DissolutionTimes, PkTimes, FineTimes())
  }

  /** The formulation derived from k: first-order dissolution to 100 %, one-compartment
      PK with absorption 1.5 times faster than dissolution, Wagner–Nelson fractions
      absorbed from that PK, and the two parameter summaries. */
  function FormulationSpec(m: Math, g: Grids, k: real): (f: Formulation)
    requires ValidGrids(g)
    ensures |f.dissolution| == |g.dissolution| && |f.pk| == |g.pk|
    ensures f.fractionAbsorbed.times == g.pk && |f.fractionAbsorbed.fractionAbsorbed| == |g.pk|
  {
    var diss := FirstOrderRelease(m, g.dissolution, k, 100.0);
    var pk := OneCompartmentOral(m, g.pk, LevelADose, k * 1.5, LevelAKe, LevelAVd);
    Formulation(
      diss,
      FirstOrderRelease(m, g.fine, k, 100.0),
      pk,
      OneCompartmentOral(m, g.fine, LevelADose, k * 1.5, LevelAKe, LevelAVd),
      WagnerNelsonSpec(g.pk, pk, LevelAKe),
      PkParamsOf(g.pk, pk),
      DissolutionParamsOf(m, g.dissolution, diss, k))
  }

  /** One pass of the Level A loop body. */
  method SimulateFormulation(m: Math, g: Grids, k: real) returns (f: Formulation)
    requires ValidGrids(g)
    ensures f == FormulationSpec(m, g, k)
  {
    var diss := FirstOrderRelease(m, g.dissolution, k, 100.0);
    var dissFine := FirstOrderRelease(m, g.fine, k, 100.0);
    var pk := OneCompartmentOral(m, g.pk, LevelADose, k * 1.5, LevelAKe, LevelAVd);
    var pkFine := OneCompartmentOral(m, g.fine, LevelADose, k * 1.5, LevelAKe, LevelAVd);
    var wn := WagnerNelson(g.pk, pk, LevelAKe);
    f := Formulation(diss, dissFine, pk, pkFine, wn, PkParamsOf(g.pk, pk),
      DissolutionParamsOf(m, g.dissolution, diss, k));
  }

  /** `dict(zip(keys, values))`: each key entered in order with its value, a later
      entry replacing an earlier one under the same key. */
  function Zip<V>(keys: seq<string>, values: seq<V>): (t: map<string, V>)
    requires |keys| == |values|
    decreases |keys|
  {
    if |keys| == 0 then map[]
    else
      var n := |keys| - 1;
      Zip(keys[..n], values[..n])[keys[n] := values[n]]
  }

  /** Entering the next key extends the zipped prefix by one entry. */
  lemma ZipExtend<V>(keys: seq<string>, values: seq<V>, i: nat)
    requires i < |keys| == |values|
    ensures Zip(keys[..i + 1], values[..i + 1]) == Zip(keys[..i], values[..i])[keys[i] := values[i]]
  {
    assert keys[..i + 1][..i] == keys[..i] && values[..i + 1][..i] == values[..i];
  }

  lemma ZipWhole<V>(keys: seq<string>, values: seq<V>)
    requires |keys| == |values|
    ensures Zip(keys[..|keys|], values[..|values|]) == Zip(keys, values)
  {
    assert keys[..|keys|] == keys && values[..|values|] == values;
  }

  /** With distinct keys, the keys of the map are exactly the given ones and each holds
      its own value. */
  lemma {:induction false} ZipLookup<V>(keys: seq<string>, values: seq<V>)
    requires |keys| == |values| && Distinct(keys)
    ensures forall key :: key in Zip(keys, values) <==> key in keys
    ensures forall j :: 0 <= j < |keys| ==> keys[j] in Zip(keys, values) && Zip(keys, values)[keys[j]] == values[j]
    decreases |keys|
  {
    if |keys| > 0 {
      var n := |keys| - 1;
      ZipLookup(keys[..n], values[..n]);
      assert keys == keys[..n] + [keys[n]];
    }
  }

  /** The results of each rate constant, in order. */
  function Specs(m: Math, g: Grids, ks: seq<real>): (fs: seq<Formulation>)
    requires ValidGrids(g)
    ensures |fs| == |ks|
    ensures forall j :: 0 <= j < |ks| ==> fs[j] == FormulationSpec(m, g, ks[j])
  {
    seq(|ks|, j requires 0 <= j < |ks| => FormulationSpec(m, g, ks[j]))
  }

  /** The names are pairwise distinct. */
  predicate Distinct(names: seq<string>) {
    forall i, j :: 0 <= i < j < |names| ==> names[i] != names[j]
  }

  /** What the formulation loop enters: each name with the results of its own rate
      constant, a later name replacing an earlier equal one. */
  function Table(m: Math, g: Grids, names: seq<string>, ks: seq<real>): (t: map<string, Formulation>)
    requires ValidGrids(g) && |names| == |ks|
  {
    Zip(names, Specs(m, g, ks))
  }

  /** With distinct names the table holds exactly those names, each with its own
      formulation. */
  lemma TableLookup(m: Math, g: Grids, names: seq<string>, ks: seq<real>)
    requires ValidGrids(g) && |names| == |ks| && Distinct(names)
    ensures forall name :: name in Table(m, g, names, ks) <==> name in names
    ensures forall j :: 0 <= j < |names| ==> Table(m, g, names, ks)[names[j]] == FormulationSpec(m, g, ks[j])
  {
    ZipLookup(names, Specs(m, g, ks));
  }

  /** The loop over the formulations, in the order given: each is simulated with its
      own rate constant and its results entered under its name. The seven
      per-formulation dictionaries of the source are kept as one map from a name to the
      record of its seven entries. */
  method TabulateFormulations(m: Math, g: Grids, names: seq<string>, ks: seq<real>)
    returns (t: map<string, Formulation>)
    requires ValidGrids(g) && |names| == |ks|
    ensures t == Table(m, g, names, ks)
  {
    ghost var specs := Specs(m, g, ks);
    t := map[];
    for i := 0 to |names|
      invariant t == Zip(names[..i], specs[..i])
    {
      var f := SimulateFormulation(m, g, ks[i]);
      ZipExtend(names, specs, i);
      t := t[names[i] := f];
    }
    ZipWhole(names, specs);
  }

  /** The immediate-release reference: first-order dissolution and absorption with
      rate constant 5 per hour. */
  datatype Reference = Reference(dissolution: seq<real>, dissolutionFine: seq<real>, pk: seq<real>, pkFine: seq<real>)

  function ReferenceSpec(m: Math): (r: Reference)
    ensures |r.dissolution| == |DissolutionTimes| && |r.pk| == |PkTimes|
  {
    Reference(
      FirstOrderRelease(m, DissolutionTimes, ImmediateReleaseK, 100.0),
      FirstOrderRelease(m, FineTimes(), ImmediateReleaseK, 100.0),
      OneCompartmentOral(m, PkTimes, LevelADose, ImmediateReleaseK, LevelAKe, LevelAVd),
      OneCompartmentOral(m, FineTimes(), LevelADose, ImmediateReleaseK, LevelAKe, LevelAVd))
  }

  datatype LevelAData = LevelAData(
    timesDissolution: seq<real>,
    timesPk: seq<real>,
    timesFine: seq<real>,
    formulations: map<string, Formulation>,
    reference: Reference,
    ke: real,
    vd: real,
    dose: real,
    formulationNames: seq<string>)

  /** The three names are distinct, so the dictionaries end up with three entries. */
  lemma FormulationNamesDistinct()
    ensures Distinct(FormulationNames)
  {
    var names := FormulationNames;
    assert names[0][1] != names[1][1] && names[0][1] != names[2][1] && names[1][1] != names[2][1];
  }

  /** The Level A scenario: the three formulations in F1, F2, F3 order with their own
      rate constants, the immediate-release reference, and the constants of compound Y. */
  function LevelASpec(m: Math, kFast: real, kMedium: real, kSlow: real): (d: LevelAData)
    ensures d.formulationNames == FormulationNames
    ensures d.timesDissolution == DissolutionTimes && d.timesPk == PkTimes && d.timesFine == FineTimes()
  {
    LevelAData(DissolutionTimes, PkTimes, FineTimes(),
      Table(m, LevelAGrids(), FormulationNames, [kFast, kMedium, kSlow]),
      ReferenceSpec(m), LevelAKe, LevelAVd, LevelADose, FormulationNames)
  }

  /** Builds the Level A scenario: the formulation loop, then the reference. */
  method GenerateLevelA(m: Math, kFast: real, kMedium: real, kSlow: real) returns (d: LevelAData)
    ensures d == LevelASpec(m, kFast, kMedium, kSlow)
  {
    var tables := TabulateFormulations(m, LevelAGrids(), FormulationNames, [kFast, kMedium, kSlow]);
    var reference := Reference(
      FirstOrderRelease(m, DissolutionTimes, ImmediateReleaseK, 100.0),
      FirstOrderRelease(m, FineTimes(), ImmediateReleaseK, 100.0),
      OneCompartmentOral(m, PkTimes, LevelADose, ImmediateReleaseK, LevelAKe, LevelAVd),
      OneCompartmentOral(m, FineTimes(), LevelADose, ImmediateReleaseK, LevelAKe, LevelAVd));
    d := LevelAData(DissolutionTimes, PkTimes, FineTimes(), tables, reference,
      LevelAKe, LevelAVd, LevelADose, FormulationNames);
  }

  /** The Level A dictionaries hold exactly the three names, each with the results of
      its own rate constant. */
  lemma LevelAFormulations(m: Math, kFast: real, kMedium: real, kSlow: real)
    ensures var t := Table(m, LevelAGrids(), FormulationNames, [kFast, kMedium, kSlow]);
      && (forall name :: name in t <==> name in FormulationNames)
      && t[FormulationNames[0]] == FormulationSpec(m, LevelAGrids(), kFast)
      && t[FormulationNames[1]] == FormulationSpec(m, LevelAGrids(), kMedium)
      && t[FormulationNames[2]] == FormulationSpec(m, LevelAGrids(), kSlow)
  {
    FormulationNamesDistinct();
    TableLookup(m, LevelAGrids(), FormulationNames, [kFast, kMedium, kSlow]);
  }

  /** Both sampling grids are non-empty, ordered and start at or after 0. */
  predicate GridsOrdered(g: Grids) {
    && ValidGrids(g)
    && NonDecreasing(g.dissolution) && 0.0 <= g.dissolution[0]
    && NonDecreasing(g.pk) && 0.0 <= g.pk[0]
  }

  /** Both Level A sampling grids start at 0 and never go back in time. */
  lemma LevelAGridsOrdered()
    ensures NonDecreasing(DissolutionTimes) && DissolutionTimes[0] == 0.0
    ensures NonDecreasing(PkTimes) && PkTimes[0] == 0.0
    ensures GridsOrdered(LevelAGrids())
  {
    StepsNonDecreasing(DissolutionTimes);
    StepsNonDecreasing(PkTimes);
  }

  /** With lawful math and k ≥ 0 on grids that start at or after 0 and are ordered, a
      formulation is physically sensible: dissolution stays within [0, 100] % and never
      falls, concentrations and Cmax are never negative, fractions absorbed lie in
      [0, 1], and the half-time exists exactly when k > 0. */
  lemma FormulationPhysical(m: Math, g: Grids, k: real)
    requires Lawful(m) && GridsOrdered(g) && 0.0 <= k
    ensures var f := FormulationSpec(m, g, k);
      && (forall i :: 0 <= i < |f.dissolution| ==> 0.0 <= f.dissolution[i] <= 100.0)
      && NonDecreasing(f.dissolution)
      && NonNegative(f.pk) && 0.0 <= f.pkParams.cmax
      && (forall i :: 0 <= i < |g.pk| ==> 0.0 <= f.fractionAbsorbed.fractionAbsorbed[i] <= 1.0)
      && (f.dissolutionParams.t50.Some? <==> 0.0 < k)
  {
    DissolutionPhysical(m, g, k);
    ConcentrationsPhysical(m, g, k);
    AbsorptionPhysical(m, g, k);
  }

  /** The dissolution half of `FormulationPhysical`. */
  lemma DissolutionPhysical(m: Math, g: Grids, k: real)
    requires Lawful(m) && GridsOrdered(g) && 0.0 <= k
    ensures var d := FormulationSpec(m, g, k).dissolution;
      (forall i :: 0 <= i < |d| ==> 0.0 <= d[i] <= 100.0) && NonDecreasing(d)
  {
    var d := FirstOrderRelease(m, g.dissolution, k, 100.0);
    assert forall i :: 0 <= i < |d| ==> 0.0 <= d[i] <= 100.0 by {
      assert forall i :: 0 <= i < |g.dissolution| ==> g.dissolution[0] <= g.dissolution[i];
      FirstOrderReleaseBounded(m, g.dissolution, k, 100.0);
    }
    assert NonDecreasing(d) by {
      FirstOrderReleaseNonDecreasing(m, g.dissolution, k, 100.0);
    }
  }

  /** The concentration half of `FormulationPhysical`. */
  lemma ConcentrationsPhysical(m: Math, g: Grids, k: real)
    requires Lawful(m) && GridsOrdered(g) && 0.0 <= k
    ensures var f := FormulationSpec(m, g, k);
      NonNegative(f.pk) && 0.0 <= f.pkParams.cmax
  {
    var pk := OneCompartmentOral(m, g.pk, LevelADose, k * 1.5, LevelAKe, LevelAVd);
    assert NonNegative(pk) by {
      assert forall i :: 0 <= i < |g.pk| ==> g.pk[0] <= g.pk[i];
      PkNonNegative(m, g.pk, k);
    }
    assert 0.0 <= PkParamsOf(g.pk, pk).cmax by {
      assert pk[0] <= PkParamsOf(g.pk, pk).cmax;
    }
  }

  /** The Wagner–Nelson part of `FormulationPhysical`. */
  lemma AbsorptionPhysical(m: Math, g: Grids, k: real)
    requires GridsOrdered(g)
    ensures var f := FormulationSpec(m, g, k);
      forall i :: 0 <= i < |g.pk| ==> 0.0 <= f.fractionAbsorbed.fractionAbsorbed[i] <= 1.0
  {
    var f := FormulationSpec(m, g, k);
    WagnerNelsonFractionsBounded(g.pk, f.pk, LevelAKe);
  }

  /** The Level A concentrations at ka = 1.5·k are never negative on a grid at or after 0. */
  lemma PkNonNegative(m: Math, t: seq<real>, k: real)
    requires Lawful(m) && 0.0 <= k
    requires forall i :: 0 <= i < |t| ==> 0.0 <= t[i]
    ensures NonNegative(OneCompartmentOral(m, t, LevelADose, k * 1.5, LevelAKe, LevelAVd))
  {
    forall i | 0 <= i < |t|
      ensures 0.0 <= OneCompartmentAt(m, t[i], LevelADose, k * 1.5, LevelAKe, LevelAVd)
    {
      OneCompartmentNonNegative(m, t[i], LevelADose, k * 1.5, LevelAKe, LevelAVd);
    }
  }

  /** A faster formulation has released at least as much as a slower one at every
      sampling time at or after 0: the F1, F2, F3 profiles come out in that order. */
  lemma FasterDissolvesMore(m: Math, t: seq<real>, kSlow: real, kFast: real)
    requires Lawful(m) && kSlow <= kFast
    requires forall i :: 0 <= i < |t| ==> 0.0 <= t[i]
    ensures forall i :: 0 <= i < |t| ==>
      FirstOrderRelease(m, t, kSlow, 100.0)[i] <= FirstOrderRelease(m, t, kFast, 100.0)[i]
  {
    forall i | 0 <= i < |t|
      ensures FirstOrderRelease(m, t, kSlow, 100.0)[i] <= FirstOrderRelease(m, t, kFast, 100.0)[i]
    {
      assert -kFast * t[i] <= -kSlow * t[i] by {
        ScaleBetween(kSlow, t[i], kSlow, kFast);
      }
      assert m.exp(-kFast * t[i]) <= m.exp(-kSlow * t[i]);
      assert FirstOrderAt(m, t[i], kSlow, 100.0) <= FirstOrderAt(m, t[i], kFast, 100.0);
    }
  }

  /** Any table built by the formulation loop from distinct names and non-negative rate
      constants on ordered grids holds only physically sensible formulations. */
  lemma TablePhysical(m: Math, g: Grids, names: seq<string>, ks: seq<real>)
    requires Lawful(m) && GridsOrdered(g) && |names| == |ks| && Distinct(names)
    requires forall j :: 0 <= j < |ks| ==> 0.0 <= ks[j]
    ensures var t := Table(m, g, names, ks);
      forall name | name in t :: NonDecreasing(t[name].dissolution) && NonNegative(t[name].pk)
  {
    TableLookup(m, g, names, ks);
    var t := Table(m, g, names, ks);
    forall name | name in t
      ensures NonDecreasing(t[name].dissolution) && NonNegative(t[name].pk)
    {
      var j :| 0 <= j < |names| && names[j] == name;
      FormulationPhysical(m, g, ks[j]);
    }
  }

  /** The Level A scenario with non-negative rate constants: every formulation in the
      dictionaries is physically sensible. */
  lemma LevelAPhysical(m: Math, kFast: real, kMedium: real, kSlow: real)
    requires Lawful(m) && 0.0 <= kSlow && 0.0 <= kMedium && 0.0 <= kFast
    ensures var t := Table(m, LevelAGrids(), FormulationNames, [kFast, kMedium, kSlow]);
      forall name | name in t :: NonDecreasing(t[name].dissolution) && NonNegative(t[name].pk)
  {
    LevelAGridsOrdered();
    FormulationNamesDistinct();
    TablePhysical(m, LevelAGrids(), FormulationNames, [kFast, kMedium, kSlow]);
  }

  /** With k_slow ≤ k_fast the slower formulation's dissolution profile never lies above
      the faster one's, so Level A's F1, F2, F3 profiles come out in that order. */
  lemma FormulationsOrdered(m: Math, g: Grids, kSlow: real, kFast: real)
    requires Lawful(m) && GridsOrdered(g) && kSlow <= kFast
    ensures forall i :: 0 <= i < |g.dissolution| ==>
      FormulationSpec(m, g, kSlow).dissolution[i] <= FormulationSpec(m, g, kFast).dissolution[i]
  {
    assert forall i :: 0 <= i < |g.dissolution| ==> 0.0 <= g.dissolution[i] by {
      assert forall i :: 0 <= i < |g.dissolution| ==> g.dissolution[0] <= g.dissolution[i];
    }
    FasterDissolvesMore(m, g.dissolution, kSlow, kFast);
  }

  // ================================================================ Level B

  /** (t_mid − centre)² for every interval midpoint. */
  function SquaredDeviations(mid: seq<real>, centre: real): (d: seq<real>)
    ensures |d| == |mid| && NonNegative(d)
    ensures forall i :: 0 <= i < |mid| && mid[i] == centre ==> d[i] == 0.0
  {
    var d := seq(|mid|, i requires 0 <= i < |mid| => (mid[i] - centre) * (mid[i] - centre));
    assert NonNegative(d) by {
      forall i | 0 <= i < |d|
        ensures 0.0 <= d[i]
      {
        ProductNonNegative(mid[i] - centre, mid[i] - centre);
      }
    }
    d
  }

  /** Variance of dissolution time: Σ (t_mid − mdt)²·ΔF / Σ ΔF over the sampling
      intervals, or 0 unless the increments sum to a positive amount. */
  function ComputeVdt(times: seq<real>, release: seq<real>, mdt: real): (vdt: real)
    requires |times| == |release|
    ensures Sum(Diff(release)) <= 0.0 ==> vdt == 0.0
  {
    var dF := Diff(release);
    var total := Sum(dF);
    if total > 0.0 then Sum(Products(SquaredDeviations(Midpoints(times), mdt), dF)) / total else 0.0
  }

  /** A profile that never falls has a non-negative VDT, whatever centre it is taken about. */
  lemma VdtNonNegative(times: seq<real>, release: seq<real>, mdt: real)
    requires |times| == |release| && NonDecreasing(release)
    ensures 0.0 <= ComputeVdt(times, release, mdt)
  {
    var dF := Diff(release);
    var sq := SquaredDeviations(Midpoints(times), mdt);
    DiffNonNegative(release);
    var weighted := Products(sq, dF);
    forall i | 0 <= i < |weighted|
      ensures 0.0 <= weighted[i]
    {
      ProductNonNegative(sq[i], dF[i]);
    }
    SumNonNegative(weighted);
    if Sum(dF) > 0.0 {
      QuotientSign(Sum(weighted), Sum(dF));
    }
  }

  /** When the whole release happens in one sampling interval, MDT is that interval's
      midpoint. */
  lemma MdtOfSingleStep(times: seq<real>, release: seq<real>, k: nat)
    requires |times| == |release| && k + 1 < |release|
    requires forall i :: 0 <= i < |Diff(release)| && i != k ==> Diff(release)[i] == 0.0
    requires 0.0 < Diff(release)[k]
    ensures ComputeMdt(times, release) == Midpoints(times)[k]
  {
    var dF, mid := Diff(release), Midpoints(times);
    SumSingleNonZero(dF, k);
    var moment := Products(mid, dF);
    SumSingleNonZero(moment, k);
    CancelFactor(mid[k], dF[k]);
  }

  lemma CancelFactor(a: real, b: real)
    requires b != 0.0
    ensures a * b / b == a
  {
  }

  /** ... and the VDT about that midpoint is 0: the spread VDT measures is absent. */
  lemma VdtOfSingleStep(times: seq<real>, release: seq<real>, k: nat)
    requires |times| == |release| && k + 1 < |release|
    requires forall i :: 0 <= i < |Diff(release)| && i != k ==> Diff(release)[i] == 0.0
    requires 0.0 < Diff(release)[k]
    ensures ComputeVdt(times, release, Midpoints(times)[k]) == 0.0
  {
    var dF, mid := Diff(release), Midpoints(times);
    var deviations := SquaredDeviations(mid, mid[k]);
    var weighted := Products(deviations, dF);
    assert Sum(weighted) == 0.0 by {
      forall i | 0 <= i < |weighted|
        ensures weighted[i] == 0.0
      {
        if i == k {
          assert deviations[i] == 0.0;
        } else {
          assert dF[i] == 0.0;
        }
      }
      SumZero(weighted);
    }
  }

  /** The rate constant (1/h) of P1's slow phase. */
  const SlowPhaseK: real := 0.05

  /** P1's biphasic release at one time: a burst of burstFrac % with rate burstK, the
      rest at the slow-phase rate, capped at 100 %. */
  function BiphasicAt(m: Math, t: real, burstFrac: real, burstK: real): (r: real)
    ensures r <= 100.0
  {
    MinReal(FirstOrderAt(m, t, burstK, burstFrac) + FirstOrderAt(m, t, SlowPhaseK, 100.0 - burstFrac), 100.0)
  }

  function BiphasicRelease(m: Math, t: seq<real>, burstFrac: real, burstK: real): (r: seq<real>)
    ensures |r| == |t|
    ensures forall i :: 0 <= i < |t| ==> r[i] == BiphasicAt(m, t[i], burstFrac, burstK)
  {
    seq(|t|, i requires 0 <= i < |t| => BiphasicAt(m, t[i], burstFrac, burstK))
  }

  /** With a burst fraction in [0, 100] and non-negative rates the two phases add up to
      at most 100 %, so the cap never binds. */
  lemma BiphasicBounded(m: Math, t: real, burstFrac: real, burstK: real)
    requires Lawful(m) && 0.0 <= burstFrac <= 100.0 && 0.0 <= burstK && 0.0 <= t
    ensures 0.0 <= BiphasicAt(m, t, burstFrac, burstK)
    ensures BiphasicAt(m, t, burstFrac, burstK)
      == FirstOrderAt(m, t, burstK, burstFrac) + FirstOrderAt(m, t, SlowPhaseK, 100.0 - burstFrac)
  {
    FirstOrderPointBounded(m, t, burstK, burstFrac);
    FirstOrderPointBounded(m, t, SlowPhaseK, 100.0 - burstFrac);
  }

  /** Nothing is released at t = 0, whatever the burst. */
  lemma BiphasicStartsAtZero(m: Math, burstFrac: real, burstK: real)
    requires Lawful(m)
    ensures BiphasicAt(m, 0.0, burstFrac, burstK) == 0.0
  {
    assert -burstK * 0.0 == 0.0 && -SlowPhaseK * 0.0 == 0.0;
  }

  /** Over ordered times at or after 0 the biphasic release never falls. */
  lemma BiphasicNonDecreasing(m: Math, t: seq<real>, burstFrac: real, burstK: real)
    requires Lawful(m) && 0.0 <= burstFrac <= 100.0 && 0.0 <= burstK
    requires NonDecreasing(t) && (|t| > 0 ==> 0.0 <= t[0])
    ensures NonDecreasing(BiphasicRelease(m, t, burstFrac, burstK))
  {
    var r := BiphasicRelease(m, t, burstFrac, burstK);
    forall i, j | 0 <= i <= j < |t|
      ensures r[i] <= r[j]
    {
      BiphasicStep(m, t[i], t[j], burstFrac, burstK);
    }
  }

  lemma BiphasicStep(m: Math, s: real, t: real, burstFrac: real, burstK: real)
    requires Lawful(m) && 0.0 <= burstFrac <= 100.0 && 0.0 <= burstK && 0.0 <= s <= t
    ensures BiphasicAt(m, s, burstFrac, burstK) <= BiphasicAt(m, t, burstFrac, burstK)
  {
    BiphasicBounded(m, s, burstFrac, burstK);
    BiphasicBounded(m, t, burstFrac, burstK);
    FirstOrderPointMonotone(m, s, t, burstK, burstFrac);
    FirstOrderPointMonotone(m, s, t, SlowPhaseK, 100.0 - burstFrac);
  }

  /** Over times starting at 0, a profile that never falls has its MDT inside the
      sampling window: a weighted mean of midpoints, or the fallback 0. */
  lemma MdtInWindow(times: seq<real>, release: seq<real>)
    requires |times| == |release| > 0 && times[0] == 0.0
    requires NonDecreasing(times) && NonDecreasing(release)
    ensures 0.0 <= ComputeMdt(times, release) <= times[|times| - 1]
  {
    MdtFallsBackOnFlatProfile(times, release);
    if release[0] < release[|release| - 1] {
      MdtWithinSamplingWindow(times, release);
    }
  }

  /** Over times starting at 0, non-negative concentrations have their MRT inside the
      sampling window: a weighted mean time, or the fallback 0. */
  lemma MrtInWindow(times: seq<real>, conc: seq<real>)
    requires |times| == |conc| > 0 && times[0] == 0.0
    requires NonDecreasing(times) && NonNegative(conc)
    ensures 0.0 <= ComputeMrt(times, conc) <= times[|times| - 1]
  {
    TrapzNonNegative(conc, times);
    if ComputeAuc(times, conc) != 0.0 {
      MrtWithinSamplingWindow(times, conc);
    }
  }

  /** The pathological pair: a biphasic P1 and a first-order P2, with the PK of each
      and their MDTs and MRTs. */
  datatype Pathological = Pathological(
    times: seq<real>,
    p1Dissolution: seq<real>,
    p2Dissolution: seq<real>,
    p1Pk: seq<real>,
    p2Pk: seq<real>,
    mdtP1: real,
    mdtP2: real,
    mrtP1: real,
    mrtP2: real)

  /** The 100-sample grid over a day of the pathological pair. */
  function PathologicalTimes(): (t: seq<real>)
    ensures |t| == 100 && t[0] == 0.0 && t[99] == 24.0
  {
    Linspace(0.0, 24.0, 100)
  }

  /** P1 releases biphasically, P2 first-order with rate p2K; their PK uses absorption
      rate constants 0.8 and 0.25 with the Level A compound. */
  function PathologicalSpec(m: Math, burstFrac: real, burstK: real, p2K: real): (p: Pathological)
    ensures |p.times| == |p.p1Dissolution| == |p.p2Dissolution| == |p.p1Pk| == |p.p2Pk| == 100
  {
    var times := PathologicalTimes();
    var p1 := BiphasicRelease(m, times, burstFrac, burstK);
    var p2 := FirstOrderRelease(m, times, p2K, 100.0);
    var p1Pk := OneCompartmentOral(m, times, LevelADose, 0.8, LevelAKe, LevelAVd);
    var p2Pk := OneCompartmentOral(m, times, LevelADose, 0.25, LevelAKe, LevelAVd);
    Pathological(times, p1, p2, p1Pk, p2Pk, ComputeMdt(times, p1), ComputeMdt(times, p2),
      ComputeMrt(times, p1Pk), ComputeMrt(times, p2Pk))
  }

  /** A release profile on a grid starting at 0 that stays within [0, 100] %, starts
      at 0 and never falls. */
  predicate SensibleProfile(times: seq<real>, r: seq<real>) {
    && |r| == |times| > 0
    && (forall i :: 0 <= i < |r| ==> 0.0 <= r[i] <= 100.0)
    && r[0] == 0.0
    && NonDecreasing(r)
  }

  /** An ordered grid that starts at 0. */
  predicate GridFromZero(times: seq<real>) {
    |times| > 0 && times[0] == 0.0 && NonDecreasing(times)
  }

  lemma PathologicalTimesFromZero()
    ensures GridFromZero(PathologicalTimes())
  {
    LinspaceNonDecreasing(0.0, 24.0, 100);
  }

  /** P1's profile is sensible on any grid from 0 and its MDT lies in the window. */
  lemma BiphasicSensible(m: Math, times: seq<real>, burstFrac: real, burstK: real)
    requires Lawful(m) && 0.0 <= burstFrac <= 100.0 && 0.0 <= burstK && GridFromZero(times)
    ensures SensibleProfile(times, BiphasicRelease(m, times, burstFrac, burstK))
    ensures 0.0 <= ComputeMdt(times, BiphasicRelease(m, times, burstFrac, burstK)) <= times[|times| - 1]
  {
    var r := BiphasicRelease(m, times, burstFrac, burstK);
    forall i | 0 <= i < |times|
      ensures 0.0 <= r[i] <= 100.0
    {
      assert times[0] <= times[i];
      BiphasicBounded(m, times[i], burstFrac, burstK);
    }
    BiphasicStartsAtZero(m, burstFrac, burstK);
    BiphasicNonDecreasing(m, times, burstFrac, burstK);
    MdtInWindow(times, r);
  }

  /** P2's first-order profile is sensible on any grid from 0 and its MDT lies in the
      window. */
  lemma FirstOrderSensible(m: Math, times: seq<real>, k: real)
    requires Lawful(m) && 0.0 <= k && GridFromZero(times)
    ensures SensibleProfile(times, FirstOrderRelease(m, times, k, 100.0))
    ensures 0.0 <= ComputeMdt(times, FirstOrderRelease(m, times, k, 100.0)) <= times[|times| - 1]
  {
    var r := FirstOrderRelease(m, times, k, 100.0);
    assert forall i :: 0 <= i < |times| ==> times[0] <= times[i];
    FirstOrderReleaseBounded(m, times, k, 100.0);
    FirstOrderReleaseNonDecreasing(m, times, k, 100.0);
    MdtInWindow(times, r);
  }

  /** P1 of the pathological pair is physically sensible: its profile stays within
      [0, 100] %, starts at 0 and never falls, and its MDT lies in the 24-hour window. */
  lemma PathologicalP1(m: Math, burstFrac: real, burstK: real, p2K: real)
    requires Lawful(m) && 0.0 <= burstFrac <= 100.0 && 0.0 <= burstK
    ensures var p := PathologicalSpec(m, burstFrac, burstK, p2K);
      SensibleProfile(p.times, p.p1Dissolution) && 0.0 <= p.mdtP1 <= 24.0
  {
    PathologicalTimesFromZero();
    BiphasicSensible(m, PathologicalTimes(), burstFrac, burstK);
  }

  /** So is P2, for a non-negative rate constant. */
  lemma PathologicalP2(m: Math, burstFrac: real, burstK: real, p2K: real)
    requires Lawful(m) && 0.0 <= p2K
    ensures var p := PathologicalSpec(m, burstFrac, burstK, p2K);
      SensibleProfile(p.times, p.p2Dissolution) && 0.0 <= p.mdtP2 <= 24.0
  {
    var p := PathologicalSpec(m, burstFrac, burstK, p2K);
    assert p.times == PathologicalTimes() && p.p2Dissolution == FirstOrderRelease(m, p.times, p2K, 100.0);
    PathologicalTimesFromZero();
    FirstOrderSensible(m, p.times, p2K);
  }

  /** The Level A compound's concentrations are never negative on a grid from 0 and
      their MRT lies in the window. */
  lemma PkSensible(m: Math, times: seq<real>, ka: real)
    requires Lawful(m) && 0.0 <= ka && GridFromZero(times)
    ensures NonNegative(OneCompartmentOral(m, times, LevelADose, ka, LevelAKe, LevelAVd))
    ensures 0.0 <= ComputeMrt(times, OneCompartmentOral(m, times, LevelADose, ka, LevelAKe, LevelAVd)) <= times[|times| - 1]
  {
    var c := OneCompartmentOral(m, times, LevelADose, ka, LevelAKe, LevelAVd);
    forall i | 0 <= i < |times|
      ensures 0.0 <= c[i]
    {
      assert times[0] <= times[i];
      OneCompartmentNonNegative(m, times[i], LevelADose, ka, LevelAKe, LevelAVd);
    }
    MrtInWindow(times, c);
  }

  /** Both pathological concentration curves are never negative and both MRTs lie in the
      24-hour window. */
  lemma PathologicalPk(m: Math, burstFrac: real, burstK: real, p2K: real)
    requires Lawful(m)
    ensures var p := PathologicalSpec(m, burstFrac, burstK, p2K);
      && NonNegative(p.p1Pk) && NonNegative(p.p2Pk)
      && 0.0 <= p.mrtP1 <= 24.0 && 0.0 <= p.mrtP2 <= 24.0
  {
    var times := PathologicalTimes();
    PathologicalTimesFromZero();
    PkSensible(m, times, 0.8);
    PkSensible(m, times, 0.25);
  }

  /** MDT, MRT and VDT of one formulation, as the Level B loop collects them. */
  datatype Moments = Moments(mdt: real, mrt: real, vdt: real)

  /** MDT and MRT are read from the Level A summaries; VDT is taken about that MDT. */
  function MomentsOf(times: seq<real>, f: Formulation): (mo: Moments)
    requires |f.dissolution| == |times|
    ensures mo.mdt == f.dissolutionParams.mdt && mo.mrt == f.pkParams.mrt
  {
    Moments(f.dissolutionParams.mdt, f.pkParams.mrt, ComputeVdt(times, f.dissolution, f.dissolutionParams.mdt))
  }

  /** Every name has an entry whose dissolution profile is sampled on the given times. */
  predicate Covers(names: seq<string>, times: seq<real>, t: map<string, Formulation>) {
    forall j :: 0 <= j < |names| ==> names[j] in t && |t[names[j]].dissolution| == |times|
  }

  /** The moments of each named formulation, in order. */
  function MomentsList(times: seq<real>, names: seq<string>, t: map<string, Formulation>): (ms: seq<Moments>)
    requires Covers(names, times, t)
    ensures |ms| == |names|
    ensures forall j :: 0 <= j < |names| ==> ms[j] == MomentsOf(times, t[names[j]])
  {
    seq(|names|, j requires 0 <= j < |names| => MomentsOf(times, t[names[j]]))
  }

  /** The Level B loop over the formulation names: each formulation's moments entered
      under its name. The three dictionaries of the source (MDT, MRT, VDT) are kept as
      one map from a name to the record of its three entries. */
  method TabulateMoments(times: seq<real>, names: seq<string>, t: map<string, Formulation>)
    returns (mo: map<string, Moments>)
    requires Covers(names, times, t)
    ensures mo == MomentsTable(times, names, t)
  {
    ghost var ms := MomentsList(times, names, t);
    mo := map[];
    for i := 0 to |names|
      invariant mo == Zip(names[..i], ms[..i])
    {
      var f := t[names[i]];
      var mdt := f.dissolutionParams.mdt;
      var vdt := ComputeVdt(times, f.dissolution, mdt);
      ZipExtend(names, ms, i);
      mo := mo[names[i] := Moments(mdt, f.pkParams.mrt, vdt)];
    }
    ZipWhole(names, ms);
  }

  /** The Level B moment dictionaries built from a formulation table. */
  function MomentsTable(times: seq<real>, names: seq<string>, t: map<string, Formulation>): (mo: map<string, Moments>)
    requires Covers(names, times, t)
  {
    Zip(names, MomentsList(times, names, t))
  }

  /** A table built by the formulation loop covers its names on the dissolution grid. */
  lemma TableCovers(m: Math, g: Grids, names: seq<string>, ks: seq<real>)
    requires ValidGrids(g) && |names| == |ks| && Distinct(names)
    ensures Covers(names, g.dissolution, Table(m, g, names, ks))
  {
    TableLookup(m, g, names, ks);
  }

  lemma LevelACovers(m: Math, kFast: real, kMedium: real, kSlow: real)
    ensures Covers(FormulationNames, DissolutionTimes, Table(m, LevelAGrids(), FormulationNames, [kFast, kMedium, kSlow]))
  {
    FormulationNamesDistinct();
    TableCovers(m, LevelAGrids(), FormulationNames, [kFast, kMedium, kSlow]);
  }

  datatype LevelBData = LevelBData(
    formulationNames: seq<string>,
    moments: map<string, Moments>,
    levelA: LevelAData,
    pathological: Pathological)

  /** The Level B scenario: the Level A scenario, its moments per formulation, and the
      pathological pair. */
  function LevelBSpec(m: Math, kFast: real, kMedium: real, kSlow: real, burstFrac: real, burstK: real, p2K: real): (d: LevelBData)
    ensures d.formulationNames == FormulationNames
  {
    LevelACovers(m, kFast, kMedium, kSlow);
    LevelBData(FormulationNames, MomentsTable(DissolutionTimes, FormulationNames, Table(m, LevelAGrids(), FormulationNames, [kFast, kMedium, kSlow])),
      LevelASpec(m, kFast, kMedium, kSlow), PathologicalSpec(m, burstFrac, burstK, p2K))
  }

  /** Builds the Level B scenario: Level A, the moment loop, then the pathological pair. */
  method GenerateLevelB(m: Math, kFast: real, kMedium: real, kSlow: real, burstFrac: real, burstK: real, p2K: real)
    returns (d: LevelBData)
    ensures d == LevelBSpec(m, kFast, kMedium, kSlow, burstFrac, burstK, p2K)
  {
    var a := GenerateLevelA(m, kFast, kMedium, kSlow);
    LevelACovers(m, kFast, kMedium, kSlow);
    var mo := TabulateMoments(a.timesDissolution, a.formulationNames, a.formulations);
    d := LevelBData(a.formulationNames, mo, a, PathologicalSpec(m, burstFrac, burstK, p2K));
  }

  /** A profile that never falls has a non-negative VDT, for every formulation in any
      moment table. */
  lemma MomentsTableNonNegative(times: seq<real>, names: seq<string>, t: map<string, Formulation>)
    requires Covers(names, times, t) && Distinct(names)
    requires forall name | name in t :: NonDecreasing(t[name].dissolution)
    ensures forall name | name in MomentsTable(times, names, t) :: 0.0 <= MomentsTable(times, names, t)[name].vdt
  {
    var ms := MomentsList(times, names, t);
    ZipLookup(names, ms);
    forall j | 0 <= j < |names|
      ensures 0.0 <= ms[j].vdt
    {
      var f := t[names[j]];
      VdtNonNegative(times, f.dissolution, f.dissolutionParams.mdt);
    }
  }

  /** With non-negative rate constants every Level B VDT is non-negative. */
  lemma LevelBVdtNonNegative(m: Math, kFast: real, kMedium: real, kSlow: real)
    requires Lawful(m) && 0.0 <= kSlow && 0.0 <= kMedium && 0.0 <= kFast
    ensures Covers(FormulationNames, DissolutionTimes, Table(m, LevelAGrids(), FormulationNames, [kFast, kMedium, kSlow]))
    ensures var mo := MomentsTable(DissolutionTimes, FormulationNames, Table(m, LevelAGrids(), FormulationNames, [kFast, kMedium, kSlow]));
      forall name | name in mo :: 0.0 <= mo[name].vdt
  {
    LevelAPhysical(m, kFast, kMedium, kSlow);
    LevelACovers(m, kFast, kMedium, kSlow);
    FormulationNamesDistinct();
    MomentsTableNonNegative(DissolutionTimes, FormulationNames, Table(m, LevelAGrids(), FormulationNames, [kFast, kMedium, kSlow]));
  }

  // ================================================================ Level C

  /** In vitro sampling times (h) of the PLGA depot series. */
  const IvTimesH: seq<real> := [0.0, 1.0, 6.0, 24.0, 72.0, 168.0, 336.0, 504.0, 672.0, 720.0]
  /** PK sampling times (h) of the depot series. */
  const PkTimesH: seq<real> :=
    [0.5, 1.0, 2.0, 4.0, 6.0, 8.0, 12.0, 24.0, 48.0, 72.0, 168.0, 336.0, 504.0, 672.0, 840.0]

  const LevelCNames: seq<string> := ["A (Low MW)", "B (Medium MW)", "C (High MW)"]

  /** Hours to days. */
  function PerDay(t: seq<real>): (d: seq<real>)
    ensures |d| == |t| && forall i :: 0 <= i < |t| ==> d[i] * 24.0 == t[i]
  {
    seq(|t|, i requires 0 <= i < |t| => t[i] / 24.0)
  }

  /** The oral solution: first-order release at 0.5 per hour, capped at 100 %. */
  function SolutionRelease(m: Math, t: seq<real>): (r: seq<real>)
    ensures |r| == |t| && forall i :: 0 <= i < |t| ==> r[i] <= 100.0
  {
    seq(|t|, i requires 0 <= i < |t| => MinReal(100.0, FirstOrderAt(m, t[i], 0.5, 100.0)))
  }

  /** The cap never binds: the solution profile is plain first-order release, within
      [0, 100] % at every time at or after 0. */
  lemma SolutionCapNeverBinds(m: Math, t: seq<real>)
    requires Lawful(m)
    ensures forall i :: 0 <= i < |t| ==> SolutionRelease(m, t)[i] == FirstOrderAt(m, t[i], 0.5, 100.0)
    ensures forall i :: 0 <= i < |t| && 0.0 <= t[i] ==> 0.0 <= SolutionRelease(m, t)[i]
  {
    forall i | 0 <= i < |t|
      ensures FirstOrderAt(m, t[i], 0.5, 100.0) <= 100.0
      ensures 0.0 <= t[i] ==> 0.0 <= FirstOrderAt(m, t[i], 0.5, 100.0)
    {
      if 0.0 <= t[i] {
        FirstOrderPointBounded(m, t[i], 0.5, 100.0);
      } else {
        FirstOrderPointMonotone(m, t[i], 0.0, 0.5, 100.0);
        assert -0.5 * 0.0 == 0.0;
      }
    }
  }

  /** The coefficients and rate constants (a1, α1, ka, a2, α2) of one depot curve. */
  datatype DepotParams = DepotParams(a1: real, alpha1: real, ka: real, a2: real, alpha2: real)

  function DepotCurve(m: Math, t: seq<real>, p: DepotParams): (c: seq<real>)
    ensures |c| == |t|
  {
    BiexponentialDepot(m, t, p.a1, p.alpha1, p.ka, p.a2, p.alpha2)
  }

  /** Non-negative parameters with a2 > 0: the curve is positive at every sample at or
      after 0, so its peak is positive and the normalisation below is defined. */
  lemma DepotPeakPositive(m: Math, t: seq<real>, p: DepotParams)
    requires Lawful(m) && |t| > 0 && forall i :: 0 <= i < |t| ==> 0.0 <= t[i]
    requires 0.0 <= p.a1 && 0.0 <= p.alpha1 && 0.0 <= p.ka && 0.0 < p.a2 && 0.0 <= p.alpha2
    ensures NonNegative(DepotCurve(m, t, p)) && 0.0 < MaxOf(DepotCurve(m, t, p))
  {
    var c := DepotCurve(m, t, p);
    forall i | 0 <= i < |t|
      ensures 0.0 < c[i]
    {
      DepotNonNegative(m, t[i], p.a1, p.alpha1, p.ka, p.a2, p.alpha2);
    }
    assert c[0] <= MaxOf(c);
  }

  /** Every sample divided by the reference peak c. */
  function Normalise(pk: seq<real>, c: real): (n: seq<real>)
    requires c != 0.0
    ensures |n| == |pk| && forall i :: 0 <= i < |pk| ==> n[i] * c == pk[i]
    ensures forall i :: 0 <= i < |pk| ==> n[i] == pk[i] / c
  {
    seq(|pk|, i requires 0 <= i < |pk| => pk[i] / c)
  }

  lemma DivideStrict(a: real, b: real, d: real)
    requires a < b && 0.0 < d
    ensures a / d < b / d
  {
    assert a / d * d == a && b / d * d == b;
  }

  /** Dividing by a positive peak keeps the order of the samples, so the first peak
      sits at the same index: Tmax read from normalised data is Tmax of the raw data. */
  lemma NormalisationKeepsPeakIndex(pk: seq<real>, c: real)
    requires |pk| > 0 && 0.0 < c
    ensures ArgMax(Normalise(pk, c)) == ArgMax(pk)
  {
    var n := Normalise(pk, c);
    var kn, kp := ArgMax(n), ArgMax(pk);
    if kn < kp {
      assert n[kp] <= n[kn] && pk[kn] < pk[kp];
      DivideStrict(pk[kn], pk[kp], c);
      assert false;
    } else if kp < kn {
      assert n[kp] < n[kn] && pk[kn] <= pk[kp];
      DivideMonotone(pk[kn], pk[kp], c);
      assert false;
    }
  }

  /** Normalised to its own positive peak a curve peaks at exactly 1. */
  lemma NormalisedPeakIsOne(pk: seq<real>)
    requires |pk| > 0 && 0.0 < MaxOf(pk)
    ensures MaxOf(Normalise(pk, MaxOf(pk))) == 1.0
  {
    NormalisationKeepsPeakIndex(pk, MaxOf(pk));
  }

  /** `np.argmin(np.abs(times - target))`: the index of the first sample time nearest to
      the target. */
  function NearestIndex(times: seq<real>, target: real): (k: nat)
    requires |times| > 0
    ensures k < |times|
    ensures forall i :: 0 <= i < |times| ==> Abs(times[k] - target) <= Abs(times[i] - target)
    ensures forall i :: 0 <= i < k ==> Abs(times[k] - target) < Abs(times[i] - target)
  {
    var d := seq(|times|, i requires 0 <= i < |times| => Abs(times[i] - target));
    assert forall i :: 0 <= i < |times| ==> d[i] == Abs(times[i] - target);
    ArgMin(d)
  }

  /** The release sampled at the time nearest to the target. */
  function ReleaseAt(times: seq<real>, release: seq<real>, target: real): (r: real)
    requires |times| == |release| > 0
    ensures exists k ::
      0 <= k < |times| && r == release[k] &&
      forall i :: 0 <= i < |times| ==> Abs(times[k] - target) <= Abs(times[i] - target)
  {
    release[NearestIndex(times, target)]
  }

  /** When the target is itself a sampling time, the lookup returns the release sampled
      at its first occurrence. */
  lemma ReleaseAtSampleTime(times: seq<real>, release: seq<real>, target: real, k: nat)
    requires |times| == |release| && k < |times| && times[k] == target
    requires forall i :: 0 <= i < k ==> times[i] != target
    ensures ReleaseAt(times, release, target) == release[k]
  {
    var j := NearestIndex(times, target);
    assert Abs(times[j] - target) <= Abs(times[k] - target) == 0.0;
    assert j == k;
  }

  /** The in vitro summary of one depot formulation: release read at 1 h, 6 h, 24 h,
      72 h, 7 d and 14 d, then MDT and DE. */
  datatype IvParams = IvParams(
    rel1h: real, rel6h: real, rel24h: real, rel72h: real, rel7d: real, rel14d: real,
    mdt: real, de: real)

  /** v is one of the samples of s. */
  predicate SampleOf(v: real, s: seq<real>) {
    exists k :: 0 <= k < |s| && s[k] == v
  }

  /** Each of the six readings is one of the profile's own samples; MDT and DE are
      those of the whole profile. */
  function IvParamsOf(times: seq<real>, rel: seq<real>): (p: IvParams)
    requires |times| == |rel| > 0
    ensures SampleOf(p.rel1h, rel) && SampleOf(p.rel6h, rel) && SampleOf(p.rel24h, rel)
    ensures SampleOf(p.rel72h, rel) && SampleOf(p.rel7d, rel) && SampleOf(p.rel14d, rel)
    ensures p.mdt == ComputeMdt(times, rel) && p.de == ComputeDe(times, rel)
  {
    IvParams(ReleaseAt(times, rel, 1.0), ReleaseAt(times, rel, 6.0), ReleaseAt(times, rel, 24.0),
      ReleaseAt(times, rel, 72.0), ReleaseAt(times, rel, 168.0), ReleaseAt(times, rel, 336.0),
      ComputeMdt(times, rel), ComputeDe(times, rel))
  }

  /** Every target is a Level C sampling time, so the six readings are exactly the
      samples at indices 1 to 6 of the profile. */
  lemma IvParamsAtSampleTimes(rel: seq<real>)
    requires |rel| == |IvTimesH|
    ensures IvParamsOf(IvTimesH, rel)
      == IvParams(rel[1], rel[2], rel[3], rel[4], rel[5], rel[6],
                  ComputeMdt(IvTimesH, rel), ComputeDe(IvTimesH, rel))
  {
    var t := IvTimesH;
    assert t[0] == 0.0 && t[1] == 1.0 && t[2] == 6.0 && t[3] == 24.0;
    assert t[4] == 72.0 && t[5] == 168.0 && t[6] == 336.0;
    ReleaseAtSampleTime(t, rel, 1.0, 1);
    ReleaseAtSampleTime(t, rel, 6.0, 2);
    ReleaseAtSampleTime(t, rel, 24.0, 3);
    ReleaseAtSampleTime(t, rel, 72.0, 4);
    ReleaseAtSampleTime(t, rel, 168.0, 5);
    ReleaseAtSampleTime(t, rel, 336.0, 6);
  }

  /** Every profile has n samples. */
  predicate Sampled(profiles: seq<seq<real>>, n: nat) {
    forall j :: 0 <= j < |profiles| ==> |profiles[j]| == n
  }

  function IvParamsList(times: seq<real>, releases: seq<seq<real>>): (ps: seq<IvParams>)
    requires |times| > 0 && Sampled(releases, |times|)
    ensures |ps| == |releases| && forall j :: 0 <= j < |releases| ==> ps[j] == IvParamsOf(times, releases[j])
  {
    seq(|releases|, j requires 0 <= j < |releases| => IvParamsOf(times, releases[j]))
  }

  /** The in vitro loop: each formulation's summary entered under its name. */
  method TabulateIvParams(times: seq<real>, names: seq<string>, releases: seq<seq<real>>)
    returns (t: map<string, IvParams>)
    requires |times| > 0 && Sampled(releases, |times|) && |names| == |releases|
    ensures t == Zip(names, IvParamsList(times, releases))
  {
    ghost var ps := IvParamsList(times, releases);
    t := map[];
    for i := 0 to |names|
      invariant t == Zip(names[..i], ps[..i])
    {
      var rel := releases[i];
      var mdt := ComputeMdt(times, rel);
      var de := ComputeDe(times, rel);
      var p := IvParams(ReleaseAt(times, rel, 1.0), ReleaseAt(times, rel, 6.0),
        ReleaseAt(times, rel, 24.0), ReleaseAt(times, rel, 72.0), ReleaseAt(times, rel, 168.0),
        ReleaseAt(times, rel, 336.0), mdt, de);
      ZipExtend(names, ps, i);
      t := t[names[i] := p];
    }
    ZipWhole(names, ps);
  }

  /** The in vivo summary of one normalised curve. */
  datatype VivoParams = VivoParams(aucNorm: real, mrt: real, tmax: real)

  /** AUC and MRT of the normalised curve, and Tmax the sampling time of its first
      peak. */
  function VivoParamsOf(times: seq<real>, pkNorm: seq<real>): (v: VivoParams)
    requires |times| == |pkNorm| > 0
    ensures v.aucNorm == ComputeAuc(times, pkNorm) && v.mrt == ComputeMrt(times, pkNorm)
    ensures exists k :: (0 <= k < |pkNorm| && times[k] == v.tmax
      && (forall i :: 0 <= i < |pkNorm| ==> pkNorm[i] <= pkNorm[k])
      && forall i :: 0 <= i < k ==> pkNorm[i] < pkNorm[k])
  {
    var p := PkParamsOf(times, pkNorm);
    VivoParams(p.auc, p.mrt, p.tmax)
  }

  /** Tmax read from a curve divided by a positive peak is Tmax of the raw curve. */
  lemma NormalisationKeepsTmax(times: seq<real>, pk: seq<real>, c: real)
    requires |times| == |pk| > 0 && 0.0 < c
    ensures VivoParamsOf(times, Normalise(pk, c)).tmax == PkParamsOf(times, pk).tmax
  {
    NormalisationKeepsPeakIndex(pk, c);
  }

  function VivoParamsList(times: seq<real>, pkNorms: seq<seq<real>>): (vs: seq<VivoParams>)
    requires |times| > 0 && Sampled(pkNorms, |times|)
    ensures |vs| == |pkNorms| && forall j :: 0 <= j < |pkNorms| ==> vs[j] == VivoParamsOf(times, pkNorms[j])
  {
    seq(|pkNorms|, j requires 0 <= j < |pkNorms| => VivoParamsOf(times, pkNorms[j]))
  }

  /** The in vivo loop: each formulation's summary entered under its name. */
  method TabulateVivoParams(times: seq<real>, names: seq<string>, pkNorms: seq<seq<real>>)
    returns (t: map<string, VivoParams>)
    requires |times| > 0 && Sampled(pkNorms, |times|) && |names| == |pkNorms|
    ensures t == Zip(names, VivoParamsList(times, pkNorms))
  {
    ghost var vs := VivoParamsList(times, pkNorms);
    t := map[];
    for i := 0 to |names|
      invariant t == Zip(names[..i], vs[..i])
    {
      var pkNorm := pkNorms[i];
      var auc := ComputeAuc(times, pkNorm);
      var mrt := ComputeMrt(times, pkNorm);
      var tmax := times[ArgMax(pkNorm)];
      ZipExtend(names, vs, i);
      t := t[names[i] := VivoParams(auc, mrt, tmax)];
    }
    ZipWhole(names, vs);
  }

  // ---------------------------------------------------------------- f1/f2 comparisons

  /** `s.split(' ')[0]`: everything before the first space, all of s when it has none. */
  function FirstWord(s: string): (w: string)
    ensures |w| <= |s| && w == s[..|w|] && ' ' !in w
    ensures |w| < |s| ==> s[|w|] == ' '
  {
    if |s| == 0 || s[0] == ' ' then "" else [s[0]] + FirstWord(s[1..])
  }

  /** A string whose first space is at index k has its first k characters as its first
      word. */
  lemma {:induction false} FirstWordAt(s: string, k: nat)
    requires k < |s| && s[k] == ' ' && ' ' !in s[..k]
    ensures FirstWord(s) == s[..k]
    decreases k
  {
    if 0 < k {
      assert s[..k][0] == s[0];
      assert s[1..][..k - 1] == s[..k][1..];
      FirstWordAt(s[1..], k - 1);
      assert [s[0]] + s[1..][..k - 1] == s[..k];
    }
  }

  /** The label of a comparison, `"<ref> vs <test>"`. */
  function Versus(ref: string, test: string): (tag: string)
    ensures |tag| == |ref| + 4 + |test|
    ensures tag[..|ref|] == ref && tag[|ref| + 4..] == test
  {
    ref + " vs " + test
  }

  /** A reference part without spaces can be read back from the label, so two such
      labels are the same only when both their parts are. */
  lemma VersusInjective(a: string, b: string, c: string, d: string)
    requires ' ' !in a && ' ' !in c
    ensures Versus(a, b) == Versus(c, d) ==> a == c && b == d
  {
    var v, u := Versus(a, b), Versus(c, d);
    assert v[..|a|] == a && v[|a|] == ' ' && v[|a| + 4..] == b;
    assert u[..|c|] == c && u[|c|] == ' ' && u[|c| + 4..] == d;
    assert forall i :: 0 <= i < |a| ==> v[i] == a[i];
    assert forall i :: 0 <= i < |c| ==> u[i] == c[i];
  }

  /** One labelled f1/f2 entry. */
  datatype Comparison = Comparison(key: string, similarity: Similarity)

  /** A reference name without spaces is used whole in the label; identical non-empty
      profiles compare as f1 = 0 and f2 = 100. */
  function Compare(m: Math, refName: string, testLabel: string, ref: seq<real>, test: seq<real>): (c: Comparison)
    requires Lawful(m) && |ref| == |test|
    ensures ' ' !in refName ==> c.key == Versus(refName, testLabel)
    ensures c.similarity == ComputeF1F2(m, ref, test)
    ensures ref == test && |ref| > 0 ==> c.similarity == Similarity(0.0, Finite(100.0))
  {
    if ref == test && |ref| > 0 then
      IdenticalProfilesAreSimilar(m, ref);
      Comparison(Versus(FirstWord(refName), testLabel), ComputeF1F2(m, ref, test))
    else
      Comparison(Versus(FirstWord(refName), testLabel), ComputeF1F2(m, ref, test))
  }

  /** The reference/test pairs among the formulations, by position in the list. */
  const ComparedPairs: seq<(nat, nat)> := [(0, 1), (0, 2), (1, 2)]

  /** Every pair names two of the n formulations. */
  predicate PairsWithin(pairs: seq<(nat, nat)>, n: nat) {
    forall p :: 0 <= p < |pairs| ==> pairs[p].0 < n && pairs[p].1 < n
  }

  /** Each pair's reference profile against its test profile, labelled by the first
      words of the two names. */
  function PairComparisons(m: Math, names: seq<string>, releases: seq<seq<real>>, n: nat, pairs: seq<(nat, nat)>): (cs: seq<Comparison>)
    requires Lawful(m) && |names| == |releases| && Sampled(releases, n) && PairsWithin(pairs, |names|)
    ensures |cs| == |pairs|
    ensures forall p :: 0 <= p < |pairs| ==>
      cs[p] == Compare(m, names[pairs[p].0], FirstWord(names[pairs[p].1]), releases[pairs[p].0], releases[pairs[p].1])
  {
    seq(|pairs|, p requires 0 <= p < |pairs| =>
      Compare(m, names[pairs[p].0], FirstWord(names[pairs[p].1]), releases[pairs[p].0], releases[pairs[p].1]))
  }

  /** Each formulation against the solution profile. */
  function SolutionComparisons(m: Math, names: seq<string>, releases: seq<seq<real>>, solution: seq<real>): (cs: seq<Comparison>)
    requires Lawful(m) && |names| == |releases| && Sampled(releases, |solution|)
    ensures |cs| == |names|
    ensures forall j :: 0 <= j < |names| ==> cs[j] == Compare(m, names[j], "Solution", releases[j], solution)
  {
    seq(|names|, j requires 0 <= j < |names| => Compare(m, names[j], "Solution", releases[j], solution))
  }

  /** The loop over the pairs, entries in insertion order. */
  method ComparePairs(m: Math, names: seq<string>, releases: seq<seq<real>>, n: nat, pairs: seq<(nat, nat)>)
    returns (results: seq<Comparison>)
    requires Lawful(m) && |names| == |releases| && Sampled(releases, n) && PairsWithin(pairs, |names|)
    ensures results == PairComparisons(m, names, releases, n, pairs)
  {
    ghost var spec := PairComparisons(m, names, releases, n, pairs);
    results := [];
    for p := 0 to |pairs|
      invariant results == spec[..p]
    {
      var (i, j) := pairs[p];
      var f := ComputeF1F2(m, releases[i], releases[j]);
      assert spec[..p + 1] == spec[..p] + [spec[p]];
      results := results + [Comparison(FirstWord(names[i]) + " vs " + FirstWord(names[j]), f)];
    }
  }

  /** The loop comparing each formulation with the solution, entries in order. */
  method CompareWithSolution(m: Math, names: seq<string>, releases: seq<seq<real>>, solution: seq<real>)
    returns (results: seq<Comparison>)
    requires Lawful(m) && |names| == |releases| && Sampled(releases, |solution|)
    ensures results == SolutionComparisons(m, names, releases, solution)
  {
    ghost var spec := SolutionComparisons(m, names, releases, solution);
    results := [];
    for j := 0 to |names|
      invariant results == spec[..j]
    {
      var f := ComputeF1F2(m, releases[j], solution);
      assert spec[..j + 1] == spec[..j] + [spec[j]];
      results := results + [Comparison(FirstWord(names[j]) + " vs " + "Solution", f)];
    }
  }

  function Labels(cs: seq<Comparison>): (ls: seq<string>)
    ensures |ls| == |cs| && forall i :: 0 <= i < |cs| ==> ls[i] == cs[i].key
  {
    seq(|cs|, i requires 0 <= i < |cs| => cs[i].key)
  }

  /** Labels whose reference parts have no spaces are different whenever their
      (reference, test) pairs are. */
  lemma VersusDistinct(refs: seq<string>, tests: seq<string>)
    requires |refs| == |tests| && forall i :: 0 <= i < |refs| ==> ' ' !in refs[i]
    requires forall i, j :: 0 <= i < j < |refs| ==> refs[i] != refs[j] || tests[i] != tests[j]
    ensures Distinct(seq(|refs|, i requires 0 <= i < |refs| => Versus(refs[i], tests[i])))
  {
    var ls := seq(|refs|, i requires 0 <= i < |refs| => Versus(refs[i], tests[i]));
    forall i, j | 0 <= i < j < |refs|
      ensures ls[i] != ls[j]
    {
      VersusInjective(refs[i], tests[i], refs[j], tests[j]);
    }
  }

  /** The six Level C labels in insertion order. */
  const LevelCLabels: seq<string> :=
    [Versus("A", "B"), Versus("A", "C"), Versus("B", "C"),
     Versus("A", "Solution"), Versus("B", "Solution"), Versus("C", "Solution")]

  /** The six labels are all different, so the dictionary keeps six entries. */
  lemma LevelCLabelsDistinct()
    ensures Distinct(LevelCLabels)
  {
    var refs, tests := ["A", "A", "B", "A", "B", "C"], ["B", "C", "C", "Solution", "Solution", "Solution"];
    VersusDistinct(refs, tests);
    assert LevelCLabels == seq(6, i requires 0 <= i < 6 => Versus(refs[i], tests[i]));
  }

  /** The labels the pair loop gives its entries. */
  function PairLabels(names: seq<string>, pairs: seq<(nat, nat)>): (ls: seq<string>)
    requires PairsWithin(pairs, |names|)
    ensures |ls| == |pairs|
    ensures forall p :: 0 <= p < |pairs| ==> ls[p] == Versus(FirstWord(names[pairs[p].0]), FirstWord(names[pairs[p].1]))
  {
    seq(|pairs|, p requires 0 <= p < |pairs| => Versus(FirstWord(names[pairs[p].0]), FirstWord(names[pairs[p].1])))
  }

  /** The labels the solution loop gives its entries. */
  function SolutionLabels(names: seq<string>): (ls: seq<string>)
    ensures |ls| == |names| && forall j :: 0 <= j < |names| ==> ls[j] == Versus(FirstWord(names[j]), "Solution")
  {
    seq(|names|, j requires 0 <= j < |names| => Versus(FirstWord(names[j]), "Solution"))
  }

  /** The entries of the two comparison loops carry the pair labels, then the solution
      labels, whatever the profiles compared. */
  lemma ComparisonLabels(m: Math, names: seq<string>, releases: seq<seq<real>>, solution: seq<real>, pairs: seq<(nat, nat)>)
    requires Lawful(m) && |names| == |releases| && Sampled(releases, |solution|) && PairsWithin(pairs, |names|)
    ensures Labels(PairComparisons(m, names, releases, |solution|, pairs) + SolutionComparisons(m, names, releases, solution))
      == PairLabels(names, pairs) + SolutionLabels(names)
  {
    var ps := PairComparisons(m, names, releases, |solution|, pairs);
    var ss := SolutionComparisons(m, names, releases, solution);
    PairComparisonLabels(m, names, releases, |solution|, pairs);
    SolutionComparisonLabels(m, names, releases, solution);
    LabelsAppend(ps, ss);
  }

  lemma PairComparisonLabels(m: Math, names: seq<string>, releases: seq<seq<real>>, n: nat, pairs: seq<(nat, nat)>)
    requires Lawful(m) && |names| == |releases| && Sampled(releases, n) && PairsWithin(pairs, |names|)
    ensures Labels(PairComparisons(m, names, releases, n, pairs)) == PairLabels(names, pairs)
  {
    var ps := PairComparisons(m, names, releases, n, pairs);
    forall p | 0 <= p < |pairs|
      ensures Labels(ps)[p] == PairLabels(names, pairs)[p]
    {
      assert ps[p].key == Versus(FirstWord(names[pairs[p].0]), FirstWord(names[pairs[p].1]));
    }
  }

  lemma SolutionComparisonLabels(m: Math, names: seq<string>, releases: seq<seq<real>>, solution: seq<real>)
    requires Lawful(m) && |names| == |releases| && Sampled(releases, |solution|)
    ensures Labels(SolutionComparisons(m, names, releases, solution)) == SolutionLabels(names)
  {
    var ss := SolutionComparisons(m, names, releases, solution);
    forall j | 0 <= j < |names|
      ensures Labels(ss)[j] == SolutionLabels(names)[j]
    {
      assert ss[j].key == Versus(FirstWord(names[j]), "Solution");
    }
  }

  lemma LabelsAppend(a: seq<Comparison>, b: seq<Comparison>)
    ensures Labels(a + b) == Labels(a) + Labels(b)
  {
    assert forall i :: 0 <= i < |a + b| ==> Labels(a + b)[i] == (Labels(a) + Labels(b))[i];
  }

  /** Spelled out for the Level C names: "A vs B", "A vs C", "B vs C", then
      "A vs Solution", "B vs Solution", "C vs Solution". */
  lemma LevelCLabelsSpelled()
    ensures PairsWithin(ComparedPairs, |LevelCNames|)
    ensures PairLabels(LevelCNames, ComparedPairs) + SolutionLabels(LevelCNames) == LevelCLabels
  {
    assert ComparedPairs[0] == (0, 1) && ComparedPairs[1] == (0, 2) && ComparedPairs[2] == (1, 2);
    FirstWordAt(LevelCNames[0], 1);
    FirstWordAt(LevelCNames[1], 1);
    FirstWordAt(LevelCNames[2], 1);
    var a, b, c := FirstWord(LevelCNames[0]), FirstWord(LevelCNames[1]), FirstWord(LevelCNames[2]);
    assert a == "A" && b == "B" && c == "C";
    assert PairLabels(LevelCNames, ComparedPairs) == [Versus(a, b), Versus(a, c), Versus(b, c)];
    assert SolutionLabels(LevelCNames) == [Versus(a, "Solution"), Versus(b, "Solution"), Versus(c, "Solution")];
  }

  /** The Level C comparison loops label their six entries with the six distinct
      Level C labels, in order. */
  lemma LevelCComparisonLabels(m: Math, releases: seq<seq<real>>, solution: seq<real>)
    requires Lawful(m) && |releases| == 3 && Sampled(releases, |solution|)
    ensures PairsWithin(ComparedPairs, |LevelCNames|)
    ensures Labels(PairComparisons(m, LevelCNames, releases, |solution|, ComparedPairs)
      + SolutionComparisons(m, LevelCNames, releases, solution)) == LevelCLabels
    ensures Distinct(LevelCLabels)
  {
    LevelCLabelsSpelled();
    ComparisonLabels(m, LevelCNames, releases, solution, ComparedPairs);
    LevelCLabelsDistinct();
  }

  // ---------------------------------------------------------------- Level C assembly

  /** The three depot curves on a PK grid, each divided by the peak of curve A. */
  function NormalisedDepots(m: Math, pkTimes: seq<real>, pkA: DepotParams, pkB: DepotParams, pkC: DepotParams): (ns: seq<seq<real>>)
    requires |pkTimes| > 0 && MaxOf(DepotCurve(m, pkTimes, pkA)) != 0.0
    ensures |ns| == 3 && Sampled(ns, |pkTimes|)
  {
    var cmax := MaxOf(DepotCurve(m, pkTimes, pkA));
    [Normalise(DepotCurve(m, pkTimes, pkA), cmax),
     Normalise(DepotCurve(m, pkTimes, pkB), cmax),
     Normalise(DepotCurve(m, pkTimes, pkC), cmax)]
  }

  /** The PK steps: sample the three depot curves and divide each by the peak of A. */
  method NormaliseToReference(m: Math, pkTimes: seq<real>, pkA: DepotParams, pkB: DepotParams, pkC: DepotParams)
    returns (ns: seq<seq<real>>)
    requires |pkTimes| > 0 && MaxOf(DepotCurve(m, pkTimes, pkA)) != 0.0
    ensures ns == NormalisedDepots(m, pkTimes, pkA, pkB, pkC)
  {
    var curveA := DepotCurve(m, pkTimes, pkA);
    var curveB := DepotCurve(m, pkTimes, pkB);
    var curveC := DepotCurve(m, pkTimes, pkC);
    var cmax := MaxOf(curveA);
    ns := [Normalise(curveA, cmax), Normalise(curveB, cmax), Normalise(curveC, cmax)];
  }

  /** With non-negative depot parameters, a2 > 0 for A and a grid from 0 on, the
      reference peak is positive and A's normalised curve peaks at exactly 1. */
  lemma ReferencePeakIsOne(m: Math, pkTimes: seq<real>, pkA: DepotParams, pkB: DepotParams, pkC: DepotParams)
    requires Lawful(m) && |pkTimes| > 0 && forall i :: 0 <= i < |pkTimes| ==> 0.0 <= pkTimes[i]
    requires 0.0 <= pkA.a1 && 0.0 <= pkA.alpha1 && 0.0 <= pkA.ka && 0.0 < pkA.a2 && 0.0 <= pkA.alpha2
    ensures 0.0 < MaxOf(DepotCurve(m, pkTimes, pkA))
    ensures MaxOf(NormalisedDepots(m, pkTimes, pkA, pkB, pkC)[0]) == 1.0
  {
    var curveA := DepotCurve(m, pkTimes, pkA);
    assert 0.0 < MaxOf(curveA) by { DepotPeakPositive(m, pkTimes, pkA); }
    assert NormalisedDepots(m, pkTimes, pkA, pkB, pkC)[0] == Normalise(curveA, MaxOf(curveA));
    NormalisedPeakIsOne(curveA);
  }

  /** Everything the Level C tutorial reads: the grids in hours and days, the profiles
      by name (with the solution), the normalised curves, the two parameter tables and
      the labelled f1/f2 entries in insertion order. */
  datatype LevelCData = LevelCData(
    ivTimesH: seq<real>, ivTimesD: seq<real>, pkTimesH: seq<real>, pkTimesD: seq<real>,
    dissolution: map<string, seq<real>>, pkNormalized: map<string, seq<real>>,
    formulations: seq<string>, ivParams: map<string, IvParams>,
    vivoParams: map<string, VivoParams>, f1f2: seq<Comparison>)

  lemma SampledThree(a: seq<real>, b: seq<real>, c: seq<real>, n: nat)
    requires |a| == |b| == |c| == n
    ensures Sampled([a, b, c], n)
  {
  }

  predicate LevelCInputs(ivTimes: seq<real>, pkTimes: seq<real>, releases: seq<seq<real>>, ns: seq<seq<real>>) {
    |ivTimes| > 0 && |pkTimes| > 0 && |releases| == 3 && Sampled(releases, |ivTimes|)
      && |ns| == 3 && Sampled(ns, |pkTimes|)
  }

  /** The Level C data from the three in vitro profiles and the three normalised
      curves, on the given grids. */
  function LevelCFrom(m: Math, ivTimes: seq<real>, pkTimes: seq<real>, releases: seq<seq<real>>, ns: seq<seq<real>>): (d: LevelCData)
    requires Lawful(m) && LevelCInputs(ivTimes, pkTimes, releases, ns)
    ensures d.formulations == LevelCNames
    ensures Labels(d.f1f2) == LevelCLabels && Distinct(Labels(d.f1f2))
    ensures "Solution" in d.dissolution && |d.dissolution["Solution"]| == |ivTimes|
    ensures forall i :: 0 <= i < |ivTimes| ==> d.dissolution["Solution"][i] <= 100.0
  {
    var solution := SolutionRelease(m, ivTimes);
    LevelCComparisonLabels(m, releases, solution);
    LevelCData(ivTimes, PerDay(ivTimes), pkTimes, PerDay(pkTimes),
      map[LevelCNames[0] := releases[0], LevelCNames[1] := releases[1], LevelCNames[2] := releases[2],
          "Solution" := solution],
      map[LevelCNames[0] := ns[0], LevelCNames[1] := ns[1], LevelCNames[2] := ns[2]],
      LevelCNames,
      Zip(LevelCNames, IvParamsList(ivTimes, releases)),
      Zip(LevelCNames, VivoParamsList(pkTimes, ns)),
      PairComparisons(m, LevelCNames, releases, |ivTimes|, ComparedPairs)
        + SolutionComparisons(m, LevelCNames, releases, solution))
  }

  /** The rest of the generator once the curves are normalised: the solution profile,
      the two parameter loops and the two comparison loops. */
  method AssembleLevelC(m: Math, ivTimes: seq<real>, pkTimes: seq<real>, releases: seq<seq<real>>, ns: seq<seq<real>>)
    returns (d: LevelCData)
    requires Lawful(m) && LevelCInputs(ivTimes, pkTimes, releases, ns)
    ensures d == LevelCFrom(m, ivTimes, pkTimes, releases, ns)
  {
    var solution := SolutionRelease(m, ivTimes);
    var ivParams := TabulateIvParams(ivTimes, LevelCNames, releases);
    var vivoParams := TabulateVivoParams(pkTimes, LevelCNames, ns);
    LevelCLabelsSpelled();
    var pairResults := ComparePairs(m, LevelCNames, releases, |ivTimes|, ComparedPairs);
    var solutionResults := CompareWithSolution(m, LevelCNames, releases, solution);
    d := LevelCData(ivTimes, PerDay(ivTimes), pkTimes, PerDay(pkTimes),
      map[LevelCNames[0] := releases[0], LevelCNames[1] := releases[1], LevelCNames[2] := releases[2],
          "Solution" := solution],
      map[LevelCNames[0] := ns[0], LevelCNames[1] := ns[1], LevelCNames[2] := ns[2]],
      LevelCNames, ivParams, vivoParams, pairResults + solutionResults);
  }

  /** The Level C data for three in vitro profiles sampled on the in vitro grid and
      three depot parameter sets. */
  function LevelCSpec(m: Math, releaseA: seq<real>, releaseB: seq<real>, releaseC: seq<real>,
                      pkA: DepotParams, pkB: DepotParams, pkC: DepotParams): (d: LevelCData)
    requires Lawful(m) && |releaseA| == |releaseB| == |releaseC| == |IvTimesH|
    requires MaxOf(DepotCurve(m, PkTimesH, pkA)) != 0.0
    ensures d.formulations == LevelCNames && Labels(d.f1f2) == LevelCLabels
  {
    SampledThree(releaseA, releaseB, releaseC, |IvTimesH|);
    LevelCFrom(m, IvTimesH, PkTimesH, [releaseA, releaseB, releaseC],
      NormalisedDepots(m, PkTimesH, pkA, pkB, pkC))
  }

  /** The Level C generator. */
  method GenerateLevelC(m: Math, releaseA: seq<real>, releaseB: seq<real>, releaseC: seq<real>,
                        pkA: DepotParams, pkB: DepotParams, pkC: DepotParams)
    returns (d: LevelCData)
    requires Lawful(m) && |releaseA| == |releaseB| == |releaseC| == |IvTimesH|
    requires MaxOf(DepotCurve(m, PkTimesH, pkA)) != 0.0
    ensures d == LevelCSpec(m, releaseA, releaseB, releaseC, pkA, pkB, pkC)
  {
    var ns := NormaliseToReference(m, PkTimesH, pkA, pkB, pkC);
    var releases := [releaseA, releaseB, releaseC];
    SampledThree(releaseA, releaseB, releaseC, |IvTimesH|);
    d := AssembleLevelC(m, IvTimesH, PkTimesH, releases, ns);
    assert LevelCSpec(m, releaseA, releaseB, releaseC, pkA, pkB, pkC) == LevelCFrom(m, IvTimesH, PkTimesH, releases, ns);
  }
}

# IVIVC engine — a verified model

This project models the numerical engine of an educational in vitro–in vivo
correlation (IVIVC) application. The engine produces synthetic dissolution
profiles and plasma-concentration curves for three teaching scenarios. It
summarises them (MDT, DE, f1/f2, AUC, AUMC, MRT, Cmax/Tmax) and deconvolves
plasma curves into absorption profiles, by Wagner–Nelson or by point-area
deconvolution. It then correlates in vitro with in vivo quantities (Level A pooled
regression, Level C single-point regression and its matrix) and validates
predictions by percent error.

The model is written in Dafny, one module per source file, plus two shared modules:

- `Numerics` (`numerics.dfy`) holds the value types:
  - `Option`;
  - `Scalar`, a float that may be NaN;
  - `Math`, the record of transcendental functions (exp, ln, log10, sqrt) supplied by
    the numeric library.

  The model never evaluates these functions. The proofs use only the facts collected
  in `Lawful`:
  - exp(0) = 1;
  - 0 < exp(x) ≤ 1 for x ≤ 0;
  - exp is monotone;
  - log10(100) = 2;
  - sqrt(1) = 1;
  - sqrt(x) ≥ 1 for x ≥ 1.
- `Series` (`series.dfy`) holds the NumPy building blocks the engine calls:
  - sum, diff and interval midpoints;
  - the trapezoid rule and its running form;
  - argmax and argmin (first index).
- `DissolutionModels` (`dissolution.dfy`) models `utils/dissolution_models.py`.
- `PkModels` (`pk.dfy`) models `utils/pk_models.py`.
- `Deconvolution` (`deconvolution.dfy`) models `utils/deconvolution.py`. Its loops are
  methods proved equal to specification functions:
  - the cumulative-area loop;
  - the nested point-area recurrence;
  - the in-place normalisation.
- `IvivcCalculations` (`correlation.dfy`) models `utils/ivivc_calculations.py`. The
  statistics routine `linregress` is a parameter. The correlation matrix is filled
  into three `array2` grids by a nested loop.
- `SyntheticData` (`scenarios.dfy`) models the three scenario generators of
  `utils/synthetic_data.py`. Each generator is a method proved equal to a
  specification function. Its dictionaries are `map`s built in insertion order, and
  the properties the tutorials rely on are lemmas:
  - the Level A profiles (for rate constants k ≥ 0), the pathological pair P1/P2 and
    the Level C solution stay within [0, 100] % and never fall; the three Level C
    formulation profiles are inputs and carry no such guarantee;
  - concentrations are never negative;
  - MDT and MRT lie inside the sampling window;
  - VDT ≥ 0;
  - the reference curve peaks at 1 after normalisation;
  - the six f1/f2 labels are distinct.

Floating-point numbers are modelled as mathematical reals.

## Model

| member | source | states |
|---|---|---|
| Numerics.Clip | utils/deconvolution.py:65 | the clipped value lies in [lo, hi] whenever lo ≤ hi, and a value already inside is unchanged |
| Numerics.ClipMonotone | utils/deconvolution.py:65 | clipping preserves order |
| Series.Diff | utils/dissolution_models.py:116 | the increments have one element fewer than the samples |
| Series.Midpoints | utils/dissolution_models.py:117 | there is one midpoint per sampling interval |
| Series.DiffTelescopes | utils/dissolution_models.py:116-122 | the increments sum to last − first, the net release |
| Series.DiffNonNegative | utils/synthetic_data.py:191-199 | a non-decreasing profile has non-negative increments |
| Series.Trapz | utils/pk_models.py:10 | the trapezoid rule gives 0 over fewer than two samples |
| Series.RunningTrapzIsPanelSum | utils/pk_models.py:10 | the running area is the sum of the interval trapezoids ½(y_i + y_{i+1})(x_{i+1} − x_i) |
| Series.RunningTrapzMonotone | utils/deconvolution.py:46-49 | for non-negative samples over non-decreasing abscissae the running area never decreases |
| Series.TrapzNonNegative | utils/pk_models.py:144 | the area of non-negative samples over non-decreasing times is ≥ 0 |
| Series.RunningTrapzBetween | utils/dissolution_models.py:145-146 | samples within [lo, hi] give a running area between lo·(x_j − x_0) and hi·(x_j − x_0) |
| Series.CumulativeTrapz | utils/deconvolution.py:46-49 | there is one running area per sample |
| Series.WeightedMeanBetween | utils/dissolution_models.py:122 | a ratio of sums whose terms are bracketed termwise by lo and hi times positive weights lies in [lo, hi] |
| Series.ArgMax | utils/synthetic_data.py:97 | the index is valid and holds the maximum, and every earlier sample is strictly smaller (the first maximum) |
| Series.MaxOf | utils/synthetic_data.py:96 | the result bounds every sample and is attained |
| Series.ArgMin | utils/synthetic_data.py:306 | the index is valid and holds the minimum, and every earlier sample is strictly larger (the first minimum) |
| DissolutionModels.FirstOrderRelease | utils/dissolution_models.py:13-34 | one release value fMax·(1 − e^(−k·t)) per sample time |
| DissolutionModels.FirstOrderAt | utils/dissolution_models.py:34 | nothing is released while e^(−k·t) is still 1, and the release is the plateau fMax once it has decayed to 0 |
| DissolutionModels.FirstOrderPointBounded | utils/dissolution_models.py:34 | for k, fMax, t ≥ 0 the release lies in [0, fMax] |
| DissolutionModels.FirstOrderReleaseBounded | utils/dissolution_models.py:34 | release is 0 at t = 0, and the whole profile lies in [0, fMax] for non-negative times |
| DissolutionModels.FirstOrderPointMonotone | utils/dissolution_models.py:34 | release never falls as time advances |
| DissolutionModels.FirstOrderReleaseNonDecreasing | utils/dissolution_models.py:13-34 | over ordered times the profile is non-decreasing |
| DissolutionModels.HiguchiAt | utils/dissolution_models.py:89-92 | the release is the smaller of fMax and kH·√t |
| DissolutionModels.HiguchiRelease | utils/dissolution_models.py:70-92 | one capped Higuchi value per sample time |
| DissolutionModels.HiguchiReleaseBounded | utils/dissolution_models.py:89-92 | for t ≥ 0 and non-negative constants the release lies in [0, fMax], and it is 0 at t = 0 when √0 = 0 |
| DissolutionModels.ComputeMdt | utils/dissolution_models.py:95-122 | MDT is 0 whenever the increments sum to 0 |
| DissolutionModels.MdtFallsBackOnFlatProfile | utils/dissolution_models.py:116-122 | the increments sum to the net release, so MDT falls back to 0 when the last sample equals the first |
| DissolutionModels.MidpointsBetween | utils/dissolution_models.py:117 | over ordered times every midpoint lies in [t_0, t_last] |
| DissolutionModels.MdtBetween | utils/dissolution_models.py:116-122 | with non-negative increments of positive total, MDT lies within any bounds of the midpoints |
| DissolutionModels.MdtWithinSamplingWindow | utils/dissolution_models.py:95-122 | a non-decreasing profile with net release over ordered times has its MDT in [t_0, t_last] |
| DissolutionModels.ComputeDe | utils/dissolution_models.py:125-152 | DE is 0 when the rectangle release_last·(t_last − t_0) is 0 |
| DissolutionModels.DeIsPercentage | utils/dissolution_models.py:144-152 | a non-negative, non-decreasing profile over ordered times has a DE in [0, 100] |
| DissolutionModels.AbsDiffs | utils/dissolution_models.py:179 | absolute differences are non-negative, one per sample |
| DissolutionModels.SquaredDiffsNonNegative | utils/dissolution_models.py:186 | the sum of squared differences is ≥ 0, so √(1 + msd) is defined |
| DissolutionModels.ComputeF1F2 | utils/dissolution_models.py:155-189 | f1 ≥ 0; f1 = 100·Σ\|R−T\|/ΣR when ΣR > 0 and 0 otherwise; f2 is NaN exactly for empty profiles |
| DissolutionModels.IdenticalProfilesAreSimilar | utils/dissolution_models.py:183-187 | identical non-empty profiles give f1 = 0 and f2 = 100 |
| DissolutionModels.F1ZeroIffIdentical | utils/dissolution_models.py:183 | when ΣR > 0, f1 = 0 exactly when the profiles are identical |
| DissolutionModels.NoDifferenceMeansIdentical | utils/dissolution_models.py:183 | a zero f1 quotient over a positive reference total means the test profile equals the reference at every sample |
| PkModels.DecayBounded | utils/pk_models.py:67 | for rate, t ≥ 0 the decay factor e^(−rate·t) lies in (0, 1] |
| PkModels.OneCompartmentOral | utils/pk_models.py:13-43 | one concentration per sample time, using the limiting form when \|ka − ke\| < 1e-10 and the Bateman form otherwise |
| PkModels.OneCompartmentAt | utils/pk_models.py:38-43 | no dose gives no concentration, in either form |
| PkModels.LimitForm | utils/pk_models.py:40 | the limiting form is 0 at t = 0, with no dose, or when the exponential factor is 0 |
| PkModels.BatemanForm | utils/pk_models.py:42-43 | the Bateman form is 0 when the two exponentials agree (as at t = 0) or with no dose |
| PkModels.OneCompartmentStartsAtZero | utils/pk_models.py:38-43 | C(0) = 0 in both forms |
| PkModels.LimitFormNonNegative | utils/pk_models.py:40 | the limiting form (dose/vd)·ka·t·e^(−ke·t) is ≥ 0 for non-negative factors |
| PkModels.BatemanFormNonNegative | utils/pk_models.py:42-43 | the Bateman form is ≥ 0 whenever the exponentials are ordered like the rate constants |
| PkModels.OneCompartmentNonNegative | utils/pk_models.py:13-43 | a non-negative dose into a positive volume with non-negative rates gives C(t) ≥ 0 for t ≥ 0 |
| PkModels.ImpulseResponse1Comp | utils/pk_models.py:46-67 | one value e^(−ke·t)/vd per sample time |
| PkModels.ImpulseAt | utils/pk_models.py:67 | the response times the volume is the fraction e^(−ke·t) still in the body |
| PkModels.ImpulseStartsAtInverseVolume | utils/pk_models.py:67 | h(0) = 1/vd |
| PkModels.ImpulseBounded | utils/pk_models.py:67 | h(t) ∈ (0, 1/vd] for t ≥ 0 |
| PkModels.ImpulseMonotone | utils/pk_models.py:67 | h never increases with time |
| PkModels.ImpulseResponseDecays | utils/pk_models.py:46-67 | over ordered non-negative times the sampled response is positive, at most 1/vd, and non-increasing |
| PkModels.BiexponentialDepot | utils/pk_models.py:98-125 | one value a1·e^(−α1·t)·(1 − e^(−ka·t)) + a2·e^(−α2·t) per sample time |
| PkModels.DepotAt | utils/pk_models.py:125 | while nothing has been absorbed from the depot (e^(−ka·t) = 1) only the immediate part a2·e^(−α2·t) is in plasma |
| PkModels.DepotStartsAtA2 | utils/pk_models.py:125 | C(0) = a2 |
| PkModels.DepotNonNegative | utils/pk_models.py:125 | non-negative parameters give C(t) ≥ 0, and C(t) > 0 when a2 > 0 |
| PkModels.ConvolutionStep | utils/pk_models.py:91 | the scaling step is the first sampling interval, or 1 with fewer than two samples |
| PkModels.FullConvolutionAt | utils/pk_models.py:94 | entry k of the full convolution is 0 outside 0 ≤ k < \|rate\| + \|h\| − 1 |
| PkModels.ConvolveDissolutionPk | utils/pk_models.py:70-95 | the output is the full discrete convolution times dt, truncated to the number of sample times |
| PkModels.ConvolutionNonNegative | utils/pk_models.py:94-95 | a non-negative rate through a non-negative response with a non-negative first step gives a non-negative curve |
| PkModels.ConvolutionWithSingleSample | utils/pk_models.py:94-95 | a one-sample response [c] acts as scaling: entry k is rate[k]·c·dt |
| PkModels.ComputeAuc | utils/pk_models.py:128-144 | AUC is 0 with fewer than two samples |
| PkModels.ComputeAumc | utils/pk_models.py:147-167 | AUMC is 0 with fewer than two samples |
| PkModels.ComputeMrt | utils/pk_models.py:170-194 | MRT falls back to 0 exactly in the AUC = 0 guard |
| PkModels.AucIsTrapezoidSum | utils/pk_models.py:144 | AUC is the sum of the interval trapezoids, and is ≥ 0 for non-negative samples over ordered times |
| PkModels.MomentPanelBetween | utils/pk_models.py:167 | each t·C trapezoid lies between lo and hi times the C trapezoid over an interval inside [lo, hi] |
| PkModels.MomentPanelsBetween | utils/pk_models.py:144-167 | every AUMC panel is bracketed by lo and hi times the matching AUC panel |
| PkModels.MrtBetween | utils/pk_models.py:191-194 | with bracketed panels and a positive AUC, MRT lies in [lo, hi] |
| PkModels.MrtWithinSamplingWindow | utils/pk_models.py:170-194 | non-negative concentrations over ordered times with a positive AUC have their MRT in [t_0, t_last] |
| Deconvolution.AmountAbsorbed | utils/deconvolution.py:55 | one unnormalised amount per sample |
| Deconvolution.FractionAt | utils/deconvolution.py:58-65 | every fraction lies in [0, 1] and is 0 when the denominator is ≤ 0 |
| Deconvolution.Fractions | utils/deconvolution.py:58-65 | each fraction is the clipped amount over ke·AUC(0, ∞) |
| Deconvolution.FillCumulativeArea | utils/deconvolution.py:46-49 | the loop fills exactly the running trapezoid areas |
| Deconvolution.WagnerNelsonSpec | utils/deconvolution.py:13-73 | the result keeps the times, with one fraction, cumulative area and amount per sample |
| Deconvolution.AucTotal | utils/deconvolution.py:52 | with ke > 0, ke·AUC(0, ∞) is the last concentration plus ke times the last cumulative area; otherwise AUC(0, ∞) is the last cumulative area |
| Deconvolution.WagnerNelson | utils/deconvolution.py:13-73 | the method returns exactly the Wagner–Nelson specification |
| Deconvolution.AucCumulativeNonDecreasing | utils/deconvolution.py:46-49 | the cumulative AUC starts at 0 and never decreases for non-negative samples over ordered times |
| Deconvolution.WagnerNelsonFractionsBounded | utils/deconvolution.py:58-65 | every fraction absorbed lies in [0, 1], and all are 0 when ke·AUC(0, ∞) ≤ 0 |
| Deconvolution.WagnerNelsonEndsAtOne | utils/deconvolution.py:52-62 | with ke > 0, ke·AUC(0, ∞) equals the last amount absorbed, so the last fraction is 1 when it is positive |
| Deconvolution.FractionsMonotone | utils/deconvolution.py:58-65 | a non-decreasing amount gives non-decreasing fractions |
| Deconvolution.WagnerNelsonFractionMonotone | utils/deconvolution.py:55-65 | a non-decreasing amount absorbed gives a non-decreasing fraction absorbed |
| Deconvolution.NextRate | utils/deconvolution.py:115-119 | the rate is 0 when h[0] ≤ 0 and 0 after a non-positive time step |
| Deconvolution.SolveRate | utils/deconvolution.py:115-119 | the loop body's solve step, given the earlier rates' contribution, returns exactly the next rate of the recurrence |
| Deconvolution.RawRates | utils/deconvolution.py:108-119 | the recurrence yields one rate per processed sample |
| Deconvolution.FloorAtZero | utils/deconvolution.py:122 | floored rates are non-negative and non-negative rates are kept |
| Deconvolution.Normalised | utils/deconvolution.py:131-132 | with a positive last entry every entry is divided by it and the last becomes 1; otherwise nothing changes |
| Deconvolution.NumericalDeconvolutionSpec | utils/deconvolution.py:76-138 | the result keeps the times, with one rate and one fraction per sample |
| Deconvolution.PriorContribution | utils/deconvolution.py:109-113 | the inner loop sums what the earlier rates contribute at sample i |
| Deconvolution.IntervalEnd | utils/deconvolution.py:113 | the end index of interval j is j + 1, or j itself at the last sample, always inside the grid |
| Deconvolution.PriorSum | utils/deconvolution.py:109-113 | earlier rates that are all 0 contribute nothing |
| Deconvolution.PointAreaRates | utils/deconvolution.py:108-119 | the nested loop yields exactly the recurrence's rates |
| Deconvolution.RescaleByLast | utils/deconvolution.py:131-132 | the array is normalised in place |
| Deconvolution.NumericalDeconvolution | utils/deconvolution.py:76-138 | the method returns exactly the point-area specification |
| Deconvolution.RawRatesVanishWithoutResponse | utils/deconvolution.py:115-119 | with h[0] ≤ 0 every raw rate is 0 |
| Deconvolution.InputRateNonNegative | utils/deconvolution.py:122 | the input rate is never negative, and identically 0 when h[0] ≤ 0 |
| Deconvolution.RawRatesPrefix | utils/deconvolution.py:108-119 | later iterations never change earlier rates, and each rate solves the recurrence for its predecessors |
| Deconvolution.RateZeroOnNonPositiveStep | utils/deconvolution.py:117 | a non-positive time step gives rate 0 at that sample |
| Deconvolution.NormalisedBounded | utils/deconvolution.py:131-132 | a cumulative curve from 0 bounded by its last entry normalises into [0, 1] |
| Deconvolution.NormalisedAreaEnds | utils/deconvolution.py:125-132 | the normalised cumulative area starts at 0 and ends at 1 when the total area is positive |
| Deconvolution.DeconvolutionFractionEnds | utils/deconvolution.py:125-132 | the fraction absorbed starts at 0 and ends at 1 when the total area is positive |
| Deconvolution.DeconvolutionFractionBounded | utils/deconvolution.py:122-132 | over ordered times the fraction absorbed lies in [0, 1] |
| IvivcCalculations.Degenerate | utils/ivivc_calculations.py:89-94 | the fallback has slope, intercept and std err 0, R² = 0 and p = 1, and keeps the data |
| IvivcCalculations.LevelCCorrelation | utils/ivivc_calculations.py:68-106 | fewer than two points give the fallback; otherwise slope, intercept, p and std err come from the fit and R² = r² ≥ 0 |
| IvivcCalculations.LevelCUsesOnlyItsFit | utils/ivivc_calculations.py:96-106 | the result depends on the regression routine only through its fit of (x, y) |
| IvivcCalculations.Pool | utils/ivivc_calculations.py:34-40 | the pooled length is the sum of the per-formulation minimum lengths |
| IvivcCalculations.PoolLength | utils/ivivc_calculations.py:38-40 | both pooled arrays have the same length |
| IvivcCalculations.PoolPrefix | utils/ivivc_calculations.py:34-40 | pooling more formulations only appends |
| IvivcCalculations.PoolPairsAligned | utils/ivivc_calculations.py:34-43 | sample j of formulation i sits at the same pooled index in both arrays |
| IvivcCalculations.LevelACorrelation | utils/ivivc_calculations.py:13-65 | the result is the Level C regression of the two equally long pooled arrays |
| IvivcCalculations.PercentError | utils/ivivc_calculations.py:141-143 | %PE is 0 when the observed value is 0 and when the prediction is exact |
| IvivcCalculations.AbsAll | utils/ivivc_calculations.py:145 | the absolute values, all non-negative |
| IvivcCalculations.Mean | utils/ivivc_calculations.py:146 | the mean is NaN exactly for an empty array |
| IvivcCalculations.ValidationSpec | utils/ivivc_calculations.py:145-157 | pass mean ⇔ mean \|PE\| ≤ 10 (false on NaN); pass individual ⇔ max \|PE\| ≤ 15; pass overall ⇔ both |
| IvivcCalculations.ComputePredictionError | utils/ivivc_calculations.py:109-157 | one %PE per point, and the verdicts follow the validation rules |
| IvivcCalculations.PassesIndividualIffAllWithin | utils/ivivc_calculations.py:147-155 | the individual criterion holds exactly when every \|PE\| ≤ 15 |
| IvivcCalculations.MeanAtMostMax | utils/ivivc_calculations.py:146-147 | for a non-empty array, mean \|PE\| ≤ max \|PE\| |
| IvivcCalculations.PerfectPredictionPasses | utils/ivivc_calculations.py:141-157 | exact predictions have mean and max \|PE\| of 0 and pass all criteria |
| IvivcCalculations.EmptyPredictionFails | utils/ivivc_calculations.py:146-157 | empty input has a NaN mean and max 0, so it passes individually but fails the mean and overall criteria |
| IvivcCalculations.BuildCorrelationMatrix | utils/ivivc_calculations.py:160-207 | cell (i, j) of the three grids holds R², slope and p of the Level C correlation of parameter i with parameter j |
| SyntheticData.Linspace | utils/synthetic_data.py:60 | n evenly spaced samples from a to b inclusive |
| SyntheticData.LinspaceNonDecreasing | utils/synthetic_data.py:60 | an increasing range gives an ordered grid |
| SyntheticData.PkParamsOf | utils/synthetic_data.py:96-106 | Cmax bounds every sample; Tmax is the time of the first sample attaining it; AUC and MRT are those of the curve |
| SyntheticData.HalfTime | utils/synthetic_data.py:111 | t50 is absent (infinite) exactly when k ≤ 0; otherwise k·t50 = ln 2 |
| SyntheticData.DissolutionParamsOf | utils/synthetic_data.py:109-118 | the record holds k, the MDT and DE of the profile, and a t50 absent exactly when k ≤ 0 |
| SyntheticData.FineTimes | utils/synthetic_data.py:60 | the smooth grid has 500 samples |
| SyntheticData.FormulationSpec | utils/synthetic_data.py:76-118 | one formulation's profiles have the lengths of their grids, and its absorption record keeps the PK times |
| SyntheticData.SimulateFormulation | utils/synthetic_data.py:76-118 | one loop pass returns exactly the formulation specification |
| SyntheticData.ZipLookup | utils/synthetic_data.py:343-347 | with distinct keys, the built dictionary holds exactly those keys, each mapped to its own value |
| SyntheticData.TableLookup | utils/synthetic_data.py:63-118 | with distinct names the table holds exactly those names, each with the results of its own rate constant |
| SyntheticData.TabulateFormulations | utils/synthetic_data.py:74-118 | the formulation loop builds exactly the table |
| SyntheticData.ReferenceSpec | utils/synthetic_data.py:121-124 | the immediate-release profiles have the lengths of their grids |
| SyntheticData.FormulationNamesDistinct | utils/synthetic_data.py:64 | the three formulation names are distinct |
| SyntheticData.LevelASpec | utils/synthetic_data.py:126-145 | the scenario carries the three names and the three grids |
| SyntheticData.GenerateLevelA | utils/synthetic_data.py:26-145 | the generator returns exactly the Level A specification |
| SyntheticData.LevelAFormulations | utils/synthetic_data.py:63-118 | the dictionaries hold exactly F1, F2 and F3, with the fast, medium and slow constants respectively |
| SyntheticData.LevelAGridsOrdered | utils/synthetic_data.py:58-59 | both sampling grids start at 0 and are ordered |
| SyntheticData.FormulationPhysical | utils/synthetic_data.py:76-118 | for k ≥ 0: dissolution lies in [0, 100] and is non-decreasing; concentrations and Cmax are ≥ 0; fractions absorbed lie in [0, 1]; t50 exists exactly when k > 0 |
| SyntheticData.DissolutionPhysical | utils/synthetic_data.py:78-81 | the dissolution profile lies in [0, 100] and never falls |
| SyntheticData.ConcentrationsPhysical | utils/synthetic_data.py:85-97 | concentrations and Cmax are non-negative |
| SyntheticData.AbsorptionPhysical | utils/synthetic_data.py:92-93 | every fraction absorbed lies in [0, 1] |
| SyntheticData.PkNonNegative | utils/synthetic_data.py:85-87 | concentrations at ka = 1.5·k are never negative |
| SyntheticData.FasterDissolvesMore | utils/synthetic_data.py:78 | a larger rate constant releases at least as much at every time ≥ 0 |
| SyntheticData.TablePhysical | utils/synthetic_data.py:74-93 | every table entry has a non-decreasing dissolution profile and non-negative concentrations |
| SyntheticData.LevelAPhysical | utils/synthetic_data.py:26-118 | the same for the Level A scenario |
| SyntheticData.FormulationsOrdered | utils/synthetic_data.py:78 | the slower formulation's profile never lies above the faster one's |
| SyntheticData.SquaredDeviations | utils/synthetic_data.py:196 | squared deviations are non-negative, and 0 where the midpoint equals the centre |
| SyntheticData.ComputeVdt | utils/synthetic_data.py:189-199 | VDT falls back to 0 when the increments do not sum to a positive value |
| SyntheticData.VdtNonNegative | utils/synthetic_data.py:189-199 | a profile that never falls has VDT ≥ 0 about any centre |
| SyntheticData.MdtOfSingleStep | utils/dissolution_models.py:116-122 | release confined to one interval puts the MDT at that interval's midpoint |
| SyntheticData.VdtOfSingleStep | utils/synthetic_data.py:193-197 | the VDT about that midpoint is then 0 |
| SyntheticData.BiphasicAt | utils/synthetic_data.py:205-208 | the capped biphasic release never exceeds 100 |
| SyntheticData.BiphasicRelease | utils/synthetic_data.py:205-208 | one biphasic value per sample time |
| SyntheticData.BiphasicBounded | utils/synthetic_data.py:205-208 | with a burst fraction in [0, 100] the release is ≥ 0 and equals the sum of the two first-order phases, so the cap never binds |
| SyntheticData.BiphasicStartsAtZero | utils/synthetic_data.py:206-207 | nothing is released at t = 0 |
| SyntheticData.BiphasicNonDecreasing | utils/synthetic_data.py:205-208 | over ordered non-negative times the biphasic release never falls |
| SyntheticData.MdtInWindow | utils/synthetic_data.py:214-215 | over times from 0, a non-decreasing profile has its MDT in [0, t_last] |
| SyntheticData.MrtInWindow | utils/synthetic_data.py:224-225 | over times from 0, non-negative concentrations have their MRT in [0, t_last] |
| SyntheticData.PathologicalTimes | utils/synthetic_data.py:202 | 100 samples from 0 to 24 h |
| SyntheticData.PathologicalSpec | utils/synthetic_data.py:202-225 | all profiles of the pair have 100 samples |
| SyntheticData.BiphasicSensible | utils/synthetic_data.py:205-215 | P1's profile is within [0, 100], starts at 0, never falls, and its MDT lies in the window |
| SyntheticData.FirstOrderSensible | utils/synthetic_data.py:211-215 | P2's profile is within [0, 100], starts at 0, never falls, and its MDT lies in the window |
| SyntheticData.PathologicalP1 | utils/synthetic_data.py:205-214 | P1 is sensible and its MDT lies in [0, 24] |
| SyntheticData.PathologicalP2 | utils/synthetic_data.py:211-215 | P2 is sensible for k ≥ 0 and its MDT lies in [0, 24] |
| SyntheticData.PkSensible | utils/synthetic_data.py:218-225 | the compound's concentrations are ≥ 0 and its MRT lies in the window |
| SyntheticData.PathologicalPk | utils/synthetic_data.py:218-225 | both curves of the pair are ≥ 0 and both MRTs lie in [0, 24] |
| SyntheticData.MomentsOf | utils/synthetic_data.py:185-186 | MDT and MRT are read from the Level A summaries |
| SyntheticData.MomentsList | utils/synthetic_data.py:184-199 | the moments of each named formulation, in order |
| SyntheticData.TabulateMoments | utils/synthetic_data.py:184-199 | the Level B loop builds exactly the moment table |
| SyntheticData.TableCovers | utils/synthetic_data.py:184-189 | every name has an entry sampled on the dissolution grid |
| SyntheticData.LevelBSpec | utils/synthetic_data.py:227-244 | the scenario carries the Level A names |
| SyntheticData.GenerateLevelB | utils/synthetic_data.py:152-244 | the generator returns exactly the Level B specification |
| SyntheticData.MomentsTableNonNegative | utils/synthetic_data.py:189-199 | profiles that never fall give VDT ≥ 0 for every entry |
| SyntheticData.LevelBVdtNonNegative | utils/synthetic_data.py:177-199 | with non-negative rate constants every Level B VDT is ≥ 0 |
| SyntheticData.PerDay | utils/synthetic_data.py:277 | the day grid times 24 gives back the hour grid |
| SyntheticData.SolutionRelease | utils/synthetic_data.py:289 | the solution profile never exceeds 100 |
| SyntheticData.SolutionCapNeverBinds | utils/synthetic_data.py:289 | the solution profile is plain first-order release at 0.5/h, ≥ 0 for t ≥ 0 |
| SyntheticData.DepotPeakPositive | utils/synthetic_data.py:292-297 | with non-negative parameters and a2 > 0 the depot curve is ≥ 0 and its peak is positive |
| SyntheticData.Normalise | utils/synthetic_data.py:297-300 | every sample is divided by the peak |
| SyntheticData.NormalisationKeepsPeakIndex | utils/synthetic_data.py:297-300 | dividing by a positive peak keeps the index of the first maximum |
| SyntheticData.NormalisedPeakIsOne | utils/synthetic_data.py:297-298 | a curve divided by its own positive peak peaks at 1 |
| SyntheticData.NearestIndex | utils/synthetic_data.py:306 | the index of the first sample time nearest the target |
| SyntheticData.ReleaseAtSampleTime | utils/synthetic_data.py:305-307 | a target that is a sampling time reads the release sampled there |
| SyntheticData.ReleaseAt | utils/synthetic_data.py:305-307 | the reading is the release at a sample whose time is nearest to the target |
| SyntheticData.IvParamsOf | utils/synthetic_data.py:309-322 | each of the six readings is one of the profile's samples, next to the profile's MDT and DE |
| SyntheticData.IvParamsAtSampleTimes | utils/synthetic_data.py:309-322 | the six readings are the samples at 1, 6, 24, 72, 168 and 336 h, next to MDT and DE |
| SyntheticData.IvParamsList | utils/synthetic_data.py:309-322 | one in vitro summary per profile, in order |
| SyntheticData.TabulateIvParams | utils/synthetic_data.py:309-322 | the in vitro loop enters each summary under its name |
| SyntheticData.VivoParamsOf | utils/synthetic_data.py:325-339 | AUC and MRT of the normalised curve, and Tmax the time of its first maximum |
| SyntheticData.NormalisationKeepsTmax | utils/synthetic_data.py:297-300 | Tmax of the normalised curve equals Tmax of the raw curve |
| SyntheticData.VivoParamsList | utils/synthetic_data.py:325-339 | one in vivo summary per curve, in order |
| SyntheticData.TabulateVivoParams | utils/synthetic_data.py:325-339 | the in vivo loop enters each summary under its name |
| SyntheticData.FirstWord | utils/synthetic_data.py:350 | the result is the prefix before the first space, or all of the string when it has none |
| SyntheticData.Versus | utils/synthetic_data.py:350-356 | the label is the reference part, " vs ", then the test part, and both parts can be read back |
| SyntheticData.FirstWordAt | utils/synthetic_data.py:350 | a first space at index k makes the first k characters the first word |
| SyntheticData.VersusInjective | utils/synthetic_data.py:350 | a label with a space-free reference part determines both of its parts |
| SyntheticData.PairComparisons | utils/synthetic_data.py:348-351 | one comparison per pair, the reference profile against the test profile |
| SyntheticData.SolutionComparisons | utils/synthetic_data.py:354-357 | one comparison per formulation against the solution |
| SyntheticData.ComparePairs | utils/synthetic_data.py:348-351 | the pair loop returns exactly those comparisons |
| SyntheticData.CompareWithSolution | utils/synthetic_data.py:354-357 | the solution loop returns exactly those comparisons |
| SyntheticData.Compare | utils/synthetic_data.py:348-357 | the entry holds f1/f2 of the pair, is labelled by a space-free reference name as a whole, and identical non-empty profiles give f1 = 0 and f2 = 100 |
| SyntheticData.VersusDistinct | utils/synthetic_data.py:348-357 | labels with space-free, pairwise-different reference/test parts are distinct |
| SyntheticData.ComparisonLabels | utils/synthetic_data.py:348-357 | the entries carry the pair labels, then the solution labels |
| SyntheticData.PairComparisonLabels | utils/synthetic_data.py:348-351 | the pair entries carry the labels of their pairs, in order |
| SyntheticData.SolutionComparisonLabels | utils/synthetic_data.py:354-357 | the solution entries carry "<name> vs Solution", in order |
| SyntheticData.LevelCLabelsSpelled | utils/synthetic_data.py:343-357 | the labels are "A vs B", "A vs C", "B vs C", "A vs Solution", "B vs Solution" and "C vs Solution" |
| SyntheticData.LevelCComparisonLabels | utils/synthetic_data.py:343-357 | the six entries carry those six distinct labels, so none overwrites another |
| SyntheticData.LevelCLabelsDistinct | utils/synthetic_data.py:348-357 | the six labels are pairwise distinct |
| SyntheticData.NormalisedDepots | utils/synthetic_data.py:292-300 | three curves, each sampled on the PK grid |
| SyntheticData.NormaliseToReference | utils/synthetic_data.py:292-300 | the PK steps return exactly the three curves divided by the peak of A |
| SyntheticData.ReferencePeakIsOne | utils/synthetic_data.py:296-298 | with a2 > 0 for A the peak of A is positive and its normalised curve peaks at 1 |
| SyntheticData.AssembleLevelC | utils/synthetic_data.py:302-379 | the assembly returns exactly the Level C data for its inputs |
| SyntheticData.LevelCFrom | utils/synthetic_data.py:359-379 | the data lists the three formulations, holds the six distinct f1/f2 labels, and includes the solution profile, capped at 100 % |
| SyntheticData.LevelCSpec | utils/synthetic_data.py:251-379 | the generated data lists the three formulations and carries the six f1/f2 labels |
| SyntheticData.GenerateLevelC | utils/synthetic_data.py:251-379 | the generator returns exactly the Level C specification |

## Left out

- Floating point: values are mathematical reals. Rounding, overflow, inf and NaN are not modelled. The exceptions are the NaN mean of an empty array (`Scalar.NaN`) and the infinite t50, modelled as `None`.
- exp, ln, log10 and sqrt are parameters (`Math`). The proofs use only the facts listed in `Lawful`, never actual values.
- `weibull_release` (utils/dissolution_models.py:37-67) is not modelled: its fractional power needs a transcendental beyond `Math`. The Level C generator takes the three in vitro profiles as inputs (`releaseA`, `releaseB`, `releaseC`), sampled on the in vitro grid.
- `scipy.stats.linregress` is a parameter `regress`. Its statistics (slope, intercept, r, p, std err) are not derived.
- Plotting, the Streamlit pages and the application shell are not part of this model. They only display the engine's results.
- NumPy broadcasting and dtype coercion: arrays are `seq<real>`. Scalar `t` arguments are the one-sample case of the array functions.
- Dictionaries of records are `map`s from names to datatypes, built in insertion order (`Zip`). Level A's `k_values` dictionary is the parallel list `ks`. Level C's `release_map` lookup is by position (`ComparedPairs`), and the f1/f2 dictionary is the ordered list of labelled entries, with their labels proved distinct.
- The Level C loop zips the unused raw curves (`pk_raw`). The model leaves them out.
- `DissolutionModels.HiguchiReleaseBounded`: √t of a negative time is NaN in the source. The lemma speaks only about t ≥ 0.
- `Deconvolution.NumericalDeconvolution`: the first-sample rate `conc[0] / (h[0]·dt)` is required to have dt ≠ 0 when h[0] > 0. The source would produce inf there.
- `Deconvolution.NumericalDeconvolution`: the impulse response must have at least as many samples as the time grid, as the source indexes h[i − j] up to n − 1. The guard `i - j < n` always holds and is not modelled.
- `SyntheticData.GenerateLevelC`: requires the peak of curve A to be non-zero. The source would divide by zero and produce inf or NaN curves. `ReferencePeakIsOne` shows that positive depot parameters meet this.
- `PkModels.OneCompartmentOral`: the switch to the limiting form happens for |ka − ke| < 1e-10, as in the source. The limiting form is not proved to be the limit of the Bateman form.
- Inputs on which the source raises an exception are excluded by `requires`, and the exception itself is not modelled: `IvivcCalculations.LevelCCorrelation` with two or more points of unequal lengths (linregress raises ValueError); `DissolutionModels.ComputeF1F2`, `PkModels.ComputeAuc`, `PkModels.ComputeAumc`, `PkModels.ComputeMrt` and `IvivcCalculations.ComputePredictionError` with unequal lengths; `DissolutionModels.ComputeDe`, `Deconvolution.WagnerNelson`, `SyntheticData.PkParamsOf` and `PkModels.ConvolveDissolutionPk` with empty arrays (indexing `[-1]` or `np.convolve` raises); `PkModels.OneCompartmentOral` and `PkModels.ImpulseResponse1Comp` with vd = 0 (ZeroDivisionError); `IvivcCalculations.BuildCorrelationMatrix` with a name missing from a table (KeyError) or with parameter lists of unequal lengths (ValueError).
- `DissolutionModels.ComputeMdt`: requires equal lengths. The source also returns 0.0 for unequal lengths when the increments sum to 0 (utils/dissolution_models.py:118-121); that case is not modelled.
- MDT falls back to 0 when the increments sum to exactly 0, while VDT falls back when they sum to ≤ 0. Both guards are kept as written.
- The source's claim that the pathological pair has similar MDTs (about 4.5 h) depends on particular exp values and is not proved. Only that both MDTs lie in [0, 24] is proved.
- `build_correlation_matrix` also returns the name lists. The method returns only the three grids, because the names are its own inputs.

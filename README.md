# causallib core, modelled in Dafny

This project models the hardened core of causallib, a library that estimates
causal effects from observational data. The model covers these parts:

- **Effect calculation** (`Effects`): the effect types `diff`, `ratio` and `or`
  (odds ratio), validation of the requested types, and assembly of a
  population-level series or an individual-level table.
- **Propensity computations** (`Propensity`): clipping propensity scores with its
  bound checks and counters, inverse-propensity weights, selection of treatment
  columns, and stabilisation by treatment prevalence.
- **Input validation** (`Validation`): the exception hierarchy and each check
  (`check_X_a`, `check_X_a_y`, treatment values, fitted state, learner
  interface, treatment vector, propensity range).
- **Diagnostic reports** (`Reports`): propensity-score statistics, the weight
  distribution with Kish's effective sample size and the 3-sigma outlier count,
  and the per-arm overlap diagnostic.
- **Warnings** (`Warnings`): each warning function and the warning accumulator.
- **Weight estimators** (`BaseWeight`): the stratified weighted aggregate, the
  weight diagnostics, and the constructors of `WeightEstimator` and
  `PropensityEstimator`.
- **Effect and outcome estimators** (`BaseEstimator`): effect estimation,
  aggregation of individual outcomes into population outcomes, and the
  `summary()` introspection with its fitted-state and outcome-type inference.
- **Causal assumptions** (`Assumptions`): the assumption records, their dictionary
  form, and the table from estimator class name to assumption list.

Each source file is one Dafny module. `Common` holds the shared
`Option`/`Result` types, the counters over rows, `Sum`, `Mean`, `Min`, `Max` and
`Percent`.

Numbers are exact reals. A float that would be infinite or NaN is modelled as
follows:

- Effects: a zero denominator of the ratio, and a probability outside [0, 1] for the odds ratio, are errors for scalars and series alike, as in the code. The odds ratio's own divisions by zero (outcome 1 equal to 1, or outcome 2 equal to 0 or 1) are errors too: for Python-number scalars the code raises ZeroDivisionError, which `calculate_effect` turns into ValueError, but for series pandas gives inf or NaN entries, where the model reports the error.
- Propensity weights: a `NonFinite` weight entry.
- Report fields: `None`.

pandas objects are modelled as follows:

- Index labels and treatment labels are integers (`Key`).
- A missing value is `None`.
- A `Series` is a sequence of rows with an index.
- A `DataFrame` is a sequence of rows, each a sequence of cells.

Routines the core calls but does not define are parameters of the model:

- the median;
- the standard deviation, tied to the data by `Reports.IsStd`;
- the quartiles.

The warning accumulator is a Dafny class with a `seq` field, because the source
mutates a module-level list. The loops of the source are methods:

- the effect-type loop (`Effects.FillResultsLoop`);
- the two clipping passes (`Propensity.ClipSide`);
- the stratum loop (`BaseWeight.StratifiedWeightedAggregate`);
- the dominance loop (`Warnings.WarnSingleTreatmentDominance`);
- the two overlap loops (`Reports.CountPerTreatment`, `Reports.CountOverlapPerTreatment`).

Each of these methods is proved equal to a specification function. The lemmas
are stated about that function.

The docstring of `calculate_effect` shows `calculate_effect(0.3, 0.6)` producing
`diff`, `ratio` and `or`. The default effect type is `"diff"` alone, so the model
follows the code and returns only `diff` (`Effects.DiffExample`).

## Model

| member | source | states |
|---|---|---|
| Effects.Parse | causallib/effects/calculation.py:23-36 | a tag is recognised exactly when it is one of `diff`, `ratio`, `or`, and it maps back to that tag |
| Effects.ParseTag | causallib/effects/calculation.py:23-36 | every effect type round-trips through its tag |
| Effects.Validate | causallib/effects/calculation.py:39-64 | a single string or a list is accepted exactly when every tag is valid; the result keeps the order and length of the request; otherwise the error names the set of invalid tags, which is non-empty |
| Effects.EffectDiff | causallib/effects/calculation.py:67-78 | the difference has the shape of the outcomes, and adding outcome 2 back gives outcome 1 at every position |
| Effects.DiffAntisymmetric | causallib/effects/calculation.py:67-78 | swapping the outcomes negates every difference |
| Effects.EffectRatio | causallib/effects/calculation.py:81-105 | fails with a zero-denominator error exactly when outcome 2 has a zero; otherwise each ratio times outcome 2 gives outcome 1 |
| Effects.EffectOddsRatio | causallib/effects/calculation.py:108-145 | outcome 1 is checked first, then outcome 2, against [0, 1]; succeeds exactly when both are probabilities and no odds is singular; then each entry is (p1/(1-p1))/(p2/(1-p2)) |
| Effects.OddsRatioReciprocal | causallib/effects/calculation.py:142-145 | for strict probabilities, OR(p1, p2) * OR(p2, p1) == 1 |
| Effects.OddsRatioOrder | causallib/effects/calculation.py:142-145 | for strict probabilities the odds ratio is 1 when p1 == p2 and above 1 when p1 > p2 |
| Effects.Calculate | causallib/effects/calculation.py:149-153 | dispatch keeps the shape of the outcomes: `diff` is the plain difference, `ratio` is EffectRatio and `or` is EffectOddsRatio |
| Effects.Store | causallib/effects/calculation.py:200-209 | storing into the results dict keeps first-insertion key order and overwrites only the stored key |
| Effects.CalculateEffect | causallib/effects/calculation.py:156-220 | equals the specification: validate the tags, compute each type in request order, stop at the first failure, then format |
| Effects.FillResultsLoop | causallib/effects/calculation.py:200-209 | the loop with early exit computes exactly the recursive results function |
| Effects.PrefixFailure | causallib/effects/calculation.py:200-209 | for any calculators, once a prefix of the requested types fails, the whole request fails with that error |
| Effects.FillOkIff | causallib/effects/calculation.py:200-209 | for any calculators, filling the results succeeds exactly when every requested type's calculation succeeds |
| Effects.FillContents | causallib/effects/calculation.py:200-209 | for any calculators, a successful fill holds the requested types without repeats, in first-request order, each mapped to its own calculation |
| Effects.FirstFailure | causallib/effects/calculation.py:200-209 | for any calculators, a failed fill reports the first requested type whose calculation fails, and every earlier type succeeded |
| Effects.FillResultsOk | causallib/effects/calculation.py:200-209 | the loop succeeds exactly when every requested type succeeds; the keys are the requested types without repeats, each mapped to its own effect |
| Effects.FillResultsFirstFailure | causallib/effects/calculation.py:200-209 | a failure reports the first requested type that fails, and every earlier type succeeded |
| Effects.PopulationEffectShape | causallib/effects/calculation.py:211-215 | scalar outcomes give a series keyed by the distinct requested types, each holding that type's scalar effect |
| Effects.IndividualEffectShape | causallib/effects/calculation.py:216-220 | vector outcomes give a table on the outcomes' index, with one column per distinct requested type holding that type's effects |
| Effects.DiffExample | causallib/effects/calculation.py:182 | with the default effect type, outcomes 0.3 and 0.6 give a series holding diff = -0.3 |
| Effects.EmptyRequest | causallib/effects/calculation.py:211-220 | an empty request gives an empty series for scalars, and the concatenation error for vectors |
| Effects.IsScalarOutcomeIsInstance | causallib/effects/calculation.py:223-233 | an outcome is scalar exactly when it is an int, a float or a numpy number |
| Effects.FormatFollowsIsScalar | causallib/effects/calculation.py:211-220 | the result is a population series exactly when outcome 1 is a scalar |
| Propensity.ValidateClipBounds | causallib/propensity/computation.py:139-160 | no error exactly when the bounds are valid; a clip_min outside [0, 0.5] is reported first; a clip_max error is reported only after clip_min has passed |
| Propensity.OrderingCheckOnlyAtHalf | causallib/propensity/computation.py:155-160 | the clip_min >= clip_max error can only be raised when both bounds are 0.5 |
| Propensity.ClipPropensityScores | causallib/propensity/computation.py:76-136 | invalid bounds give their error; with neither bound and no cells the integer division 0/0 raises; otherwise the frame is clipped in place on a copy, and the counters and percentage count the lower pass on the input and the upper pass on the lower-clipped scores (no percentage without cells) |
| Propensity.ClipSide | causallib/propensity/computation.py:108-119 | one clipping pass returns the clipped rows and the number of cells beyond the bound |
| Propensity.ClipIsClamp | causallib/propensity/computation.py:108-119 | after clipping, every cell is its score clamped into [clip_min, clip_max], and cells already inside are unchanged |
| Propensity.UpperCountUnaffected | causallib/propensity/computation.py:108-119 | lower clipping does not change how many cells exceed a higher upper bound |
| Propensity.ClipStatsMeaning | causallib/propensity/computation.py:105-122 | an absent bound clips nothing; the two counters never exceed the cell count; the percentage lies in [0, 100] |
| Propensity.NoBoundsNoClipping | causallib/propensity/computation.py:108-119 | with neither bound the clipping passes leave every score unchanged (the method then returns them, except on a matrix without cells, where it raises) |
| Propensity.Reciprocal | causallib/propensity/computation.py:197 | the weight 1/p is finite exactly when p is non-zero, and then times p gives 1 |
| Propensity.PrevalenceOfObserved | causallib/propensity/computation.py:199-205 | the prevalence of an observed treatment lies in (0, 1] |
| Propensity.Select | causallib/propensity/computation.py:208-219 | the observed treatment gives the series of each unit's weight for its own treatment; one requested value gives that column; several give a frame whose k-th column is the k-th requested label's column; a missing column gives a missing-columns error naming every missing value |
| Propensity.ComputePropensityWeights | causallib/propensity/computation.py:163-221 | fails exactly when a requested treatment value is not a column; the result is a series exactly for the observed treatment or for one requested value; every entry, in series and frame alike, is the unit's reciprocal propensity for that treatment, times the prevalence of the unit's own treatment (computed or from the supplied map, NaN when the map lacks it) when stabilized |
| Propensity.SuppliedPrevalenceWeight | causallib/propensity/computation.py:199-205 | with a supplied prevalence map, a stabilized weight is finite exactly when the propensity is non-zero and the map holds the unit's treatment, and it then equals that prevalence divided by the propensity |
| Propensity.ObservedWeightIsInverse | causallib/propensity/computation.py:197-219 | without stabilisation, each sample's weight is the reciprocal of its propensity for the treatment it received |
| Propensity.SingleValueGivesColumn | causallib/propensity/computation.py:208-219 | a single treatment value and a one-element list give the same series, namely that column's inverse propensities, scaled by prevalence when stabilised |
| Propensity.StabilizeWeights | causallib/propensity/computation.py:224-244 | each weight of a sample is multiplied by the prevalence of that sample's treatment, for a series and for every column of a frame |
| Propensity.StabilizeInsideOrAfter | causallib/propensity/computation.py:199-205 | stabilising inside the weight computation equals computing raw weights and then stabilising them |
| Propensity.StabilizedNotLarger | causallib/propensity/computation.py:224-244 | stabilisation never increases a non-negative weight |
| Validation.EveryErrorIsValueError | causallib/validation/exceptions.py:12-89 | every validation error is a subclass of CausallibValidationError and of ValueError |
| Validation.SiblingsAreUnrelated | causallib/validation/exceptions.py:24-89 | distinct specific error classes are not subclasses of each other |
| Validation.CheckXA | causallib/validation/checks.py:36-95 | passes and returns its inputs exactly when X is a DataFrame, a is a Series, the indices are equal and no treatment is missing; a length mismatch is reported before an index mismatch; a missing-treatment error carries a positive count |
| Validation.CheckXAY | causallib/validation/checks.py:98-162 | errors from check_X_a come first; it passes exactly when y is absent or is a Series on X's index with at most 50% missing; y that is not a Series, a length mismatch and an index mismatch each give their own error, in that order; with an aligned y it warns exactly when some outcomes are missing |
| Validation.PctMissingThreshold | causallib/validation/checks.py:147-162 | more than 50% missing is the same as twice the missing count exceeding the number of rows |
| Validation.CheckTreatmentValuesMatch | causallib/validation/checks.py:165-206 | passes exactly when test values are a subset of train values, and also a superset unless a subset is allowed; unseen values are reported first and exactly |
| Validation.ExactMatchWithoutSubset | causallib/validation/checks.py:189-206 | without allow_subset the check passes exactly when both sets of values are equal |
| Validation.SubsetModeIsWeaker | causallib/validation/checks.py:189-206 | anything that passes without allow_subset also passes with it |
| Validation.CheckIsFitted | causallib/validation/checks.py:209-266 | with "all", passes exactly when every expected attribute is present; otherwise, when at least one is; a failure is a NotFittedError carrying the given message |
| Validation.EmptyAttributeList | causallib/validation/checks.py:240-266 | an empty attribute list passes under "all" and fails under "any" |
| Validation.AllModeImpliesAnyMode | causallib/validation/checks.py:240-266 | for a non-empty attribute list, passing under "all" implies passing under "any" |
| Validation.CheckLearnerHasMethod | causallib/validation/checks.py:269-298 | passes exactly when the learner has the method; a failure is a LearnerInterfaceError that names the learner's class when no name is given |
| Validation.CheckConsistentTreatmentVector | causallib/validation/checks.py:301-332 | passes exactly when no treatment is missing and there are at least two distinct values; missing values are reported first with their count |
| Validation.ConstantTreatmentRejected | causallib/validation/checks.py:301-332 | a treatment vector holding a single value is rejected |
| Validation.ValidatePropensityScores | causallib/validation/checks.py:335-374 | fails exactly when a non-missing score lies outside [0, 1]; otherwise warns exactly when one lies outside [0.01, 0.99] |
| Reports.ComputePropensityStats | causallib/diagnostics/reports.py:146-181 | fails exactly when no score is present; otherwise min and max are attained bounds, the mean is that of the present scores, median and std are the supplied ones (required to be a median and the population std of the present scores), and the extreme counts and percentage use 0.01 and 0.99 |
| Reports.PropensityStatsMeaning | causallib/diagnostics/reports.py:156-181 | each extreme counter is positive exactly when a score is beyond its threshold; both together never exceed the sample; the percentage is in [0, 100]; mean and median lie in [min, max]; the std is zero exactly when all present scores are equal |
| Common.MedianWithinRange | causallib/diagnostics/reports.py:164 | a median of a non-empty sequence lies between its minimum and its maximum |
| Reports.StdZeroIffConstant | causallib/diagnostics/reports.py:165 | the population std is zero exactly when all entries are equal |
| Reports.ComputeWeightDistribution | causallib/diagnostics/reports.py:185-232 | fails exactly when no weight is present; otherwise it reports the summary statistics, the count of weights beyond mean ± 3 std, its percentage, and Kish's ESS |
| Reports.ExtremeWeightsAreRare | causallib/diagnostics/reports.py:211-215 | at most one ninth of the weights lie beyond 3 standard deviations, and none do when the std is 0 |
| Reports.OutliersAreRare | causallib/diagnostics/reports.py:211-215 | for any non-empty weights and their std, the count beyond mean ± 3 std is at most a ninth of them, and zero when the std is 0 |
| Reports.OutsideWeightsDeviate | causallib/diagnostics/reports.py:211-214 | every weight beyond c ± 3d adds more than 9d² to the squared deviations from c, so those deviations are at least 9d² times the count beyond the bounds, and strictly more when that count is positive |
| Reports.CountOutsideExists | causallib/diagnostics/reports.py:214 | the count of weights beyond the bounds is positive exactly when some weight lies beyond them |
| Reports.EffectiveSampleSizeBounds | causallib/diagnostics/reports.py:217-221 | the ESS lies in [0, n], is positive when the weights do not sum to zero, and equals n exactly when all weights are equal |
| Reports.WeightDistributionBounds | causallib/diagnostics/reports.py:199-232 | the percentage lies in [0, 100], min <= mean <= max, and the ESS lies in [0, n] |
| Reports.LowOverlapTreatments | causallib/diagnostics/reports.py:288-295 | the listed treatments are exactly those with coverage below 50% |
| Reports.CountPerTreatment | causallib/diagnostics/reports.py:264-266 | the loop maps every treatment value to the number of valid samples that received it |
| Reports.CountOverlapPerTreatment | causallib/diagnostics/reports.py:275-280 | the loop maps every treatment value to its count inside [q1, q3], and sets the overlap flag exactly when every arm has one |
| Reports.ComputeOverlapDiagnostic | causallib/diagnostics/reports.py:236-310 | fails exactly when no row has both a score and a treatment; otherwise the counts, percentages and notes follow the definition, with range [q1, q3] and min, max and mean of the valid scores; the supplied quartiles are ordered and lie within the valid scores |
| Reports.OverlapDiagnosticMeaning | causallib/diagnostics/reports.py:264-295 | in-overlap counts never exceed arm sizes; percentages lie in [0, 100] and are 0 for empty arms; the no-overlap note appears exactly when an arm has no sample inside; the low-overlap note lists exactly the arms below 50%; there are at most two notes |
| Warnings.WarnExtremeWeights | causallib/diagnostics/warnings.py:53-75 | always emits one ExtremeWeightWarning carrying min, max, count and share: each present statistic is passed through, a missing one is 0 |
| Warnings.LowCoverage | causallib/diagnostics/warnings.py:100-111 | keeps exactly the arms whose coverage is below 50%, with their values |
| Warnings.WarnLowOverlap | causallib/diagnostics/warnings.py:78-111 | emits a positivity warning exactly when overlap is absent or unknown, carrying the per-arm shares (empty when missing); emits a low-overlap warning listing the low arms exactly when overlap holds and some arm is below 50% |
| Warnings.LowOverlapWarningMatchesNotes | causallib/diagnostics/warnings.py:78-111 | on a computed overlap diagnostic, no warning is emitted exactly when the diagnostic has no notes, and the positivity warning is emitted exactly when the no-overlap note is present |
| Warnings.WarnPropensityExtremity | causallib/diagnostics/warnings.py:114-137 | emits one PositivityViolationWarning exactly when an extreme count is positive, carrying the total count, the extreme share and the low and high counts (0 when missing) |
| Warnings.PropensityWarningMatchesScores | causallib/diagnostics/warnings.py:114-137 | on computed statistics, the warning is emitted exactly when some score lies below 0.01 or above 0.99 |
| Warnings.FirstDominant | causallib/diagnostics/warnings.py:151-163 | finds the first treatment whose share exceeds 80%, and none exactly when no share does |
| Warnings.WarnSingleTreatmentDominance | causallib/diagnostics/warnings.py:140-163 | the loop with break computes the dominance specification |
| Warnings.DominanceWarningsMeaning | causallib/diagnostics/warnings.py:140-163 | at most one warning, none for an empty sample, and one exactly when some treatment exceeds 80% |
| Warnings.DominantIsLargest | causallib/diagnostics/warnings.py:163 | the treatment it warns about is strictly the largest group |
| Warnings.WarnMissingValues | causallib/diagnostics/warnings.py:166-188 | emits one MissingValuesWarning exactly when the count is positive, naming the variable, the count and the total; the percentage is 100·missing/total (0 for an empty sample) and lies in [0, 100] |
| Warnings.WarnLearnerInterface | causallib/diagnostics/warnings.py:191-209 | always emits one LearnerInterfaceWarning naming the method and the learner type |
| Warnings.WarningAccumulator.constructor | causallib/diagnostics/warnings.py:213-214 | the accumulator starts empty |
| Warnings.WarningAccumulator.Accumulate | causallib/diagnostics/warnings.py:216-218 | appends the message to the end |
| Warnings.WarningAccumulator.Get | causallib/diagnostics/warnings.py:221-223 | returns a copy of the messages without changing them |
| Warnings.WarningAccumulator.Clear | causallib/diagnostics/warnings.py:226-229 | empties the accumulator |
| Warnings.AccumulatorRoundTrip | causallib/diagnostics/warnings.py:213-229 | two accumulated messages are read back in order after the earlier ones, and clearing leaves nothing |
| BaseWeight.StratifiedWeightedAggregate | causallib/estimation/base_weight.py:153-187 | the loop over strata computes the aggregate, with unit weights when none are given and a single stratum 0 when there is no stratification |
| BaseWeight.AggregateMeaning | causallib/estimation/base_weight.py:181-187 | succeeds exactly when every requested stratum has non-zero weight; each value is that stratum's weighted sum over its weight; an error names a requested stratum with zero weight |
| BaseWeight.PrefixError | causallib/estimation/base_weight.py:181-187 | the first failing stratum decides the error |
| BaseWeight.UnweightedIsPlainMean | causallib/estimation/base_weight.py:174-187 | without sample weights each stratum value is the plain mean of its outcomes |
| BaseWeight.NoStrataSingleStratum | causallib/estimation/base_weight.py:174-187 | without stratification the result is one value under key 0, or an empty map for empty input |
| BaseWeight.GetWeightDiagnostics | causallib/estimation/base_weight.py:198-250 | returns the weight distribution's fields, and emits the extreme-weight warning exactly when some weight is beyond 3 std |
| BaseWeight.DiagnosticsWarnOnOutliers | causallib/estimation/base_weight.py:232-239 | the warning is emitted exactly when some weight lies beyond mean ± 3 std |
| BaseWeight.WarnsIffExtremeCount | causallib/estimation/base_weight.py:232-239 | the warning is emitted exactly when the reported extreme-weight count is positive |
| BaseWeight.ExtremeCountIffOutlier | causallib/diagnostics/reports.py:211-215 | the extreme-weight count is positive exactly when some weight lies beyond mean ± 3 std |
| BaseWeight.DiagnosticsQuietAndBounded | causallib/estimation/base_weight.py:229-250 | constant weights never warn, and the reported ESS lies in [0, n] |
| BaseWeight.WeightEstimator.constructor | causallib/estimation/base_weight.py:57-67 | stores the learner and the stabilisation flag |
| BaseWeight.WeightEstimator.WithDefaults | causallib/estimation/base_weight.py:57 | use_stabilized defaults to false |
| BaseWeight.PropensityEstimator.constructor | causallib/estimation/base_weight.py:269-289 | stores the learner and the stabilisation flag |
| BaseWeight.PropensityEstimator.WithDefaults | causallib/estimation/base_weight.py:269 | use_stabilized defaults to false |
| BaseWeight.PredictProbaCheck | causallib/estimation/base_weight.py:283-288 | passes exactly when the learner has predict_proba, and otherwise names the learner "(in PropensityEstimator)" |
| BaseWeight.NewPropensityEstimator | causallib/estimation/base_weight.py:269-289 | construction succeeds exactly when the learner has predict_proba, and otherwise raises LearnerInterfaceError |
| BaseEstimator.EstimateEffect | causallib/estimation/base_estimator.py:61-100 | delegates to the effect calculation and returns exactly its result |
| BaseEstimator.IsFitted | causallib/estimation/base_estimator.py:137-148 | a present `learner_` decides the fitted state by not being None; without it the state comes from `learner` having classes_, coef_ or _is_fitted |
| BaseEstimator.CheckedEstimatorIsFitted | causallib/estimation/base_estimator.py:137-148 | an estimator that passes check_is_fitted and whose `learner_` is not None is reported fitted |
| BaseEstimator.InferOutcomeType | causallib/estimation/base_estimator.py:166-192 | no `learner_` gives unknown; classes_ or n_classes_ give classification; coef_ without class attributes gives regression; with none of those attributes the lower-cased class name decides: "classifier" or "logistic" gives classification, else "regressor" or "regression" gives regression, else unknown; regression never has class attributes |
| BaseEstimator.NoneLearnerIsUnknown | causallib/estimation/base_estimator.py:175-192 | a `learner_` that is None falls through to the class name "NoneType" and gives unknown |
| BaseEstimator.LogisticRegressionIsClassification | causallib/estimation/base_estimator.py:186-188 | a learner named LogisticRegression without attributes is classified by its name |
| BaseEstimator.RegressorNameIsRegression | causallib/estimation/base_estimator.py:186-190 | a learner named SGDRegressor without attributes is a regression |
| BaseEstimator.GetSummary | causallib/estimation/base_estimator.py:150-162 | reports the class name as estimator name and module.class as estimator class, the fitted state, an outcome type that is "unknown" when unfitted, the treatment values, sample count and warnings as given, and one dict per assumption that reads back to the table's list |
| BaseEstimator.UnfittedSummary | causallib/estimation/base_estimator.py:139-156 | an estimator whose learner has no fit signal is reported unfitted, of unknown type, with no treatment values or sample count |
| BaseEstimator.FittedWithoutLearnerUnderscore | causallib/estimation/base_estimator.py:141-156 | a fitted `learner` without `learner_` is reported fitted but with outcome type unknown |
| BaseEstimator.IndividualOutcomeEstimator.constructor | causallib/estimation/base_estimator.py:261-278 | stores the learner and the predict_proba flag |
| BaseEstimator.IndividualOutcomeEstimator.WithDefaults | causallib/estimation/base_estimator.py:261 | predict_proba defaults to false |
| BaseEstimator.AggregatePopulationOutcome | causallib/estimation/base_estimator.py:281-303 | any name other than mean or median raises LookupError; `mean` gives the arithmetic mean and `median` the supplied median; either lies between min and max |
| BaseEstimator.AggregateColumns | causallib/estimation/base_estimator.py:339-344 | aggregating column by column succeeds exactly when every column does, keeps the treatment keys, and otherwise reports one column's error |
| BaseEstimator.EstimatePopulationOutcome | causallib/estimation/base_estimator.py:305-344 | warns exactly when an observed y is passed, and the outcomes are the per-treatment aggregates |
| BaseEstimator.PopulationOutcomeIgnoresY | causallib/estimation/base_estimator.py:331-344 | the observed y never changes the population outcomes; the mean aggregate succeeds exactly when no column is empty |
| BaseEstimator.UnknownAggregationFails | causallib/estimation/base_estimator.py:302-303 | an unknown aggregation name makes the whole aggregation fail with LookupError |
| BaseEstimator.PopulationMean | causallib/estimation/base_estimator.py:298-299 | the mean is defined exactly for non-empty input, and a scalar is its own mean |
| BaseEstimator.PopulationMeanAsWritten | causallib/estimation/base_estimator.py:298-299 | as written: a plain Python number has no `.mean()` and fails; any other outcome gets its mean |
| BaseEstimator.FloatOutcomeHasNoMean | causallib/estimation/base_estimator.py:346-372 | a float outcome, which the signature accepts, fails the default population aggregation as written, and the corrected reduction returns the float |
| BaseEstimator.IndividualEstimateEffect | causallib/estimation/base_estimator.py:346-377 | equals the specification; with any aggregation other than population, the outcomes go to the effect calculation unchanged |
| BaseEstimator.PopulationAggregationIsScalar | causallib/estimation/base_estimator.py:370-377 | population aggregation always yields a population series |
| BaseEstimator.MeanOfDifferences | causallib/estimation/base_estimator.py:370-377 | the mean of pointwise differences is the difference of the means |
| BaseEstimator.PopulationDiffIsMeanOfIndividualDiffs | causallib/estimation/base_estimator.py:370-377 | with population aggregation, the diff effect is the mean of the individual diffs |
| BaseEstimator.DiffOfScalars | causallib/estimation/base_estimator.py:97-100 | for two scalars the default effect is a series holding x - y |
| Assumptions.CategoryFromValue | causallib/diagnostics/assumptions.py:18-28 | a parsed category has the given string as its value |
| Assumptions.CategoryValueRoundTrip | causallib/diagnostics/assumptions.py:18-28 | every category round-trips through its string value |
| Assumptions.ToDict | causallib/diagnostics/assumptions.py:41-48 | the dict has exactly the five keys, and its category entry parses back to the category |
| Assumptions.ToDictRoundTrip | causallib/diagnostics/assumptions.py:41-48 | reading the dict back gives the original assumption |
| Assumptions.Table | causallib/diagnostics/assumptions.py:274-286 | every key of the table is bound to a value listed for it in the dict literal |
| Assumptions.TableKeys | causallib/diagnostics/assumptions.py:274-286 | a name is a key exactly when the literal lists it |
| Assumptions.TableLastWins | causallib/diagnostics/assumptions.py:274-286 | a repeated key keeps its last value, as in a Python dict literal |
| Assumptions.GetAssumptionsForEstimator | causallib/diagnostics/assumptions.py:289-299 | returns the listed assumptions, or an empty list for an unknown estimator |
| Assumptions.TableShape | causallib/diagnostics/assumptions.py:274-286 | the table has exactly the ten estimator names, and each maps to one of the seven lists |
| Assumptions.UnknownEstimatorHasNone | causallib/diagnostics/assumptions.py:299 | any other class name gets no assumptions |
| Assumptions.IpwList | causallib/diagnostics/assumptions.py:56-85 | IPW has four assumptions in their stated order, and OverlapWeights shares them |
| Assumptions.DoublyRobustEntries | causallib/diagnostics/assumptions.py:118-147 | WeightedStandardization ends up with the doubly robust list, because its later entry wins; AIPW and PropensityFeatureStandardization share that list |
| Assumptions.PositivityFlags | causallib/diagnostics/assumptions.py:56-271 | positivity is testable and checked automatically for IPW, doubly robust and TMLE, and testable but not checked automatically for matching |
| Assumptions.TableInvariants | causallib/diagnostics/assumptions.py:56-286 | every automatically validated assumption is testable, and every listed estimator has Consistency and SUTVA |

## Left out

- Floating point: values are exact reals. A NaN or infinite result is an error, a `NonFinite` weight or `None`; numeric precision is not modelled.
- `np.std`, `np.median`, `np.percentile` and `Series.median` are parameters. Only the properties the model needs are required of them: `Reports.IsStd` for the population standard deviation (propensity scores and weights), `Common.IsMedian` for the propensity-score median (at most half of the scores strictly on either side), a median between min and max for the outcome aggregation, and quartiles `q1 <= q3` within the valid scores for the overlap diagnostic. The weight-distribution median is passed through unconstrained.
- `extract_propensity_scores` (propensity/computation.py) is left out: it calls the learner's `predict_proba` and is glue for column naming.
- Logging and the `warnings.warn` plumbing are left out. The warning functions return the warnings they would emit, with their category and message fields, not the text.
- The abstract methods are left out: `fit`, `compute_weights`, `compute_weight_matrix`, `compute_propensity`, `compute_propensity_matrix`, `estimate_individual_outcome` and the base `estimate_population_outcome`. Their bodies raise NotImplementedError, so there is no behaviour to model.
- `evaluate_balancing` is left out because it only raises NotImplementedError.
- `__repr__`, `to_dict` of the report dataclasses, and string formatting of messages are left out. They are display code.
- `robust_lookup` and `get_iterable_treatment_values` are not part of this model. The treatment values are the given list, or else the distinct strata in order of first appearance.
- Effects.CalculateEffect: requires both outcomes to have the same shape (two scalars, or two series on the same index). pandas broadcasting of a scalar against a series, and alignment of differently indexed series, are not modelled.
- BaseWeight.StratifiedWeightedAggregate: requires stratify_by whenever treatment_values are given, as the values are documented to be a subset of the strata. Without strata the source compares None with each value and indexes y with the scalar False (base_weight.py:183-184), an error path that is not modelled.
- BaseWeight.StratifiedWeightedAggregate: the result is a Dafny map, so the order of the treatment values that `pd.Series(res)` keeps is not part of the result.
- BaseEstimator.IndividualEstimateEffect: requires equal shapes for non-population aggregation, for the same reason as Effects.CalculateEffect.
- BaseEstimator.AggregatePopulationOutcome: the median of an empty vector (NaN in pandas) and the mean of an empty vector are reported as `UndefinedAggregate`. The median is a parameter and is assumed to lie between min and max.
- BaseEstimator.PopulationMean: the mean of an empty vector (NaN in pandas) is reported as `UndefinedAggregate` before the effect types are validated. A plain Python float outcome is reduced to itself; see "## Findings".
- Propensity.ComputePropensityWeights: `multiply(axis="index")` and `map` align by index label in pandas; the model aligns the prevalence factors with the matrix rows by position, so the treatment assignment is taken to be on the matrix's index in the same order.
- Reports.ComputeOverlapDiagnostic: `notna() & notna()` and the boolean-mask lookups align by index label in pandas, and differently indexed inputs raise; the model pairs scores and treatments by position and requires only equal lengths.
- BaseWeight.StratifiedWeightedAggregate: `y[subgroup_mask]` and `sample_weight[subgroup_mask]` align by index label in pandas; the model pairs outcomes, weights and strata by position.
- Propensity.ClipPropensityScores: with a bound given and a matrix without cells, numpy gives a NaN share; the model reports no share (None).
- Warnings.WarnLowOverlap: the low-coverage map is a Dafny map, so the insertion order of the Python dict in the message is not kept.
- Reports.ComputeWeightDistribution: the code counts outliers only by mean ± 3 std. The unused `treatment_values` argument is not modelled.
- There is no inheritance between the Dafny classes. `PropensityEstimator` repeats the two fields of `WeightEstimator`, and the estimator state seen by `summary()` is a record (`BaseEstimator.EstimatorState`).
- `summary()` sets `propensity_stats`, `weight_distribution` and `overlap_diagnostic` to None; these constant fields are not in the `Summary` record.
- BaseEstimator.Lower: lower-casing handles ASCII letters only.
- pandas `DataFrame.apply` over an empty frame is not modelled beyond giving an empty result.
- Estimator subclasses that are only named in the assumption table (IPW, AIPW, TMLE and others) are not part of this model.

## Findings

| source | as written | input that shows it | evidently intended | confidence | as-written member | corrected member |
|---|---|---|---|---|---|---|
| causallib/estimation/base_estimator.py:346-372 | `estimate_effect` declares `Union[pd.Series, float]` outcomes, but the default `agg="population"` calls `outcome.mean()` (line 299), which a Python float lacks, so it raises AttributeError | `estimate_effect(1.0, 2.0)`, stated for every float by BaseEstimator.FloatOutcomeHasNoMean | a float outcome is its own population mean, as a numpy scalar is | not executed | BaseEstimator.PopulationMeanAsWritten | BaseEstimator.PopulationMean |

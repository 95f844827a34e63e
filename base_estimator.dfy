/** The estimator base classes: aggregation of individual outcomes into a
    population outcome, the population-versus-individual effect dispatch,
    and the fitted-state and outcome-type inference of `summary`. */
module BaseEstimator {
  import opened Common
  import Effects
  import Validation
  import Assumptions

  // ---------------------------------------------------------------------
  // Aggregating individual outcomes
  // ---------------------------------------------------------------------

  datatype AggregationError =
    | LookupError(aggFunc: string)   // an aggregation name other than mean / median
    | UndefinedAggregate             // the mean or median of no values (NaN in pandas)
    | AttributeError                 // the value has no `.mean()` method

  /** The median the caller supplies must lie between the extremes. */
  predicate MedianBounded(y: seq<real>, median: seq<real> -> real)
  {
    |y| > 0 ==> Min(y) <= median(y) <= Max(y)
  }

  /** `_aggregate_population_outcome`: the mean or the median of the
      individual outcomes; any other name raises `LookupError`. */
  function AggregatePopulationOutcome(y: seq<real>, aggFunc: string, median: seq<real> -> real): (r: Result<real, AggregationError>)
    requires MedianBounded(y, median)
    ensures r.Err? <==> (aggFunc != "mean" && aggFunc != "median") || y == []
    ensures aggFunc != "mean" && aggFunc != "median" ==> r == Err(LookupError(aggFunc))
    ensures r.Ok? ==> Min(y) <= r.value <= Max(y)
    ensures r.Ok? && aggFunc == "mean" ==> r.value == Mean(y)
    ensures r.Ok? && aggFunc == "median" ==> r.value == median(y)
  {
    if aggFunc == "mean" then
      if y == [] then Err(UndefinedAggregate)
      else
        MeanBetweenMinMax(y);
        Ok(Mean(y))
    else if aggFunc == "median" then
      if y == [] then Err(UndefinedAggregate) else Ok(median(y))
    else
      Err(LookupError(aggFunc))
  }

  /** Individual outcomes: one column of per-sample predictions per
      treatment value. */
  type OutcomeFrame = seq<(Key, seq<real>)>

  predicate MediansBounded(cols: OutcomeFrame, median: seq<real> -> real)
  {
    forall i :: 0 <= i < |cols| ==> MedianBounded(cols[i].1, median)
  }

  /** `individual_outcomes.apply(...)`: aggregate each column separately,
      in column order; the first failing column raises. */
  function AggregateColumns(cols: OutcomeFrame, aggFunc: string, median: seq<real> -> real): (r: Result<seq<(Key, real)>, AggregationError>)
    requires MediansBounded(cols, median)
    ensures r.Ok? <==> forall i :: 0 <= i < |cols| ==> AggregatePopulationOutcome(cols[i].1, aggFunc, median).Ok?
    ensures r.Ok? ==> (|r.value| == |cols| &&
      forall i :: 0 <= i < |cols| ==>
        r.value[i].0 == cols[i].0 && AggregatePopulationOutcome(cols[i].1, aggFunc, median) == Ok(r.value[i].1))
    ensures r.Err? ==> exists i :: 0 <= i < |cols| && AggregatePopulationOutcome(cols[i].1, aggFunc, median) == Err(r.error)
  {
    if cols == [] then Ok([])
    else
      var prefix := cols[..|cols| - 1];
      var last := cols[|cols| - 1];
      assert forall i :: 0 <= i < |prefix| ==> prefix[i] == cols[i];
      match AggregateColumns(prefix, aggFunc, median)
      case Err(e) => Err(e)
      case Ok(res) =>
        match AggregatePopulationOutcome(last.1, aggFunc, median)
        case Err(e) => Err(e)
        case Ok(v) => Ok(res + [(last.0, v)])
  }

  /** The result of `estimate_population_outcome`: the aggregated outcomes
      and whether the unused-`y` `UserWarning` was issued. */
  datatype PopulationOutcome = PopulationOutcome(
    outcomes: Result<seq<(Key, real)>, AggregationError>,
    warnsUnusedY: bool)

  /** `IndividualOutcomeEstimator.estimate_population_outcome`, given the
      individual outcomes the subclass predicts: a given `y` only causes a
      warning, and each treatment column is aggregated on its own. */
  function EstimatePopulationOutcome(individualOutcomes: OutcomeFrame, y: Option<seq<real>>, aggFunc: string, median: seq<real> -> real): (r: PopulationOutcome)
    requires MediansBounded(individualOutcomes, median)
    ensures r.warnsUnusedY <==> y.Some?
    ensures r.outcomes == AggregateColumns(individualOutcomes, aggFunc, median)
  {
    PopulationOutcome(AggregateColumns(individualOutcomes, aggFunc, median), y.Some?)
  }

  /** The observed outcome never changes the population outcomes. */
  lemma PopulationOutcomeIgnoresY(cols: OutcomeFrame, y1: Option<seq<real>>, y2: Option<seq<real>>, median: seq<real> -> real)
    requires MediansBounded(cols, median)
    ensures EstimatePopulationOutcome(cols, y1, "mean", median).outcomes ==
            EstimatePopulationOutcome(cols, y2, "mean", median).outcomes
    ensures EstimatePopulationOutcome(cols, y1, "mean", median).outcomes.Ok? <==>
            forall i :: 0 <= i < |cols| ==> cols[i].1 != []
  {
    if EstimatePopulationOutcome(cols, y1, "mean", median).outcomes.Err? {
      var i :| 0 <= i < |cols| && AggregatePopulationOutcome(cols[i].1, "mean", median).Err?;
    }
  }

  /** An unknown aggregation name fails at the first column. */
  lemma UnknownAggregationFails(cols: OutcomeFrame, aggFunc: string, median: seq<real> -> real)
    requires MediansBounded(cols, median) && cols != []
    requires aggFunc != "mean" && aggFunc != "median"
    ensures AggregateColumns(cols, aggFunc, median) == Err(LookupError(aggFunc))
  {
    var r := AggregateColumns(cols, aggFunc, median);
    assert AggregatePopulationOutcome(cols[0].1, aggFunc, median).Err?;
  }

  // ---------------------------------------------------------------------
  // Effect estimation
  // ---------------------------------------------------------------------

  /** `EffectEstimator.estimate_effect`: exactly `calculate_effect`. */
  method EstimateEffect(outcome1: Effects.Outcome, outcome2: Effects.Outcome, effectTypes: Effects.EffectTypeArg)
    returns (r: Result<Effects.EffectTable, Effects.EffectError>)
    requires Effects.SameShape(outcome1, outcome2)
    ensures r == Effects.CalculateEffectSpec(outcome1, outcome2, effectTypes)
  {
    r := Effects.CalculateEffect(outcome1, outcome2, effectTypes);
  }

  datatype EstimationError =
    | AggregationFailed(cause: AggregationError)
    | EffectFailed(error: Effects.EffectError)

  function LiftEffect(r: Result<Effects.EffectTable, Effects.EffectError>): Result<Effects.EffectTable, EstimationError>
  {
    match r
    case Ok(t) => Ok(t)
    case Err(e) => Err(EffectFailed(e))
  }

  /** An outcome reduced by its mean (a scalar counts as one value). */
  function PopulationMean(o: Effects.Outcome): (r: Result<real, AggregationError>)
    ensures r.Ok? <==> Effects.ValuesOf(o) != []
    ensures r.Ok? ==> r.value == Mean(Effects.ValuesOf(o))
    ensures o.Scalar? ==> r == Ok(o.x)
  {
    var vs := Effects.ValuesOf(o);
    if vs == [] then Err(UndefinedAggregate)
    else
      assert o.Scalar? ==> Sum(vs) == o.x by {
        if o.Scalar? {
          assert vs[..0] == [];
        }
      }
      Ok(Mean(vs))
  }

  /** Whether a value of Python type `k` has a `.mean()` method: numpy
      scalars and pandas objects do, Python's own numbers do not. */
  predicate HasMeanMethod(k: Effects.PyType)
  {
    k !in {Effects.PyBool, Effects.PyInt, Effects.PyFloat, Effects.OtherType}
  }

  /** `_aggregate_population_outcome` with its default "mean" as written:
      `outcome.mean()`, an attribute error on a plain Python number. */
  function PopulationMeanAsWritten(k: Effects.PyType, o: Effects.Outcome): (r: Result<real, AggregationError>)
    ensures !HasMeanMethod(k) ==> r == Err(AttributeError)
    ensures HasMeanMethod(k) ==> r == PopulationMean(o)
  {
    if HasMeanMethod(k) then PopulationMean(o) else Err(AttributeError)
  }

  /** `estimate_effect` accepts a float outcome, yet with the default
      "population" aggregation the code as written fails on it; the
      reduction the model uses gives the float itself. */
  lemma FloatOutcomeHasNoMean(x: real)
    ensures Effects.IsScalarOutcome(Effects.TypeOf(Effects.Scalar(x)))
    ensures PopulationMeanAsWritten(Effects.TypeOf(Effects.Scalar(x)), Effects.Scalar(x)) == Err(AttributeError)
    ensures PopulationMean(Effects.Scalar(x)) == Ok(x)
  {
  }

  /** The reference for `IndividualOutcomeEstimator.estimate_effect`:
      "population" reduces both outcomes by their mean first, any other
      value of `agg` passes them through. */
  function IndividualEffectSpec(outcome1: Effects.Outcome, outcome2: Effects.Outcome, agg: string, effectTypes: Effects.EffectTypeArg): Result<Effects.EffectTable, EstimationError>
    requires agg == "population" || Effects.SameShape(outcome1, outcome2)
  {
    if agg == "population" then
      match PopulationMean(outcome1)
      case Err(e) => Err(AggregationFailed(e))
      case Ok(m1) =>
        match PopulationMean(outcome2)
        case Err(e) => Err(AggregationFailed(e))
        case Ok(m2) => LiftEffect(Effects.CalculateEffectSpec(Effects.Scalar(m1), Effects.Scalar(m2), effectTypes))
    else
      LiftEffect(Effects.CalculateEffectSpec(outcome1, outcome2, effectTypes))
  }

  /** `IndividualOutcomeEstimator.estimate_effect`: optionally aggregate,
      then defer to `EffectEstimator.estimate_effect`. */
  method IndividualEstimateEffect(outcome1: Effects.Outcome, outcome2: Effects.Outcome, agg: string, effectTypes: Effects.EffectTypeArg)
    returns (r: Result<Effects.EffectTable, EstimationError>)
    requires agg == "population" || Effects.SameShape(outcome1, outcome2)
    ensures r == IndividualEffectSpec(outcome1, outcome2, agg, effectTypes)
    ensures agg != "population" ==> r == LiftEffect(Effects.CalculateEffectSpec(outcome1, outcome2, effectTypes))
  {
    var o1, o2 := outcome1, outcome2;
    if agg == "population" {
      var m1 := PopulationMean(outcome1);
      if m1.Err? {
        return Err(AggregationFailed(m1.error));
      }
      var m2 := PopulationMean(outcome2);
      if m2.Err? {
        return Err(AggregationFailed(m2.error));
      }
      o1, o2 := Effects.Scalar(m1.value), Effects.Scalar(m2.value);
    }
    var effect := EstimateEffect(o1, o2, effectTypes);
    r := LiftEffect(effect);
  }

  /** Population aggregation always yields a population-level table. */
  lemma PopulationAggregationIsScalar(outcome1: Effects.Outcome, outcome2: Effects.Outcome, effectTypes: Effects.EffectTypeArg)
    ensures IndividualEffectSpec(outcome1, outcome2, "population", effectTypes).Ok? ==>
      IndividualEffectSpec(outcome1, outcome2, "population", effectTypes).value.PopulationEffect?
  {
  }

  lemma {:induction false} SumOfDifferences(a: seq<real>, b: seq<real>, d: seq<real>)
    requires |a| == |b| == |d|
    requires forall i :: 0 <= i < |d| ==> d[i] + b[i] == a[i]
    ensures Sum(d) == Sum(a) - Sum(b)
  {
    if d != [] {
      var n := |d| - 1;
      SumOfDifferences(a[..n], b[..n], d[..n]);
    }
  }

  lemma MeanOfDifferences(a: seq<real>, b: seq<real>, d: seq<real>)
    requires |a| == |b| == |d| > 0
    requires forall i :: 0 <= i < |d| ==> d[i] + b[i] == a[i]
    ensures Mean(d) == Mean(a) - Mean(b)
  {
    SumOfDifferences(a, b, d);
    var n := |d| as real;
    assert Mean(d) == (Sum(a) - Sum(b)) / n;
  }

  /** The population difference is the mean of the individual differences:
      aggregating before or after the contrast gives the same effect. */
  lemma PopulationDiffIsMeanOfIndividualDiffs(outcome1: Effects.Outcome, outcome2: Effects.Outcome)
    requires Effects.SameShape(outcome1, outcome2) && Effects.ValuesOf(outcome1) != []
    ensures IndividualEffectSpec(outcome1, outcome2, "population", Effects.OneTag("diff")) ==
      Ok(Effects.PopulationEffect([(Effects.Diff, Mean(Effects.ValuesOf(Effects.EffectDiff(outcome1, outcome2))))]))
  {
    var v1, v2 := Effects.ValuesOf(outcome1), Effects.ValuesOf(outcome2);
    var d := Effects.ValuesOf(Effects.EffectDiff(outcome1, outcome2));
    MeanOfDifferences(v1, v2, d);
    assert PopulationMean(outcome1) == Ok(Mean(v1));
    assert PopulationMean(outcome2) == Ok(Mean(v2));
    DiffOfScalars(Mean(v1), Mean(v2));
  }

  /** `calculate_effect(x, y, 'diff')` on two scalars is a Series holding
      `x - y`. */
  lemma DiffOfScalars(x: real, y: real)
    ensures Effects.CalculateEffectSpec(Effects.Scalar(x), Effects.Scalar(y), Effects.OneTag("diff")) ==
      Ok(Effects.PopulationEffect([(Effects.Diff, x - y)]))
  {
    assert forall s :: s in Effects.TagsOf(Effects.OneTag("diff")) ==> s in Effects.ValidTags;
    var ts := Effects.Validate(Effects.OneTag("diff")).value;
    assert |ts| == 1 && Effects.Tag(ts[0]) == "diff";
    assert ts == [Effects.Diff];
    assert ts[..0] == [];
    var o1, o2 := Effects.Scalar(x), Effects.Scalar(y);
    assert Effects.FillResults([], o1, o2) == Ok([]);
    assert Effects.Calculate(Effects.Diff, o1, o2) == Ok(Effects.Scalar(x - y));
    assert Effects.Store([], Effects.Diff, Effects.Scalar(x - y)) == [(Effects.Diff, Effects.Scalar(x - y))];
    assert Effects.FillResults(ts, o1, o2) == Ok([(Effects.Diff, Effects.Scalar(x - y))]);
    var effects := Effects.Format(o1, [(Effects.Diff, Effects.Scalar(x - y))]).value.effects;
    assert |effects| == 1 && effects[0] == (Effects.Diff, x - y);
    assert effects == [(Effects.Diff, x - y)];
  }

  // ---------------------------------------------------------------------
  // summary: fitted state and outcome type
  // ---------------------------------------------------------------------

  /** An attribute of a Python object: missing, set to None, or set. */
  datatype Attr<T> = Absent | PyNone | Present(value: T)

  /** What `summary` inspects on an estimator. */
  datatype EstimatorState = EstimatorState(
    className: string,
    moduleName: string,
    fittedLearner: Attr<PyObject>,        // learner_
    learner: Attr<PyObject>,              // learner
    treatmentValues: Option<seq<Key>>,    // getattr(self, 'treatment_values_', None)
    nSamples: Option<nat>)                // getattr(self, 'n_samples_', None)

  /** The attributes a fitted learner carries. */
  predicate HasFitSignal(learner: PyObject)
  {
    "classes_" in learner.attrs || "coef_" in learner.attrs || "_is_fitted" in learner.attrs
  }

  /** `is_fitted` in `summary`: `learner_ is not None` when `learner_`
      exists; otherwise whether `learner` shows a fit signal. */
  function IsFitted(e: EstimatorState): (b: bool)
    ensures e.fittedLearner.Present? ==> b
    ensures e.fittedLearner.PyNone? ==> !b
    ensures e.fittedLearner.Absent? ==> (b <==> e.learner.Present? && HasFitSignal(e.learner.value))
  {
    match e.fittedLearner
    case Present(_) => true
    case PyNone => false
    case Absent =>
      match e.learner
      case Present(l) => HasFitSignal(l)
      case _ => false
  }

  /** The attribute names an estimator has. */
  function AttributeNames(e: EstimatorState): set<string>
  {
    (if e.fittedLearner.Absent? then {} else {"learner_"}) +
    (if e.learner.Absent? then {} else {"learner"}) +
    (if e.treatmentValues.None? then {} else {"treatment_values_"}) +
    (if e.nSamples.None? then {} else {"n_samples_"})
  }

  /** An estimator that passes `check_is_fitted` with its default
      attributes, and whose `learner_` is not None, is reported fitted. */
  lemma CheckedEstimatorIsFitted(e: EstimatorState)
    requires Validation.CheckIsFitted(AttributeNames(e), Validation.DefaultAttributes, None, "all").Pass?
    requires !e.fittedLearner.PyNone?
    ensures IsFitted(e)
  {
    assert "learner_" in Validation.ExpectedAttributes(Validation.DefaultAttributes);
  }

  datatype OutcomeType = Classification | Regression | UnknownType

  /** The string `summary` reports. */
  function OutcomeTypeName(t: OutcomeType): string
  {
    match t
    case Classification => "classification"
    case Regression => "regression"
    case UnknownType => "unknown"
  }

  /** `str.lower` on the ASCII letters. */
  function LowerChar(c: char): (r: char)
    ensures 'A' <= c <= 'Z' ==> r as int == c as int + 32
    ensures !('A' <= c <= 'Z') ==> r == c
  {
    if 'A' <= c <= 'Z' then (c as int + 32) as char else c
  }

  function Lower(s: string): (r: string)
    ensures |r| == |s| && forall i :: 0 <= i < |s| ==> r[i] == LowerChar(s[i])
  {
    seq(|s|, i requires 0 <= i < |s| => LowerChar(s[i]))
  }

  /** `sub` occurs in `s` starting at position `i`. */
  predicate OccursAt(s: string, sub: string, i: int)
  {
    0 <= i <= |s| - |sub| && s[i..i + |sub|] == sub
  }

  /** Python's `sub in s` for strings. */
  predicate Contains(s: string, sub: string)
  {
    exists i :: 0 <= i <= |s| - |sub| && OccursAt(s, sub, i)
  }

  /** The learner object `learner_` refers to; None is a `NoneType` with
      no attributes. */
  function LearnerObject(a: Attr<PyObject>): PyObject
    requires !a.Absent?
  {
    if a.Present? then a.value else PyObject("NoneType", {})
  }

  /** `_infer_outcome_type`: 'unknown' without `learner_`; otherwise the
      first rule that applies, in this order: classifier attributes,
      regression coefficients, class-name hints. */
  function InferOutcomeType(e: EstimatorState): (t: OutcomeType)
    ensures e.fittedLearner.Absent? ==> t == UnknownType
    ensures (!e.fittedLearner.Absent? && ("classes_" in LearnerObject(e.fittedLearner).attrs ||
      "n_classes_" in LearnerObject(e.fittedLearner).attrs)) ==> t == Classification
    ensures t == Regression ==> (!e.fittedLearner.Absent? &&
      "classes_" !in LearnerObject(e.fittedLearner).attrs && "n_classes_" !in LearnerObject(e.fittedLearner).attrs)
    ensures (!e.fittedLearner.Absent? && "classes_" !in LearnerObject(e.fittedLearner).attrs &&
      "n_classes_" !in LearnerObject(e.fittedLearner).attrs && "coef_" in LearnerObject(e.fittedLearner).attrs) ==>
      t == Regression
    ensures (!e.fittedLearner.Absent? && "classes_" !in LearnerObject(e.fittedLearner).attrs &&
      "n_classes_" !in LearnerObject(e.fittedLearner).attrs && "coef_" !in LearnerObject(e.fittedLearner).attrs) ==>
      var name := Lower(LearnerObject(e.fittedLearner).className);
      t == (if Contains(name, "classifier") || Contains(name, "logistic") then Classification
            else if Contains(name, "regressor") || Contains(name, "regression") then Regression
            else UnknownType)
  {
    if e.fittedLearner.Absent? then UnknownType
    else
      var learner := LearnerObject(e.fittedLearner);
      if "classes_" in learner.attrs || "n_classes_" in learner.attrs then Classification
      else if "coef_" in learner.attrs && "classes_" !in learner.attrs then Regression
      else
        var name := Lower(learner.className);
        if Contains(name, "classifier") || Contains(name, "logistic") then Classification
        else if Contains(name, "regressor") || Contains(name, "regression") then Regression
        else UnknownType
  }

  /** A `learner_` set to None has no type: its class name `NoneType`
      holds no hint. */
  lemma NoneLearnerIsUnknown(e: EstimatorState)
    requires e.fittedLearner.PyNone?
    ensures InferOutcomeType(e) == UnknownType
  {
    var name := Lower("NoneType");
    assert name == "nonetype";
    assert !OccursAt(name, "logistic", 0) by { assert name[0] != 'l'; }
  }

  /** The class-name hints are read in order, so a `LogisticRegression`
      without fitted attributes counts as a classifier although its name
      also says "regression". */
  lemma LogisticRegressionIsClassification(e: EstimatorState)
    requires e.fittedLearner == Present(PyObject("LogisticRegression", {}))
    ensures InferOutcomeType(e) == Classification
  {
    var name := Lower("LogisticRegression");
    assert name[0..8] == "logistic";
    assert OccursAt(name, "logistic", 0);
  }

  /** Regressor class names are recognised when no attribute decides. */
  lemma RegressorNameIsRegression(e: EstimatorState)
    requires e.fittedLearner == Present(PyObject("SGDRegressor", {}))
    ensures InferOutcomeType(e) == Regression
  {
    RegressorHints();
  }

  /** The lower-cased `SGDRegressor` holds "regressor" and neither
      "classifier" nor "logistic". */
  lemma RegressorHints()
    ensures Contains(Lower("SGDRegressor"), "regressor")
    ensures !Contains(Lower("SGDRegressor"), "classifier") && !Contains(Lower("SGDRegressor"), "logistic")
  {
    var name := Lower("SGDRegressor");
    assert name == "sgdregressor";
    assert OccursAt(name, "regressor", 3);
    assert "classifier"[0] == 'c' && 'c' !in name;
    LacksLetter(name, "classifier", 0);
    assert "logistic"[0] == 'l' && 'l' !in name;
    LacksLetter(name, "logistic", 0);
  }

  /** A string missing one of `sub`'s letters does not contain `sub`. */
  lemma LacksLetter(s: string, sub: string, j: nat)
    requires j < |sub| && sub[j] !in s
    ensures !Contains(s, sub)
  {
    forall i | 0 <= i <= |s| - |sub| ensures !OccursAt(s, sub, i) {
      assert s[i + j] in s;
    }
  }

  /** The summary fields modelled here. */
  datatype Summary = Summary(
    estimatorName: string,
    estimatorClass: string,
    isFitted: bool,
    treatmentValues: Option<seq<Key>>,
    nSamples: Option<nat>,
    outcomeType: string,
    assumptions: seq<map<string, Assumptions.Field>>,
    warnings: seq<string>)

  /** `EffectEstimator.summary`, given the accumulated warnings. */
  function GetSummary(e: EstimatorState, accumulatedWarnings: seq<string>): (s: Summary)
    ensures s.estimatorName == e.className
    ensures s.estimatorClass == e.moduleName + "." + e.className
    ensures s.isFitted == IsFitted(e)
    ensures !s.isFitted ==> s.outcomeType == "unknown"
    ensures s.isFitted ==> s.outcomeType == OutcomeTypeName(InferOutcomeType(e))
    ensures s.treatmentValues == e.treatmentValues && s.nSamples == e.nSamples
    ensures s.warnings == accumulatedWarnings
    ensures |s.assumptions| == |Assumptions.GetAssumptionsForEstimator(e.className)|
    ensures forall i :: 0 <= i < |s.assumptions| ==>
      s.assumptions[i].Keys == Assumptions.DictKeys &&
      Assumptions.FromDict(s.assumptions[i]) == Some(Assumptions.GetAssumptionsForEstimator(e.className)[i])
  {
    var fitted := IsFitted(e);
    var listed := Assumptions.GetAssumptionsForEstimator(e.className);
    var dicts := seq(|listed|, i requires 0 <= i < |listed| => Assumptions.ToDict(listed[i]));
    assert forall i :: 0 <= i < |listed| ==> Assumptions.FromDict(dicts[i]) == Some(listed[i]) by {
      forall i | 0 <= i < |listed|
        ensures Assumptions.FromDict(dicts[i]) == Some(listed[i])
      {
        Assumptions.ToDictRoundTrip(listed[i]);
      }
    }
    Summary(
      e.className,
      e.moduleName + "." + e.className,
      fitted,
      e.treatmentValues,
      e.nSamples,
      if fitted then OutcomeTypeName(InferOutcomeType(e)) else "unknown",
      dicts,
      accumulatedWarnings)
  }

  /** A fresh estimator whose learner has not been fitted: not fitted,
      outcome type 'unknown', and no treatment values or sample count. */
  lemma UnfittedSummary(learner: PyObject, className: string, moduleName: string, ws: seq<string>)
    requires !HasFitSignal(learner)
    ensures var s := GetSummary(EstimatorState(className, moduleName, Absent, Present(learner), None, None), ws);
      !s.isFitted && s.outcomeType == "unknown" && s.treatmentValues.None? && s.nSamples.None?
  {
  }

  /** An estimator fitted through `learner` alone (as IPW is) is reported
      fitted, but its outcome type stays 'unknown': the type is read from
      `learner_` only. */
  lemma FittedWithoutLearnerUnderscore(e: EstimatorState, ws: seq<string>)
    requires e.fittedLearner.Absent? && e.learner.Present? && "coef_" in e.learner.value.attrs
    ensures GetSummary(e, ws).isFitted && GetSummary(e, ws).outcomeType == "unknown"
  {
  }

  // ---------------------------------------------------------------------
  // Construction
  // ---------------------------------------------------------------------

  /** An individual-outcome estimator: its learner and whether predictions
      use `predict_proba`. */
  class IndividualOutcomeEstimator {
    var learner: PyObject
    var predictProba: bool

    /** `IndividualOutcomeEstimator.__init__`: store both as given. */
    constructor(learner: PyObject, predictProba: bool)
      ensures this.learner == learner && this.predictProba == predictProba
    {
      this.learner := learner;
      this.predictProba := predictProba;
    }

    /** `IndividualOutcomeEstimator.__init__` with `predict_proba` left at
        its default. */
    constructor WithDefaults(learner: PyObject)
      ensures this.learner == learner && !this.predictProba
    {
      this.learner := learner;
      this.predictProba := false;
    }
  }
}

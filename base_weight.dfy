/** Weight-estimator helpers: the stratified weighted mean of outcomes,
    the weight diagnostics with their extreme-weight warning, and the
    construction of weight and propensity estimators. */
module BaseWeight {
  import opened Common
  import Validation
  import Reports
  import Warnings

  // ---------------------------------------------------------------------
  // _compute_stratified_weighted_aggregate
  // ---------------------------------------------------------------------

  /** `np.average` refuses weights that sum to zero (an empty stratum
      included). */
  datatype AggregateError = ZeroWeightSum(stratum: Key)

  /** Sum of the weights of the units in stratum `t`. */
  function StratumWeight(w: seq<real>, strata: seq<Key>, t: Key): real
    requires |w| == |strata|
  {
    if w == [] then 0.0
    else
      StratumWeight(w[..|w| - 1], strata[..|strata| - 1], t) +
        (if strata[|strata| - 1] == t then w[|w| - 1] else 0.0)
  }

  /** Sum of weight times outcome over the units in stratum `t`. */
  function StratumWeightedSum(y: seq<real>, w: seq<real>, strata: seq<Key>, t: Key): real
    requires |y| == |w| == |strata|
  {
    if y == [] then 0.0
    else
      StratumWeightedSum(y[..|y| - 1], w[..|w| - 1], strata[..|strata| - 1], t) +
        (if strata[|strata| - 1] == t then w[|w| - 1] * y[|y| - 1] else 0.0)
  }

  /** The outcomes of stratum `t`, in order (`y[stratify_by == t]`). */
  function StratumOutcomes(y: seq<real>, strata: seq<Key>, t: Key): seq<real>
    requires |y| == |strata|
  {
    if y == [] then []
    else
      StratumOutcomes(y[..|y| - 1], strata[..|strata| - 1], t) +
        (if strata[|strata| - 1] == t then [y[|y| - 1]] else [])
  }

  /** The distinct labels of a column, in order of first appearance. */
  function Distinct(s: seq<Key>): (d: seq<Key>)
    ensures forall x :: x in d <==> x in s
  {
    if s == [] then []
    else
      var d := Distinct(s[..|s| - 1]);
      assert forall x :: x in s <==> x in s[..|s| - 1] || x == s[|s| - 1];
      if s[|s| - 1] in d then d else d + [s[|s| - 1]]
  }

  /** Sample weights default to 1.0 for every unit. */
  function WeightsOrOnes(y: seq<real>, sampleWeight: Option<seq<real>>): seq<real>
  {
    if sampleWeight.Some? then sampleWeight.value else seq(|y|, i => 1.0)
  }

  /** Without strata and without requested values every unit is in
      stratum 0. */
  function StrataOrZero(y: seq<real>, stratifyBy: Option<seq<Key>>): seq<Key>
  {
    if stratifyBy.Some? then stratifyBy.value else seq(|y|, i => 0)
  }

  /** The strata to report: those requested, else every label present. */
  function RequestedStrata(strata: seq<Key>, treatmentValues: Option<seq<Key>>): seq<Key>
  {
    if treatmentValues.Some? then treatmentValues.value else Distinct(strata)
  }

  /** The result of the loop over `ts`, in closed form: the weighted mean
      of each stratum, or the first stratum whose weights sum to zero. */
  function Aggregate(y: seq<real>, w: seq<real>, strata: seq<Key>, ts: seq<Key>): Result<map<Key, real>, AggregateError>
    requires |y| == |w| == |strata|
  {
    if ts == [] then Ok(map[])
    else
      match Aggregate(y, w, strata, ts[..|ts| - 1])
      case Err(e) => Err(e)
      case Ok(m) =>
        var t := ts[|ts| - 1];
        var total := StratumWeight(w, strata, t);
        if total == 0.0 then Err(ZeroWeightSum(t))
        else Ok(m[t := StratumWeightedSum(y, w, strata, t) / total])
  }

  /** `_compute_stratified_weighted_aggregate`: fill in the defaults, then
      compute each requested stratum's weighted mean in turn. Outcome,
      weights and strata are aligned column by column. */
  method StratifiedWeightedAggregate(y: seq<real>, sampleWeight: Option<seq<real>>,
                                     stratifyBy: Option<seq<Key>>, treatmentValues: Option<seq<Key>>)
    returns (r: Result<map<Key, real>, AggregateError>)
    requires sampleWeight.Some? ==> |sampleWeight.value| == |y|
    requires stratifyBy.Some? ==> |stratifyBy.value| == |y|
    requires treatmentValues.Some? ==> stratifyBy.Some?
    ensures var w, strata := WeightsOrOnes(y, sampleWeight), StrataOrZero(y, stratifyBy);
      r == Aggregate(y, w, strata, RequestedStrata(strata, treatmentValues))
  {
    var w := WeightsOrOnes(y, sampleWeight);
    var strata := StrataOrZero(y, stratifyBy);
    var ts := RequestedStrata(strata, treatmentValues);
    var res: map<Key, real> := map[];
    var i := 0;
    while i < |ts|
      invariant 0 <= i <= |ts|
      invariant Aggregate(y, w, strata, ts[..i]) == Ok(res)
    {
      var t := ts[i];
      assert ts[..i + 1][..i] == ts[..i];
      var total := StratumWeight(w, strata, t);
      if total == 0.0 {
        r := Err(ZeroWeightSum(t));
        PrefixError(y, w, strata, ts, i + 1);
        return;
      }
      res := res[t := StratumWeightedSum(y, w, strata, t) / total];
      i := i + 1;
    }
    assert ts[..i] == ts;
    r := Ok(res);
  }

  /** A failure on a prefix of the strata is the failure of the whole. */
  lemma {:induction false} PrefixError(y: seq<real>, w: seq<real>, strata: seq<Key>, ts: seq<Key>, n: nat)
    requires |y| == |w| == |strata| && n <= |ts|
    requires Aggregate(y, w, strata, ts[..n]).Err?
    ensures Aggregate(y, w, strata, ts) == Aggregate(y, w, strata, ts[..n])
    decreases |ts| - n
  {
    if n < |ts| {
      assert ts[..n + 1][..n] == ts[..n];
      PrefixError(y, w, strata, ts, n + 1);
    } else {
      assert ts[..n] == ts;
    }
  }

  /** What the aggregate promises: it succeeds exactly when every
      requested stratum has a non-zero weight sum, and then holds one
      entry per requested stratum, `Σ w·y / Σ w` over that stratum; a
      failure names a requested stratum with zero weight. */
  lemma {:induction false} AggregateMeaning(y: seq<real>, w: seq<real>, strata: seq<Key>, ts: seq<Key>)
    requires |y| == |w| == |strata|
    ensures Aggregate(y, w, strata, ts).Ok? <==> forall t :: t in ts ==> StratumWeight(w, strata, t) != 0.0
    ensures Aggregate(y, w, strata, ts).Ok? ==>
      var m := Aggregate(y, w, strata, ts).value;
      (forall t :: t in m <==> t in ts) &&
      (forall t :: t in m ==> m[t] == StratumWeightedSum(y, w, strata, t) / StratumWeight(w, strata, t))
    ensures Aggregate(y, w, strata, ts).Err? ==>
      var t := Aggregate(y, w, strata, ts).error.stratum;
      t in ts && StratumWeight(w, strata, t) == 0.0
  {
    if ts != [] {
      var init, t := ts[..|ts| - 1], ts[|ts| - 1];
      AggregateMeaning(y, w, strata, init);
      assert forall u :: u in ts <==> u in init || u == t;
    }
  }

  /** With unit weights a stratum's weight is its size. */
  lemma {:induction false} UnitWeightIsCount(y: seq<real>, strata: seq<Key>, t: Key)
    requires |y| == |strata|
    ensures StratumWeight(seq(|y|, i => 1.0), strata, t) == |StratumOutcomes(y, strata, t)| as real
    ensures StratumWeightedSum(y, seq(|y|, i => 1.0), strata, t) == Sum(StratumOutcomes(y, strata, t))
  {
    if y != [] {
      var n := |y| - 1;
      var ones: seq<real> := seq(|y|, i => 1.0);
      assert ones[..n] == seq(n, i => 1.0);
      UnitWeightIsCount(y[..n], strata[..n], t);
      var init := StratumOutcomes(y[..n], strata[..n], t);
      if strata[n] == t {
        SumAppend(init, [y[n]]);
        assert Sum([y[n]]) == y[n] by {
          assert [y[n]][..0] == [];
        }
      } else {
        assert init + [] == init;
      }
    }
  }

  /** Without sample weights every stratum's value is the plain mean of
      its outcomes. */
  lemma UnweightedIsPlainMean(y: seq<real>, stratifyBy: Option<seq<Key>>, treatmentValues: Option<seq<Key>>)
    requires stratifyBy.Some? ==> |stratifyBy.value| == |y|
    requires treatmentValues.Some? ==> stratifyBy.Some?
    ensures var w, strata := WeightsOrOnes(y, None), StrataOrZero(y, stratifyBy);
      var r := Aggregate(y, w, strata, RequestedStrata(strata, treatmentValues));
      r.Ok? ==> forall t :: t in r.value ==>
        |StratumOutcomes(y, strata, t)| > 0 &&
        r.value[t] == Mean(StratumOutcomes(y, strata, t))
  {
    var w, strata := WeightsOrOnes(y, None), StrataOrZero(y, stratifyBy);
    var ts := RequestedStrata(strata, treatmentValues);
    AggregateMeaning(y, w, strata, ts);
    forall t
      ensures StratumWeight(w, strata, t) == |StratumOutcomes(y, strata, t)| as real
      ensures StratumWeightedSum(y, w, strata, t) == Sum(StratumOutcomes(y, strata, t))
    {
      UnitWeightIsCount(y, strata, t);
    }
  }

  /** Without strata and without requested values the result is the
      single stratum 0 holding the overall weighted mean. */
  lemma NoStrataSingleStratum(y: seq<real>, sampleWeight: Option<seq<real>>)
    requires sampleWeight.Some? ==> |sampleWeight.value| == |y|
    ensures var w, strata := WeightsOrOnes(y, sampleWeight), StrataOrZero(y, None);
      var r := Aggregate(y, w, strata, RequestedStrata(strata, None));
      (y == [] ==> r == Ok(map[])) &&
      (y != [] ==> r == if StratumWeight(w, strata, 0) == 0.0 then Err(ZeroWeightSum(0))
                        else Ok(map[0 := StratumWeightedSum(y, w, strata, 0) / StratumWeight(w, strata, 0)]))
  {
    var w, strata := WeightsOrOnes(y, sampleWeight), StrataOrZero(y, None);
    DistinctConstant(|y|);
    if y != [] {
      AggregateSingle(y, w, strata, 0);
    }
  }

  /** The loop over a single stratum. */
  lemma AggregateSingle(y: seq<real>, w: seq<real>, strata: seq<Key>, t: Key)
    requires |y| == |w| == |strata|
    ensures Aggregate(y, w, strata, [t]) ==
      if StratumWeight(w, strata, t) == 0.0 then Err(ZeroWeightSum(t))
      else Ok(map[t := StratumWeightedSum(y, w, strata, t) / StratumWeight(w, strata, t)])
  {
    assert [t][..0] == [];
  }

  /** A column of zeros has the single label 0 (none when empty). */
  lemma {:induction false} DistinctConstant(n: nat)
    ensures Distinct(seq(n, i => 0)) == if n == 0 then [] else [0]
  {
    if n > 0 {
      var zeros: seq<Key> := seq(n, i => 0);
      assert zeros[..n - 1] == seq(n - 1, i => 0);
      DistinctConstant(n - 1);
    }
  }

  // ---------------------------------------------------------------------
  // get_weight_diagnostics
  // ---------------------------------------------------------------------

  /** The dict `get_weight_diagnostics` returns. */
  datatype WeightDiagnostics = WeightDiagnostics(
    minWeight: real, maxWeight: real, meanWeight: real, medianWeight: real, stdWeight: real,
    nExtreme: nat, pctExtreme: real, effectiveSampleSize: Option<real>)

  /** `get_weight_diagnostics`: the weight distribution's fields, plus an
      extreme-weight warning exactly when some weight is extreme. */
  function GetWeightDiagnostics(weights: seq<Option<real>>, median: real, std: real)
    : (r: Result<(WeightDiagnostics, seq<Warnings.Warning>), Reports.ReportError>)
    requires |DropMissing(weights)| > 0 ==> Reports.IsStd(DropMissing(weights), std)
    ensures r.Err? <==> Reports.ComputeWeightDistribution(weights, median, std).Err?
    ensures r.Err? ==> r.error == Reports.NoValidWeights
    ensures r.Ok? ==> (
      var d, (diag, ws) := Reports.ComputeWeightDistribution(weights, median, std).value, r.value;
      diag == WeightDiagnostics(d.minWeight, d.maxWeight, d.meanWeight, d.medianWeight, d.stdWeight,
                                d.nExtreme, d.pctExtreme, d.effectiveSampleSize) &&
      (ws != [] <==> d.nExtreme > 0) &&
      (ws != [] ==> ws == Warnings.WarnExtremeWeights(Warnings.WeightStats(
         Some(d.minWeight), Some(d.maxWeight), Some(d.nExtreme as int), Some(d.pctExtreme)))))
  {
    match Reports.ComputeWeightDistribution(weights, median, std)
    case Err(e) => Err(e)
    case Ok(d) =>
      var ws := if d.nExtreme > 0 then
        Warnings.WarnExtremeWeights(Warnings.WeightStats(
          Some(d.minWeight), Some(d.maxWeight), Some(d.nExtreme as int), Some(d.pctExtreme)))
      else [];
      Ok((WeightDiagnostics(d.minWeight, d.maxWeight, d.meanWeight, d.medianWeight, d.stdWeight,
                            d.nExtreme, d.pctExtreme, d.effectiveSampleSize), ws))
  }

  /** The diagnostics warn exactly when some weight lies outside
      mean ± 3·std. */
  lemma DiagnosticsWarnOnOutliers(weights: seq<Option<real>>, median: real, std: real)
    requires |DropMissing(weights)| > 0 && Reports.IsStd(DropMissing(weights), std)
    ensures var w := DropMissing(weights);
      GetWeightDiagnostics(weights, median, std).value.1 != [] <==>
      Reports.SomeOutside(w, Mean(w) - 3.0 * std, Mean(w) + 3.0 * std)
  {
    WarnsIffExtremeCount(weights, median, std);
    ExtremeCountIffOutlier(weights, std);
  }

  /** The extreme-weight count is positive exactly when some weight lies
      outside mean ± 3·std. */
  lemma ExtremeCountIffOutlier(weights: seq<Option<real>>, std: real)
    requires |DropMissing(weights)| > 0
    ensures var w := DropMissing(weights);
      Reports.CountOutside(w, Mean(w) - 3.0 * std, Mean(w) + 3.0 * std) > 0 <==>
      Reports.SomeOutside(w, Mean(w) - 3.0 * std, Mean(w) + 3.0 * std)
  {
    var w := DropMissing(weights);
    Reports.CountOutsideExists(w, Mean(w) - 3.0 * std, Mean(w) + 3.0 * std);
  }

  /** The diagnostics warn exactly when the extreme-weight count is positive. */
  lemma WarnsIffExtremeCount(weights: seq<Option<real>>, median: real, std: real)
    requires |DropMissing(weights)| > 0 && Reports.IsStd(DropMissing(weights), std)
    ensures var w := DropMissing(weights);
      GetWeightDiagnostics(weights, median, std).value.1 != [] <==>
      Reports.CountOutside(w, Mean(w) - 3.0 * std, Mean(w) + 3.0 * std) > 0
  {
    var dr := Reports.ComputeWeightDistribution(weights, median, std);
    assert dr.Ok?;
    var g := GetWeightDiagnostics(weights, median, std);
    assert g.Ok?;
    assert g.value.1 != [] <==> dr.value.nExtreme > 0;
  }

  /** Equal weights (std = 0) never draw the warning, and the reported
      effective sample size is at most the number of weights. */
  lemma DiagnosticsQuietAndBounded(weights: seq<Option<real>>, median: real, std: real)
    requires |DropMissing(weights)| > 0 && Reports.IsStd(DropMissing(weights), std)
    ensures std == 0.0 ==> GetWeightDiagnostics(weights, median, std).value.1 == []
    ensures var ess := GetWeightDiagnostics(weights, median, std).value.0.effectiveSampleSize;
      ess.Some? ==> 0.0 <= ess.value <= |DropMissing(weights)| as real
  {
    Reports.ExtremeWeightsAreRare(weights, median, std);
    Reports.WeightDistributionBounds(weights, median, std);
  }

  // ---------------------------------------------------------------------
  // Estimator construction
  // ---------------------------------------------------------------------

  /** A weight estimator: the learner and whether weights are stabilized. */
  class WeightEstimator {
    var learner: PyObject
    var useStabilized: bool

    /** `WeightEstimator.__init__`: store both as given. */
    constructor(learner: PyObject, useStabilized: bool)
      ensures this.learner == learner && this.useStabilized == useStabilized
    {
      this.learner := learner;
      this.useStabilized := useStabilized;
    }

    /** `WeightEstimator.__init__` with `use_stabilized` left at its
        default. */
    constructor WithDefaults(learner: PyObject)
      ensures this.learner == learner && !this.useStabilized
    {
      this.learner := learner;
      this.useStabilized := false;
    }
  }

  /** A propensity estimator: a weight estimator whose learner must offer
      `predict_proba`. */
  class PropensityEstimator {
    var learner: PyObject
    var useStabilized: bool

    constructor(learner: PyObject, useStabilized: bool)
      ensures this.learner == learner && this.useStabilized == useStabilized
    {
      this.learner := learner;
      this.useStabilized := useStabilized;
    }

    /** `PropensityEstimator.__init__` with `use_stabilized` left at its
        default. */
    constructor WithDefaults(learner: PyObject)
      ensures this.learner == learner && !this.useStabilized
    {
      this.learner := learner;
      this.useStabilized := false;
    }
  }

  /** The learner check the propensity-estimator constructor performs. */
  function PredictProbaCheck(learner: PyObject): (c: Validation.Check)
    ensures c.Pass? <==> "predict_proba" in learner.attrs
    ensures c.Fail? ==> c.error == Validation.LearnerInterface(learner.className + " (in PropensityEstimator)", "predict_proba")
  {
    Validation.CheckLearnerHasMethod(learner, "predict_proba", Some(learner.className + " (in PropensityEstimator)"))
  }

  /** `PropensityEstimator.__init__`: store the fields, then refuse a
      learner without `predict_proba` with a learner-interface error. */
  method NewPropensityEstimator(learner: PyObject, useStabilized: bool)
    returns (r: Result<PropensityEstimator, Validation.ValidationError>)
    ensures r.Ok? <==> "predict_proba" in learner.attrs
    ensures r.Ok? ==> fresh(r.value) && r.value.learner == learner && r.value.useStabilized == useStabilized
    ensures r.Err? ==> (
      r.error == Validation.LearnerInterface(learner.className + " (in PropensityEstimator)", "predict_proba") &&
      Validation.ClassOf(r.error) == Validation.LearnerInterfaceError)
  {
    var est := new PropensityEstimator(learner, useStabilized);
    var check := PredictProbaCheck(learner);
    if check.Fail? {
      return Err(check.error);
    }
    r := Ok(est);
  }
}

/** Structured warnings: the threshold rules that decide which warning,
    if any, a diagnostic raises, and the module-level accumulator of
    warning messages. An issued warning is returned as a value; the
    rules return the list of warnings they issue, at most one each. */
module Warnings {
  import opened Common
  import Reports

  /** The warning classes; every one is a `CausallibWarning`, itself a
      `UserWarning`. */
  datatype Category =
    | ExtremeWeightWarning
    | LowOverlapWarning
    | PositivityViolationWarning
    | SingleTreatmentDominanceWarning
    | MissingValuesWarning
    | LearnerInterfaceWarning

  /** The values each warning's message reports. */
  datatype Message =
    | ExtremeWeightsMsg(minWeight: real, maxWeight: real, nExtreme: int, pctExtreme: real)
    | NoOverlapMsg(pctInOverlap: map<Key, real>)
    | LowCoverageMsg(lowCoverage: map<Key, real>)
    | PropensityExtremityMsg(nExtreme: int, pctExtreme: real, nLow: int, nHigh: int)
    | DominanceMsg(treatment: Key, pct: real, count: nat, total: nat)
    | MissingValuesMsg(variable: string, nMissing: nat, nTotal: nat, pct: real)
    | LearnerInterfaceMsg(methodName: string, learnerType: string)

  datatype Warning = Warning(category: Category, message: Message)

  /** `d.get(key, default)` on an entry that may be absent. */
  function GetOr<T>(o: Option<T>, default: T): (v: T)
    ensures o.Some? ==> v == o.value
    ensures o.None? ==> v == default
  {
    if o.Some? then o.value else default
  }

  // ---------------------------------------------------------------------
  // warn_extreme_weights
  // ---------------------------------------------------------------------

  /** The weight-statistics dict; each key may be absent. */
  datatype WeightStats = WeightStats(
    minWeight: Option<real>, maxWeight: Option<real>, nExtreme: Option<int>, pctExtreme: Option<real>)

  /** `warn_extreme_weights`: always one extreme-weight warning, absent
      keys reported as 0. */
  function WarnExtremeWeights(stats: WeightStats): (ws: seq<Warning>)
    ensures |ws| == 1 && ws[0].category == ExtremeWeightWarning
    ensures ws[0].message.ExtremeWeightsMsg?
    ensures stats.nExtreme.None? ==> ws[0].message.nExtreme == 0
    ensures stats.minWeight.None? ==> ws[0].message.minWeight == 0.0
    ensures stats.maxWeight.None? ==> ws[0].message.maxWeight == 0.0
    ensures stats.pctExtreme.None? ==> ws[0].message.pctExtreme == 0.0
    ensures stats.nExtreme.Some? ==> ws[0].message.nExtreme == stats.nExtreme.value
    ensures stats.minWeight.Some? ==> ws[0].message.minWeight == stats.minWeight.value
    ensures stats.maxWeight.Some? ==> ws[0].message.maxWeight == stats.maxWeight.value
    ensures stats.pctExtreme.Some? ==> ws[0].message.pctExtreme == stats.pctExtreme.value
  {
    [Warning(ExtremeWeightWarning,
             ExtremeWeightsMsg(GetOr(stats.minWeight, 0.0), GetOr(stats.maxWeight, 0.0),
                               GetOr(stats.nExtreme, 0), GetOr(stats.pctExtreme, 0.0)))]
  }

  // ---------------------------------------------------------------------
  // warn_low_overlap
  // ---------------------------------------------------------------------

  /** The overlap-statistics dict; each key may be absent. */
  datatype OverlapStats = OverlapStats(hasOverlap: Option<bool>, pctInOverlap: Option<map<Key, real>>)

  /** The treatments whose share inside the overlap region is below 50%,
      with their shares. */
  function LowCoverage(pct: map<Key, real>): (low: map<Key, real>)
    ensures forall t :: t in low <==> t in pct && pct[t] < 50.0
    ensures forall t :: t in low ==> low[t] == pct[t]
  {
    map t | t in pct && pct[t] < 50.0 :: pct[t]
  }

  /** `warn_low_overlap`: a positivity-violation warning when the overlap
      flag is false or absent; otherwise a low-overlap warning exactly
      when some treatment is below 50%. */
  function WarnLowOverlap(stats: OverlapStats): (ws: seq<Warning>)
    ensures |ws| <= 1
    ensures !GetOr(stats.hasOverlap, false) <==> (|ws| == 1 && ws[0].category == PositivityViolationWarning)
    ensures !GetOr(stats.hasOverlap, false) ==> ws[0].message == NoOverlapMsg(GetOr(stats.pctInOverlap, map[]))
    ensures (|ws| == 1 && ws[0].category == LowOverlapWarning) <==>
      (GetOr(stats.hasOverlap, false) && exists t :: t in GetOr(stats.pctInOverlap, map[]) &&
                                                     GetOr(stats.pctInOverlap, map[])[t] < 50.0)
    ensures |ws| == 1 && ws[0].category == LowOverlapWarning ==>
      ws[0].message == LowCoverageMsg(LowCoverage(GetOr(stats.pctInOverlap, map[])))
  {
    var pct := GetOr(stats.pctInOverlap, map[]);
    if !GetOr(stats.hasOverlap, false) then
      [Warning(PositivityViolationWarning, NoOverlapMsg(pct))]
    else
      if exists t :: t in pct && pct[t] < 50.0 then
        [Warning(LowOverlapWarning, LowCoverageMsg(LowCoverage(pct)))]
      else
        []
  }

  /** The overlap dict of a diagnostic report. */
  function OverlapStatsOf(d: Reports.OverlapDiagnostic): OverlapStats
  {
    OverlapStats(Some(d.hasOverlap), Some(d.pctInOverlap))
  }

  /** On a report from the overlap diagnostic, the rule stays silent
      exactly when the report carries no note, and raises the
      positivity-violation warning exactly when the report carries the
      no-samples note. */
  lemma LowOverlapWarningMatchesNotes(v: seq<(real, Key)>, treatmentValues: seq<Key>, q1: real, q3: real,
                                      d: Reports.OverlapDiagnostic)
    requires Reports.DescribesOverlap(v, treatmentValues, q1, q3, d)
    ensures WarnLowOverlap(OverlapStatsOf(d)) == [] <==> d.notes == []
    ensures (|WarnLowOverlap(OverlapStatsOf(d))| == 1 &&
             WarnLowOverlap(OverlapStatsOf(d))[0].category == PositivityViolationWarning) <==>
            Reports.NoSamplesInOverlap in d.notes
  {
    var low := Reports.LowOverlapTreatments(treatmentValues, d.pctInOverlap);
    if low != [] {
      assert low[0] in low;
    }
    if exists t :: t in d.pctInOverlap && d.pctInOverlap[t] < 50.0 {
      var t :| t in d.pctInOverlap && d.pctInOverlap[t] < 50.0;
      assert t in low;
    }
  }

  // ---------------------------------------------------------------------
  // warn_propensity_extremity
  // ---------------------------------------------------------------------

  /** The propensity-statistics dict; each key may be absent. */
  datatype PropensityStats = PropensityStats(nExtremeLow: Option<int>, nExtremeHigh: Option<int>, pctExtreme: Option<real>)

  /** `warn_propensity_extremity`: a positivity-violation warning exactly
      when some score is extremely low or extremely high. */
  function WarnPropensityExtremity(stats: PropensityStats): (ws: seq<Warning>)
    ensures |ws| <= 1
    ensures |ws| == 1 <==> GetOr(stats.nExtremeLow, 0) > 0 || GetOr(stats.nExtremeHigh, 0) > 0
    ensures |ws| == 1 ==> (
      ws[0].category == PositivityViolationWarning &&
      ws[0].message.PropensityExtremityMsg? &&
      ws[0].message.nExtreme == GetOr(stats.nExtremeLow, 0) + GetOr(stats.nExtremeHigh, 0) &&
      ws[0].message.pctExtreme == GetOr(stats.pctExtreme, 0.0) &&
      ws[0].message.nLow == GetOr(stats.nExtremeLow, 0) && ws[0].message.nHigh == GetOr(stats.nExtremeHigh, 0))
  {
    var low, high := GetOr(stats.nExtremeLow, 0), GetOr(stats.nExtremeHigh, 0);
    if low > 0 || high > 0 then
      [Warning(PositivityViolationWarning, PropensityExtremityMsg(low + high, GetOr(stats.pctExtreme, 0.0), low, high))]
    else []
  }

  /** The propensity dict of a statistics report. */
  function PropensityStatsOf(st: Reports.PropensityScoreStats): PropensityStats
  {
    PropensityStats(Some(st.nExtremeLow as int), Some(st.nExtremeHigh as int), Some(st.pctExtreme))
  }

  /** On a statistics report, the rule warns exactly when some
      non-missing score lies below 0.01 or above 0.99. */
  lemma PropensityWarningMatchesScores(scores: seq<Option<real>>, median: real, std: real)
    requires |DropMissing(scores)| > 0 ==>
      Reports.IsStd(DropMissing(scores), std) && IsMedian(DropMissing(scores), median)
    requires Reports.ComputePropensityStats(scores, median, std).Ok?
    ensures var st := Reports.ComputePropensityStats(scores, median, std).value;
      |WarnPropensityExtremity(PropensityStatsOf(st))| == 1 <==>
      exists x :: x in DropMissing(scores) && (x < Reports.ExtremeLow || x > Reports.ExtremeHigh)
  {
    Reports.PropensityStatsMeaning(scores, median, std);
  }

  // ---------------------------------------------------------------------
  // warn_single_treatment_dominance
  // ---------------------------------------------------------------------

  /** Total of the per-treatment counts (`sum(d.values())`). */
  function TotalCount(entries: seq<(Key, nat)>): nat
  {
    if entries == [] then 0 else TotalCount(entries[..|entries| - 1]) + entries[|entries| - 1].1
  }

  /** A treatment's share of the sample, 0 when the sample is empty. */
  function Share(count: nat, total: nat): real
  {
    if total > 0 then Percent(count, total) else 0.0
  }

  /** Position of the first entry whose share exceeds 80%. */
  function FirstDominant(entries: seq<(Key, nat)>, total: nat): (r: Option<nat>)
    ensures r.Some? ==> r.value < |entries| && Share(entries[r.value].1, total) > 80.0
    ensures r.Some? ==> forall j :: 0 <= j < r.value ==> Share(entries[j].1, total) <= 80.0
    ensures r.None? <==> forall j :: 0 <= j < |entries| ==> Share(entries[j].1, total) <= 80.0
  {
    if entries == [] then None
    else if Share(entries[0].1, total) > 80.0 then Some(0)
    else
      match FirstDominant(entries[1..], total)
      case None => None
      case Some(i) => Some(i + 1)
  }

  /** The warnings of `warn_single_treatment_dominance`, in closed form. */
  function DominanceWarnings(entries: seq<(Key, nat)>): seq<Warning>
  {
    var total := TotalCount(entries);
    match FirstDominant(entries, total)
    case None => []
    case Some(i) =>
      [Warning(SingleTreatmentDominanceWarning,
               DominanceMsg(entries[i].0, Share(entries[i].1, total), entries[i].1, total))]
  }

  /** `warn_single_treatment_dominance`: scan the treatments in order and
      warn for the first whose share exceeds 80%, then stop. The dict is
      given as its entries in insertion order. */
  method WarnSingleTreatmentDominance(entries: seq<(Key, nat)>) returns (ws: seq<Warning>)
    ensures ws == DominanceWarnings(entries)
  {
    var total := TotalCount(entries);
    ws := [];
    var i := 0;
    while i < |entries|
      invariant 0 <= i <= |entries|
      invariant ws == []
      invariant forall j :: 0 <= j < i ==> Share(entries[j].1, total) <= 80.0
    {
      var (treatment, count) := entries[i];
      var pct := Share(count, total);
      if pct > 80.0 {
        ws := [Warning(SingleTreatmentDominanceWarning, DominanceMsg(treatment, pct, count, total))];
        assert FirstDominant(entries, total) == Some(i);
        return;
      }
      i := i + 1;
    }
  }

  /** At most one dominance warning, none for an empty sample, and the
      warned treatment holds more than 80% of the units. */
  lemma DominanceWarningsMeaning(entries: seq<(Key, nat)>)
    ensures |DominanceWarnings(entries)| <= 1
    ensures TotalCount(entries) == 0 ==> DominanceWarnings(entries) == []
    ensures DominanceWarnings(entries) != [] <==>
      exists i :: 0 <= i < |entries| && Share(entries[i].1, TotalCount(entries)) > 80.0
  {
    var total := TotalCount(entries);
    if total == 0 {
      assert forall j :: 0 <= j < |entries| ==> Share(entries[j].1, total) <= 80.0;
    }
  }

  /** The count of one entry and that of another at a different position
      together never exceed the total. */
  lemma {:induction false} TwoEntriesWithinTotal(entries: seq<(Key, nat)>, i: nat, j: nat)
    requires i < |entries| && j < |entries| && i != j
    ensures entries[i].1 + entries[j].1 <= TotalCount(entries)
  {
    var n := |entries| - 1;
    var init := entries[..n];
    if i == n {
      OneEntryWithinTotal(init, j);
      assert init[j] == entries[j];
    } else if j == n {
      OneEntryWithinTotal(init, i);
      assert init[i] == entries[i];
    } else {
      TwoEntriesWithinTotal(init, i, j);
      assert init[i] == entries[i] && init[j] == entries[j];
    }
  }

  lemma {:induction false} OneEntryWithinTotal(entries: seq<(Key, nat)>, i: nat)
    requires i < |entries|
    ensures entries[i].1 <= TotalCount(entries)
  {
    var n := |entries| - 1;
    if i < n {
      OneEntryWithinTotal(entries[..n], i);
      assert entries[..n][i] == entries[i];
    }
  }

  /** Warning only once loses nothing: the first treatment above 80% is
      strictly the largest group, so it is the most dominant one. */
  lemma DominantIsLargest(entries: seq<(Key, nat)>)
    requires DominanceWarnings(entries) != []
    ensures var i := FirstDominant(entries, TotalCount(entries)).value;
      forall j :: 0 <= j < |entries| && j != i ==> entries[j].1 < entries[i].1
  {
    var total := TotalCount(entries);
    var i := FirstDominant(entries, total).value;
    ShareAbove(entries[i].1, total);
    forall j | 0 <= j < |entries| && j != i
      ensures entries[j].1 < entries[i].1
    {
      TwoEntriesWithinTotal(entries, i, j);
    }
  }

  /** A share above 80% is a count above four fifths of the total. */
  lemma ShareAbove(count: nat, total: nat)
    ensures Share(count, total) > 80.0 <==> total > 0 && 5 * count > 4 * total
  {
    if total > 0 {
      DivAbove(100.0 * count as real, total as real, 80.0);
    }
  }

  // ---------------------------------------------------------------------
  // warn_missing_values and warn_learner_interface
  // ---------------------------------------------------------------------

  /** `warn_missing_values`: one warning exactly when something is
      missing, reporting the missing share (0 for an empty sample). */
  function WarnMissingValues(nMissing: nat, nTotal: nat, variable: string): (ws: seq<Warning>)
    ensures |ws| <= 1
    ensures |ws| == 1 <==> nMissing > 0
    ensures |ws| == 1 ==> (
      ws[0].category == MissingValuesWarning && ws[0].message.MissingValuesMsg? &&
      ws[0].message.variable == variable && ws[0].message.nMissing == nMissing &&
      ws[0].message.nTotal == nTotal)
    ensures |ws| == 1 && nTotal > 0 ==> ws[0].message.pct * nTotal as real == 100.0 * nMissing as real
    ensures |ws| == 1 && nTotal == 0 ==> ws[0].message.pct == 0.0
    ensures |ws| == 1 && nMissing <= nTotal ==> 0.0 <= ws[0].message.pct <= 100.0
  {
    if nMissing > 0 then
      var pct := if nTotal > 0 then Percent(nMissing, nTotal) else 0.0;
      assert nTotal > 0 && nMissing <= nTotal ==> 0.0 <= pct <= 100.0 by {
        if nTotal > 0 && nMissing <= nTotal {
          PercentBounds(nMissing, nTotal);
        }
      }
      [Warning(MissingValuesWarning, MissingValuesMsg(variable, nMissing, nTotal, pct))]
    else []
  }

  /** `warn_learner_interface`: always one learner-interface warning
      naming the method and the learner. */
  function WarnLearnerInterface(methodName: string, learnerType: string): (ws: seq<Warning>)
    ensures |ws| == 1 && ws[0].category == LearnerInterfaceWarning
    ensures ws[0].message == LearnerInterfaceMsg(methodName, learnerType)
  {
    [Warning(LearnerInterfaceWarning, LearnerInterfaceMsg(methodName, learnerType))]
  }

  // ---------------------------------------------------------------------
  // The warning accumulator
  // ---------------------------------------------------------------------

  /** The module-level list of warning messages collected for `summary`. */
  class WarningAccumulator {
    var messages: seq<string>

    constructor()
      ensures messages == []
    {
      messages := [];
    }

    /** `accumulate_warning`: append at the end. */
    method Accumulate(message: string)
      modifies this
      ensures messages == old(messages) + [message]
    {
      messages := messages + [message];
    }

    /** `get_accumulated_warnings`: a copy of the messages; the copy is a
        value, so later changes to it cannot reach the accumulator. */
    method Get() returns (copy: seq<string>)
      ensures copy == messages
    {
      copy := messages;
    }

    /** `clear_accumulated_warnings`: start over with an empty list. */
    method Clear()
      modifies this
      ensures messages == []
    {
      messages := [];
    }
  }

  /** Messages come back in the order they were accumulated, and a get
      after a clear returns the empty list. */
  method AccumulatorRoundTrip(acc: WarningAccumulator, m1: string, m2: string)
    returns (before: seq<string>, after: seq<string>)
    modifies acc
    ensures before == old(acc.messages) + [m1, m2]
    ensures after == [] && acc.messages == []
  {
    acc.Accumulate(m1);
    acc.Accumulate(m2);
    before := acc.Get();
    acc.Clear();
    after := acc.Get();
  }
}

/** The assumption metadata attached to each estimator class: a constant
    table from estimator names to lists of causal assumptions, the lookup
    that defaults to the empty list, and the dict form of one assumption. */
module Assumptions {
  import opened Common

  datatype Category =
    | Consistency
    | NoUnmeasuredConfounding
    | Positivity
    | CausalDiagram
    | FunctionForm
    | Independence
    | StableUnitTreatmentValue
    | NoInterference

  /** The enum's string value. */
  function CategoryValue(c: Category): string
  {
    match c
    case Consistency => "consistency"
    case NoUnmeasuredConfounding => "no_unmeasured_confounding"
    case Positivity => "positivity"
    case CausalDiagram => "causal_diagram"
    case FunctionForm => "function_form"
    case Independence => "independence"
    case StableUnitTreatmentValue => "sutva"
    case NoInterference => "no_interference"
  }

  /** `AssumptionCategory(value)`: the member with that value, if any. */
  function CategoryFromValue(v: string): (r: Option<Category>)
    ensures r.Some? ==> CategoryValue(r.value) == v
  {
    if v == "consistency" then Some(Consistency)
    else if v == "no_unmeasured_confounding" then Some(NoUnmeasuredConfounding)
    else if v == "positivity" then Some(Positivity)
    else if v == "causal_diagram" then Some(CausalDiagram)
    else if v == "function_form" then Some(FunctionForm)
    else if v == "independence" then Some(Independence)
    else if v == "sutva" then Some(StableUnitTreatmentValue)
    else if v == "no_interference" then Some(NoInterference)
    else None
  }

  /** Every category's value names it back: the values are distinct. */
  lemma CategoryValueRoundTrip(c: Category)
    ensures CategoryFromValue(CategoryValue(c)) == Some(c)
  {
    match c
    case Consistency =>
    case NoUnmeasuredConfounding =>
    case Positivity =>
    case CausalDiagram =>
    case FunctionForm =>
    case Independence =>
    case StableUnitTreatmentValue =>
      assert CategoryValue(c) != "consistency";
    case NoInterference =>
  }

  datatype Assumption = Assumption(
    name: string,
    category: Category,
    description: string,
    isTestable: bool,
    isAutomaticallyValidated: bool)

  /** A value of the dict `to_dict` returns. */
  datatype Field = Text(s: string) | Flag(b: bool)

  const DictKeys: set<string> := {"name", "category", "description", "is_testable", "is_automatically_validated"}

  /** `Assumption.to_dict`: five keys, the category by its string value. */
  function ToDict(a: Assumption): (d: map<string, Field>)
    ensures d.Keys == DictKeys
    ensures d["category"].Text? && CategoryFromValue(d["category"].s) == Some(a.category)
  {
    CategoryValueRoundTrip(a.category);
    map[
      "name" := Text(a.name),
      "category" := Text(CategoryValue(a.category)),
      "description" := Text(a.description),
      "is_testable" := Flag(a.isTestable),
      "is_automatically_validated" := Flag(a.isAutomaticallyValidated)]
  }

  /** Reading an assumption back from its dict. */
  function FromDict(d: map<string, Field>): Option<Assumption>
  {
    if DictKeys <= d.Keys && d["name"].Text? && d["category"].Text? && d["description"].Text? &&
       d["is_testable"].Flag? && d["is_automatically_validated"].Flag? &&
       CategoryFromValue(d["category"].s).Some?
    then
      Some(Assumption(d["name"].s, CategoryFromValue(d["category"].s).value, d["description"].s,
        d["is_testable"].b, d["is_automatically_validated"].b))
    else None
  }

  /** `to_dict` loses nothing: the assumption can be read back from it. */
  lemma ToDictRoundTrip(a: Assumption)
    ensures FromDict(ToDict(a)) == Some(a)
  {
    var d := ToDict(a);
    CategoryValueRoundTrip(a.category);
    assert d["category"] == Text(CategoryValue(a.category));
  }

  // ---------------------------------------------------------------------
  // The standard assumptions
  // ---------------------------------------------------------------------

  const ConfoundersObserved := "All confounders that affect both treatment and outcome are observed in X"
  const PositiveProbability := "All treatment groups have positive probability in all strata of X"
  const WellDefinedTreatment := "The treatment value is well-defined and does not vary across observations"
  const NoInterferenceText := "No interference: treatment assignment of one unit does not affect outcomes of others"

  const NoUnmeasured := Assumption("No Unmeasured Confounding", NoUnmeasuredConfounding, ConfoundersObserved, false, false)
  const PositivityOverlap := Assumption("Positivity (Overlap)", Positivity, PositiveProbability, true, true)
  const ConsistencyAssumption := Assumption("Consistency", Consistency, WellDefinedTreatment, false, false)
  const Sutva := Assumption("SUTVA", StableUnitTreatmentValue, NoInterferenceText, false, false)

  const IpwAssumptions: seq<Assumption> := [NoUnmeasured, PositivityOverlap, ConsistencyAssumption, Sutva]

  const StandardizationAssumptions: seq<Assumption> := [
    NoUnmeasured,
    ConsistencyAssumption,
    Assumption("Correct Model Specification", FunctionForm,
      "The outcome model correctly specifies the relationship between X, A, and Y", true, false),
    Sutva]

  const DoublyRobustAssumptions: seq<Assumption> := [
    Assumption("No Unmeasured Confounding (Weak)", NoUnmeasuredConfounding,
      "Either propensity model OR outcome model is correctly specified (not both required)", false, false),
    PositivityOverlap,
    ConsistencyAssumption,
    Sutva]

  const MatchingAssumptions: seq<Assumption> := [
    NoUnmeasured,
    ConsistencyAssumption,
    Sutva,
    Assumption("Good Overlap on Matched Features", Positivity,
      "After matching, treatment groups have similar covariate distributions", true, false)]

  const RLearnerAssumptions: seq<Assumption> := [
    NoUnmeasured,
    ConsistencyAssumption,
    Sutva,
    Assumption("Honest Samples (Causal Forest)", Independence,
      "Honest splitting ensures valid confidence intervals and avoids overfitting", false, false)]

  const XLearnerAssumptions: seq<Assumption> := [NoUnmeasured, ConsistencyAssumption, Sutva]

  const TmleAssumptions: seq<Assumption> := [
    NoUnmeasured,
    PositivityOverlap,
    ConsistencyAssumption,
    Sutva,
    Assumption("Correct Model Specification", FunctionForm,
      "The outcome model and propensity model are correctly specified", true, false)]

  // ---------------------------------------------------------------------
  // The table
  // ---------------------------------------------------------------------

  /** The entries of the dict literal, in the order written; the name
      `WeightedStandardization` occurs twice. */
  const Entries: seq<(string, seq<Assumption>)> := [
    ("IPW", IpwAssumptions),
    ("WeightedStandardization", IpwAssumptions),
    ("OverlapWeights", IpwAssumptions),
    ("Standardization", StandardizationAssumptions),
    ("AIPW", DoublyRobustAssumptions),
    ("PropensityFeatureStandardization", DoublyRobustAssumptions),
    ("WeightedStandardization", DoublyRobustAssumptions),
    ("MatchEstimator", MatchingAssumptions),
    ("RLearner", RLearnerAssumptions),
    ("XLearner", XLearnerAssumptions),
    ("TMLE", TmleAssumptions)]

  /** Building a dict from a literal: entries are inserted in order, so a
      repeated key keeps the value of its last occurrence. */
  function Table<V>(entries: seq<(string, V)>): (m: map<string, V>)
    ensures forall k :: k in m ==> exists i :: 0 <= i < |entries| && entries[i] == (k, m[k])
  {
    if entries == [] then map[]
    else
      var prefix := entries[..|entries| - 1];
      var last := entries[|entries| - 1];
      var m := Table(prefix)[last.0 := last.1];
      assert forall k :: k in m ==> exists i :: 0 <= i < |entries| && entries[i] == (k, m[k]) by {
        forall k | k in m
          ensures exists i :: 0 <= i < |entries| && entries[i] == (k, m[k])
        {
          if k == last.0 {
            assert entries[|entries| - 1] == (k, m[k]);
          } else {
            var i :| 0 <= i < |prefix| && prefix[i] == (k, Table(prefix)[k]);
            assert entries[i] == (k, m[k]);
          }
        }
      }
      m
  }

  /** Every key of the literal is in the dict, and nothing else is. */
  lemma {:induction false} TableKeys<V>(entries: seq<(string, V)>, k: string)
    ensures k in Table(entries) <==> exists i :: 0 <= i < |entries| && entries[i].0 == k
  {
    if entries != [] {
      var prefix := entries[..|entries| - 1];
      TableKeys(prefix, k);
      if exists i :: 0 <= i < |entries| && entries[i].0 == k {
        var i :| 0 <= i < |entries| && entries[i].0 == k;
        if i < |prefix| {
          assert prefix[i].0 == k;
        }
      }
      if exists i :: 0 <= i < |prefix| && prefix[i].0 == k {
        var i :| 0 <= i < |prefix| && prefix[i].0 == k;
        assert entries[i].0 == k;
      }
    }
  }

  /** The value of a key is the one of its last occurrence. */
  lemma {:induction false} TableLastWins<V>(entries: seq<(string, V)>, i: nat)
    requires i < |entries|
    requires forall j :: i < j < |entries| ==> entries[j].0 != entries[i].0
    ensures entries[i].0 in Table(entries) && Table(entries)[entries[i].0] == entries[i].1
  {
    var prefix := entries[..|entries| - 1];
    if i < |prefix| {
      assert forall j :: i < j < |prefix| ==> prefix[j] == entries[j];
      TableLastWins(prefix, i);
      assert prefix[i] == entries[i];
    }
  }

  const EstimatorAssumptions: map<string, seq<Assumption>> := Table(Entries)

  /** `get_assumptions_for_estimator`: the table's list, or [] for a name
      the table does not know. */
  function GetAssumptionsForEstimator(estimatorClassName: string): (r: seq<Assumption>)
    ensures estimatorClassName !in EstimatorAssumptions ==> r == []
    ensures estimatorClassName in EstimatorAssumptions ==> r == EstimatorAssumptions[estimatorClassName]
  {
    if estimatorClassName in EstimatorAssumptions then EstimatorAssumptions[estimatorClassName] else []
  }

  /** The lists the table can hold. */
  predicate IsStandardList(l: seq<Assumption>)
  {
    l == IpwAssumptions || l == StandardizationAssumptions || l == DoublyRobustAssumptions ||
    l == MatchingAssumptions || l == RLearnerAssumptions || l == XLearnerAssumptions || l == TmleAssumptions
  }

  /** The names the dict literal mentions. */
  const EstimatorNames: set<string> := {"IPW", "WeightedStandardization", "OverlapWeights", "Standardization",
    "AIPW", "PropensityFeatureStandardization", "MatchEstimator", "RLearner", "XLearner", "TMLE"}

  /** The table's names, and every name's list is one of the standard ones. */
  lemma TableShape(name: string)
    ensures name in EstimatorAssumptions <==> name in EstimatorNames
    ensures name in EstimatorAssumptions ==> IsStandardList(EstimatorAssumptions[name])
  {
    TableKeys(Entries, name);
    EntryNamesKnown();
    if name in EstimatorNames {
      NamesHaveEntries(name);
    }
    if name in EstimatorAssumptions {
      var i :| 0 <= i < |Entries| && Entries[i] == (name, EstimatorAssumptions[name]);
      EntryListsStandard(i);
    }
  }

  /** Every name of the literal is one of the estimator names. */
  lemma EntryNamesKnown()
    ensures forall i :: 0 <= i < |Entries| ==> Entries[i].0 in EstimatorNames
  {
  }

  /** Every estimator name occurs in the literal. */
  lemma NamesHaveEntries(name: string)
    requires name in EstimatorNames
    ensures exists i :: 0 <= i < |Entries| && Entries[i].0 == name
  {
    if name == "IPW" {
      assert Entries[0].0 == name;
    } else if name == "WeightedStandardization" {
      assert Entries[1].0 == name;
    } else if name == "OverlapWeights" {
      assert Entries[2].0 == name;
    } else if name == "Standardization" {
      assert Entries[3].0 == name;
    } else if name == "AIPW" {
      assert Entries[4].0 == name;
    } else if name == "PropensityFeatureStandardization" {
      assert Entries[5].0 == name;
    } else if name == "MatchEstimator" {
      assert Entries[7].0 == name;
    } else if name == "RLearner" {
      assert Entries[8].0 == name;
    } else if name == "XLearner" {
      assert Entries[9].0 == name;
    } else {
      assert Entries[10].0 == name;
    }
  }

  /** Every list of the literal is one of the standard lists. */
  lemma EntryListsStandard(i: nat)
    requires i < |Entries|
    ensures IsStandardList(Entries[i].1)
  {
  }

  /** A name the table does not know gets no assumptions. */
  lemma UnknownEstimatorHasNone(name: string)
    requires name !in EstimatorNames
    ensures GetAssumptionsForEstimator(name) == []
  {
    TableShape(name);
  }

  /** IPW: No Unmeasured Confounding, Positivity, Consistency, SUTVA, in
      that order; OverlapWeights shares the list. */
  lemma IpwList()
    ensures GetAssumptionsForEstimator("IPW") == IpwAssumptions
    ensures |IpwAssumptions| == 4
    ensures IpwAssumptions[0].name == "No Unmeasured Confounding" && IpwAssumptions[1].name == "Positivity (Overlap)"
    ensures IpwAssumptions[2].name == "Consistency" && IpwAssumptions[3].name == "SUTVA"
    ensures GetAssumptionsForEstimator("OverlapWeights") == IpwAssumptions
  {
    EntryWins(0);
    EntryWins(2);
  }

  /** The later `WeightedStandardization` entry wins, and AIPW and
      PropensityFeatureStandardization are doubly robust too. */
  lemma DoublyRobustEntries()
    ensures GetAssumptionsForEstimator("WeightedStandardization") == DoublyRobustAssumptions
    ensures GetAssumptionsForEstimator("WeightedStandardization") != IpwAssumptions
    ensures GetAssumptionsForEstimator("AIPW") == DoublyRobustAssumptions
    ensures GetAssumptionsForEstimator("PropensityFeatureStandardization") == DoublyRobustAssumptions
  {
    EntryWins(4);
    EntryWins(5);
    EntryWins(6);
    assert DoublyRobustAssumptions[0] != IpwAssumptions[0];
  }

  /** The entries whose name does not occur again later in the literal:
      each of them decides its name's list. */
  lemma EntryWins(i: nat)
    requires i in {0, 2, 3, 4, 5, 6, 7, 8, 9, 10}
    ensures Entries[i].0 in EstimatorAssumptions && EstimatorAssumptions[Entries[i].0] == Entries[i].1
  {
    LaterNamesDiffer(i);
    TableLastWins(Entries, i);
  }

  /** Only `WeightedStandardization` (entry 1) is repeated. */
  lemma LaterNamesDiffer(i: nat)
    requires i in {0, 2, 3, 4, 5, 6, 7, 8, 9, 10}
    ensures forall j :: i < j < |Entries| ==> Entries[j].0 != Entries[i].0
  {
  }

  /** The overlap assumption of the IPW, doubly-robust and TMLE lists is
      testable and checked automatically; Matching's is testable only. */
  lemma PositivityFlags()
    ensures forall l: seq<Assumption> :: l in {IpwAssumptions, DoublyRobustAssumptions, TmleAssumptions} ==>
      l[1].category == Positivity && l[1].isTestable && l[1].isAutomaticallyValidated
    ensures MatchingAssumptions[3].category == Positivity
    ensures MatchingAssumptions[3].isTestable && !MatchingAssumptions[3].isAutomaticallyValidated
  {
  }

  /** Over the whole table: nothing is validated automatically unless it is
      testable, and every list holds Consistency and SUTVA. */
  lemma TableInvariants(name: string)
    ensures forall a :: a in GetAssumptionsForEstimator(name) ==> a.isAutomaticallyValidated ==> a.isTestable
    ensures name in EstimatorAssumptions ==>
      ConsistencyAssumption in GetAssumptionsForEstimator(name) && Sutva in GetAssumptionsForEstimator(name)
  {
    TableShape(name);
    if name in EstimatorAssumptions {
      var l := EstimatorAssumptions[name];
      assert ConsistencyAssumption == l[1] || ConsistencyAssumption == l[2];
      assert Sutva == l[2] || Sutva == l[3];
    }
  }
}

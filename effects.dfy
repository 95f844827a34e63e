/** The effect calculator shared by every estimator: validation of the
    effect-type tags, the difference, ratio and odds-ratio calculators, and
    `calculate_effect`, which fills one result per requested type. */
module Effects {
  import opened Common

  // ---------------------------------------------------------------------
  // Effect types
  // ---------------------------------------------------------------------

  datatype EffectType = Diff | Ratio | OddsRatio

  /** The string tag of each effect type ('diff', 'ratio', 'or'). */
  function Tag(t: EffectType): string
  {
    match t
    case Diff => "diff"
    case Ratio => "ratio"
    case OddsRatio => "or"
  }

  const ValidTags: set<string> := {"diff", "ratio", "or"}

  function Parse(tag: string): (r: Option<EffectType>)
    ensures r.Some? <==> tag in ValidTags
    ensures r.Some? ==> Tag(r.value) == tag
  {
    if tag == "diff" then Some(Diff)
    else if tag == "ratio" then Some(Ratio)
    else if tag == "or" then Some(OddsRatio)
    else None
  }

  /** Tags are distinct, so parsing a tag gives its type back. */
  lemma ParseTag(t: EffectType)
    ensures Parse(Tag(t)) == Some(t)
  {
  }

  /** The `effect_types` argument: one string, or a list of strings. */
  datatype EffectTypeArg = OneTag(tag: string) | TagList(tags: seq<string>)

  function TagsOf(arg: EffectTypeArg): (tags: seq<string>)
    ensures arg.OneTag? ==> tags == [arg.tag]
  {
    match arg
    case OneTag(tag) => [tag]
    case TagList(tags) => tags
  }

  /** Why a single calculator failed. */
  datatype CalcFailure =
    | ZeroDenominator                  // ratio with a zero in outcome_2
    | ProbabilityOutOfRange(name: string) // odds ratio input outside [0, 1]
    | DivisionByZero                   // odds ratio at an input of exactly 0 or 1

  /** The `ValueError`s of this module. */
  datatype EffectError =
    | InvalidEffectTypes(invalid: set<string>)
    | CalculationFailed(effectType: EffectType, cause: CalcFailure)
    | NoObjectsToConcatenate

  function InvalidTags(tags: seq<string>): set<string>
  {
    set s | s in tags && s !in ValidTags
  }

  /** `EffectType.validate`: a single string becomes a one-element list,
      the order (and any repetition) of the list is kept, and any tag
      outside {diff, ratio, or} fails, naming every invalid tag. */
  function Validate(arg: EffectTypeArg): (r: Result<seq<EffectType>, EffectError>)
    ensures r.Ok? <==> forall s :: s in TagsOf(arg) ==> s in ValidTags
    ensures r.Ok? ==> |r.value| == |TagsOf(arg)|
    ensures r.Ok? ==> forall i :: 0 <= i < |r.value| ==> Tag(r.value[i]) == TagsOf(arg)[i]
    ensures r.Err? ==> r.error == InvalidEffectTypes(InvalidTags(TagsOf(arg))) && r.error.invalid != {}
  {
    var tags := TagsOf(arg);
    var invalid := InvalidTags(tags);
    if invalid != {} then
      Err(InvalidEffectTypes(invalid))
    else
      assert forall s :: s in tags ==> s in ValidTags by {
        forall s | s in tags ensures s in ValidTags {
          assert s !in invalid;
        }
      }
      Ok(seq(|tags|, i requires 0 <= i < |tags| => Parse(tags[i]).value))
  }

  // ---------------------------------------------------------------------
  // Outcomes and the three calculators
  // ---------------------------------------------------------------------

  datatype Entry = Entry(key: Key, value: real)

  /** A potential outcome: a scalar (population level) or a labelled
      vector (individual level). */
  datatype Outcome = Scalar(x: real) | Vector(entries: seq<Entry>)

  /** Inputs of matching shape: two scalars, or two vectors over the same
      index in the same order. */
  predicate SameShape(o1: Outcome, o2: Outcome)
  {
    (o1.Scalar? && o2.Scalar?) ||
    (o1.Vector? && o2.Vector? && |o1.entries| == |o2.entries| &&
     forall i :: 0 <= i < |o1.entries| ==> o1.entries[i].key == o2.entries[i].key)
  }

  /** The values of an outcome, a scalar counting as one value. */
  function ValuesOf(o: Outcome): (vs: seq<real>)
    ensures o.Scalar? ==> vs == [o.x]
    ensures o.Vector? ==> |vs| == |o.entries| && forall i :: 0 <= i < |vs| ==> vs[i] == o.entries[i].value
  {
    match o
    case Scalar(x) => [x]
    case Vector(es) => seq(|es|, i requires 0 <= i < |es| => es[i].value)
  }

  /** Apply `f` to matching elements of two outcomes of the same shape. */
  function Pointwise(o1: Outcome, o2: Outcome, f: (real, real) -> real): (r: Outcome)
    requires SameShape(o1, o2)
    ensures SameShape(r, o1) && SameShape(r, o2)
    ensures |ValuesOf(r)| == |ValuesOf(o1)|
    ensures forall i :: 0 <= i < |ValuesOf(r)| ==> ValuesOf(r)[i] == f(ValuesOf(o1)[i], ValuesOf(o2)[i])
  {
    match o1
    case Scalar(x) => Scalar(f(x, o2.x))
    case Vector(es) =>
      Vector(seq(|es|, i requires 0 <= i < |es| => Entry(es[i].key, f(es[i].value, o2.entries[i].value))))
  }

  /** `_effect_diff`: `outcome_1 - outcome_2`, element by element. */
  function EffectDiff(o1: Outcome, o2: Outcome): (r: Outcome)
    requires SameShape(o1, o2)
    ensures SameShape(r, o1)
    ensures forall i :: 0 <= i < |ValuesOf(r)| ==> ValuesOf(r)[i] + ValuesOf(o2)[i] == ValuesOf(o1)[i]
  {
    Pointwise(o1, o2, (a, b) => a - b)
  }

  /** Swapping the arguments of the difference negates it. */
  lemma DiffAntisymmetric(o1: Outcome, o2: Outcome)
    requires SameShape(o1, o2)
    ensures SameShape(o2, o1)
    ensures |ValuesOf(EffectDiff(o2, o1))| == |ValuesOf(EffectDiff(o1, o2))|
    ensures forall i :: 0 <= i < |ValuesOf(EffectDiff(o1, o2))| ==>
              ValuesOf(EffectDiff(o2, o1))[i] == -ValuesOf(EffectDiff(o1, o2))[i]
  {
  }

  predicate HasZero(o: Outcome)
  {
    exists i :: 0 <= i < |ValuesOf(o)| && ValuesOf(o)[i] == 0.0
  }

  /** `_effect_ratio`: fails when the denominator is a zero scalar or holds
      any zero element; otherwise the element-wise quotient. */
  function EffectRatio(o1: Outcome, o2: Outcome): (r: Result<Outcome, CalcFailure>)
    requires SameShape(o1, o2)
    ensures r.Err? <==> HasZero(o2)
    ensures r.Err? ==> r.error == ZeroDenominator
    ensures r.Ok? ==> (SameShape(r.value, o1) &&
      forall i :: 0 <= i < |ValuesOf(r.value)| ==> ValuesOf(r.value)[i] * ValuesOf(o2)[i] == ValuesOf(o1)[i])
  {
    if HasZero(o2) then Err(ZeroDenominator)
    else Ok(Pointwise(o1, o2, (a, b) => if b == 0.0 then 0.0 else a / b))
  }

  predicate InUnitInterval(o: Outcome)
  {
    forall i :: 0 <= i < |ValuesOf(o)| ==> 0.0 <= ValuesOf(o)[i] <= 1.0
  }

  function Odds(p: real): real
    requires p != 1.0
  {
    p / (1.0 - p)
  }

  /** The odds ratio of two probabilities, where it is defined. */
  function OddsRatioOf(p1: real, p2: real): real
    requires p1 != 1.0 && p2 != 1.0 && p2 != 0.0
  {
    Odds(p1) / Odds(p2)
  }

  /** The inputs at which some division in the odds ratio is by zero:
      `1 - outcome_1`, `1 - outcome_2` or `odds_2` is zero. */
  predicate OddsSingular(o1: Outcome, o2: Outcome)
  {
    (exists i :: 0 <= i < |ValuesOf(o1)| && ValuesOf(o1)[i] == 1.0) ||
    (exists i :: 0 <= i < |ValuesOf(o2)| && (ValuesOf(o2)[i] == 1.0 || ValuesOf(o2)[i] == 0.0))
  }

  /** `_effect_odds_ratio`: both inputs are checked against [0, 1] first
      (outcome_1, then outcome_2); then `(o1/(1-o1)) / (o2/(1-o2))`, which
      divides by zero when outcome_1 is 1 or outcome_2 is 0 or 1. */
  function EffectOddsRatio(o1: Outcome, o2: Outcome): (r: Result<Outcome, CalcFailure>)
    requires SameShape(o1, o2)
    ensures !InUnitInterval(o1) ==> r == Err(ProbabilityOutOfRange("outcome_1"))
    ensures InUnitInterval(o1) && !InUnitInterval(o2) ==> r == Err(ProbabilityOutOfRange("outcome_2"))
    ensures r.Ok? <==> InUnitInterval(o1) && InUnitInterval(o2) && !OddsSingular(o1, o2)
    ensures r.Ok? ==> (SameShape(r.value, o1) &&
      forall i :: 0 <= i < |ValuesOf(r.value)| ==>
        ValuesOf(o1)[i] != 1.0 && ValuesOf(o2)[i] != 1.0 && ValuesOf(o2)[i] != 0.0 &&
        ValuesOf(r.value)[i] == OddsRatioOf(ValuesOf(o1)[i], ValuesOf(o2)[i]))
  {
    if !InUnitInterval(o1) then Err(ProbabilityOutOfRange("outcome_1"))
    else if !InUnitInterval(o2) then Err(ProbabilityOutOfRange("outcome_2"))
    else if OddsSingular(o1, o2) then Err(DivisionByZero)
    else
      Ok(Pointwise(o1, o2, (a, b) => if a == 1.0 || b == 1.0 || b == 0.0 then 0.0 else OddsRatioOf(a, b)))
  }

  /** The odds of a probability in (0, 1) are positive. */
  lemma OddsPositive(p: real)
    requires 0.0 < p < 1.0
    ensures Odds(p) > 0.0
  {
    var q := Odds(p);
    assert q * (1.0 - p) == p;
  }

  /** Swapping the two probabilities inverts the odds ratio. */
  lemma OddsRatioReciprocal(p1: real, p2: real)
    requires 0.0 < p1 < 1.0 && 0.0 < p2 < 1.0
    ensures OddsRatioOf(p1, p2) * OddsRatioOf(p2, p1) == 1.0
  {
    var a, b := Odds(p1), Odds(p2);
    OddsPositive(p1);
    OddsPositive(p2);
    var q1, q2 := a / b, b / a;
    assert q1 * b == a && q2 * a == b;
    assert (q1 * q2) * (a * b) == (q1 * b) * (q2 * a);
    assert (q1 * q2 - 1.0) * (a * b) == 0.0;
    assert a * b > 0.0;
  }

  /** Equal probabilities have odds ratio 1; a larger first probability
      gives an odds ratio above 1. */
  lemma OddsRatioOrder(p1: real, p2: real)
    requires 0.0 < p1 < 1.0 && 0.0 < p2 < 1.0
    ensures p1 == p2 ==> OddsRatioOf(p1, p2) == 1.0
    ensures p1 > p2 ==> OddsRatioOf(p1, p2) > 1.0
  {
    var a, b := Odds(p1), Odds(p2);
    OddsPositive(p2);
    if p1 > p2 {
      assert p1 * (1.0 - p2) > p2 * (1.0 - p1) by {
        assert p1 * (1.0 - p2) - p2 * (1.0 - p1) == p1 - p2;
      }
      assert a > b by {
        DivMonotone(p1, 1.0 - p1, p2, 1.0 - p2);
      }
      assert a / b > 1.0 by {
        DivAbove(a, b, 1.0);
      }
    }
  }

  /** `x/y > u/v` for positive denominators when `x*v > u*y`. */
  lemma DivMonotone(x: real, y: real, u: real, v: real)
    requires y > 0.0 && v > 0.0 && x * v > u * y
    ensures x / y > u / v
  {
    var q1, q2 := x / y, u / v;
    assert x == q1 * y && u == q2 * v;
    assert q1 * y * v > q2 * v * y;
    assert (q1 - q2) * (y * v) > 0.0;
    assert y * v > 0.0;
  }

  /** `_EFFECT_CALCULATORS[t](outcome_1, outcome_2)`. */
  function Calculate(t: EffectType, o1: Outcome, o2: Outcome): (r: Result<Outcome, CalcFailure>)
    requires SameShape(o1, o2)
    ensures r.Ok? ==> SameShape(r.value, o1)
    ensures t == Diff ==> r == Ok(EffectDiff(o1, o2))
    ensures t == Ratio ==> r == EffectRatio(o1, o2)
    ensures t == OddsRatio ==> r == EffectOddsRatio(o1, o2)
  {
    match t
    case Diff => Ok(EffectDiff(o1, o2))
    case Ratio => EffectRatio(o1, o2)
    case OddsRatio => EffectOddsRatio(o1, o2)
  }

  // ---------------------------------------------------------------------
  // calculate_effect
  // ---------------------------------------------------------------------

  /** Effects computed so far, keyed by type in insertion order (a dict). */
  type Results = seq<(EffectType, Outcome)>

  function KeysOf(res: Results): (ks: seq<EffectType>)
    ensures |ks| == |res|
    ensures forall i :: 0 <= i < |res| ==> ks[i] == res[i].0
  {
    seq(|res|, i requires 0 <= i < |res| => res[i].0)
  }

  /** `results[t] = v`: replace the value of an existing key in place, or
      append a new key at the end. */
  function Store(res: Results, t: EffectType, v: Outcome): (r: Results)
    ensures t in KeysOf(res) ==> KeysOf(r) == KeysOf(res)
    ensures t !in KeysOf(res) ==> KeysOf(r) == KeysOf(res) + [t]
    ensures forall i :: 0 <= i < |r| ==> r[i].1 == (if r[i].0 == t then v else res[i].1)
  {
    var replaced := seq(|res|, i requires 0 <= i < |res| => if res[i].0 == t then (t, v) else res[i]);
    if t in KeysOf(res) then replaced else replaced + [(t, v)]
  }

  /** Distinct types in order of first occurrence: the keys the dict ends
      up with. */
  function Dedup(ts: seq<EffectType>): (r: seq<EffectType>)
    ensures forall t :: t in r <==> t in ts
  {
    if ts == [] then []
    else
      var prev := Dedup(ts[..|ts| - 1]);
      assert forall t :: t in ts <==> t in ts[..|ts| - 1] || t == ts[|ts| - 1];
      if ts[|ts| - 1] in prev then prev else prev + [ts[|ts| - 1]]
  }

  /** The reference for the loop in `calculate_effect`, for any table of
      calculators: run them in the requested order; the first failure ends
      the run and is re-raised as a `ValueError` naming its effect type. */
  function Fill(ts: seq<EffectType>, calcs: EffectType -> Result<Outcome, CalcFailure>): Result<Results, EffectError>
  {
    if ts == [] then Ok([])
    else
      match Fill(ts[..|ts| - 1], calcs)
      case Err(e) => Err(e)
      case Ok(res) =>
        var t := ts[|ts| - 1];
        match calcs(t)
        case Err(c) => Err(CalculationFailed(t, c))
        case Ok(v) => Ok(Store(res, t, v))
  }

  /** `_EFFECT_CALCULATORS` applied to the two outcomes. */
  function Calculators(o1: Outcome, o2: Outcome): (calcs: EffectType -> Result<Outcome, CalcFailure>)
    requires SameShape(o1, o2)
    ensures forall t :: calcs(t) == Calculate(t, o1, o2)
  {
    t => Calculate(t, o1, o2)
  }

  /** The loop of `calculate_effect` with the library's calculators. */
  function FillResults(ts: seq<EffectType>, o1: Outcome, o2: Outcome): Result<Results, EffectError>
    requires SameShape(o1, o2)
  {
    Fill(ts, Calculators(o1, o2))
  }

  /** The formatted result: a Series keyed by effect type for scalar
      inputs, a DataFrame with one row per sample and one column per type
      for vector inputs. */
  datatype EffectTable =
    | PopulationEffect(effects: seq<(EffectType, real)>)
    | IndividualEffect(index: seq<Key>, columns: seq<(EffectType, seq<real>)>)

  function IndexOf(o: Outcome): seq<Key>
    requires o.Vector?
  {
    seq(|o.entries|, i requires 0 <= i < |o.entries| => o.entries[i].key)
  }

  /** `pd.Series(results)` or `pd.concat(results, axis="columns")`; the
      latter refuses an empty dict. */
  function Format(o1: Outcome, res: Results): Result<EffectTable, EffectError>
  {
    if o1.Scalar? then
      Ok(PopulationEffect(seq(|res|, i requires 0 <= i < |res| =>
        (res[i].0, if res[i].1.Scalar? then res[i].1.x else 0.0))))
    else if res == [] then Err(NoObjectsToConcatenate)
    else
      Ok(IndividualEffect(IndexOf(o1), seq(|res|, i requires 0 <= i < |res| => (res[i].0, ValuesOf(res[i].1)))))
  }

  /** The effects of an already validated list of types. */
  function EffectsFor(ts: seq<EffectType>, o1: Outcome, o2: Outcome): Result<EffectTable, EffectError>
    requires SameShape(o1, o2)
  {
    match FillResults(ts, o1, o2)
    case Err(e) => Err(e)
    case Ok(res) => Format(o1, res)
  }

  /** `calculate_effect`, as a function of its inputs. */
  function CalculateEffectSpec(o1: Outcome, o2: Outcome, arg: EffectTypeArg): Result<EffectTable, EffectError>
    requires SameShape(o1, o2)
  {
    match Validate(arg)
    case Err(e) => Err(e)
    case Ok(ts) => EffectsFor(ts, o1, o2)
  }

  /** `calculate_effect`: validate the tags, fill `results` one effect type
      at a time, and format the dict. */
  method CalculateEffect(o1: Outcome, o2: Outcome, arg: EffectTypeArg) returns (r: Result<EffectTable, EffectError>)
    requires SameShape(o1, o2)
    ensures r == CalculateEffectSpec(o1, o2, arg)
  {
    var validated := Validate(arg);
    if validated.Err? {
      return Err(validated.error);
    }
    var filled := FillResultsLoop(validated.value, o1, o2);
    if filled.Err? {
      return Err(filled.error);
    }
    r := Format(o1, filled.value);
  }

  /** The loop of `calculate_effect`: one calculator per requested type,
      stopping at the first failure. */
  method FillResultsLoop(ts: seq<EffectType>, o1: Outcome, o2: Outcome) returns (r: Result<Results, EffectError>)
    requires SameShape(o1, o2)
    ensures r == FillResults(ts, o1, o2)
  {
    var results: Results := [];
    var i := 0;
    while i < |ts|
      invariant 0 <= i <= |ts|
      invariant FillResults(ts[..i], o1, o2) == Ok(results)
    {
      var t := ts[i];
      var effect := Calculate(t, o1, o2);
      assert ts[..i + 1][..i] == ts[..i];
      if effect.Err? {
        assert FillResults(ts[..i + 1], o1, o2) == Err(CalculationFailed(t, effect.error));
        PrefixFailure(ts, i + 1, Calculators(o1, o2));
        return Err(CalculationFailed(t, effect.error));
      }
      assert FillResults(ts[..i + 1], o1, o2) == Ok(Store(results, t, effect.value));
      results := Store(results, t, effect.value);
      i := i + 1;
    }
    assert ts[..i] == ts;
    r := Ok(results);
  }

  lemma {:induction false} PrefixFailure(ts: seq<EffectType>, n: nat, calcs: EffectType -> Result<Outcome, CalcFailure>)
    requires n <= |ts| && Fill(ts[..n], calcs).Err?
    ensures Fill(ts, calcs) == Fill(ts[..n], calcs)
  {
    if n < |ts| {
      var init := ts[..|ts| - 1];
      assert init[..n] == ts[..n];
      PrefixFailure(init, n, calcs);
    } else {
      assert ts[..n] == ts;
    }
  }

  // ---------------------------------------------------------------------
  // What calculate_effect promises
  // ---------------------------------------------------------------------

  /** The run succeeds exactly when every requested calculator does; the
      dict then holds each distinct requested type once, in order of first
      request, with that calculator's value. */
  lemma FillResultsOk(ts: seq<EffectType>, o1: Outcome, o2: Outcome)
    requires SameShape(o1, o2)
    ensures FillResults(ts, o1, o2).Ok? <==> forall i :: 0 <= i < |ts| ==> Calculate(ts[i], o1, o2).Ok?
    ensures FillResults(ts, o1, o2).Ok? ==> (
      var res := FillResults(ts, o1, o2).value;
      KeysOf(res) == Dedup(ts) &&
      forall i :: 0 <= i < |res| ==> Calculate(res[i].0, o1, o2) == Ok(res[i].1))
  {
    var calcs := Calculators(o1, o2);
    FillOkIff(ts, calcs);
    if Fill(ts, calcs).Ok? {
      FillContents(ts, calcs);
    }
  }

  /** Success of the run is success of every calculator. */
  lemma {:induction false} FillOkIff(ts: seq<EffectType>, calcs: EffectType -> Result<Outcome, CalcFailure>)
    ensures Fill(ts, calcs).Ok? <==> forall i :: 0 <= i < |ts| ==> calcs(ts[i]).Ok?
  {
    if ts != [] {
      var init, t := ts[..|ts| - 1], ts[|ts| - 1];
      FillOkIff(init, calcs);
      if Fill(init, calcs).Err? {
        var j :| 0 <= j < |init| && !calcs(init[j]).Ok?;
        assert ts[j] == init[j];
      } else if calcs(t).Ok? {
        forall i | 0 <= i < |ts|
          ensures calcs(ts[i]).Ok?
        {
          if i < |init| {
            assert ts[i] == init[i];
          }
        }
      }
    }
  }

  /** A successful run holds the distinct requested types, each with its
      calculator's value. */
  lemma {:induction false} FillContents(ts: seq<EffectType>, calcs: EffectType -> Result<Outcome, CalcFailure>)
    requires Fill(ts, calcs).Ok?
    ensures var res := Fill(ts, calcs).value;
      KeysOf(res) == Dedup(ts) &&
      forall i :: 0 <= i < |res| ==> calcs(res[i].0) == Ok(res[i].1)
  {
    if ts != [] {
      var init, t := ts[..|ts| - 1], ts[|ts| - 1];
      FillContents(init, calcs);
      var res, v := Fill(init, calcs).value, calcs(t).value;
      var res' := Store(res, t, v);
      assert Fill(ts, calcs) == Ok(res');
      forall i | 0 <= i < |res'|
        ensures calcs(res'[i].0) == Ok(res'[i].1)
      {
        if res'[i].0 != t {
          assert KeysOf(res')[i] == res'[i].0;
          assert i < |res| && KeysOf(res)[i] == res[i].0;
        }
      }
    }
  }

  /** A failing run reports the first requested type whose calculator
      fails, with that calculator's reason. */
  lemma FillResultsFirstFailure(ts: seq<EffectType>, o1: Outcome, o2: Outcome)
    requires SameShape(o1, o2)
    requires FillResults(ts, o1, o2).Err?
    ensures exists k :: (0 <= k < |ts| &&
      Calculate(ts[k], o1, o2).Err? &&
      FillResults(ts, o1, o2).error == CalculationFailed(ts[k], Calculate(ts[k], o1, o2).error) &&
      forall j :: 0 <= j < k ==> Calculate(ts[j], o1, o2).Ok?)
  {
    var calcs := Calculators(o1, o2);
    var k := FirstFailure(ts, calcs);
    assert calcs(ts[k]) == Calculate(ts[k], o1, o2);
  }

  /** The position of the first failing calculator, which decides the
      error of the run. */
  lemma {:induction false} FirstFailure(ts: seq<EffectType>, calcs: EffectType -> Result<Outcome, CalcFailure>)
    returns (k: nat)
    requires Fill(ts, calcs).Err?
    ensures k < |ts| && calcs(ts[k]).Err?
    ensures Fill(ts, calcs).error == CalculationFailed(ts[k], calcs(ts[k]).error)
    ensures forall j :: 0 <= j < k ==> calcs(ts[j]).Ok?
  {
    var init := ts[..|ts| - 1];
    assert forall i :: 0 <= i < |init| ==> init[i] == ts[i];
    if Fill(init, calcs).Err? {
      k := FirstFailure(init, calcs);
    } else {
      FillOkIff(init, calcs);
      k := |ts| - 1;
    }
  }

  /** For scalar inputs the result has one value per distinct requested
      type, keyed by that type; any calculator failure surfaces as a
      `ValueError` naming the effect type. */
  lemma PopulationEffectShape(o1: Outcome, o2: Outcome, ts: seq<EffectType>)
    requires o1.Scalar? && o2.Scalar?
    ensures EffectsFor(ts, o1, o2).Ok? <==> forall i :: 0 <= i < |ts| ==> Calculate(ts[i], o1, o2).Ok?
    ensures EffectsFor(ts, o1, o2).Err? ==> EffectsFor(ts, o1, o2).error.CalculationFailed?
    ensures EffectsFor(ts, o1, o2).Ok? ==> (
      var table := EffectsFor(ts, o1, o2).value;
      table.PopulationEffect? && |table.effects| == |Dedup(ts)| &&
      forall i :: 0 <= i < |table.effects| ==>
        table.effects[i].0 == Dedup(ts)[i] && Calculate(Dedup(ts)[i], o1, o2) == Ok(Scalar(table.effects[i].1)))
  {
    FillResultsOk(ts, o1, o2);
    if FillResults(ts, o1, o2).Err? {
      FillResultsFirstFailure(ts, o1, o2);
    }
  }

  /** For vector inputs the result has one row per sample (the inputs'
      index) and one column per distinct requested type, holding that
      calculator's values. */
  lemma IndividualEffectShape(o1: Outcome, o2: Outcome, ts: seq<EffectType>)
    requires SameShape(o1, o2) && o1.Vector? && ts != []
    requires forall t :: t in ts ==> Calculate(t, o1, o2).Ok?
    ensures EffectsFor(ts, o1, o2).Ok? && var table := EffectsFor(ts, o1, o2).value;
      table.IndividualEffect? && table.index == IndexOf(o1) &&
      |table.columns| == |Dedup(ts)| &&
      forall c :: 0 <= c < |table.columns| ==>
        table.columns[c].0 == Dedup(ts)[c] && |table.columns[c].1| == |o1.entries| &&
        table.columns[c].1 == ValuesOf(Calculate(Dedup(ts)[c], o1, o2).value)
  {
    FillResultsOk(ts, o1, o2);
    assert ts[0] in Dedup(ts);
  }

  /** `calculate_effect(0.3, 0.6, 'diff')` is a Series holding diff = -0.3. */
  lemma DiffExample()
    ensures CalculateEffectSpec(Scalar(0.3), Scalar(0.6), OneTag("diff")) == Ok(PopulationEffect([(Diff, -0.3)]))
  {
    assert forall s :: s in TagsOf(OneTag("diff")) ==> s in ValidTags;
    var ts := Validate(OneTag("diff")).value;
    assert |ts| == 1 && Tag(ts[0]) == "diff";
    assert ts == [Diff];
    assert ts[..0] == [];
    assert FillResults([], Scalar(0.3), Scalar(0.6)) == Ok([]);
    assert Calculate(Diff, Scalar(0.3), Scalar(0.6)) == Ok(Scalar(-0.3));
    assert Store([], Diff, Scalar(-0.3)) == [(Diff, Scalar(-0.3))];
    assert FillResults(ts, Scalar(0.3), Scalar(0.6)) == Ok([(Diff, Scalar(-0.3))]);
    var table := [(Diff, -0.3)];
    var effects := Format(Scalar(0.3), [(Diff, Scalar(-0.3))]).value.effects;
    assert |effects| == 1 && effects[0] == (Diff, -0.3);
    assert effects == table;
  }

  /** Asking for no effect type at all: an empty Series for scalars, but a
      `ValueError` from `pd.concat` for vectors. */
  lemma EmptyRequest(o1: Outcome, o2: Outcome)
    requires SameShape(o1, o2)
    ensures CalculateEffectSpec(o1, o2, TagList([])) ==
      if o1.Scalar? then Ok(PopulationEffect([])) else Err(NoObjectsToConcatenate)
  {
    assert Validate(TagList([])).Ok?;
    assert Validate(TagList([])).value == [];
    assert FillResults([], o1, o2) == Ok([]);
    if o1.Scalar? {
      assert |Format(o1, []).value.effects| == 0;
    }
  }

  // ---------------------------------------------------------------------
  // is_scalar_outcome
  // ---------------------------------------------------------------------

  /** The Python types an outcome argument can have. */
  datatype PyType = PyBool | PyInt | PyFloat | NumpyFloat | NumpyInt | NumpyBool | PandasSeries | PandasFrame | OtherType

  /** The classes `is_scalar_outcome` tests against. */
  datatype ScalarClass = IntClass | FloatClass | NumpyNumberClass

  /** `isinstance(value, cls)` for a value of type `k` (`bool` subclasses
      `int`; numpy's bool is not a numpy number; numpy's float64
      subclasses Python's float). */
  predicate IsInstance(k: PyType, cls: ScalarClass)
  {
    match cls
    case IntClass => k == PyBool || k == PyInt
    case FloatClass => k == PyFloat || k == NumpyFloat
    case NumpyNumberClass => k == NumpyFloat || k == NumpyInt
  }

  /** `is_scalar_outcome`: `isinstance(outcome, (int, float, np.number))`. */
  predicate IsScalarOutcome(k: PyType)
  {
    k in {PyBool, PyInt, PyFloat, NumpyFloat, NumpyInt}
  }

  /** The explicit list of scalar types agrees with the isinstance test. */
  lemma IsScalarOutcomeIsInstance(k: PyType)
    ensures IsScalarOutcome(k) <==>
      IsInstance(k, IntClass) || IsInstance(k, FloatClass) || IsInstance(k, NumpyNumberClass)
  {
  }

  /** The Python type of a modelled outcome. */
  function TypeOf(o: Outcome): PyType
  {
    if o.Scalar? then PyFloat else PandasSeries
  }

  /** `calculate_effect` formats as a Series of effects exactly when
      `is_scalar_outcome(outcome_1)` holds. */
  lemma FormatFollowsIsScalar(o1: Outcome, res: Results)
    ensures Format(o1, res).Ok? && Format(o1, res).value.PopulationEffect? <==> IsScalarOutcome(TypeOf(o1))
  {
  }
}

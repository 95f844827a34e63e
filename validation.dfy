/** The validation gate: guard functions that either return their inputs
    unchanged or raise one of the typed validation errors. Every error here
    is a `CausallibValidationError`, hence a `ValueError`. */
module Validation {
  import opened Common

  // ---------------------------------------------------------------------
  // Error taxonomy
  // ---------------------------------------------------------------------

  /** The exception classes of the validation layer and their base class. */
  datatype ErrorClass =
    | ValueError
    | CausallibValidationError
    | DataAlignmentError
    | TreatmentValueError
    | TaskTypeError
    | NotFittedError
    | PositivityViolationError
    | LearnerInterfaceError

  /** The direct base class; `ValueError` is the root of this hierarchy. */
  function Base(c: ErrorClass): Option<ErrorClass>
  {
    match c
    case ValueError => None
    case CausallibValidationError => Some(ValueError)
    case _ => Some(CausallibValidationError)
  }

  function Depth(c: ErrorClass): nat
  {
    match c
    case ValueError => 0
    case CausallibValidationError => 1
    case _ => 2
  }

  /** Python's `issubclass(c, ancestor)`: walk up the base classes. */
  predicate IsSubclass(c: ErrorClass, ancestor: ErrorClass)
    decreases Depth(c)
  {
    c == ancestor || (c != ValueError && IsSubclass(Base(c).value, ancestor))
  }

  /** Why a generic `CausallibValidationError` was raised. */
  datatype InputProblem =
    | XNotADataFrame
    | ANotASeries
    | YNotASeries
    | MissingTreatments(nMissing: nat)
    | ExcessiveMissingOutcome(pctMissing: real)
    | TooFewTreatmentValues(nUnique: nat)
    | PropensityOutOfRange(columnName: string)

  /** Why a `DataAlignmentError` was raised. */
  datatype AlignmentProblem =
    | LengthMismatch(expected: nat, got: nat)
    | IndexMismatch

  /** An exception raised by the validation layer, one variant per class. */
  datatype ValidationError =
    | InvalidInput(problem: InputProblem)
    | DataAlignment(alignment: AlignmentProblem)
    | TreatmentValue(unseen: set<Key>, missing: set<Key>)
    | TaskType
    | NotFitted(expected: seq<string>, missingAttrs: seq<string>, message: Option<string>)
    | PositivityViolation
    | LearnerInterface(learnerName: string, methodName: string)

  function ClassOf(e: ValidationError): ErrorClass
  {
    match e
    case InvalidInput(_) => CausallibValidationError
    case DataAlignment(_) => DataAlignmentError
    case TreatmentValue(_, _) => TreatmentValueError
    case TaskType => TaskTypeError
    case NotFitted(_, _, _) => NotFittedError
    case PositivityViolation => PositivityViolationError
    case LearnerInterface(_, _) => LearnerInterfaceError
  }

  /** Every class of the layer derives from `CausallibValidationError`
      and therefore from `ValueError`. */
  lemma EveryErrorIsValueError(e: ValidationError)
    ensures IsSubclass(ClassOf(e), CausallibValidationError)
    ensures IsSubclass(ClassOf(e), ValueError)
  {
    var c := ClassOf(e);
    if c != CausallibValidationError {
      assert Base(c) == Some(CausallibValidationError);
    }
    assert IsSubclass(CausallibValidationError, ValueError) by {
      assert Base(CausallibValidationError) == Some(ValueError);
    }
  }

  /** No class of the layer is a subclass of a sibling: a
      `DataAlignmentError` is not a `TreatmentValueError`, and so on. */
  lemma SiblingsAreUnrelated(c: ErrorClass, d: ErrorClass)
    requires Depth(c) == 2 && Depth(d) == 2 && c != d
    ensures !IsSubclass(c, d)
  {
    assert Base(c) == Some(CausallibValidationError);
    assert !IsSubclass(ValueError, d);
    assert !IsSubclass(CausallibValidationError, d);
  }

  /** A guard's verdict: pass, or the error it raises. */
  datatype Check = Pass | Fail(error: ValidationError)

  // ---------------------------------------------------------------------
  // Tabular inputs
  // ---------------------------------------------------------------------

  /** The covariate matrix X; only its row index matters to the checks. */
  datatype Covariates = CovariateFrame(index: seq<Key>) | NotAFrame

  /** One labelled entry of a pandas Series; `None` is a missing value. */
  datatype Row<T> = Row(key: Key, value: Option<T>)

  /** A pandas Series (labelled rows), or any object that is not one. */
  datatype Column<T> = Series(rows: seq<Row<T>>) | NotASeries

  function Index<T>(rows: seq<Row<T>>): (ix: seq<Key>)
    ensures |ix| == |rows|
    ensures forall i :: 0 <= i < |rows| ==> ix[i] == rows[i].key
  {
    seq(|rows|, i requires 0 <= i < |rows| => rows[i].key)
  }

  function Values<T>(rows: seq<Row<T>>): (vs: seq<Option<T>>)
    ensures |vs| == |rows|
    ensures forall i :: 0 <= i < |rows| ==> vs[i] == rows[i].value
  {
    seq(|rows|, i requires 0 <= i < |rows| => rows[i].value)
  }

  /** `check_X_a`: X must be a DataFrame, a a Series of the same length and
      the same index (same labels, same order), with no missing treatment.
      Length is checked before index equality. */
  function CheckXA(X: Covariates, a: Column<Key>): (r: Result<(Covariates, Column<Key>), ValidationError>)
    ensures r.Ok? ==> r.value == (X, a)
    ensures r.Ok? <==>
      X.CovariateFrame? && a.Series? && X.index == Index(a.rows) &&
      forall i :: 0 <= i < |a.rows| ==> a.rows[i].value.Some?
    ensures X.CovariateFrame? && a.Series? && |X.index| != |a.rows| ==>
      r == Err(DataAlignment(LengthMismatch(|X.index|, |a.rows|)))
    ensures X.CovariateFrame? && a.Series? && |X.index| == |a.rows| && X.index != Index(a.rows) ==>
      r == Err(DataAlignment(IndexMismatch))
    ensures r.Err? && r.error.InvalidInput? && r.error.problem.MissingTreatments? ==>
      r.error.problem.nMissing > 0
  {
    if !X.CovariateFrame? then Err(InvalidInput(XNotADataFrame))
    else if !a.Series? then Err(InvalidInput(ANotASeries))
    else if |X.index| != |a.rows| then Err(DataAlignment(LengthMismatch(|X.index|, |a.rows|)))
    else if X.index != Index(a.rows) then Err(DataAlignment(IndexMismatch))
    else if CountMissing(Values(a.rows)) > 0 then
      Err(InvalidInput(MissingTreatments(CountMissing(Values(a.rows)))))
    else Ok((X, a))
  }

  /** The outcome of `check_X_a_y`: the inputs, returned as they are, and
      whether the "missing outcomes" UserWarning was issued. */
  datatype CheckedXAY = CheckedXAY(X: Covariates, a: Column<Key>, y: Option<Column<real>>, warnsMissingOutcome: bool)

  /** Share of missing outcomes, in percent (`n_missing / len(y) * 100`). */
  function PctMissing(rows: seq<Row<real>>): real
    requires |rows| > 0
  {
    CountMissing(Values(rows)) as real / |rows| as real * 100.0
  }

  /** `check_X_a_y`: `check_X_a`, then, when y is given, its type, length
      and index against X, then its missing share: above 50% is an error,
      a share in (0%, 50%] only warns, none is silent. `y = None` skips
      every y check. */
  function CheckXAY(X: Covariates, a: Column<Key>, y: Option<Column<real>>): (r: Result<CheckedXAY, ValidationError>)
    ensures CheckXA(X, a).Err? ==> r == Err(CheckXA(X, a).error)
    ensures y.None? ==> (r.Ok? <==> CheckXA(X, a).Ok?)
    ensures r.Ok? ==> r.value.X == X && r.value.a == a && r.value.y == y
    ensures r.Ok? && r.value.warnsMissingOutcome ==>
      y.Some? && y.value.Series? && 0 < CountMissing(Values(y.value.rows)) &&
      PctMissing(y.value.rows) <= 50.0
    ensures r.Ok? <==>
      CheckXA(X, a).Ok? &&
      (y.Some? ==> (y.value.Series? && X.index == Index(y.value.rows) &&
                    !(CountMissing(Values(y.value.rows)) > 0 && PctMissing(y.value.rows) > 50.0)))
    ensures CheckXA(X, a).Ok? && y == Some(NotASeries) ==> r == Err(InvalidInput(YNotASeries))
    ensures CheckXA(X, a).Ok? && y.Some? && y.value.Series? && |y.value.rows| != |X.index| ==>
      r == Err(DataAlignment(LengthMismatch(|X.index|, |y.value.rows|)))
    ensures (CheckXA(X, a).Ok? && y.Some? && y.value.Series? && |y.value.rows| == |X.index| &&
             Index(y.value.rows) != X.index) ==>
      r == Err(DataAlignment(IndexMismatch))
    ensures CheckXA(X, a).Ok? && y.Some? && y.value.Series? && X.index == Index(y.value.rows) ==>
      && (r.Err? <==> CountMissing(Values(y.value.rows)) > 0 && PctMissing(y.value.rows) > 50.0)
      && (r.Err? ==> r.error == InvalidInput(ExcessiveMissingOutcome(PctMissing(y.value.rows))))
      && (r.Ok? ==> (r.value.warnsMissingOutcome <==> CountMissing(Values(y.value.rows)) > 0))
  {
    match CheckXA(X, a)
    case Err(e) => Err(e)
    case Ok(_) =>
      match y
      case None => Ok(CheckedXAY(X, a, y, false))
      case Some(NotASeries) => Err(InvalidInput(YNotASeries))
      case Some(Series(rows)) =>
        if |rows| != |X.index| then Err(DataAlignment(LengthMismatch(|X.index|, |rows|)))
        else if Index(rows) != X.index then Err(DataAlignment(IndexMismatch))
        else if CountMissing(Values(rows)) > 0 then
          if PctMissing(rows) > 50.0 then Err(InvalidInput(ExcessiveMissingOutcome(PctMissing(rows))))
          else Ok(CheckedXAY(X, a, y, true))
        else Ok(CheckedXAY(X, a, y, false))
  }

  /** At most half the outcomes missing, as a count: the 50% threshold
      says the same as `2 * n_missing <= n`. */
  lemma PctMissingThreshold(rows: seq<Row<real>>)
    requires |rows| > 0
    ensures PctMissing(rows) > 50.0 <==> 2 * CountMissing(Values(rows)) > |rows|
  {
    var m, n := CountMissing(Values(rows)) as real, |rows| as real;
    var q := m / n;
    assert PctMissing(rows) == q * 100.0;
    DivAbove(m, n, 0.5);
  }

  // ---------------------------------------------------------------------
  // Treatment values, fitted state, learner interface
  // ---------------------------------------------------------------------

  function SetOf(s: seq<Key>): (r: set<Key>)
    ensures forall x :: x in r <==> x in s
  {
    set x | x in s
  }

  /** `check_treatment_values_match`: a test-time value never seen in
      training always fails; without `allow_subset`, a training value
      absent at test time fails too. */
  function CheckTreatmentValuesMatch(train: seq<Key>, test: seq<Key>, allowSubset: bool): (r: Check)
    ensures r.Pass? <==> SetOf(test) <= SetOf(train) && (allowSubset || SetOf(train) <= SetOf(test))
    ensures r.Fail? ==> ClassOf(r.error) == TreatmentValueError
    ensures r.Fail? && r.error.unseen != {} ==> r.error.unseen == SetOf(test) - SetOf(train)
    ensures !(SetOf(test) <= SetOf(train)) ==> r == Fail(TreatmentValue(SetOf(test) - SetOf(train), {}))
  {
    var trainSet, testSet := SetOf(train), SetOf(test);
    var unseen := testSet - trainSet;
    EmptyDifference(testSet, trainSet);
    EmptyDifference(trainSet, testSet);
    if unseen != {} then Fail(TreatmentValue(unseen, {}))
    else if !allowSubset && trainSet - testSet != {} then Fail(TreatmentValue({}, trainSet - testSet))
    else Pass
  }

  lemma EmptyDifference(A: set<Key>, B: set<Key>)
    ensures A - B == {} <==> A <= B
  {
    if A - B == {} {
      forall x | x in A ensures x in B {
        assert x !in A - B;
      }
    }
  }

  /** Without `allow_subset` the check accepts exactly equal value sets. */
  lemma ExactMatchWithoutSubset(train: seq<Key>, test: seq<Key>)
    ensures CheckTreatmentValuesMatch(train, test, false).Pass? <==> SetOf(train) == SetOf(test)
  {
  }

  /** Allowing a subset never turns an accepted pair into a rejected one. */
  lemma SubsetModeIsWeaker(train: seq<Key>, test: seq<Key>)
    ensures CheckTreatmentValuesMatch(train, test, false).Pass? ==>
            CheckTreatmentValuesMatch(train, test, true).Pass?
  {
  }

  /** The `attributes` argument of `check_is_fitted`. */
  datatype AttributeSpec = DefaultAttributes | OneAttribute(name: string) | AttributeList(names: seq<string>)

  /** The attribute list actually checked: the defaults `learner_` and
      `treatment_values_`, a single string turned into a list, or the list. */
  function ExpectedAttributes(spec: AttributeSpec): (names: seq<string>)
    ensures spec.DefaultAttributes? ==> names == ["learner_", "treatment_values_"]
    ensures spec.OneAttribute? ==> names == [spec.name]
  {
    match spec
    case DefaultAttributes => ["learner_", "treatment_values_"]
    case OneAttribute(name) => [name]
    case AttributeList(names) => names
  }

  /** The attributes of `names` that the estimator lacks, in list order. */
  function Missing(names: seq<string>, present: set<string>): (r: seq<string>)
    ensures forall n :: n in r <==> n in names && n !in present
  {
    if names == [] then []
    else Missing(names[..|names| - 1], present) +
         (if names[|names| - 1] in present then [] else [names[|names| - 1]])
  }

  /** `check_is_fitted`: in "all" mode (the default) any absent attribute
      fails; in any other mode only the absence of every attribute fails. */
  function CheckIsFitted(present: set<string>, spec: AttributeSpec, msg: Option<string>, allOrAny: string): (r: Check)
    ensures allOrAny == "all" ==>
      (r.Pass? <==> forall n :: n in ExpectedAttributes(spec) ==> n in present)
    ensures allOrAny != "all" ==>
      (r.Pass? <==> exists n :: n in ExpectedAttributes(spec) && n in present)
    ensures r.Fail? ==> ClassOf(r.error) == NotFittedError && r.error.message == msg
  {
    var names := ExpectedAttributes(spec);
    var missing := Missing(names, present);
    if allOrAny == "all" then
      if missing != [] then
        assert missing[0] in missing;
        Fail(NotFitted(names, missing, msg))
      else Pass
    else
      if |missing| == |names| then
        assert forall n :: n in names ==> n !in present by {
          MissingAllAbsent(names, present);
        }
        Fail(NotFitted(names, missing, msg))
      else
        assert exists n :: n in names && n in present by {
          MissingShorter(names, present);
        }
        Pass
  }

  lemma {:induction false} MissingAllAbsent(names: seq<string>, present: set<string>)
    requires |Missing(names, present)| == |names|
    ensures forall n :: n in names ==> n !in present
  {
    if names != [] {
      var init := names[..|names| - 1];
      assert |Missing(init, present)| <= |init| by { MissingLength(init, present); }
      assert names[|names| - 1] !in present;
      MissingAllAbsent(init, present);
      assert forall n :: n in names ==> n in init || n == names[|names| - 1];
    }
  }

  lemma {:induction false} MissingShorter(names: seq<string>, present: set<string>)
    requires |Missing(names, present)| != |names|
    ensures exists n :: n in names && n in present
  {
    if names != [] {
      var init := names[..|names| - 1];
      var last := names[|names| - 1];
      assert last in names;
      if last !in present {
        MissingShorter(init, present);
        var n :| n in init && n in present;
        assert n in names;
      }
    }
  }

  lemma {:induction false} MissingLength(names: seq<string>, present: set<string>)
    ensures |Missing(names, present)| <= |names|
  {
    if names != [] {
      MissingLength(names[..|names| - 1], present);
    }
  }

  /** With no attribute to look for, "all" mode passes and "any" mode
      fails (Python's `all([])` is true, `any([])` is false). */
  lemma EmptyAttributeList(present: set<string>, msg: Option<string>)
    ensures CheckIsFitted(present, AttributeList([]), msg, "all").Pass?
    ensures CheckIsFitted(present, AttributeList([]), msg, "any").Fail?
  {
  }

  /** For a non-empty list, passing in "all" mode implies passing in
      "any" mode. */
  lemma AllModeImpliesAnyMode(present: set<string>, spec: AttributeSpec, msg: Option<string>)
    requires ExpectedAttributes(spec) != []
    ensures CheckIsFitted(present, spec, msg, "all").Pass? ==> CheckIsFitted(present, spec, msg, "any").Pass?
  {
    var names := ExpectedAttributes(spec);
    assert names[0] in names;
  }

  /** `check_learner_has_method`: a learner lacking the method raises
      `LearnerInterfaceError`, naming the learner by `learner_name` or, when
      that is absent or empty, by its class name. */
  function CheckLearnerHasMethod(learner: PyObject, methodName: string, learnerName: Option<string>): (r: Check)
    ensures r.Pass? <==> methodName in learner.attrs
    ensures r.Fail? ==> ClassOf(r.error) == LearnerInterfaceError && r.error.methodName == methodName
    ensures r.Fail? && (learnerName.None? || learnerName.value == "") ==>
      r.error.learnerName == learner.className
  {
    if methodName in learner.attrs then Pass
    else
      var name := if learnerName.Some? && learnerName.value != "" then learnerName.value else learner.className;
      Fail(LearnerInterface(name, methodName))
  }

  /** Distinct non-missing labels (pandas `nunique()`). */
  function DistinctValues(a: seq<Option<Key>>): set<Key>
  {
    set i | 0 <= i < |a| && a[i].Some? :: a[i].value
  }

  /** `check_consistent_treatment_vector`: a missing entry fails first;
      then fewer than two distinct values fail. */
  function CheckConsistentTreatmentVector(a: seq<Option<Key>>): (r: Check)
    ensures r.Pass? <==> CountMissing(a) == 0 && |DistinctValues(a)| >= 2
    ensures CountMissing(a) > 0 ==> r == Fail(InvalidInput(MissingTreatments(CountMissing(a))))
    ensures r.Fail? ==> ClassOf(r.error) == CausallibValidationError
  {
    if CountMissing(a) > 0 then Fail(InvalidInput(MissingTreatments(CountMissing(a))))
    else if |DistinctValues(a)| < 2 then Fail(InvalidInput(TooFewTreatmentValues(|DistinctValues(a)|)))
    else Pass
  }

  /** A vector holding one label only is rejected, however long it is. */
  lemma ConstantTreatmentRejected(a: seq<Option<Key>>, t: Key)
    requires forall i :: 0 <= i < |a| ==> a[i] == Some(t)
    ensures CheckConsistentTreatmentVector(a).Fail?
  {
    assert DistinctValues(a) <= {t};
    assert |DistinctValues(a)| <= 1 by {
      if DistinctValues(a) != {} {
        assert DistinctValues(a) == {t};
      }
    }
  }

  /** `validate_propensity_scores`: any score outside [0, 1] raises; below
      0.01 or above 0.99 only warns. The result says whether it warned.
      Missing scores compare false and are never flagged. */
  function ValidatePropensityScores(p: seq<Option<real>>, columnName: string): (r: Result<bool, ValidationError>)
    ensures r.Err? <==> AnyOutsideRange(DropMissing(p), 0.0, 1.0)
    ensures r.Err? ==> r.error == InvalidInput(PropensityOutOfRange(columnName))
    ensures r.Ok? ==> (r.value <==> AnyOutsideRange(DropMissing(p), 0.01, 0.99))
  {
    var s := DropMissing(p);
    AnyOutside(s, 0.0, 1.0);
    AnyOutside(s, 0.01, 0.99);
    if CountBelow(s, 0.0) > 0 || CountAbove(s, 1.0) > 0 then
      Err(InvalidInput(PropensityOutOfRange(columnName)))
    else
      Ok(CountBelow(s, 0.01) > 0 || CountAbove(s, 0.99) > 0)
  }

  /** Some entry lies outside [lo, hi]. */
  predicate AnyOutsideRange(s: seq<real>, lo: real, hi: real)
  {
    exists x :: x in s && (x < lo || x > hi)
  }

  lemma AnyOutside(s: seq<real>, lo: real, hi: real)
    ensures (CountBelow(s, lo) > 0 || CountAbove(s, hi) > 0) <==> AnyOutsideRange(s, lo, hi)
  {
    CountBelowExists(s, lo);
    CountAboveExists(s, hi);
    if exists x :: x in s && (x < lo || x > hi) {
      var x :| x in s && (x < lo || x > hi);
      if x < lo {
        assert exists y :: y in s && y < lo;
      } else {
        assert exists y :: y in s && y > hi;
      }
    }
  }


}

/** Propensity-score utilities: clip-bound validation, clipping of a score
    matrix with its statistics, inverse-probability weights and their
    stabilization by the marginal treatment prevalence. */
module Propensity {
  import opened Common

  // ---------------------------------------------------------------------
  // Score matrices
  // ---------------------------------------------------------------------

  /** A propensity matrix: one row per sample (labelled by `index`), one
      column per treatment value (labelled by `columns`). */
  datatype Frame = Frame(index: seq<Key>, columns: seq<Key>, rows: seq<seq<real>>)

  predicate Rectangular(m: Frame)
  {
    |m.rows| == |m.index| && forall i :: 0 <= i < |m.rows| ==> |m.rows[i]| == |m.columns|
  }

  /** Number of cells (`DataFrame.size`). */
  function CellCount(rows: seq<seq<real>>): nat
  {
    if rows == [] then 0 else CellCount(rows[..|rows| - 1]) + |rows[|rows| - 1]|
  }

  // ---------------------------------------------------------------------
  // _validate_clip_bounds
  // ---------------------------------------------------------------------

  datatype ClipBoundsError =
    | ClipMinOutOfRange(clipMin: real)
    | ClipMaxOutOfRange(clipMax: real)
    | ClipMinNotBelowMax(low: real, high: real)

  /** The bounds clipping accepts: clip_min in [0, 0.5], clip_max in
      [0.5, 1], and clip_min < clip_max when both are given. */
  predicate BoundsValid(clipMin: Option<real>, clipMax: Option<real>)
  {
    (clipMin.Some? ==> 0.0 <= clipMin.value <= 0.5) &&
    (clipMax.Some? ==> 0.5 <= clipMax.value <= 1.0) &&
    (clipMin.Some? && clipMax.Some? ==> clipMin.value < clipMax.value)
  }

  /** `_validate_clip_bounds`: the three checks in order, the first one
      that fails raising. */
  function ValidateClipBounds(clipMin: Option<real>, clipMax: Option<real>): (r: Option<ClipBoundsError>)
    ensures r.None? <==> BoundsValid(clipMin, clipMax)
    ensures clipMin.Some? && !(0.0 <= clipMin.value <= 0.5) ==> r == Some(ClipMinOutOfRange(clipMin.value))
    ensures r.Some? && r.value.ClipMaxOutOfRange? ==> clipMin.None? || 0.0 <= clipMin.value <= 0.5
  {
    if clipMin.Some? && !(0.0 <= clipMin.value <= 0.5) then Some(ClipMinOutOfRange(clipMin.value))
    else if clipMax.Some? && !(0.5 <= clipMax.value <= 1.0) then Some(ClipMaxOutOfRange(clipMax.value))
    else if clipMin.Some? && clipMax.Some? && clipMin.value >= clipMax.value then
      Some(ClipMinNotBelowMax(clipMin.value, clipMax.value))
    else None
  }

  /** Once both bounds are in their ranges, the ordering check can only
      reject the single pair clip_min = clip_max = 0.5. */
  lemma OrderingCheckOnlyAtHalf(clipMin: Option<real>, clipMax: Option<real>)
    requires ValidateClipBounds(clipMin, clipMax).Some?
    requires ValidateClipBounds(clipMin, clipMax).value.ClipMinNotBelowMax?
    ensures clipMin == Some(0.5) && clipMax == Some(0.5)
  {
  }

  // ---------------------------------------------------------------------
  // clip_propensity_scores
  // ---------------------------------------------------------------------

  datatype Side = Lower | Upper

  /** The mask of one pass: `clipped < clip_min` or `clipped > clip_max`. */
  predicate Beyond(x: real, bound: real, side: Side)
  {
    if side == Lower then x < bound else x > bound
  }

  function CountBeyond(row: seq<real>, bound: real, side: Side): (n: nat)
    ensures n <= |row|
  {
    if side == Lower then CountBelow(row, bound) else CountAbove(row, bound)
  }

  /** Number of masked cells of a matrix (`mask.sum().sum()`). */
  function CountRowsBeyond(rows: seq<seq<real>>, bound: real, side: Side): (n: nat)
    ensures n <= CellCount(rows)
  {
    if rows == [] then 0
    else CountRowsBeyond(rows[..|rows| - 1], bound, side) + CountBeyond(rows[|rows| - 1], bound, side)
  }

  /** One row after `clipped[mask] = bound`. */
  function ClipRow(row: seq<real>, bound: real, side: Side): (r: seq<real>)
    ensures |r| == |row|
  {
    seq(|row|, j requires 0 <= j < |row| => if Beyond(row[j], bound, side) then bound else row[j])
  }

  function ClipRows(rows: seq<seq<real>>, bound: real, side: Side): (r: seq<seq<real>>)
    ensures |r| == |rows|
  {
    seq(|rows|, i requires 0 <= i < |rows| => ClipRow(rows[i], bound, side))
  }

  /** The lower pass, skipped when clip_min is None. */
  function MinPass(rows: seq<seq<real>>, clipMin: Option<real>): seq<seq<real>>
  {
    if clipMin.Some? then ClipRows(rows, clipMin.value, Lower) else rows
  }

  /** The upper pass, skipped when clip_max is None. */
  function MaxPass(rows: seq<seq<real>>, clipMax: Option<real>): seq<seq<real>>
  {
    if clipMax.Some? then ClipRows(rows, clipMax.value, Upper) else rows
  }

  /** The clipped matrix: the lower pass, then the upper pass on its result. */
  function ClipScores(rows: seq<seq<real>>, clipMin: Option<real>, clipMax: Option<real>): seq<seq<real>>
  {
    MaxPass(MinPass(rows, clipMin), clipMax)
  }

  /** The textbook clamp of one score into the given bounds. */
  function Clamp(x: real, clipMin: Option<real>, clipMax: Option<real>): real
  {
    if clipMin.Some? && x < clipMin.value then clipMin.value
    else if clipMax.Some? && x > clipMax.value then clipMax.value
    else x
  }

  /** `n_clipped_min`: cells the lower pass replaces (0 without a bound). */
  function NClippedMin(rows: seq<seq<real>>, clipMin: Option<real>): nat
  {
    if clipMin.Some? then CountRowsBeyond(rows, clipMin.value, Lower) else 0
  }

  /** `n_clipped_max`: cells the upper pass replaces in the partly clipped
      copy (0 without a bound). */
  function NClippedMax(rows: seq<seq<real>>, clipMin: Option<real>, clipMax: Option<real>): nat
  {
    if clipMax.Some? then CountRowsBeyond(MinPass(rows, clipMin), clipMax.value, Upper) else 0
  }

  datatype ClipStats = ClipStats(nClippedMin: nat, nClippedMax: nat, pctClipped: Option<real>)

  /** Why clipping raises: invalid bounds, or the share of clipped cells
      computed as `0 / 0` on plain Python integers (`ZeroDivisionError`),
      which happens when neither bound is given and the matrix has no
      cells. */
  datatype ClipError = InvalidBounds(bounds: ClipBoundsError) | ZeroDivision

  /** `clip_propensity_scores`: validate the bounds, clip a copy of the
      matrix (lower pass, then upper pass on the partly clipped copy),
      count the cells each pass replaced, and report their share of all
      cells. Without cells the share has no value: with no bound at all
      both counters are Python integers and the division raises; with a
      bound they are numpy integers and the share is NaN (None here). */
  method ClipPropensityScores(m: Frame, clipMin: Option<real>, clipMax: Option<real>)
    returns (r: Result<(Frame, ClipStats), ClipError>)
    ensures ValidateClipBounds(clipMin, clipMax).Some? ==>
      r == Err(InvalidBounds(ValidateClipBounds(clipMin, clipMax).value))
    ensures ValidateClipBounds(clipMin, clipMax).None? ==>
      (r.Err? <==> clipMin.None? && clipMax.None? && CellCount(m.rows) == 0)
    ensures ValidateClipBounds(clipMin, clipMax).None? && r.Err? ==> r.error == ZeroDivision
    ensures r.Ok? ==> (
      var nMin, nMax := NClippedMin(m.rows, clipMin), NClippedMax(m.rows, clipMin, clipMax);
      r.value.0 == m.(rows := ClipScores(m.rows, clipMin, clipMax)) &&
      r.value.1 == ClipStats(nMin, nMax,
        if CellCount(m.rows) == 0 then None else Some(Percent(nMin + nMax, CellCount(m.rows)))))
  {
    var invalid := ValidateClipBounds(clipMin, clipMax);
    if invalid.Some? {
      return Err(InvalidBounds(invalid.value));
    }
    var clipped := m.rows;
    var nMin, nMax := 0, 0;
    if clipMin.Some? {
      clipped, nMin := ClipSide(clipped, clipMin.value, Lower);
    }
    if clipMax.Some? {
      clipped, nMax := ClipSide(clipped, clipMax.value, Upper);
    }
    var total := CellCount(m.rows);
    if total == 0 && clipMin.None? && clipMax.None? {
      return Err(ZeroDivision);
    }
    var pct := if total == 0 then None else Some(Percent(nMin + nMax, total));
    r := Ok((m.(rows := clipped), ClipStats(nMin, nMax, pct)));
  }

  /** One masked assignment `clipped[clipped <op> bound] = bound`, cell by
      cell, counting the cells it replaces. */
  method ClipSide(rows: seq<seq<real>>, bound: real, side: Side) returns (out: seq<seq<real>>, n: nat)
    ensures out == ClipRows(rows, bound, side)
    ensures n == CountRowsBeyond(rows, bound, side)
  {
    out := rows;
    n := 0;
    var i := 0;
    while i < |rows|
      invariant 0 <= i <= |rows| && |out| == |rows|
      invariant forall k :: 0 <= k < i ==> out[k] == ClipRow(rows[k], bound, side)
      invariant forall k :: i <= k < |rows| ==> out[k] == rows[k]
      invariant n == CountRowsBeyond(rows[..i], bound, side)
    {
      var row := rows[i];
      var count := 0;
      var j := 0;
      while j < |row|
        invariant 0 <= j <= |row| && |row| == |rows[i]|
        invariant forall l :: 0 <= l < j ==> row[l] == (if Beyond(rows[i][l], bound, side) then bound else rows[i][l])
        invariant forall l :: j <= l < |row| ==> row[l] == rows[i][l]
        invariant count == CountBeyond(rows[i][..j], bound, side)
      {
        assert rows[i][..j + 1][..j] == rows[i][..j];
        if Beyond(row[j], bound, side) {
          row := row[j := bound];
          count := count + 1;
        }
        j := j + 1;
      }
      assert rows[i][..j] == rows[i];
      assert row == ClipRow(rows[i], bound, side);
      assert rows[..i + 1][..i] == rows[..i];
      out := out[i := row];
      n := n + count;
      i := i + 1;
    }
    assert rows[..i] == rows;
  }

  // ---------------------------------------------------------------------
  // What clipping promises
  // ---------------------------------------------------------------------

  /** With valid bounds the two passes amount to a clamp: every cell ends
      up inside the given bounds, and cells already inside are untouched. */
  lemma ClipIsClamp(rows: seq<seq<real>>, clipMin: Option<real>, clipMax: Option<real>)
    requires BoundsValid(clipMin, clipMax)
    ensures |ClipScores(rows, clipMin, clipMax)| == |rows|
    ensures forall i :: 0 <= i < |rows| ==> |ClipScores(rows, clipMin, clipMax)[i]| == |rows[i]|
    ensures forall i, j :: 0 <= i < |rows| && 0 <= j < |rows[i]| ==>
      var c := ClipScores(rows, clipMin, clipMax)[i][j];
      c == Clamp(rows[i][j], clipMin, clipMax) &&
      (clipMin.Some? ==> clipMin.value <= c) &&
      (clipMax.Some? ==> c <= clipMax.value) &&
      ((clipMin.None? || clipMin.value <= rows[i][j]) && (clipMax.None? || rows[i][j] <= clipMax.value) ==> c == rows[i][j])
  {
  }

  /** A matrix of cells below `lo` and a bound `hi > lo`: the upper pass
      after the lower pass masks exactly the cells the original has
      above `hi`. */
  lemma {:induction false} UpperCountUnaffected(rows: seq<seq<real>>, lo: real, hi: real)
    requires lo < hi
    ensures CountRowsBeyond(ClipRows(rows, lo, Lower), hi, Upper) == CountRowsBeyond(rows, hi, Upper)
  {
    if rows != [] {
      var init := rows[..|rows| - 1];
      assert ClipRows(rows, lo, Lower)[..|rows| - 1] == ClipRows(init, lo, Lower);
      UpperCountUnaffected(init, lo, hi);
      RowUpperCountUnaffected(rows[|rows| - 1], lo, hi);
    }
  }

  lemma {:induction false} RowUpperCountUnaffected(row: seq<real>, lo: real, hi: real)
    requires lo < hi
    ensures CountAbove(ClipRow(row, lo, Lower), hi) == CountAbove(row, hi)
  {
    if row != [] {
      var init := row[..|row| - 1];
      assert ClipRow(row, lo, Lower)[..|row| - 1] == ClipRow(init, lo, Lower);
      RowUpperCountUnaffected(init, lo, hi);
    }
  }

  /** A cell is counted by at most one pass, so the two counts together
      never exceed the number of cells. */
  lemma {:induction false} CountsDisjoint(rows: seq<seq<real>>, lo: real, hi: real)
    requires lo < hi
    ensures CountRowsBeyond(rows, lo, Lower) + CountRowsBeyond(rows, hi, Upper) <= CellCount(rows)
  {
    if rows != [] {
      CountsDisjoint(rows[..|rows| - 1], lo, hi);
      CountBelowAboveDisjoint(rows[|rows| - 1], lo, hi);
    }
  }

  /** What `clip_propensity_scores` reports, stated against the input:
      `n_clipped_min` counts the cells below clip_min, `n_clipped_max` the
      cells above clip_max (in the original matrix), a bound given as None
      counts 0, and the percentage lies in [0, 100]. */
  lemma {:induction false} ClipStatsMeaning(rows: seq<seq<real>>, clipMin: Option<real>, clipMax: Option<real>)
    requires BoundsValid(clipMin, clipMax)
    ensures clipMin.None? ==> NClippedMin(rows, clipMin) == 0
    ensures clipMax.None? ==> NClippedMax(rows, clipMin, clipMax) == 0
    ensures clipMax.Some? ==> NClippedMax(rows, clipMin, clipMax) == CountRowsBeyond(rows, clipMax.value, Upper)
    ensures NClippedMin(rows, clipMin) + NClippedMax(rows, clipMin, clipMax) <= CellCount(rows)
    ensures CellCount(rows) > 0 ==>
      0.0 <= Percent(NClippedMin(rows, clipMin) + NClippedMax(rows, clipMin, clipMax), CellCount(rows)) <= 100.0
  {
    var nMin, nMax := NClippedMin(rows, clipMin), NClippedMax(rows, clipMin, clipMax);
    if clipMax.Some? && clipMin.Some? {
      UpperCountUnaffected(rows, clipMin.value, clipMax.value);
      CountsDisjoint(rows, clipMin.value, clipMax.value);
    }
    if CellCount(rows) > 0 {
      PercentBounds(nMin + nMax, CellCount(rows));
    }
  }

  /** With both bounds None nothing is clipped. */
  lemma NoBoundsNoClipping(rows: seq<seq<real>>)
    ensures ClipScores(rows, None, None) == rows
  {
  }

  // ---------------------------------------------------------------------
  // compute_propensity_weights and stabilize_weights
  // ---------------------------------------------------------------------

  /** A float weight: finite, or inf/NaN (which absorb every product). */
  datatype Weight = Finite(w: real) | NonFinite

  /** `1.0 / p` (`rdiv(1.0)`): not finite at p = 0. */
  function Reciprocal(p: real): (r: Weight)
    ensures r.Finite? <==> p != 0.0
    ensures r.Finite? ==> r.w * p == 1.0
  {
    if p == 0.0 then NonFinite else Finite(1.0 / p)
  }

  /** Float product: finite only when both factors are. */
  function Scale(x: Weight, c: Weight): (r: Weight)
    ensures r.Finite? <==> x.Finite? && c.Finite?
    ensures r.Finite? ==> r.w == x.w * c.w
  {
    if x.Finite? && c.Finite? then Finite(x.w * c.w) else NonFinite
  }

  /** `value_counts(normalize=True)`: the fraction of units assigned `t`. */
  function Prevalence(a: seq<Key>, t: Key): real
    requires |a| > 0
  {
    CountKey(a, t) as real / |a| as real
  }

  /** The prevalence of a unit's own treatment is a fraction in (0, 1]. */
  lemma PrevalenceOfObserved(a: seq<Key>, i: nat)
    requires i < |a|
    ensures 0.0 < Prevalence(a, a[i]) <= 1.0
  {
    CountKeyPositive(a, i);
    var c, n := CountKey(a, a[i]) as real, |a| as real;
    QuotientBounds(c, n, 0.0, 1.0);
    assert c / n > 0.0 by {
      DivAbove(c, n, 0.0);
    }
  }

  lemma {:induction false} CountKeyPositive(a: seq<Key>, i: nat)
    requires i < |a|
    ensures CountKey(a, a[i]) >= 1
  {
    if i < |a| - 1 {
      var init := a[..|a| - 1];
      assert init[i] == a[i];
      CountKeyPositive(init, i);
    }
  }

  /** `treatment_assignment.map(prevalence)`: each unit's factor, from the
      computed prevalence or from a supplied map (NaN for a treatment the
      map lacks). */
  function PrevalencePerSample(a: seq<Key>, supplied: Option<map<Key, real>>): (r: seq<Weight>)
    ensures |r| == |a|
  {
    seq(|a|, i requires 0 <= i < |a| =>
      match supplied
      case None => Finite(Prevalence(a, a[i]))
      case Some(prevalence) => if a[i] in prevalence then Finite(prevalence[a[i]]) else NonFinite)
  }

  /** `weights.multiply(factor, axis="index")`. */
  function ScaleRows(w: seq<seq<Weight>>, factor: seq<Weight>): (r: seq<seq<Weight>>)
    requires |w| == |factor|
    ensures |r| == |w|
    ensures forall i :: 0 <= i < |w| ==> (|r[i]| == |w[i]| &&
      forall j :: 0 <= j < |w[i]| ==> r[i][j] == Scale(w[i][j], factor[i]))
  {
    seq(|w|, i requires 0 <= i < |w| => seq(|w[i]|, j requires 0 <= j < |w[i]| => Scale(w[i][j], factor[i])))
  }

  function RawWeights(m: Frame): (r: seq<seq<Weight>>)
    ensures |r| == |m.rows|
    ensures forall i :: 0 <= i < |r| ==> (|r[i]| == |m.rows[i]| &&
      forall j :: 0 <= j < |r[i]| ==> r[i][j] == Reciprocal(m.rows[i][j]))
  {
    seq(|m.rows|, i requires 0 <= i < |m.rows| =>
      seq(|m.rows[i]|, j requires 0 <= j < |m.rows[i]| => Reciprocal(m.rows[i][j])))
  }

  /** Position of the first column labelled `t`. */
  function ColumnPos(columns: seq<Key>, t: Key): (p: nat)
    requires t in columns
    ensures p < |columns| && columns[p] == t
    ensures forall q :: 0 <= q < p ==> columns[q] != t
  {
    if columns[0] == t then 0 else 1 + ColumnPos(columns[1..], t)
  }

  /** Which weights to return: per unit, the observed treatment's weight
      (`treatment_values=None`); one treatment value; or a list. */
  datatype Selection = Observed | OneValue(t: Key) | Values(ts: seq<Key>)

  datatype Weights =
    | WeightSeries(index: seq<Key>, values: seq<Weight>)
    | WeightFrame(index: seq<Key>, columns: seq<Key>, cells: seq<seq<Weight>>)

  /** `weights[treatment_values]` with labels the matrix lacks. */
  datatype WeightsError = MissingColumns(missing: set<Key>)

  function Requested(sel: Selection): seq<Key>
    requires !sel.Observed?
  {
    if sel.OneValue? then [sel.t] else sel.ts
  }

  /** The column of label `t`. */
  function Column(w: seq<seq<Weight>>, columns: seq<Key>, t: Key): (c: seq<Weight>)
    requires t in columns
    requires forall i :: 0 <= i < |w| ==> |w[i]| == |columns|
    ensures |c| == |w|
  {
    seq(|w|, i requires 0 <= i < |w| => w[i][ColumnPos(columns, t)])
  }

  /** Select requested columns, or each unit's observed-treatment entry;
      requested labels the matrix lacks raise (`KeyError`). */
  function Select(w: seq<seq<Weight>>, m: Frame, a: seq<Key>, sel: Selection): (r: Result<Weights, WeightsError>)
    requires Rectangular(m) && |w| == |m.rows| && |a| == |m.rows|
    requires forall i :: 0 <= i < |w| ==> |w[i]| == |m.columns|
    requires sel.Observed? ==> forall i :: 0 <= i < |a| ==> a[i] in m.columns
    ensures r.Err? <==> !sel.Observed? && exists t :: t in Requested(sel) && t !in m.columns
    ensures r.Err? ==> r.error == MissingColumns(set t | t in Requested(sel) && t !in m.columns)
    ensures r.Ok? ==> r.value.index == m.index
    ensures r.Ok? ==> (r.value.WeightSeries? <==> sel.Observed? || |Requested(sel)| == 1)
    ensures r.Ok? && r.value.WeightSeries? ==> |r.value.values| == |w|
    ensures r.Ok? && sel.Observed? ==>
      forall i :: 0 <= i < |w| ==> r.value.values[i] == w[i][ColumnPos(m.columns, a[i])]
    ensures r.Ok? && !sel.Observed? && r.value.WeightSeries? ==>
      forall i :: 0 <= i < |w| ==> r.value.values[i] == w[i][ColumnPos(m.columns, Requested(sel)[0])]
    ensures r.Ok? && r.value.WeightFrame? ==>
      r.value.columns == Requested(sel) && |r.value.cells| == |w| &&
      forall i :: 0 <= i < |w| ==> (|r.value.cells[i]| == |Requested(sel)| &&
        forall k :: 0 <= k < |Requested(sel)| ==>
          r.value.cells[i][k] == w[i][ColumnPos(m.columns, Requested(sel)[k])])
  {
    if sel.Observed? then
      Ok(WeightSeries(m.index, seq(|w|, i requires 0 <= i < |w| => w[i][ColumnPos(m.columns, a[i])])))
    else
      var ts := Requested(sel);
      if exists t :: t in ts && t !in m.columns then
        Err(MissingColumns(set t | t in ts && t !in m.columns))
      else if |ts| == 1 then Ok(WeightSeries(m.index, Column(w, m.columns, ts[0])))
        else Ok(WeightFrame(m.index, ts, seq(|w|, i requires 0 <= i < |w| =>
          seq(|ts|, k requires 0 <= k < |ts| => w[i][ColumnPos(m.columns, ts[k])]))))
  }

  /** `compute_propensity_weights`: reciprocal propensities, optionally
      multiplied row by row by the prevalence of the unit's treatment, then
      the requested selection. The observed assignment is aligned with the
      matrix rows and, for the per-unit lookup, names one of its columns. */
  function ComputePropensityWeights(m: Frame, a: seq<Key>, sel: Selection, useStabilized: bool,
                                    prevalence: Option<map<Key, real>>): (r: Result<Weights, WeightsError>)
    requires Rectangular(m) && |a| == |m.rows|
    requires sel.Observed? ==> forall i :: 0 <= i < |a| ==> a[i] in m.columns
    ensures r.Err? <==> !sel.Observed? && exists t :: t in Requested(sel) && t !in m.columns
    ensures r.Err? ==> r.error == MissingColumns(set t | t in Requested(sel) && t !in m.columns)
    ensures r.Ok? ==> r.value.index == m.index
    ensures r.Ok? ==> (r.value.WeightSeries? <==> sel.Observed? || |Requested(sel)| == 1)
    ensures r.Ok? && r.value.WeightSeries? ==> |r.value.values| == |m.rows|
    ensures r.Ok? && sel.Observed? ==>
      forall i :: 0 <= i < |m.rows| ==>
        r.value.values[i] == UnitWeight(m, a, i, a[i], useStabilized, prevalence)
    ensures r.Ok? && !sel.Observed? && r.value.WeightSeries? ==>
      forall i :: 0 <= i < |m.rows| ==>
        r.value.values[i] == UnitWeight(m, a, i, Requested(sel)[0], useStabilized, prevalence)
    ensures r.Ok? && r.value.WeightFrame? ==>
      r.value.columns == Requested(sel) && |r.value.cells| == |m.rows| &&
      forall i :: 0 <= i < |m.rows| ==> (|r.value.cells[i]| == |Requested(sel)| &&
        forall k :: 0 <= k < |Requested(sel)| ==>
          r.value.cells[i][k] == UnitWeight(m, a, i, Requested(sel)[k], useStabilized, prevalence))
  {
    var raw := RawWeights(m);
    var w := if useStabilized then ScaleRows(raw, PrevalencePerSample(a, prevalence)) else raw;
    Select(w, m, a, sel)
  }

  /** The weight of unit `i` for treatment `t`, cell by cell: the
      reciprocal of the unit's propensity for `t`, times the prevalence of
      the unit's own treatment (computed, or looked up in a supplied map)
      when stabilized. */
  function UnitWeight(m: Frame, a: seq<Key>, i: nat, t: Key, useStabilized: bool,
                      prevalence: Option<map<Key, real>>): Weight
    requires Rectangular(m) && |a| == |m.rows| && i < |m.rows| && t in m.columns
  {
    var inverse := Reciprocal(m.rows[i][ColumnPos(m.columns, t)]);
    if !useStabilized then inverse
    else
      match prevalence
      case None => Scale(inverse, Finite(Prevalence(a, a[i])))
      case Some(p) => if a[i] in p then Scale(inverse, Finite(p[a[i]])) else NonFinite
  }

  /** With a supplied prevalence map, a stabilized weight is finite exactly
      when the propensity is non-zero and the map knows the unit's
      treatment; it is then that prevalence divided by the propensity. */
  lemma SuppliedPrevalenceWeight(m: Frame, a: seq<Key>, i: nat, t: Key, p: map<Key, real>)
    requires Rectangular(m) && |a| == |m.rows| && i < |m.rows| && t in m.columns
    ensures var w, q := UnitWeight(m, a, i, t, true, Some(p)), m.rows[i][ColumnPos(m.columns, t)];
      (w.Finite? <==> q != 0.0 && a[i] in p) &&
      (w.Finite? ==> w.w * q == p[a[i]])
  {
    var q := m.rows[i][ColumnPos(m.columns, t)];
    if q != 0.0 && a[i] in p {
      InverseTimes(1.0 / q, q, p[a[i]]);
    }
  }

  /** `(1/q)·c·q = c` for `q ≠ 0`. */
  lemma InverseTimes(inv: real, q: real, c: real)
    requires q != 0.0 && inv * q == 1.0
    ensures inv * c * q == c
  {
    calc {
      inv * c * q;
      == (inv * q) * c;
      == c;
    }
  }

  /** The unstabilized weight of each unit's observed treatment is the
      reciprocal of its propensity: finite exactly when the propensity is
      non-zero, and then weight times propensity is 1. */
  lemma ObservedWeightIsInverse(m: Frame, a: seq<Key>, i: nat)
    requires Rectangular(m) && |a| == |m.rows| && i < |a|
    requires forall k :: 0 <= k < |a| ==> a[k] in m.columns
    ensures var r := ComputePropensityWeights(m, a, Observed, false, None);
      var p := m.rows[i][ColumnPos(m.columns, a[i])];
      r.Ok? && r.value.WeightSeries? && r.value.index == m.index &&
      (r.value.values[i].Finite? <==> p != 0.0) &&
      (r.value.values[i].Finite? ==> r.value.values[i].w * p == 1.0)
  {
  }

  /** A single requested treatment value (as a scalar or a one-element
      list) gives that column of the weight matrix as a vector. */
  lemma SingleValueGivesColumn(m: Frame, a: seq<Key>, t: Key, useStabilized: bool)
    requires Rectangular(m) && |a| == |m.rows| && t in m.columns
    ensures ComputePropensityWeights(m, a, OneValue(t), useStabilized, None) ==
            ComputePropensityWeights(m, a, Values([t]), useStabilized, None)
    ensures var r := ComputePropensityWeights(m, a, OneValue(t), useStabilized, None);
      r.Ok? && r.value.WeightSeries? && |r.value.values| == |m.rows| &&
      forall i :: 0 <= i < |m.rows| ==>
        r.value.values[i] == Scale(Reciprocal(m.rows[i][ColumnPos(m.columns, t)]),
                                   if useStabilized then Finite(Prevalence(a, a[i])) else Finite(1.0))
  {
    var r := ComputePropensityWeights(m, a, OneValue(t), useStabilized, None);
    assert r.Ok?;
    forall i | 0 <= i < |m.rows|
      ensures r.value.values[i] == Scale(Reciprocal(m.rows[i][ColumnPos(m.columns, t)]),
                                         if useStabilized then Finite(Prevalence(a, a[i])) else Finite(1.0))
    {
      if !useStabilized {
        var x := Reciprocal(m.rows[i][ColumnPos(m.columns, t)]);
        assert Scale(x, Finite(1.0)) == x;
      }
    }
  }

  /** `weights.multiply(factor, axis="index")` on a selected result. */
  function ScaleWeights(w: Weights, factor: seq<Weight>): (r: Weights)
    requires w.WeightSeries? ==> |w.values| == |factor|
    requires w.WeightFrame? ==> |w.cells| == |factor|
    ensures r.WeightSeries? <==> w.WeightSeries?
    ensures r.index == w.index
    ensures r.WeightSeries? ==> (|r.values| == |factor| &&
      forall i :: 0 <= i < |factor| ==> r.values[i] == Scale(w.values[i], factor[i]))
    ensures r.WeightFrame? ==> (r.columns == w.columns && |r.cells| == |factor| &&
      forall i :: 0 <= i < |factor| ==> (|r.cells[i]| == |w.cells[i]| &&
        forall j :: 0 <= j < |w.cells[i]| ==> r.cells[i][j] == Scale(w.cells[i][j], factor[i])))
  {
    match w
    case WeightSeries(index, values) =>
      WeightSeries(index, seq(|values|, i requires 0 <= i < |values| => Scale(values[i], factor[i])))
    case WeightFrame(index, columns, cells) =>
      WeightFrame(index, columns, ScaleRows(cells, factor))
  }

  /** `stabilize_weights`: multiply each unit's weights by the fraction of
      units sharing its observed treatment. */
  function StabilizeWeights(w: Weights, a: seq<Key>): (r: Weights)
    requires w.WeightSeries? ==> |w.values| == |a|
    requires w.WeightFrame? ==> |w.cells| == |a|
    ensures r.WeightSeries? <==> w.WeightSeries?
    ensures r.WeightSeries? ==> (|r.values| == |a| &&
      forall i :: 0 <= i < |a| ==> r.values[i] == Scale(w.values[i], Finite(Prevalence(a, a[i]))))
    ensures r.WeightFrame? ==> (|r.cells| == |a| &&
      forall i :: 0 <= i < |a| ==> (|r.cells[i]| == |w.cells[i]| &&
        forall j :: 0 <= j < |w.cells[i]| ==> r.cells[i][j] == Scale(w.cells[i][j], Finite(Prevalence(a, a[i])))))
  {
    ScaleWeights(w, PrevalencePerSample(a, None))
  }

  /** Scaling rows before selecting equals selecting, then scaling. */
  lemma SelectScaled(w: seq<seq<Weight>>, factor: seq<Weight>, m: Frame, a: seq<Key>, sel: Selection)
    requires Rectangular(m) && |w| == |m.rows| && |a| == |m.rows| && |factor| == |w|
    requires forall i :: 0 <= i < |w| ==> |w[i]| == |m.columns|
    requires sel.Observed? ==> forall i :: 0 <= i < |a| ==> a[i] in m.columns
    requires Select(w, m, a, sel).Ok?
    ensures Select(ScaleRows(w, factor), m, a, sel) == Ok(ScaleWeights(Select(w, m, a, sel).value, factor))
  {
    var sw := ScaleRows(w, factor);
    var lhs := Select(sw, m, a, sel);
    var rhs := ScaleWeights(Select(w, m, a, sel).value, factor);
    assert lhs.Ok?;
    if lhs.value.WeightSeries? {
      assert |lhs.value.values| == |rhs.values|;
      forall i | 0 <= i < |rhs.values|
        ensures lhs.value.values[i] == rhs.values[i]
      {
        var t := if sel.Observed? then a[i] else Requested(sel)[0];
        assert !sel.Observed? ==> Requested(sel)[0] in Requested(sel);
        var p := ColumnPos(m.columns, t);
        assert sw[i][p] == Scale(w[i][p], factor[i]);
      }
      assert lhs.value.values == rhs.values;
    } else {
      var ts := Requested(sel);
      assert |lhs.value.cells| == |rhs.cells|;
      forall i | 0 <= i < |rhs.cells|
        ensures lhs.value.cells[i] == rhs.cells[i]
      {
        assert |lhs.value.cells[i]| == |ts| == |rhs.cells[i]|;
        forall k | 0 <= k < |ts|
          ensures lhs.value.cells[i][k] == rhs.cells[i][k]
        {
          assert ts[k] in ts;
          var p := ColumnPos(m.columns, ts[k]);
          assert sw[i][p] == Scale(w[i][p], factor[i]);
        }
      }
      assert lhs.value.cells == rhs.cells;
    }
  }

  /** Stabilizing inside `compute_propensity_weights` (without a supplied
      prevalence) gives the same weights as computing raw weights and
      applying `stabilize_weights` afterwards. */
  lemma StabilizeInsideOrAfter(m: Frame, a: seq<Key>, sel: Selection)
    requires Rectangular(m) && |a| == |m.rows|
    requires sel.Observed? ==> forall i :: 0 <= i < |a| ==> a[i] in m.columns
    requires ComputePropensityWeights(m, a, sel, false, None).Ok?
    ensures ComputePropensityWeights(m, a, sel, true, None) ==
            Ok(StabilizeWeights(ComputePropensityWeights(m, a, sel, false, None).value, a))
  {
    SelectScaled(RawWeights(m), PrevalencePerSample(a, None), m, a, sel);
  }

  /** Stabilization only shrinks a finite non-negative weight. */
  lemma StabilizedNotLarger(a: seq<Key>, i: nat, x: real)
    requires i < |a| && x >= 0.0
    ensures Scale(Finite(x), Finite(Prevalence(a, a[i]))).w <= x
  {
    PrevalenceOfObserved(a, i);
    var c := Prevalence(a, a[i]);
    assert x * c <= x * 1.0;
  }
}

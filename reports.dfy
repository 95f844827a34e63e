/** Diagnostic reports: propensity-score statistics, the weight
    distribution with Kish's effective sample size, and the overlap
    (positivity) assessment between treatment groups. */
module Reports {
  import opened Common

  datatype ReportError =
    | NoValidPropensityScores
    | NoValidWeights
    | NoValidScoresOrTreatments

  // ---------------------------------------------------------------------
  // Deviations from a centre
  // ---------------------------------------------------------------------

  /** Sum of squared deviations from `c`. */
  function SumSqDev(s: seq<real>, c: real): real
  {
    if s == [] then 0.0 else SumSqDev(s[..|s| - 1], c) + Sq(s[|s| - 1] - c)
  }

  /** Population variance (`np.var`, the square of `np.std`). */
  function Variance(s: seq<real>): real
    requires |s| > 0
  {
    SumSqDev(s, Mean(s)) / |s| as real
  }

  /** `std` is the population standard deviation of `s`. */
  predicate IsStd(s: seq<real>, std: real)
    requires |s| > 0
  {
    std >= 0.0 && Sq(std) == Variance(s)
  }

  /** A product of positive numbers, named `p`, is positive. */
  lemma ProductPositive(x: real, y: real, p: real)
    requires x > 0.0 && y > 0.0 && p == x * y
    ensures p > 0.0
  {
  }

  lemma SquareNonNegative(d: real)
    ensures Sq(d) >= 0.0
    ensures d != 0.0 ==> Sq(d) > 0.0
  {
    if d < 0.0 {
      ProductPositive(-d, -d, Sq(d));
    } else if d > 0.0 {
      ProductPositive(d, d, Sq(d));
    }
  }

  /** `0 <= b < a` gives `b² < a²`. */
  lemma SquareMonotone(a: real, b: real)
    requires 0.0 <= b < a
    ensures Sq(b) < Sq(a)
  {
    ProductPositive(a - b, a + b, Sq(a) - Sq(b));
  }

  /** The last entry adds a non-negative amount, a positive one unless
      it equals `c`. */
  lemma SumSqDevStep(s: seq<real>, c: real)
    requires s != []
    ensures SumSqDev(s, c) >= SumSqDev(s[..|s| - 1], c)
    ensures s[|s| - 1] != c ==> SumSqDev(s, c) > SumSqDev(s[..|s| - 1], c)
  {
    SquareNonNegative(s[|s| - 1] - c);
  }

  lemma {:induction false} SumSqDevNonNegative(s: seq<real>, c: real)
    ensures SumSqDev(s, c) >= 0.0
  {
    if s != [] {
      SumSqDevNonNegative(s[..|s| - 1], c);
      SumSqDevStep(s, c);
    }
  }

  /** Expanding the squares: `Σ(x-c)² = Σx² - 2cΣx + n·c²`. */
  lemma {:induction false} SumSqDevExpand(s: seq<real>, c: real)
    ensures SumSqDev(s, c) == SumSquares(s) - 2.0 * c * Sum(s) + |s| as real * Sq(c)
  {
    if s != [] {
      var init, x := s[..|s| - 1], s[|s| - 1];
      SumSqDevExpand(init, c);
      assert SumSqDev(s, c) == SumSqDev(init, c) + Sq(x - c);
      assert SumSquares(s) == SumSquares(init) + Sq(x);
      assert Sum(s) == Sum(init) + x;
      ExpandStep(SumSqDev(init, c), SumSquares(init), Sum(init), |init| as real, x, c,
                 SumSqDev(s, c), SumSquares(s), Sum(s), |s| as real);
    }
  }

  /** One step of the expansion, on plain numbers. */
  lemma ExpandStep(A: real, B: real, C: real, m: real, x: real, c: real, A': real, B': real, C': real, m': real)
    requires A == B - 2.0 * c * C + m * Sq(c)
    requires A' == A + Sq(x - c) && B' == B + Sq(x) && C' == C + x && m' == m + 1.0
    ensures A' == B' - 2.0 * c * C' + m' * Sq(c)
  {
  }

  /** The squared deviations vanish exactly when every entry equals `c`. */
  lemma {:induction false} SumSqDevZero(s: seq<real>, c: real)
    ensures SumSqDev(s, c) == 0.0 <==> forall i :: 0 <= i < |s| ==> s[i] == c
  {
    if s != [] {
      var init, x := s[..|s| - 1], s[|s| - 1];
      SumSqDevZero(init, c);
      SumSqDevNonNegative(init, c);
      SumSqDevStep(s, c);
      if forall i :: 0 <= i < |s| ==> s[i] == c {
        assert x == c;
        assert forall i :: 0 <= i < |init| ==> init[i] == s[i];
      }
      if SumSqDev(s, c) == 0.0 {
        assert x == c && SumSqDev(init, c) == 0.0;
        forall i | 0 <= i < |s|
          ensures s[i] == c
        {
          if i < |init| {
            assert init[i] == s[i];
          }
        }
      }
    }
  }

  // ---------------------------------------------------------------------
  // compute_propensity_stats
  // ---------------------------------------------------------------------

  /** The PropensityScoreStats record (clipping fields keep their
      defaults, as this report never fills them). */
  datatype PropensityScoreStats = PropensityScoreStats(
    minScore: real, maxScore: real, meanScore: real, medianScore: real, stdScore: real,
    nClipped: nat, pctClipped: real, nExtremeLow: nat, nExtremeHigh: nat, pctExtreme: real)

  const ExtremeLow: real := 0.01
  const ExtremeHigh: real := 0.99

  /** `compute_propensity_stats`: drop missing scores, fail when none are
      left, and summarise the rest. `np.median` and `np.std` of the
      remaining scores are supplied by the caller. */
  function ComputePropensityStats(scores: seq<Option<real>>, median: real, std: real): (r: Result<PropensityScoreStats, ReportError>)
    requires |DropMissing(scores)| > 0 ==>
      IsStd(DropMissing(scores), std) && IsMedian(DropMissing(scores), median)
    ensures r.Err? <==> DropMissing(scores) == []
    ensures r.Err? ==> r.error == NoValidPropensityScores
    ensures r.Ok? ==> (
      var s, st := DropMissing(scores), r.value;
      st.minScore in s && st.maxScore in s &&
      (forall x :: x in s ==> st.minScore <= x <= st.maxScore) &&
      st.meanScore == Mean(s) && st.medianScore == median && st.stdScore == std &&
      st.nClipped == 0 && st.pctClipped == 0.0 &&
      st.nExtremeLow == CountBelow(s, ExtremeLow) && st.nExtremeHigh == CountAbove(s, ExtremeHigh) &&
      st.pctExtreme == Percent(st.nExtremeLow + st.nExtremeHigh, |s|))
  {
    var s := DropMissing(scores);
    if |s| == 0 then Err(NoValidPropensityScores)
    else
      var low, high := CountBelow(s, ExtremeLow), CountAbove(s, ExtremeHigh);
      Ok(PropensityScoreStats(Min(s), Max(s), Mean(s), median, std, 0, 0.0, low, high, Percent(low + high, |s|)))
  }

  /** The extremity counts flag exactly the scores below 0.01 and above
      0.99, never count a score twice, and their share is a percentage;
      mean and median lie between the extremes, and the std is zero
      exactly when all present scores are equal. */
  lemma PropensityStatsMeaning(scores: seq<Option<real>>, median: real, std: real)
    requires |DropMissing(scores)| > 0 ==>
      IsStd(DropMissing(scores), std) && IsMedian(DropMissing(scores), median)
    requires ComputePropensityStats(scores, median, std).Ok?
    ensures var s, st := DropMissing(scores), ComputePropensityStats(scores, median, std).value;
      (st.nExtremeLow > 0 <==> exists x :: x in s && x < ExtremeLow) &&
      (st.nExtremeHigh > 0 <==> exists x :: x in s && x > ExtremeHigh) &&
      st.nExtremeLow + st.nExtremeHigh <= |s| &&
      0.0 <= st.pctExtreme <= 100.0 &&
      st.minScore <= st.meanScore <= st.maxScore &&
      st.minScore <= st.medianScore <= st.maxScore
    ensures var s, st := DropMissing(scores), ComputePropensityStats(scores, median, std).value;
      st.stdScore >= 0.0 && (st.stdScore == 0.0 <==> forall i :: 0 <= i < |s| ==> s[i] == s[0])
  {
    var s := DropMissing(scores);
    CountBelowExists(s, ExtremeLow);
    CountAboveExists(s, ExtremeHigh);
    CountBelowAboveDisjoint(s, ExtremeLow, ExtremeHigh);
    PercentBounds(CountBelow(s, ExtremeLow) + CountAbove(s, ExtremeHigh), |s|);
    MeanBetweenMinMax(s);
    MedianWithinRange(s, median);
    StdZeroIffConstant(s, std);
  }

  /** The standard deviation of a non-empty sequence is zero exactly when
      all its entries are equal. */
  lemma StdZeroIffConstant(s: seq<real>, std: real)
    requires |s| > 0 && IsStd(s, std)
    ensures std == 0.0 <==> forall i :: 0 <= i < |s| ==> s[i] == s[0]
  {
    ConstantIffNoDeviation(s);
    SquareNonNegative(std);
    var n, ss := |s| as real, SumSqDev(s, Mean(s));
    assert Variance(s) == ss / n;
    assert ss / n == 0.0 <==> ss == 0.0;
  }

  // ---------------------------------------------------------------------
  // compute_weight_distribution
  // ---------------------------------------------------------------------

  datatype WeightDistribution = WeightDistribution(
    minWeight: real, maxWeight: real, meanWeight: real, medianWeight: real, stdWeight: real,
    nWeights: nat, nExtreme: nat, pctExtreme: real, effectiveSampleSize: Option<real>)

  /** Number of entries strictly outside `[lo, hi]`. */
  function CountOutside(s: seq<real>, lo: real, hi: real): (n: nat)
    ensures n <= |s|
  {
    if s == [] then 0
    else CountOutside(s[..|s| - 1], lo, hi) + (if s[|s| - 1] < lo || s[|s| - 1] > hi then 1 else 0)
  }

  /** Some entry of `s` lies outside `[lo, hi]`. */
  predicate SomeOutside(s: seq<real>, lo: real, hi: real)
  {
    exists x :: x in s && (x < lo || x > hi)
  }

  /** Some entry lies outside `[lo, hi]` exactly when the count is
      positive. */
  lemma {:induction false} CountOutsideExists(s: seq<real>, lo: real, hi: real)
    ensures CountOutside(s, lo, hi) > 0 <==> SomeOutside(s, lo, hi)
  {
    if s != [] {
      var init, last := s[..|s| - 1], s[|s| - 1];
      CountOutsideExists(init, lo, hi);
      assert s == init + [last];
      if last < lo || last > hi {
        assert last in s;
      }
      if exists x :: x in init && (x < lo || x > hi) {
        var x :| x in init && (x < lo || x > hi);
        assert x in s;
      }
      if exists x :: x in s && (x < lo || x > hi) {
        var x :| x in s && (x < lo || x > hi);
        assert x in init || x == last;
      }
    }
  }

  /** Kish's effective sample size `(Σw)² / Σw²`, undefined (None) when
      `Σw² = 0`. */
  function EffectiveSampleSize(w: seq<real>): Option<real>
  {
    if SumSquares(w) > 0.0 then Some(Sq(Sum(w)) / SumSquares(w)) else None
  }

  /** `compute_weight_distribution`: drop missing weights, fail when none
      are left, count the weights outside mean ± 3·std and compute the
      effective sample size. `np.median` and `np.std` of the remaining
      weights are supplied by the caller. */
  function ComputeWeightDistribution(weights: seq<Option<real>>, median: real, std: real): (r: Result<WeightDistribution, ReportError>)
    requires |DropMissing(weights)| > 0 ==> IsStd(DropMissing(weights), std)
    ensures r.Err? <==> DropMissing(weights) == []
    ensures r.Err? ==> r.error == NoValidWeights
    ensures r.Ok? ==> (
      var w, d := DropMissing(weights), r.value;
      d.minWeight in w && d.maxWeight in w &&
      (forall x :: x in w ==> d.minWeight <= x <= d.maxWeight) &&
      d.meanWeight == Mean(w) && d.medianWeight == median && d.stdWeight == std &&
      d.nWeights == |w| &&
      d.nExtreme == CountOutside(w, Mean(w) - 3.0 * std, Mean(w) + 3.0 * std) &&
      d.pctExtreme == Percent(d.nExtreme, |w|) &&
      d.effectiveSampleSize == EffectiveSampleSize(w))
  {
    var w := DropMissing(weights);
    if |w| == 0 then Err(NoValidWeights)
    else
      var mean := Mean(w);
      var nExtreme := CountOutside(w, mean - 3.0 * std, mean + 3.0 * std);
      Ok(WeightDistribution(Min(w), Max(w), mean, median, std, |w|, nExtreme,
                            Percent(nExtreme, |w|), EffectiveSampleSize(w)))
  }

  /** Squared deviations `ss` against `k` outliers of a scale `q`: at
      least `9qk`, and strictly more once there is an outlier. */
  predicate Deviates(ss: real, q: real, k: real)
  {
    ss >= 9.0 * q * k && (k > 0.0 ==> ss > 9.0 * q * k)
  }

  /** Each weight outside `c ± 3d` adds more than `9d²` to the squared
      deviations from `c`. */
  lemma {:induction false} OutsideWeightsDeviate(s: seq<real>, c: real, d: real)
    requires d >= 0.0
    ensures Deviates(SumSqDev(s, c), Sq(d), CountOutside(s, c - 3.0 * d, c + 3.0 * d) as real)
  {
    if s != [] {
      OutsideWeightsDeviate(s[..|s| - 1], c, d);
      OutsideContribution(s[|s| - 1], c, d);
      DeviateStep(s, c, Sq(d), c - 3.0 * d, c + 3.0 * d);
    }
  }

  /** The inductive step of `OutsideWeightsDeviate`: when a last weight
      outside `[lo, hi]` adds more than `9q`, the bound for all but the
      last weight extends to the whole sequence. */
  lemma DeviateStep(s: seq<real>, c: real, q: real, lo: real, hi: real)
    requires s != []
    requires s[|s| - 1] < lo || s[|s| - 1] > hi ==> Sq(s[|s| - 1] - c) > 9.0 * q
    requires Deviates(SumSqDev(s[..|s| - 1], c), q, CountOutside(s[..|s| - 1], lo, hi) as real)
    ensures Deviates(SumSqDev(s, c), q, CountOutside(s, lo, hi) as real)
  {
    var x := s[|s| - 1];
    if x < lo || x > hi {
      DeviateStepOutside(s, c, q, lo, hi);
    } else {
      DeviateStepInside(s, c, q, lo, hi);
    }
  }

  /** The step when the last weight lies outside `[lo, hi]` and adds more
      than `9q`. */
  lemma DeviateStepOutside(s: seq<real>, c: real, q: real, lo: real, hi: real)
    requires s != [] && (s[|s| - 1] < lo || s[|s| - 1] > hi) && Sq(s[|s| - 1] - c) > 9.0 * q
    requires Deviates(SumSqDev(s[..|s| - 1], c), q, CountOutside(s[..|s| - 1], lo, hi) as real)
    ensures Deviates(SumSqDev(s, c), q, CountOutside(s, lo, hi) as real)
  {
    var init, x := s[..|s| - 1], s[|s| - 1];
    LastTerms(s, c, lo, hi);
    OutsideStep(SumSqDev(init, c), SumSqDev(s, c), Sq(x - c), q,
                CountOutside(init, lo, hi) as real, CountOutside(s, lo, hi) as real);
  }

  /** The step when the last weight lies inside `[lo, hi]`. */
  lemma DeviateStepInside(s: seq<real>, c: real, q: real, lo: real, hi: real)
    requires s != [] && lo <= s[|s| - 1] <= hi
    requires Deviates(SumSqDev(s[..|s| - 1], c), q, CountOutside(s[..|s| - 1], lo, hi) as real)
    ensures Deviates(SumSqDev(s, c), q, CountOutside(s, lo, hi) as real)
  {
    var init, x := s[..|s| - 1], s[|s| - 1];
    LastTerms(s, c, lo, hi);
    SquareNonNegative(x - c);
    InsideStep(SumSqDev(init, c), SumSqDev(s, c), Sq(x - c), q,
               CountOutside(init, lo, hi) as real, CountOutside(s, lo, hi) as real);
  }

  /** The last weight's share of the squared deviations and of the
      outlier count. */
  lemma LastTerms(s: seq<real>, c: real, lo: real, hi: real)
    requires s != []
    ensures var init, x := s[..|s| - 1], s[|s| - 1];
      SumSqDev(s, c) == SumSqDev(init, c) + Sq(x - c) &&
      (x < lo || x > hi ==> CountOutside(s, lo, hi) as real == CountOutside(init, lo, hi) as real + 1.0) &&
      (lo <= x <= hi ==> CountOutside(s, lo, hi) as real == CountOutside(init, lo, hi) as real)
  {
  }

  /** A weight outside `c ± 3d` deviates from `c` by more than `9d²` in
      square. */
  lemma OutsideContribution(x: real, c: real, d: real)
    requires d >= 0.0
    ensures x < c - 3.0 * d || x > c + 3.0 * d ==> Sq(x - c) > 9.0 * Sq(d)
  {
    if x < c - 3.0 * d || x > c + 3.0 * d {
      OutsideSquare(x, c, d);
    }
  }

  lemma OutsideSquare(x: real, c: real, d: real)
    requires d >= 0.0 && (x < c - 3.0 * d || x > c + 3.0 * d)
    ensures Sq(x - c) > 9.0 * Sq(d)
  {
    var dev := if x < c then c - x else x - c;
    SquareMonotone(dev, 3.0 * d);
    assert Sq(x - c) == Sq(dev);
    assert Sq(3.0 * d) == 9.0 * Sq(d);
  }

  /** One inside weight, on plain numbers: adding a non-negative term
      keeps both bounds. */
  lemma InsideStep(A: real, A': real, e: real, q: real, k: real, k': real)
    requires Deviates(A, q, k) && A' == A + e && e >= 0.0 && k' == k
    ensures Deviates(A', q, k')
  {
    assert 9.0 * q * k' == 9.0 * q * k;
  }

  /** One outside weight, on plain numbers: `A >= 9qk` plus a term above
      `9q` exceeds `9q(k + 1)`. */
  lemma OutsideStep(A: real, A': real, e: real, q: real, k: real, k': real)
    requires Deviates(A, q, k) && A' == A + e && e > 9.0 * q && k' == k + 1.0
    ensures Deviates(A', q, k')
  {
    assert 9.0 * q * k' == 9.0 * q * k + 9.0 * q;
  }

  /** Chebyshev's bound for the extremity rule: fewer than one weight in
      nine lies outside mean ± 3·std (none at all when std = 0). */
  lemma ExtremeWeightsAreRare(weights: seq<Option<real>>, median: real, std: real)
    requires |DropMissing(weights)| > 0 && IsStd(DropMissing(weights), std)
    ensures var d := ComputeWeightDistribution(weights, median, std).value;
      9 * d.nExtreme <= d.nWeights && (std == 0.0 ==> d.nExtreme == 0)
  {
    var w := DropMissing(weights);
    var d := ComputeWeightDistribution(weights, median, std).value;
    assert d.nExtreme == CountOutside(w, Mean(w) - 3.0 * std, Mean(w) + 3.0 * std) && d.nWeights == |w|;
    OutliersAreRare(w, std);
  }

  /** Chebyshev's bound on the weights themselves. */
  lemma OutliersAreRare(w: seq<real>, std: real)
    requires |w| > 0 && IsStd(w, std)
    ensures var k := CountOutside(w, Mean(w) - 3.0 * std, Mean(w) + 3.0 * std);
      9 * k <= |w| && (std == 0.0 ==> k == 0)
  {
    var mean := Mean(w);
    var k := CountOutside(w, mean - 3.0 * std, mean + 3.0 * std);
    OutsideWeightsDeviate(w, mean, std);
    SquareNonNegative(std);
    ChebyshevStep(|w| as real, Sq(std), SumSqDev(w, mean), k as real);
    assert 9.0 * (k as real) <= |w| as real;
  }

  /** Chebyshev on plain numbers: with `ss = n·v` and each of `k` outliers
      contributing more than `9v`, `9k <= n`, and `k = 0` when `v = 0`. */
  lemma ChebyshevStep(n: real, v: real, ss: real, k: real)
    requires n > 0.0 && v >= 0.0 && k >= 0.0 && ss / n == v
    requires Deviates(ss, v, k)
    ensures 9.0 * k <= n && (v == 0.0 ==> k == 0.0)
  {
    assert ss == n * v;
    if k > 0.0 {
      assert v * (n - 9.0 * k) > 0.0;
    }
  }

  /** `n·Σw² - (Σw)² = n·Σ(w - c)²` for the centre `c` with `c·n = Σw`
      (the mean), the identity behind both ESS facts; `n`, `S`, `Q` and
      `D` name the count, the sum, the sum of squares and the squared
      deviations of `w`. */
  lemma EssIdentity(w: seq<real>, c: real, n: real, S: real, Q: real, D: real)
    requires n == |w| as real && S == Sum(w) && Q == SumSquares(w) && D == SumSqDev(w, c)
    requires c * n == S
    ensures n * Q - Sq(S) == n * D
  {
    SumSqDevExpand(w, c);
    EssAlgebra(n, S, Q, D, c);
  }

  lemma EssAlgebra(n: real, S: real, Q: real, D: real, c: real)
    requires c * n == S && D == Q - 2.0 * c * S + n * Sq(c)
    ensures n * Q - Sq(S) == n * D
  {
    assert n * D == n * Q - 2.0 * (c * n) * S + (c * n) * (c * n);
  }

  /** Kish's effective sample size never exceeds the number of weights
      (Cauchy–Schwarz), is positive when the weights do not sum to zero,
      and equals the number of weights exactly when all weights are
      equal. */
  lemma EffectiveSampleSizeBounds(w: seq<real>)
    requires |w| > 0 && EffectiveSampleSize(w).Some?
    ensures 0.0 <= EffectiveSampleSize(w).value <= |w| as real
    ensures Sum(w) != 0.0 ==> EffectiveSampleSize(w).value > 0.0
    ensures EffectiveSampleSize(w).value == |w| as real <==> forall i :: 0 <= i < |w| ==> w[i] == w[0]
  {
    var n, S, Q, c := |w| as real, Sum(w), SumSquares(w), Mean(w);
    var D := SumSqDev(w, c);
    MeanTimesCount(w);
    EssIdentity(w, c, n, S, Q, D);
    SumSqDevNonNegative(w, c);
    SquareNonNegative(S);
    EssStep(n, S, Q, D, EffectiveSampleSize(w).value);
    ConstantIffNoDeviation(w);
  }

  /** The weights deviate from their mean exactly when they are not all
      equal. */
  lemma ConstantIffNoDeviation(w: seq<real>)
    requires |w| > 0
    ensures SumSqDev(w, Mean(w)) == 0.0 <==> forall i :: 0 <= i < |w| ==> w[i] == w[0]
  {
    SumSqDevZero(w, Mean(w));
    if forall i :: 0 <= i < |w| ==> w[i] == w[0] {
      AllEqualMean(w);
    }
  }

  /** The ESS facts on plain numbers. */
  lemma EssStep(n: real, S: real, Q: real, D: real, ess: real)
    requires n > 0.0 && Q > 0.0 && D >= 0.0 && Sq(S) >= 0.0 && (S != 0.0 ==> Sq(S) > 0.0)
    requires n * Q - Sq(S) == n * D && ess == Sq(S) / Q
    ensures 0.0 <= ess <= n
    ensures S != 0.0 ==> ess > 0.0
    ensures ess == n <==> D == 0.0
  {
    assert ess * Q == Sq(S);
    assert (n - ess) * Q == n * D;
    if D > 0.0 {
      assert n * D > 0.0;
    }
  }

  /** A constant column has its common value as mean. */
  lemma AllEqualMean(w: seq<real>)
    requires |w| > 0 && forall i :: 0 <= i < |w| ==> w[i] == w[0]
    ensures Mean(w) == w[0]
  {
    SumBounds(w, w[0], w[0]);
    QuotientBounds(Sum(w), |w| as real, w[0], w[0]);
  }

  /** The reported shares are percentages. */
  lemma WeightDistributionBounds(weights: seq<Option<real>>, median: real, std: real)
    requires |DropMissing(weights)| > 0 && IsStd(DropMissing(weights), std)
    ensures var d := ComputeWeightDistribution(weights, median, std).value;
      0.0 <= d.pctExtreme <= 100.0 && d.minWeight <= d.meanWeight <= d.maxWeight &&
      (d.effectiveSampleSize.Some? ==> 0.0 <= d.effectiveSampleSize.value <= d.nWeights as real)
  {
    var w := DropMissing(weights);
    var d := ComputeWeightDistribution(weights, median, std).value;
    PercentBounds(d.nExtreme, |w|);
    MeanBetweenMinMax(w);
    if EffectiveSampleSize(w).Some? {
      EffectiveSampleSizeBounds(w);
    }
  }

  // ---------------------------------------------------------------------
  // compute_overlap_diagnostic
  // ---------------------------------------------------------------------

  /** Rows with both a score and a treatment, in order. */
  function ValidRows(scores: seq<Option<real>>, treatments: seq<Option<Key>>): (v: seq<(real, Key)>)
    requires |scores| == |treatments|
    ensures |v| <= |scores|
  {
    if scores == [] then []
    else
      var rest := ValidRows(scores[..|scores| - 1], treatments[..|treatments| - 1]);
      var s, t := scores[|scores| - 1], treatments[|treatments| - 1];
      if s.Some? && t.Some? then rest + [(s.value, t.value)] else rest
  }

  function ScoresOf(v: seq<(real, Key)>): (s: seq<real>)
    ensures |s| == |v|
  {
    seq(|v|, i requires 0 <= i < |v| => v[i].0)
  }

  /** Units assigned `t` (`np.sum(treatments == t)`). */
  function CountTreated(v: seq<(real, Key)>, t: Key): nat
  {
    if v == [] then 0 else CountTreated(v[..|v| - 1], t) + (if v[|v| - 1].1 == t then 1 else 0)
  }

  /** Units assigned `t` whose score lies in `[q1, q3]`. */
  function CountInOverlap(v: seq<(real, Key)>, t: Key, q1: real, q3: real): nat
  {
    if v == [] then 0
    else
      CountInOverlap(v[..|v| - 1], t, q1, q3) +
        (if v[|v| - 1].1 == t && q1 <= v[|v| - 1].0 <= q3 then 1 else 0)
  }

  /** A treatment's units inside the overlap region are among its units. */
  lemma {:induction false} InOverlapAtMostTreated(v: seq<(real, Key)>, t: Key, q1: real, q3: real)
    ensures CountInOverlap(v, t, q1, q3) <= CountTreated(v, t)
  {
    if v != [] {
      InOverlapAtMostTreated(v[..|v| - 1], t, q1, q3);
    }
  }

  /** The notes the diagnostic may carry. */
  datatype Note = NoSamplesInOverlap | LowOverlap(treatments: seq<Key>)

  datatype OverlapDiagnostic = OverlapDiagnostic(
    treatmentValues: seq<Key>,
    nSamplesPerTreatment: map<Key, nat>,
    hasOverlap: bool,
    overlapRange: (real, real),
    nSamplesInOverlap: map<Key, nat>,
    pctInOverlap: map<Key, real>,
    propensityMin: real, propensityMax: real, propensityMean: real,
    propensityQ1: real, propensityQ3: real,
    notes: seq<Note>)

  function PctInOverlap(nIn: nat, nTotal: nat): real
  {
    if nTotal > 0 then Percent(nIn, nTotal) else 0.0
  }

  /** The treatments, in list order, whose in-overlap share is below 50%. */
  function LowOverlapTreatments(ts: seq<Key>, pct: map<Key, real>): (low: seq<Key>)
    requires forall t :: t in ts ==> t in pct
    ensures forall t :: t in low <==> t in ts && pct[t] < 50.0
    ensures |low| <= |ts|
  {
    if ts == [] then []
    else
      var rest := LowOverlapTreatments(ts[..|ts| - 1], pct);
      var t := ts[|ts| - 1];
      assert forall u :: u in ts <==> u in ts[..|ts| - 1] || u == t;
      if pct[t] < 50.0 then rest + [t] else rest
  }

  /** What the overlap diagnostic states about the valid rows `v` for
      the listed treatments: per-treatment counts, in-overlap counts and
      shares, the overlap flag and the notes. */
  ghost predicate DescribesOverlap(v: seq<(real, Key)>, treatmentValues: seq<Key>, q1: real, q3: real,
                             d: OverlapDiagnostic)
  {
    d.treatmentValues == treatmentValues &&
    (forall t :: t in d.nSamplesPerTreatment <==> t in treatmentValues) &&
    (forall t :: t in d.nSamplesInOverlap <==> t in treatmentValues) &&
    (forall t :: t in d.pctInOverlap <==> t in treatmentValues) &&
    (forall t :: t in treatmentValues ==>
      d.nSamplesPerTreatment[t] == CountTreated(v, t) &&
      d.nSamplesInOverlap[t] == CountInOverlap(v, t, q1, q3) &&
      d.pctInOverlap[t] == PctInOverlap(d.nSamplesInOverlap[t], d.nSamplesPerTreatment[t])) &&
    (d.hasOverlap <==> forall t :: t in treatmentValues ==> d.nSamplesInOverlap[t] > 0) &&
    var low := LowOverlapTreatments(treatmentValues, d.pctInOverlap);
    d.notes == (if d.hasOverlap then [] else [NoSamplesInOverlap]) + (if low == [] then [] else [LowOverlap(low)])
  }

  /** The first loop: units per listed treatment. */
  method CountPerTreatment(v: seq<(real, Key)>, ts: seq<Key>) returns (nPer: map<Key, nat>)
    ensures forall t :: t in nPer <==> t in ts
    ensures forall t :: t in nPer ==> nPer[t] == CountTreated(v, t)
  {
    nPer := map[];
    var i := 0;
    while i < |ts|
      invariant 0 <= i <= |ts|
      invariant forall t :: t in nPer <==> t in ts[..i]
      invariant forall t :: t in nPer ==> nPer[t] == CountTreated(v, t)
    {
      nPer := nPer[ts[i] := CountTreated(v, ts[i])];
      assert ts[..i + 1] == ts[..i] + [ts[i]];
      i := i + 1;
    }
    assert ts[..i] == ts;
  }

  /** The second loop: units per listed treatment inside `[q1, q3]`,
      clearing the overlap flag for each treatment with none. */
  method CountOverlapPerTreatment(v: seq<(real, Key)>, ts: seq<Key>, q1: real, q3: real)
    returns (nIn: map<Key, nat>, hasOverlap: bool)
    ensures forall t :: t in nIn <==> t in ts
    ensures forall t :: t in nIn ==> nIn[t] == CountInOverlap(v, t, q1, q3)
    ensures hasOverlap <==> forall t :: t in ts ==> CountInOverlap(v, t, q1, q3) > 0
  {
    nIn := map[];
    hasOverlap := true;
    var i := 0;
    while i < |ts|
      invariant 0 <= i <= |ts|
      invariant forall t :: t in nIn <==> t in ts[..i]
      invariant forall t :: t in nIn ==> nIn[t] == CountInOverlap(v, t, q1, q3)
      invariant hasOverlap <==> forall t :: t in ts[..i] ==> CountInOverlap(v, t, q1, q3) > 0
    {
      var t := ts[i];
      nIn := nIn[t := CountInOverlap(v, t, q1, q3)];
      if nIn[t] == 0 {
        hasOverlap := false;
      }
      assert ts[..i + 1] == ts[..i] + [t];
      i := i + 1;
    }
    assert ts[..i] == ts;
  }

  /** What any pair of 25th and 75th percentiles of the valid scores
      satisfies: they are ordered and lie between the extremes. */
  predicate QuartilesWithin(v: seq<(real, Key)>, q1: real, q3: real)
  {
    v != [] ==> Min(ScoresOf(v)) <= q1 <= q3 <= Max(ScoresOf(v))
  }

  /** `compute_overlap_diagnostic`: keep the rows with both a score and a
      treatment (failing when none remain), count each listed treatment's
      units and those scored inside `[q1, q3]`, and collect the notes.
      `np.percentile` at 25 and 75 are supplied as `q1` and `q3`; like
      any percentiles they are ordered and lie within the valid scores. */
  method ComputeOverlapDiagnostic(scores: seq<Option<real>>, treatments: seq<Option<Key>>,
                                  treatmentValues: seq<Key>, q1: real, q3: real)
    returns (r: Result<OverlapDiagnostic, ReportError>)
    requires |scores| == |treatments|
    requires QuartilesWithin(ValidRows(scores, treatments), q1, q3)
    ensures r.Err? <==> ValidRows(scores, treatments) == []
    ensures r.Err? ==> r.error == NoValidScoresOrTreatments
    ensures r.Ok? ==> (
      var v, d := ValidRows(scores, treatments), r.value;
      DescribesOverlap(v, treatmentValues, q1, q3, d) &&
      d.overlapRange == (q1, q3) && d.propensityQ1 == q1 && d.propensityQ3 == q3 &&
      d.propensityMin == Min(ScoresOf(v)) && d.propensityMax == Max(ScoresOf(v)) &&
      d.propensityMean == Mean(ScoresOf(v)))
  {
    var valid := ValidRows(scores, treatments);
    if |valid| == 0 {
      return Err(NoValidScoresOrTreatments);
    }
    var d := DiagnoseValidRows(valid, treatmentValues, q1, q3);
    r := Ok(d);
  }

  /** The diagnostic over the rows that survive `dropna`: the per-arm
      counts, the shares and the notes, and the score summary. */
  method DiagnoseValidRows(valid: seq<(real, Key)>, treatmentValues: seq<Key>, q1: real, q3: real)
    returns (d: OverlapDiagnostic)
    requires valid != []
    ensures DescribesOverlap(valid, treatmentValues, q1, q3, d)
    ensures d.overlapRange == (q1, q3) && d.propensityQ1 == q1 && d.propensityQ3 == q3
    ensures d.propensityMin == Min(ScoresOf(valid)) && d.propensityMax == Max(ScoresOf(valid))
    ensures d.propensityMean == Mean(ScoresOf(valid))
  {
    var nPer := CountPerTreatment(valid, treatmentValues);
    var nIn, hasOverlap := CountOverlapPerTreatment(valid, treatmentValues, q1, q3);
    var pct := map t | t in treatmentValues :: PctInOverlap(nIn[t], nPer[t]);
    var notes: seq<Note> := [];
    if !hasOverlap {
      notes := notes + [NoSamplesInOverlap];
    }
    var low := LowOverlapTreatments(treatmentValues, pct);
    if low != [] {
      notes := notes + [LowOverlap(low)];
    }
    assert notes == (if hasOverlap then [] else [NoSamplesInOverlap]) + (if low == [] then [] else [LowOverlap(low)]);
    var s := ScoresOf(valid);
    d := OverlapDiagnostic(treatmentValues, nPer, hasOverlap, (q1, q3), nIn, pct,
                           Min(s), Max(s), Mean(s), q1, q3, notes);
    assert forall t :: t in treatmentValues ==>
      nPer[t] == CountTreated(valid, t) && nIn[t] == CountInOverlap(valid, t, q1, q3) &&
      pct[t] == PctInOverlap(nIn[t], nPer[t]);
  }

  /** What the diagnostic promises per treatment: in-overlap counts are
      bounded by the treatment's count, shares are percentages, the
      no-overlap note appears exactly when some listed treatment has no
      unit inside `[q1, q3]`, and the low-overlap note lists exactly the
      treatments below 50%. */
  lemma OverlapDiagnosticMeaning(v: seq<(real, Key)>, treatmentValues: seq<Key>, q1: real, q3: real,
                                 d: OverlapDiagnostic)
    requires DescribesOverlap(v, treatmentValues, q1, q3, d)
    ensures forall t :: t in treatmentValues ==>
      d.nSamplesInOverlap[t] <= d.nSamplesPerTreatment[t] &&
      0.0 <= d.pctInOverlap[t] <= 100.0
    ensures NoSamplesInOverlap in d.notes <==> exists t :: t in treatmentValues && d.nSamplesInOverlap[t] == 0
    ensures forall t :: t in treatmentValues && d.nSamplesPerTreatment[t] == 0 ==> d.pctInOverlap[t] == 0.0
    ensures forall low :: LowOverlap(low) in d.notes ==>
      forall t :: t in low <==> t in treatmentValues && d.pctInOverlap[t] < 50.0
    ensures |d.notes| <= 2
  {
    forall t | t in treatmentValues
      ensures d.nSamplesInOverlap[t] <= d.nSamplesPerTreatment[t] && 0.0 <= d.pctInOverlap[t] <= 100.0
    {
      InOverlapAtMostTreated(v, t, q1, q3);
      if d.nSamplesPerTreatment[t] > 0 {
        PercentBounds(d.nSamplesInOverlap[t], d.nSamplesPerTreatment[t]);
      }
    }
  }
}

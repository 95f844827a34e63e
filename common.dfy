/** Shared vocabulary of the model: optional values, results, index labels,
    and the counting and summing reductions that pandas/numpy perform on
    a column of values. */
module Common {

  /** Index labels of a DataFrame/Series and treatment labels. */
  type Key = int

  datatype Option<+T> = None | Some(value: T)

  datatype Result<+T, +E> = Ok(value: T) | Err(error: E)

  /** An object handed to the core by the caller (a learner, for instance):
      its class name and the attribute names `hasattr` finds on it
      (methods included). */
  datatype PyObject = PyObject(className: string, attrs: set<string>)

  /** Number of missing entries (pandas `isnull().sum()`). */
  function CountMissing<T>(s: seq<Option<T>>): (n: nat)
    ensures n <= |s|
    ensures n == 0 <==> forall i :: 0 <= i < |s| ==> s[i].Some?
  {
    if s == [] then 0
    else CountMissing(s[..|s| - 1]) + (if s[|s| - 1].None? then 1 else 0)
  }

  /** The non-missing entries of a column, in order (pandas `dropna()`). */
  function DropMissing(s: seq<Option<real>>): (r: seq<real>)
    ensures |r| <= |s|
    ensures forall x :: x in r <==> Some(x) in s
  {
    if s == [] then []
    else
      var rest := DropMissing(s[..|s| - 1]);
      assert forall x :: Some(x) in s <==> Some(x) in s[..|s| - 1] || s[|s| - 1] == Some(x);
      match s[|s| - 1]
      case None => rest
      case Some(x) => rest + [x]
  }

  /** Number of entries strictly below `bound` (numpy `np.sum(s < bound)`). */
  function CountBelow(s: seq<real>, bound: real): (n: nat)
    ensures n <= |s|
  {
    if s == [] then 0
    else CountBelow(s[..|s| - 1], bound) + (if s[|s| - 1] < bound then 1 else 0)
  }

  /** Number of entries strictly above `bound` (numpy `np.sum(s > bound)`). */
  function CountAbove(s: seq<real>, bound: real): (n: nat)
    ensures n <= |s|
  {
    if s == [] then 0
    else CountAbove(s[..|s| - 1], bound) + (if s[|s| - 1] > bound then 1 else 0)
  }

  /** Number of positions holding the label `t` (numpy `np.sum(a == t)`). */
  function CountKey(a: seq<Key>, t: Key): (n: nat)
    ensures n <= |a|
  {
    if a == [] then 0
    else CountKey(a[..|a| - 1], t) + (if a[|a| - 1] == t then 1 else 0)
  }

  function Sum(s: seq<real>): real
  {
    if s == [] then 0.0 else Sum(s[..|s| - 1]) + s[|s| - 1]
  }

  /** The square of a number. */
  function Sq(x: real): real
  {
    x * x
  }

  function SumSquares(s: seq<real>): real
  {
    if s == [] then 0.0 else SumSquares(s[..|s| - 1]) + Sq(s[|s| - 1])
  }

  /** Arithmetic mean (numpy `np.mean`) of a non-empty column. */
  function Mean(s: seq<real>): real
    requires |s| > 0
  {
    Sum(s) / |s| as real
  }

  function Min(s: seq<real>): (m: real)
    requires |s| > 0
    ensures m in s && forall x :: x in s ==> m <= x
  {
    if |s| == 1 then s[0]
    else
      var m' := Min(s[..|s| - 1]);
      assert forall x :: x in s ==> x in s[..|s| - 1] || x == s[|s| - 1];
      if s[|s| - 1] < m' then s[|s| - 1] else m'
  }

  function Max(s: seq<real>): (m: real)
    requires |s| > 0
    ensures m in s && forall x :: x in s ==> x <= m
  {
    if |s| == 1 then s[0]
    else
      var m' := Max(s[..|s| - 1]);
      assert forall x :: x in s ==> x in s[..|s| - 1] || x == s[|s| - 1];
      if s[|s| - 1] > m' then s[|s| - 1] else m'
  }

  /** `100 * part / whole`, the percentage the reports compute. */
  function Percent(part: nat, whole: nat): real
    requires whole > 0
  {
    100.0 * part as real / whole as real
  }

  /** A count out of a total is a percentage in [0, 100]. */
  lemma PercentBounds(part: nat, whole: nat)
    requires whole > 0 && part <= whole
    ensures 0.0 <= Percent(part, whole) <= 100.0
  {
    assert part as real <= whole as real;
    assert 100.0 * part as real <= 100.0 * whole as real;
  }

  /** Comparing a quotient by a positive divisor with a constant. */
  lemma DivAbove(x: real, n: real, c: real)
    requires n > 0.0
    ensures x / n > c <==> x > c * n
  {
    var q := x / n;
    assert x == q * n;
    if q > c {
      assert (q - c) * n > 0.0;
    } else {
      assert (c - q) * n >= 0.0;
    }
  }

  /** Summation distributes over concatenation. */
  lemma {:induction false} SumAppend(s: seq<real>, t: seq<real>)
    ensures Sum(s + t) == Sum(s) + Sum(t)
  {
    if t == [] {
      assert s + t == s;
    } else {
      assert (s + t)[..|s + t| - 1] == s + t[..|t| - 1];
      SumAppend(s, t[..|t| - 1]);
    }
  }

  /** The mean of a column lies between its minimum and its maximum. */
  lemma {:induction false} MeanBetweenMinMax(s: seq<real>)
    requires |s| > 0
    ensures Min(s) <= Mean(s) <= Max(s)
  {
    var lo, hi := Min(s), Max(s);
    var n := |s| as real;
    SumBounds(s, lo, hi);
    var total := Sum(s);
    QuotientBounds(total, n, lo, hi);
    assert Mean(s) == total / n;
  }

  /** The mean times the number of entries gives back the sum. */
  lemma MeanTimesCount(s: seq<real>)
    requires |s| > 0
    ensures Mean(s) * |s| as real == Sum(s)
  {
    var n, total := |s| as real, Sum(s);
    assert Mean(s) == total / n;
  }

  /** Dividing `n*lo <= x <= n*hi` by a positive `n`. */
  lemma QuotientBounds(x: real, n: real, lo: real, hi: real)
    requires n > 0.0 && n * lo <= x <= n * hi
    ensures lo <= x / n <= hi
  {
    var q := x / n;
    assert x == n * q;
  }

  lemma {:induction false} SumBounds(s: seq<real>, lo: real, hi: real)
    requires forall x :: x in s ==> lo <= x <= hi
    ensures |s| as real * lo <= Sum(s) <= |s| as real * hi
  {
    if s != [] {
      var init := s[..|s| - 1];
      assert forall i :: 0 <= i < |init| ==> init[i] == s[i];
      assert forall x :: x in init ==> x in s;
      SumBounds(init, lo, hi);
      assert s[|s| - 1] in s;
      BoundsStep(|init| as real, Sum(init), s[|s| - 1], lo, hi, |s| as real, Sum(s));
    }
  }

  /** One more term between `lo` and `hi`, on plain numbers. */
  lemma BoundsStep(n: real, total: real, x: real, lo: real, hi: real, n': real, total': real)
    requires n * lo <= total <= n * hi && lo <= x <= hi
    requires n' == n + 1.0 && total' == total + x
    ensures n' * lo <= total' <= n' * hi
  {
    assert n' * lo == n * lo + lo && n' * hi == n * hi + hi;
  }

  /** Some entry lies below `bound` exactly when the count of such entries
      is positive. */
  lemma {:induction false} CountBelowExists(s: seq<real>, bound: real)
    ensures CountBelow(s, bound) > 0 <==> exists x :: x in s && x < bound
  {
    if s != [] {
      var init, last := s[..|s| - 1], s[|s| - 1];
      CountBelowExists(init, bound);
      assert s == init + [last];
      if last < bound {
        assert last in s;
      }
      if exists x :: x in init && x < bound {
        var x :| x in init && x < bound;
        assert x in s;
      }
      if exists x :: x in s && x < bound {
        var x :| x in s && x < bound;
        assert x in init || x == last;
      }
    }
  }

  lemma {:induction false} CountAboveExists(s: seq<real>, bound: real)
    ensures CountAbove(s, bound) > 0 <==> exists x :: x in s && x > bound
  {
    if s != [] {
      var init, last := s[..|s| - 1], s[|s| - 1];
      CountAboveExists(init, bound);
      assert s == init + [last];
      if last > bound {
        assert last in s;
      }
      if exists x :: x in init && x > bound {
        var x :| x in init && x > bound;
        assert x in s;
      }
      if exists x :: x in s && x > bound {
        var x :| x in s && x > bound;
        assert x in init || x == last;
      }
    }
  }

  /** No entry is both below `lo` and above `hi > lo`, so the two counts
      together never exceed the length. */
  lemma {:induction false} CountBelowAboveDisjoint(s: seq<real>, lo: real, hi: real)
    requires lo < hi
    ensures CountBelow(s, lo) + CountAbove(s, hi) <= |s|
  {
    if s != [] {
      CountBelowAboveDisjoint(s[..|s| - 1], lo, hi);
    }
  }

  /** `m` is a median of `s` (`np.median`): at most half of the entries
      lie strictly below it, and at most half strictly above. */
  predicate IsMedian(s: seq<real>, m: real)
  {
    2 * CountBelow(s, m) <= |s| && 2 * CountAbove(s, m) <= |s|
  }

  /** When every entry lies above `bound`, all of them are counted. */
  lemma {:induction false} CountAboveAll(s: seq<real>, bound: real)
    requires forall x :: x in s ==> x > bound
    ensures CountAbove(s, bound) == |s|
  {
    if s != [] {
      var init := s[..|s| - 1];
      assert forall x :: x in init ==> x in s;
      CountAboveAll(init, bound);
      assert s[|s| - 1] in s;
    }
  }

  /** When every entry lies below `bound`, all of them are counted. */
  lemma {:induction false} CountBelowAll(s: seq<real>, bound: real)
    requires forall x :: x in s ==> x < bound
    ensures CountBelow(s, bound) == |s|
  {
    if s != [] {
      var init := s[..|s| - 1];
      assert forall x :: x in init ==> x in s;
      CountBelowAll(init, bound);
      assert s[|s| - 1] in s;
    }
  }

  /** A median of a non-empty sequence lies between its minimum and its
      maximum. */
  lemma MedianWithinRange(s: seq<real>, m: real)
    requires |s| > 0 && IsMedian(s, m)
    ensures Min(s) <= m <= Max(s)
  {
    if m < Min(s) {
      CountAboveAll(s, m);
    }
    if m > Max(s) {
      CountBelowAll(s, m);
    }
  }
}

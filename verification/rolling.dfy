/**
 Trailing-window statistics of a column: `Series.rolling(window=w).mean()`
 and `.var()` with the library's default `min_periods = w`, so position i
 is NaN until w values are available (i < w - 1).
 */
module Rolling {
  import opened Values

  /** A rolling window length. */
  type Window = w: int | 1 <= w witness 1

  /** Sum of a finite sequence of reals, adding from the left. */
  function Sum(xs: seq<real>): real
    decreases |xs|
  {
    if |xs| == 0 then 0.0 else Sum(xs[..|xs| - 1]) + xs[|xs| - 1]
  }

  /** Arithmetic mean of a non-empty window. */
  function Mean(xs: seq<real>): real
    requires |xs| > 0
  {
    Sum(xs) / |xs| as real
  }

  /** Whether every element of xs lies in [lo, hi]. */
  predicate Within(xs: seq<real>, lo: real, hi: real)
  {
    forall k :: 0 <= k < |xs| ==> lo <= xs[k] <= hi
  }

  /** `Series.rolling(window=w).mean()`: the mean of the w values ending at i. */
  function RollingMean(xs: seq<real>, w: Window): (r: seq<Option<real>>)
    ensures |r| == |xs|
    ensures forall i :: 0 <= i < |xs| ==> (r[i].Some? <==> w - 1 <= i)
  {
    seq(|xs|, i requires 0 <= i < |xs| =>
      if i < w - 1 then None else Some(Mean(xs[i - w + 1..i + 1])))
  }

  /** Sum of squared deviations from m. */
  function SquaredDeviation(xs: seq<real>, m: real): real
    decreases |xs|
  {
    if |xs| == 0 then 0.0
    else SquaredDeviation(xs[..|xs| - 1], m) + (xs[|xs| - 1] - m) * (xs[|xs| - 1] - m)
  }

  /**
   `Series.rolling(window=w).var()`: the sample variance (one degree of
   freedom removed) of the w values ending at i; a single value has no sample
   variance, so a window of 1 is NaN everywhere.
   */
  function RollingVar(xs: seq<real>, w: Window): (r: seq<Option<real>>)
    ensures |r| == |xs|
    ensures forall i :: 0 <= i < |xs| ==> (r[i].Some? <==> 2 <= w && w - 1 <= i)
  {
    seq(|xs|, i requires 0 <= i < |xs| =>
      if i < w - 1 || w < 2 then None
      else Some(SquaredDeviation(xs[i - w + 1..i + 1], Mean(xs[i - w + 1..i + 1])) / (w - 1) as real))
  }

  // ---------------------------------------------------------------- sums

  lemma {:induction false} SumAppend(a: seq<real>, b: seq<real>)
    ensures Sum(a + b) == Sum(a) + Sum(b)
    decreases |b|
  {
    if |b| == 0 {
      assert a + b == a;
    } else {
      var b' := b[..|b| - 1];
      assert (a + b)[..|a + b| - 1] == a + b';
      SumAppend(a, b');
    }
  }

  /** The sum can be peeled from the front as well as from the back. */
  lemma {:induction false} SumFront(xs: seq<real>)
    requires |xs| > 0
    ensures Sum(xs) == xs[0] + Sum(xs[1..])
    decreases |xs|
  {
    var n := |xs|;
    if n > 1 {
      SumFront(xs[..n - 1]);
      assert xs[..n - 1][1..] == xs[1..][..n - 2];
    }
  }

  /** Extending a slice by one element on the right adds that element. */
  lemma SumSliceExtend(xs: seq<real>, a: int, b: int)
    requires 0 <= a <= b < |xs|
    ensures Sum(xs[a..b + 1]) == Sum(xs[a..b]) + xs[b]
  {
    assert xs[a..b + 1][..b - a] == xs[a..b];
  }

  /** Bounds of the elements bound the sum: |xs|·lo <= Σ xs <= |xs|·hi. */
  lemma {:induction false} SumWithin(xs: seq<real>, lo: real, hi: real)
    requires Within(xs, lo, hi)
    ensures |xs| as real * lo <= Sum(xs) <= |xs| as real * hi
    decreases |xs|
  {
    if |xs| > 0 {
      var n := |xs| - 1;
      SumWithin(xs[..n], lo, hi);
      assert lo <= xs[n] <= hi;
      assert |xs| as real * lo == n as real * lo + lo;
      assert |xs| as real * hi == n as real * hi + hi;
    }
  }

  /** A sum of values that are never negative is never negative. */
  lemma {:induction false} SumNonNegative(xs: seq<real>)
    requires forall k :: 0 <= k < |xs| ==> xs[k] >= 0.0
    ensures Sum(xs) >= 0.0
    decreases |xs|
  {
    if |xs| > 0 {
      SumNonNegative(xs[..|xs| - 1]);
    }
  }

  /** Element-wise unary minus of a column without NaN. */
  function Negate(xs: seq<real>): (r: seq<real>)
    ensures |r| == |xs|
  {
    seq(|xs|, i requires 0 <= i < |xs| => -xs[i])
  }

  /** Negating every element negates the sum. */
  lemma {:induction false} SumNegate(xs: seq<real>)
    ensures Sum(Negate(xs)) == -Sum(xs)
    decreases |xs|
  {
    if |xs| > 0 {
      var n := |xs| - 1;
      SumNegate(xs[..n]);
      assert Negate(xs)[..n] == Negate(xs[..n]);
    }
  }

  /** A sum of values that are never negative is positive once one of them is. */
  lemma {:induction false} SumPositive(xs: seq<real>, j: int)
    requires forall k :: 0 <= k < |xs| ==> xs[k] >= 0.0
    requires 0 <= j < |xs| && xs[j] > 0.0
    ensures Sum(xs) > 0.0
    decreases |xs|
  {
    var n := |xs| - 1;
    SumNonNegative(xs[..n]);
    if j < n {
      SumPositive(xs[..n], j);
    }
  }

  /** A strict upper bound on every element gives a strict bound on a non-empty sum. */
  lemma {:induction false} SumBelow(xs: seq<real>, c: real)
    requires |xs| > 0
    requires forall k :: 0 <= k < |xs| ==> xs[k] < c
    ensures Sum(xs) < |xs| as real * c
    decreases |xs|
  {
    var n := |xs| - 1;
    if n == 0 {
      assert xs[..n] == [];
    } else {
      SumBelow(xs[..n], c);
    }
    assert |xs| as real * c == n as real * c + c;
  }

  /** A sum of squares is never negative. */
  lemma {:induction false} SquaredDeviationNonNegative(xs: seq<real>, m: real)
    ensures SquaredDeviation(xs, m) >= 0.0
    decreases |xs|
  {
    if |xs| > 0 {
      SquaredDeviationNonNegative(xs[..|xs| - 1], m);
      var d := xs[|xs| - 1] - m;
      assert d * d >= 0.0;
    }
  }

  // ---------------------------------------------------------------- rolling mean

  /**
   The rolling mean is NaN exactly before the window fills, and from then on
   it is the mean of the last w values.
   */
  lemma RollingMeanDefinedExactly(xs: seq<real>, w: Window, i: int)
    requires 0 <= i < |xs|
    ensures RollingMean(xs, w)[i].Some? <==> i >= w - 1
    ensures i >= w - 1 ==>
      RollingMean(xs, w)[i].value * w as real == Sum(xs[i - w + 1..i + 1])
  {
  }

  /** Bounds on a total of n values bound their average. */
  lemma QuotientWithin(total: real, n: real, lo: real, hi: real)
    requires n > 0.0
    requires n * lo <= total <= n * hi
    ensures lo <= total / n <= hi
  {
    var q := total / n;
    assert q * n == total;
  }

  /** A defined rolling mean lies between the smallest and largest value of its window. */
  lemma RollingMeanWithin(xs: seq<real>, w: Window, i: int, lo: real, hi: real)
    requires w - 1 <= i < |xs|
    requires Within(xs[i - w + 1..i + 1], lo, hi)
    ensures RollingMean(xs, w)[i].Some?
    ensures lo <= RollingMean(xs, w)[i].value <= hi
  {
    var win := xs[i - w + 1..i + 1];
    SumWithin(win, lo, hi);
    QuotientWithin(Sum(win), |win| as real, lo, hi);
  }

  /** The rolling mean of values that are never negative is never negative. */
  lemma RollingMeanNonNegative(xs: seq<real>, w: Window)
    requires forall k :: 0 <= k < |xs| ==> xs[k] >= 0.0
    ensures forall i :: 0 <= i < |xs| && RollingMean(xs, w)[i].Some? ==> RollingMean(xs, w)[i].value >= 0.0
  {
    forall i | 0 <= i < |xs| && RollingMean(xs, w)[i].Some?
      ensures RollingMean(xs, w)[i].value >= 0.0
    {
      SumNonNegative(xs[i - w + 1..i + 1]);
    }
  }

  /** Negating every element negates the mean. */
  lemma MeanNegate(xs: seq<real>)
    requires |xs| > 0
    ensures Mean(Negate(xs)) == -Mean(xs)
  {
    SumNegate(xs);
    var q := Mean(xs);
    var n := |xs| as real;
    assert q * n == Sum(xs);
    assert (-q) * n == Sum(Negate(xs));
  }

  /** The rolling mean of the negated column, cell by cell, is the negated rolling mean. */
  lemma RollingMeanNegateAt(xs: seq<real>, w: Window, i: int)
    requires 0 <= i < |xs|
    ensures RollingMean(Negate(xs), w)[i] == Negated(RollingMean(xs, w)[i])
  {
    if i >= w - 1 {
      var win := xs[i - w + 1..i + 1];
      assert Negate(xs)[i - w + 1..i + 1] == Negate(win);
      MeanNegate(win);
      assert RollingMean(Negate(xs), w)[i] == Some(Mean(Negate(win)));
      assert RollingMean(xs, w)[i] == Some(Mean(win));
    }
  }

  /** The rolling mean of the negated column is the negated rolling mean. */
  lemma RollingMeanNegate(xs: seq<real>, w: Window)
    ensures RollingMean(Negate(xs), w) == seq(|xs|, i requires 0 <= i < |xs| => Negated(RollingMean(xs, w)[i]))
  {
    forall i | 0 <= i < |xs|
      ensures RollingMean(Negate(xs), w)[i] == Negated(RollingMean(xs, w)[i])
    {
      RollingMeanNegateAt(xs, w, i);
    }
  }

  /**
   A defined rolling mean of values that are never negative is positive
   exactly when some value in its window is.
   */
  lemma RollingMeanPositive(xs: seq<real>, w: Window, i: int)
    requires w - 1 <= i < |xs|
    requires forall k :: 0 <= k < |xs| ==> xs[k] >= 0.0
    ensures RollingMean(xs, w)[i].Some?
    ensures RollingMean(xs, w)[i].value > 0.0 <==> exists k :: i - w + 1 <= k <= i && xs[k] > 0.0
  {
    var lo := i - w + 1;
    var win := xs[lo..i + 1];
    var n := w as real;
    if k :| lo <= k <= i && xs[k] > 0.0 {
      assert win[k - lo] == xs[k];
      SumPositive(win, k - lo);
      assert Sum(win) / n > 0.0;
    } else {
      assert Within(win, 0.0, 0.0);
      SumWithin(win, 0.0, 0.0);
      assert Sum(win) == 0.0;
    }
  }

  /** Start of the up-to-w values that precede position i. */
  function TailStart(i: nat, w: Window): nat
  {
    if i >= w then i - w else 0
  }

  /** Moving the running window sum from position i to position i + 1. */
  lemma WindowAdvance(xs: seq<real>, w: Window, i: int, total: real)
    requires 0 <= i < |xs|
    requires total == Sum(xs[TailStart(i, w)..i])
    ensures total + xs[i] - (if i >= w then xs[i - w] else 0.0) == Sum(xs[TailStart(i + 1, w)..i + 1])
  {
    SumSliceExtend(xs, TailStart(i, w), i);
    if i >= w {
      SumFront(xs[i - w..i + 1]);
      assert xs[i - w..i + 1][1..] == xs[i - w + 1..i + 1];
    }
  }

  /** The running sum at position i yields the rolling mean cell at i. */
  lemma WindowCell(xs: seq<real>, w: Window, i: int, total: real)
    requires 0 <= i < |xs|
    requires total == Sum(xs[TailStart(i + 1, w)..i + 1])
    ensures (if i < w - 1 then None else Some(total / w as real)) == RollingMean(xs, w)[i]
  {
  }

  /** The cell the single pass emits at position i from the window sum there. */
  function SlidingCell(w: Window, i: int, total: real): Option<real>
  {
    if i < w - 1 then None else Some(total / w as real)
  }

  /**
   One step of the single pass: from the window sum before position i, adding
   the entering value and subtracting the leaving one gives the window sum at
   i, and the cell emitted there is the rolling mean at i.
   */
  lemma SlidingStep(xs: seq<real>, w: Window, i: int, total: real, next: real)
    requires 0 <= i < |xs|
    requires total == Sum(xs[TailStart(i, w)..i])
    requires next == total + xs[i] - (if i >= w then xs[i - w] else 0.0)
    ensures next == Sum(xs[TailStart(i + 1, w)..i + 1])
    ensures SlidingCell(w, i, next) == RollingMean(xs, w)[i]
  {
    WindowAdvance(xs, w, i, total);
    WindowCell(xs, w, i, next);
  }

  /** Extending a prefix of s by the next element gives the next prefix, and the full prefix is s. */
  lemma PrefixExtend<T>(s: seq<T>, i: nat)
    requires i <= |s|
    ensures i < |s| ==> s[..i + 1] == s[..i] + [s[i]]
    ensures i == |s| ==> s[..i] == s
  {
  }

  /**
   The rolling mean as the library computes it: one pass that keeps a running
   window sum, adding the value entering the window and subtracting the one
   leaving it. It agrees with the per-position definition everywhere.
   */
  method SlidingMean(xs: seq<real>, w: Window) returns (r: seq<Option<real>>)
    ensures r == RollingMean(xs, w)
  {
    ghost var m := RollingMean(xs, w);
    r := [];
    var total := 0.0;
    var i := 0;
    while i < |xs|
      invariant 0 <= i <= |xs|
      invariant r == m[..i]
      invariant total == Sum(xs[TailStart(i, w)..i])
    {
      var leaving := if i >= w then xs[i - w] else 0.0;
      var next := total + xs[i] - leaving;
      SlidingStep(xs, w, i, total, next);
      total := next;
      PrefixExtend(m, i);
      r := r + [SlidingCell(w, i, total)];
      i := i + 1;
    }
    PrefixExtend(m, |xs|);
  }

  // ---------------------------------------------------------------- rolling variance

  /** Values that all equal m have no deviation from m. */
  lemma {:induction false} SquaredDeviationOfConstant(xs: seq<real>, m: real)
    requires forall k :: 0 <= k < |xs| ==> xs[k] == m
    ensures SquaredDeviation(xs, m) == 0.0
    decreases |xs|
  {
    if |xs| > 0 {
      SquaredDeviationOfConstant(xs[..|xs| - 1], m);
    }
  }

  /** A window of equal values has mean equal to that value and sample variance zero. */
  lemma RollingVarOfFlatWindow(xs: seq<real>, w: Window, i: int, p: real)
    requires 2 <= w && w - 1 <= i < |xs|
    requires forall k :: i - w + 1 <= k <= i ==> xs[k] == p
    ensures RollingMean(xs, w)[i] == Some(p)
    ensures RollingVar(xs, w)[i] == Some(0.0)
  {
    var win := xs[i - w + 1..i + 1];
    assert Within(win, p, p);
    RollingMeanWithin(xs, w, i, p, p);
    assert Mean(win) == p;
    SquaredDeviationOfConstant(win, p);
  }

  /**
   The rolling sample variance is NaN exactly before the window fills (and
   everywhere for a window of one value), and never negative once defined.
   */
  lemma RollingVarDefinedExactly(xs: seq<real>, w: Window, i: int)
    requires 0 <= i < |xs|
    ensures RollingVar(xs, w)[i].Some? <==> (w >= 2 && i >= w - 1)
    ensures RollingVar(xs, w)[i].Some? ==> RollingVar(xs, w)[i].value >= 0.0
  {
    if w >= 2 && i >= w - 1 {
      var win := xs[i - w + 1..i + 1];
      SquaredDeviationNonNegative(win, Mean(win));
    }
  }

  // ---------------------------------------------------------------- constant and increasing series

  /** Whether the close is strictly increasing over the whole series. */
  predicate StrictlyIncreasing(closes: seq<real>)
  {
    forall j, k :: 0 <= j < k < |closes| ==> closes[j] < closes[k]
  }

  /** The moving average of a constant series equals the constant once defined. */
  lemma RollingMeanOfConstant(closes: seq<real>, w: Window, i: int, p: real)
    requires w - 1 <= i < |closes|
    requires forall k :: 0 <= k < |closes| ==> closes[k] == p
    ensures RollingMean(closes, w)[i] == Some(p)
  {
    RollingMeanWithin(closes, w, i, p, p);
  }

  /** In a strictly increasing window the last value is above the mean. */
  lemma LastAboveMean(closes: seq<real>, w: Window, i: int)
    requires StrictlyIncreasing(closes)
    requires 2 <= w && w - 1 <= i < |closes|
    ensures RollingMean(closes, w)[i].Some?
    ensures RollingMean(closes, w)[i].value < closes[i]
  {
    var win := closes[i - w + 1..i + 1];
    var head := win[..w - 1];
    var c := closes[i];
    forall k | 0 <= k < |head| ensures head[k] < c {
      assert head[k] == closes[i - w + 1 + k];
    }
    SumBelow(head, c);
    assert Sum(win) == Sum(head) + c;
    var n := w as real;
    assert Sum(win) < n * c;
    assert Sum(win) / n < c;
  }
}

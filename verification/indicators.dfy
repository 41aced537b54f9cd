/**
 The indicator engine of the desktop analyzer (`calculate_indicators`): from
 the close column it derives the 20- and 50-bar moving averages, RSI(14),
 the MACD line and signal, and the 20-bar Bollinger bands at two standard
 deviations. Every column is aligned position by position with the closes.
 */
module Indicators {
  import opened Values
  import opened Rolling
  import opened Exponential

  const ShortWindow: Window := 20
  const LongWindow: Window := 50
  const RsiWindow: Window := 14
  const BandWindow: Window := 20

  // ---------------------------------------------------------------- price changes

  /** `close.diff()`: NaN at the first position, then the change from the previous close. */
  function Diff(closes: seq<real>): (d: seq<Option<real>>)
    ensures |d| == |closes|
    ensures |closes| > 0 ==> d[0].None?
    ensures forall i :: 0 < i < |closes| ==> d[i].Some? && closes[i - 1] + d[i].value == closes[i]
  {
    seq(|closes|, i requires 0 <= i < |closes| =>
      if i == 0 then None else Some(closes[i] - closes[i - 1]))
  }

  /** `delta.where(delta > 0, 0)`: rises are kept, everything else (NaN included) becomes 0. */
  function Rises(delta: seq<Option<real>>): (r: seq<real>)
    ensures |r| == |delta|
    ensures forall i :: 0 <= i < |delta| ==> r[i] >= 0.0
    ensures forall i :: 0 <= i < |delta| ==> (r[i] != 0.0 <==> delta[i].Some? && delta[i].value > 0.0)
    ensures forall i :: 0 <= i < |delta| && r[i] != 0.0 ==> delta[i] == Some(r[i])
  {
    seq(|delta|, i requires 0 <= i < |delta| =>
      if Greater(delta[i], Some(0.0)) then delta[i].value else 0.0)
  }

  /** `delta.where(delta < 0, 0)`: falls are kept as negative numbers, everything else becomes 0. */
  function Falls(delta: seq<Option<real>>): (r: seq<real>)
    ensures |r| == |delta|
    ensures forall i :: 0 <= i < |delta| ==> r[i] <= 0.0
    ensures forall i :: 0 <= i < |delta| ==> (r[i] != 0.0 <==> delta[i].Some? && delta[i].value < 0.0)
    ensures forall i :: 0 <= i < |delta| && r[i] != 0.0 ==> delta[i] == Some(r[i])
  {
    seq(|delta|, i requires 0 <= i < |delta| =>
      if Less(delta[i], Some(0.0)) then delta[i].value else 0.0)
  }

  /** Whether the close changes at some position k of [lo, hi) with k >= 1. */
  predicate Moves(closes: seq<real>, lo: int, hi: int)
    requires 0 <= lo <= hi <= |closes|
  {
    exists k :: lo <= k < hi && 0 < k && closes[k] != closes[k - 1]
  }

  /** The close changes in [lo, hi] exactly when it rises or falls there. */
  lemma MovesUpOrDown(closes: seq<real>, lo: int, hi: int)
    requires 0 <= lo <= hi < |closes|
    ensures Moves(closes, lo, hi + 1) <==>
      (exists k :: lo <= k <= hi && 0 < k && closes[k - 1] < closes[k]) ||
      (exists k :: lo <= k <= hi && 0 < k && closes[k] < closes[k - 1])
  {
    if Moves(closes, lo, hi + 1) {
      var k :| lo <= k < hi + 1 && 0 < k && closes[k] != closes[k - 1];
      assert closes[k - 1] < closes[k] || closes[k] < closes[k - 1];
    }
  }

  /** Whether every position of [lo, hi) closes strictly above the previous one. */
  predicate RisesThroughout(closes: seq<real>, lo: int, hi: int)
    requires 1 <= lo <= hi <= |closes|
  {
    forall k :: lo <= k < hi ==> closes[k - 1] < closes[k]
  }

  // ---------------------------------------------------------------- RSI

  /** Whether every defined cell of a column is non-negative. */
  predicate NonNegativeCells(col: seq<Option<real>>)
  {
    forall i :: 0 <= i < |col| && col[i].Some? ==> col[i].value >= 0.0
  }

  /**
   `100 - 100 / (1 + gain / loss)` at one position, on non-negative
   averages. Float division gives gain / 0 = +inf for a positive gain, which
   makes the RSI 100, and 0 / 0 = NaN, which makes it NaN.
   */
  function RsiCell(gain: Option<real>, loss: Option<real>): (r: Option<real>)
    requires gain.Some? ==> gain.value >= 0.0
    requires loss.Some? ==> loss.value >= 0.0
    ensures r.Some? <==> gain.Some? && loss.Some? && gain.value + loss.value > 0.0
    ensures r.Some? ==> 0.0 <= r.value <= 100.0
    ensures r.Some? ==> r.value * (gain.value + loss.value) == 100.0 * gain.value
    ensures r.Some? && loss.value == 0.0 ==> r.value == 100.0
    ensures r.Some? && gain.value == 0.0 ==> r.value == 0.0
  {
    if gain.None? || loss.None? then None
    else if loss.value == 0.0 then
      if gain.value == 0.0 then None else Some(100.0)
    else
      RsiQuotient(gain.value, loss.value);
      Some(100.0 - 100.0 / (1.0 + gain.value / loss.value))
  }

  /** The RSI quotient for a positive average loss lies in [0, 100) and equals 100·g / (g + l). */
  lemma RsiQuotient(g: real, l: real)
    requires g >= 0.0 && l > 0.0
    ensures 0.0 <= 100.0 - 100.0 / (1.0 + g / l) < 100.0
    ensures (100.0 - 100.0 / (1.0 + g / l)) * (g + l) == 100.0 * g
  {
    var rs := g / l;
    assert rs * l == g;
    var d := 1.0 + rs;
    var t := 100.0 / d;
    assert t * d == 100.0;
    assert 0.0 < t <= 100.0;
    assert d * l == l + g;
    assert t * (l + g) == 100.0 * l;
    assert (100.0 - t) * (g + l) == 100.0 * (g + l) - t * (g + l);
  }

  /** The RSI column from aligned average-gain and average-loss columns. */
  function RsiColumn(gain: seq<Option<real>>, loss: seq<Option<real>>): (r: seq<Option<real>>)
    requires |gain| == |loss|
    requires NonNegativeCells(gain) && NonNegativeCells(loss)
    ensures |r| == |gain|
    ensures forall i :: 0 <= i < |gain| ==>
      (r[i].Some? <==> gain[i].Some? && loss[i].Some? && gain[i].value + loss[i].value > 0.0)
    ensures forall i :: 0 <= i < |gain| && r[i].Some? ==> 0.0 <= r[i].value <= 100.0
  {
    seq(|gain|, i requires 0 <= i < |gain| => RsiCell(gain[i], loss[i]))
  }

  /** Rises are never negative, and falls negated are never negative. */
  lemma RisesAndFallsSigns(delta: seq<Option<real>>)
    ensures forall k :: 0 <= k < |delta| ==> Rises(delta)[k] >= 0.0
    ensures forall k :: 0 <= k < |delta| ==> Negate(Falls(delta))[k] >= 0.0
  {
  }

  /** `delta.where(delta > 0, 0).rolling(window=w).mean()`: the average gain. */
  function AverageGain(closes: seq<real>, w: Window): (r: seq<Option<real>>)
    ensures |r| == |closes|
    ensures NonNegativeCells(r)
  {
    var rises := Rises(Diff(closes));
    RisesAndFallsSigns(Diff(closes));
    RollingMeanNonNegative(rises, w);
    RollingMean(rises, w)
  }

  /** `(-delta.where(delta < 0, 0)).rolling(window=w).mean()`: the average loss. */
  function AverageLoss(closes: seq<real>, w: Window): (r: seq<Option<real>>)
    ensures |r| == |closes|
    ensures NonNegativeCells(r)
  {
    var drops := Negate(Falls(Diff(closes)));
    RisesAndFallsSigns(Diff(closes));
    RollingMeanNonNegative(drops, w);
    RollingMean(drops, w)
  }

  /**
   `calculate_rsi(prices, window)` of the command-line script: the RSI of the
   average gain and the average loss over the window.
   */
  function CalculateRsi(prices: seq<real>, window: Window): (r: seq<Option<real>>)
    ensures |r| == |prices|
    ensures forall i :: 0 <= i < |prices| && i < window - 1 ==> r[i].None?
    ensures forall i :: 0 <= i < |prices| && r[i].Some? ==> 0.0 <= r[i].value <= 100.0
  {
    RsiColumn(AverageGain(prices, window), AverageLoss(prices, window))
  }

  /**
   The inline RSI of `calculate_indicators`, window 14. Its average loss is
   the negated rolling mean of the falls,
   `-delta.where(delta < 0, 0).rolling(window=14).mean()`, where the
   script's version negates before averaging.
   */
  function GuiRsi(closes: seq<real>): (r: seq<Option<real>>)
    ensures r == CalculateRsi(closes, RsiWindow)
  {
    var falls := Falls(Diff(closes));
    var loss := seq(|closes|, i requires 0 <= i < |closes| => Negated(RollingMean(falls, RsiWindow)[i]));
    RollingMeanNegate(falls, RsiWindow);
    assert loss == AverageLoss(closes, RsiWindow);
    RsiColumn(AverageGain(closes, RsiWindow), loss)
  }

  /** The script's `calculate_rsi` with window 14 and the GUI's inline RSI agree everywhere. */
  lemma GuiRsiMatchesCalculateRsi(closes: seq<real>)
    ensures GuiRsi(closes) == CalculateRsi(closes, RsiWindow)
  {
    RollingMeanNegate(Falls(Diff(closes)), RsiWindow);
  }

  /** The average gain at i is positive exactly when the close rises somewhere in the window. */
  lemma AverageGainPositive(closes: seq<real>, w: Window, i: int)
    requires w - 1 <= i < |closes|
    ensures AverageGain(closes, w)[i].Some?
    ensures AverageGain(closes, w)[i].value > 0.0 <==>
      exists k :: i - w + 1 <= k <= i && 0 < k && closes[k - 1] < closes[k]
  {
    var rises := Rises(Diff(closes));
    RisesAndFallsSigns(Diff(closes));
    RollingMeanPositive(rises, w, i);
    assert forall k :: 0 <= k < |closes| ==> (rises[k] > 0.0 <==> 0 < k && closes[k - 1] < closes[k]);
  }

  /** The average loss at i is positive exactly when the close falls somewhere in the window. */
  lemma AverageLossPositive(closes: seq<real>, w: Window, i: int)
    requires w - 1 <= i < |closes|
    ensures AverageLoss(closes, w)[i].Some?
    ensures AverageLoss(closes, w)[i].value > 0.0 <==>
      exists k :: i - w + 1 <= k <= i && 0 < k && closes[k] < closes[k - 1]
  {
    var drops := Negate(Falls(Diff(closes)));
    RisesAndFallsSigns(Diff(closes));
    RollingMeanPositive(drops, w, i);
    assert forall k :: 0 <= k < |closes| ==> (drops[k] > 0.0 <==> 0 < k && closes[k] < closes[k - 1]);
  }

  /**
   Once the window has filled, `calculate_rsi` at i is defined exactly when
   the average gain and loss are not both zero, and then lies in [0, 100].
   */
  lemma RsiAt(closes: seq<real>, w: Window, i: int)
    requires w - 1 <= i < |closes|
    ensures AverageGain(closes, w)[i].Some? && AverageLoss(closes, w)[i].Some?
    ensures CalculateRsi(closes, w)[i].Some? <==>
      AverageGain(closes, w)[i].value > 0.0 || AverageLoss(closes, w)[i].value > 0.0
    ensures CalculateRsi(closes, w)[i].Some? ==> 0.0 <= CalculateRsi(closes, w)[i].value <= 100.0
  {
    var g := AverageGain(closes, w)[i];
    var l := AverageLoss(closes, w)[i];
    assert CalculateRsi(closes, w)[i] == RsiCell(g, l);
  }

  /**
   `calculate_rsi` at position i is defined exactly when its window has
   filled and the close changes somewhere inside it. The first position's
   missing change counts as no change rather than NaN, so the first defined
   position is window - 1. Defined values lie in [0, 100].
   */
  lemma RsiDefinedExactly(closes: seq<real>, w: Window, i: int)
    requires 0 <= i < |closes|
    ensures CalculateRsi(closes, w)[i].Some? <==> i >= w - 1 && Moves(closes, i - w + 1, i + 1)
    ensures CalculateRsi(closes, w)[i].Some? ==> 0.0 <= CalculateRsi(closes, w)[i].value <= 100.0
  {
    if i >= w - 1 {
      RsiAt(closes, w, i);
      AverageGainPositive(closes, w, i);
      AverageLossPositive(closes, w, i);
      MovesUpOrDown(closes, i - w + 1, i);
    } else {
      assert AverageGain(closes, w)[i].None?;
    }
  }

  /**
   A close that rises at every step of the window has no losses, so
   `calculate_rsi` is exactly 100 there. The first position of the series
   has no step (its change counts as 0), so a window that starts there
   needs rises from position 1 on, and position 0 itself is excluded.
   */
  lemma RsiOfRisingWindow(closes: seq<real>, w: Window, i: int)
    requires 1 <= i && w - 1 <= i < |closes|
    requires RisesThroughout(closes, if i - w + 1 < 1 then 1 else i - w + 1, i + 1)
    ensures CalculateRsi(closes, w)[i] == Some(100.0)
  {
    AverageGainPositive(closes, w, i);
    AverageLossPositive(closes, w, i);
    assert closes[i - 1] < closes[i];
  }

  /** A window in which the close never changes has no gains and no losses, so RSI is NaN (0 / 0). */
  lemma RsiOfFlatWindow(closes: seq<real>, w: Window, i: int)
    requires w - 1 <= i < |closes|
    requires !Moves(closes, i - w + 1, i + 1)
    ensures CalculateRsi(closes, w)[i] == None
  {
    RsiDefinedExactly(closes, w, i);
  }

  // ---------------------------------------------------------------- Bollinger bands

  /**
   `sd` is the rolling sample standard deviation of `xs` over window w: it is
   defined exactly where the rolling sample variance is, never negative, and
   squares to the variance. The square root itself is not computed here.
   */
  ghost predicate IsRollingStd(xs: seq<real>, w: Window, sd: seq<Option<real>>)
  {
    && |sd| == |xs|
    && forall i :: 0 <= i < |xs| ==>
         && (sd[i].Some? <==> RollingVar(xs, w)[i].Some?)
         && (sd[i].Some? ==> sd[i].value >= 0.0 && sd[i].value * sd[i].value == RollingVar(xs, w)[i].value)
  }

  /** `sma + (std * 2)` with the 20-bar mean and deviation. */
  function BollingerUpper(closes: seq<real>, sd: seq<Option<real>>): (r: seq<Option<real>>)
    requires |sd| == |closes|
    ensures |r| == |closes|
    ensures forall i :: 0 <= i < |closes| ==> (r[i].Some? <==> BandWindow - 1 <= i && sd[i].Some?)
  {
    var sma := RollingMean(closes, BandWindow);
    seq(|closes|, i requires 0 <= i < |closes| => Plus(sma[i], Times(sd[i], 2.0)))
  }

  /** `sma - (std * 2)` with the 20-bar mean and deviation. */
  function BollingerLower(closes: seq<real>, sd: seq<Option<real>>): (r: seq<Option<real>>)
    requires |sd| == |closes|
    ensures |r| == |closes|
    ensures forall i :: 0 <= i < |closes| ==> (r[i].Some? <==> BandWindow - 1 <= i && sd[i].Some?)
  {
    var sma := RollingMean(closes, BandWindow);
    seq(|closes|, i requires 0 <= i < |closes| => Minus(sma[i], Times(sd[i], 2.0)))
  }

  /**
   The bands are symmetric about the 20-bar mean, 2·std away on each side,
   and are defined exactly where both the mean and the deviation are.
   */
  lemma BandsSymmetric(closes: seq<real>, sd: seq<Option<real>>, i: int)
    requires |sd| == |closes| && 0 <= i < |closes|
    ensures BollingerUpper(closes, sd)[i].Some? <==> RollingMean(closes, BandWindow)[i].Some? && sd[i].Some?
    ensures BollingerLower(closes, sd)[i].Some? <==> BollingerUpper(closes, sd)[i].Some?
    ensures BollingerUpper(closes, sd)[i].Some? ==>
      && BollingerUpper(closes, sd)[i].value - RollingMean(closes, BandWindow)[i].value
         == RollingMean(closes, BandWindow)[i].value - BollingerLower(closes, sd)[i].value
      && BollingerUpper(closes, sd)[i].value - BollingerLower(closes, sd)[i].value == 4.0 * sd[i].value
  {
  }

  /**
   With the rolling standard deviation, the bands are NaN exactly for the
   first 19 positions, and the upper band is never below the lower one.
   */
  lemma BandsOrdered(closes: seq<real>, sd: seq<Option<real>>, i: int)
    requires IsRollingStd(closes, BandWindow, sd) && 0 <= i < |closes|
    ensures BollingerUpper(closes, sd)[i].Some? <==> i >= BandWindow - 1
    ensures BollingerLower(closes, sd)[i].Some? <==> i >= BandWindow - 1
    ensures BollingerUpper(closes, sd)[i].Some? ==> BollingerLower(closes, sd)[i].value <= BollingerUpper(closes, sd)[i].value
  {
    RollingVarDefinedExactly(closes, BandWindow, i);
    BandsSymmetric(closes, sd, i);
  }

  /** Multiplying s·s by the reciprocal of a non-zero s gives back s. */
  lemma ReciprocalCancels(s: real)
    requires s != 0.0
    ensures (1.0 / s) * (s * s) == s
  {
    var q := 1.0 / s;
    assert q * s == 1.0;
    assert q * (s * s) == (q * s) * s;
  }

  /** The only square root of zero is zero. */
  lemma SquareRootOfZero(s: real)
    requires s * s == 0.0
    ensures s == 0.0
  {
    if s != 0.0 {
      ReciprocalCancels(s);
      assert false;
    }
  }

  /** Over a 20-bar window in which the close never changes, both bands collapse onto the close. */
  lemma BandsOfFlatWindow(closes: seq<real>, sd: seq<Option<real>>, i: int, p: real)
    requires IsRollingStd(closes, BandWindow, sd)
    requires BandWindow - 1 <= i < |closes|
    requires forall k :: i - BandWindow + 1 <= k <= i ==> closes[k] == p
    ensures BollingerUpper(closes, sd)[i] == Some(p)
    ensures BollingerLower(closes, sd)[i] == Some(p)
  {
    RollingVarOfFlatWindow(closes, BandWindow, i, p);
    SquareRootOfZero(sd[i].value);
  }

  // ---------------------------------------------------------------- the indicator set

  /** The columns `calculate_indicators` adds to the price table. */
  datatype IndicatorSet = IndicatorSet(
    close: seq<real>,
    ma20: seq<Option<real>>,
    ma50: seq<Option<real>>,
    rsi: seq<Option<real>>,
    macd: seq<real>,
    macdSignal: seq<real>,
    bbUpper: seq<Option<real>>,
    bbLower: seq<Option<real>>)
  {
    /** Every column has one cell per close. */
    predicate Aligned()
    {
      && |ma20| == |close| && |ma50| == |close| && |rsi| == |close|
      && |macd| == |close| && |macdSignal| == |close|
      && |bbUpper| == |close| && |bbLower| == |close|
    }
  }

  /**
   `calculate_indicators` on a close column; `sd20` is the column's rolling
   20-bar sample standard deviation.
   */
  function CalculateIndicators(closes: seq<real>, sd20: seq<Option<real>>): (ind: IndicatorSet)
    requires IsRollingStd(closes, BandWindow, sd20)
    ensures ind.Aligned() && ind.close == closes
  {
    IndicatorSet(
      closes,
      RollingMean(closes, ShortWindow),
      RollingMean(closes, LongWindow),
      GuiRsi(closes),
      MacdLine(closes),
      MacdSignal(closes),
      BollingerUpper(closes, sd20),
      BollingerLower(closes, sd20))
  }

  /**
   Which cells of the indicator set are defined: the averages and bands from
   their window's last position on, the MACD pair everywhere, and RSI only
   once its window fills, and then within [0, 100].
   */
  lemma IndicatorsDefinedFrom(closes: seq<real>, sd20: seq<Option<real>>, i: int)
    requires IsRollingStd(closes, BandWindow, sd20) && 0 <= i < |closes|
    ensures CalculateIndicators(closes, sd20).ma20[i].Some? <==> i >= 19
    ensures CalculateIndicators(closes, sd20).ma50[i].Some? <==> i >= 49
    ensures CalculateIndicators(closes, sd20).bbUpper[i].Some? <==> i >= 19
    ensures CalculateIndicators(closes, sd20).bbLower[i].Some? <==> i >= 19
    ensures CalculateIndicators(closes, sd20).rsi[i].Some? <==> i >= 13 && Moves(closes, i - 13, i + 1)
    ensures CalculateIndicators(closes, sd20).rsi[i].Some? ==>
      0.0 <= CalculateIndicators(closes, sd20).rsi[i].value <= 100.0
  {
    BandsOrdered(closes, sd20, i);
    GuiRsiMatchesCalculateRsi(closes);
    RsiDefinedExactly(closes, RsiWindow, i);
  }

  // ---------------------------------------------------------------- increasing series

  /**
   In a strictly increasing series the 20-bar average is above the 50-bar
   one: the 30 older closes all lie below every one of the 20 recent ones.
   */
  lemma ShortAboveLong(closes: seq<real>, i: int)
    requires StrictlyIncreasing(closes)
    requires 49 <= i < |closes|
    ensures RollingMean(closes, ShortWindow)[i].Some? && RollingMean(closes, LongWindow)[i].Some?
    ensures RollingMean(closes, ShortWindow)[i].value > RollingMean(closes, LongWindow)[i].value
  {
    var long := closes[i - 49..i + 1];
    var older := long[..30];
    var recent := long[30..];
    assert recent == closes[i - 19..i + 1];
    var q0 := recent[0];
    SumBelow(older, q0);
    assert Within(recent, q0, closes[i]);
    SumWithin(recent, q0, closes[i]);
    assert long == older + recent;
    SumAppend(older, recent);
    assert 20.0 * Sum(long) < 50.0 * Sum(recent);
  }
}

/**
 The signal scorer of the desktop analyzer (`show_analysis`): three
 comparisons on the last row of the indicator table add up to an integer
 score, and the score picks one of four recommendations. The MACD columns
 are computed by the engine but take no part in the score.
 */
module Signals {
  import opened Values
  import opened Rolling
  import opened Indicators

  /** The last-row values the scorer reads. */
  datatype Snapshot = Snapshot(price: real, ma20: Option<real>, ma50: Option<real>, rsi: Option<real>)

  datatype Recommendation = StrongBuy | Buy | Hold | Sell

  /** `show_analysis` stops with an index error before scoring when the table has fewer than two rows. */
  datatype AnalysisError = NoData | NoPreviousClose

  datatype Analysis = Analysis(score: int, recommendation: Recommendation)

  /** MA crossover term: only when both averages are defined; a tie counts as bearish. */
  function MaTerm(ma20: Option<real>, ma50: Option<real>): (r: int)
    ensures r == 0 <==> ma20.None? || ma50.None?
    ensures r == 2 <==> ma20.Some? && ma50.Some? && ma20.value > ma50.value
    ensures r == -2 <==> ma20.Some? && ma50.Some? && ma20.value <= ma50.value
  {
    if ma20.Some? && ma50.Some? then
      if ma20.value > ma50.value then 2 else -2
    else 0
  }

  /** Price-versus-MA20 term: `price > ma20` is false for a tie and for NaN. */
  function PriceTerm(price: real, ma20: Option<real>): (r: int)
    ensures r == 1 || r == -1
    ensures r == 1 <==> ma20.Some? && price > ma20.value
  {
    if Greater(Some(price), ma20) then 1 else -1
  }

  /** RSI term: overbought above 70, oversold below 30; NaN falls through to neutral. */
  function RsiTerm(rsi: Option<real>): (r: int)
    ensures r == -1 <==> rsi.Some? && rsi.value > 70.0
    ensures r == 1 <==> rsi.Some? && rsi.value < 30.0
    ensures r == 0 <==> rsi.None? || 30.0 <= rsi.value <= 70.0
  {
    if Greater(rsi, Some(70.0)) then -1
    else if Less(rsi, Some(30.0)) then 1
    else 0
  }

  /** The additive score of one snapshot; it always lies in [-4, 4]. */
  function Score(s: Snapshot): (r: int)
    ensures -4 <= r <= 4
    ensures r % 2 != 0 <==> RsiTerm(s.rsi) == 0
  {
    MaTerm(s.ma20, s.ma50) + PriceTerm(s.price, s.ma20) + RsiTerm(s.rsi)
  }

  /** The recommendation for a score: thresholds 3, 1 and -1, inclusive. */
  function Recommend(score: int): (r: Recommendation)
    ensures r == StrongBuy <==> score >= 3
    ensures r == Buy || r == StrongBuy <==> score >= 1
    ensures r == Sell <==> score < -1
  {
    if score >= 3 then StrongBuy
    else if score >= 1 then Buy
    else if score >= -1 then Hold
    else Sell
  }

  /** Bullishness of a recommendation, from Sell (0) to StrongBuy (3). */
  function Rank(r: Recommendation): nat
  {
    match r
    case Sell => 0
    case Hold => 1
    case Buy => 2
    case StrongBuy => 3
  }

  // ---------------------------------------------------------------- score properties

  /**
   Each term takes only its documented values: MA term in {-2, 0, 2}, 0
   exactly when an average is NaN and a tie counting as -2; price term ±1,
   -1 on a tie or an undefined MA20; RSI term in {-1, 0, 1}, 0 when NaN.
   */
  lemma TermsAndEdgeCases(s: Snapshot)
    ensures MaTerm(s.ma20, s.ma50) == 0 <==> s.ma20.None? || s.ma50.None?
    ensures MaTerm(s.ma20, s.ma50) == 2 <==> Greater(s.ma20, s.ma50)
    ensures MaTerm(s.ma20, s.ma50) == -2 <==> s.ma20.Some? && s.ma50.Some? && s.ma20.value <= s.ma50.value
    ensures PriceTerm(s.price, s.ma20) == 1 <==> s.ma20.Some? && s.price > s.ma20.value
    ensures PriceTerm(s.price, s.ma20) == -1 <==> s.ma20.None? || s.price <= s.ma20.value
    ensures RsiTerm(s.rsi) == -1 <==> s.rsi.Some? && s.rsi.value > 70.0
    ensures RsiTerm(s.rsi) == 1 <==> s.rsi.Some? && s.rsi.value < 30.0
    ensures RsiTerm(s.rsi) == 0 <==> s.rsi.None? || 30.0 <= s.rsi.value <= 70.0
  {
  }

  /**
   The all-bullish snapshot scores 4 (STRONG BUY) and the all-bearish one
   scores -4 (SELL): the score range is reached at both ends.
   */
  lemma ExtremeScores(price: real, ma20: real, ma50: real, rsi: real)
    ensures ma20 > ma50 && price > ma20 && rsi < 30.0 ==>
      Score(Snapshot(price, Some(ma20), Some(ma50), Some(rsi))) == 4 &&
      Recommend(Score(Snapshot(price, Some(ma20), Some(ma50), Some(rsi)))) == StrongBuy
    ensures ma20 < ma50 && price < ma20 && rsi > 70.0 ==>
      Score(Snapshot(price, Some(ma20), Some(ma50), Some(rsi))) == -4 &&
      Recommend(Score(Snapshot(price, Some(ma20), Some(ma50), Some(rsi)))) == Sell
  {
  }

  /** A higher price, all else equal, never lowers the score. */
  lemma ScoreMonotoneInPrice(s: Snapshot, higher: real)
    requires s.price <= higher
    ensures Score(s) <= Score(s.(price := higher))
  {
  }

  /** A higher RSI, all else equal, never raises the score; NaN scores like a neutral RSI. */
  lemma ScoreAntitoneInRsi(s: Snapshot, r1: real, r2: real)
    requires r1 <= r2
    ensures Score(s.(rsi := Some(r2))) <= Score(s.(rsi := Some(r1)))
    ensures Score(s.(rsi := None)) == Score(s.(rsi := Some(50.0)))
  {
  }

  // ---------------------------------------------------------------- recommendation properties

  /** Every score falls in exactly one recommendation band: [3, ∞), [1, 3), [-1, 1) or below -1. */
  lemma RecommendBands(score: int)
    ensures Recommend(score) == StrongBuy <==> score >= 3
    ensures Recommend(score) == Buy <==> 1 <= score < 3
    ensures Recommend(score) == Hold <==> -1 <= score < 1
    ensures Recommend(score) == Sell <==> score < -1
  {
  }

  /** A higher score never gives a more bearish recommendation. */
  lemma RecommendMonotone(s1: int, s2: int)
    requires s1 <= s2
    ensures Rank(Recommend(s1)) <= Rank(Recommend(s2))
  {
  }

  // ---------------------------------------------------------------- the analysis of a table

  /** The last row of an aligned indicator table. */
  function SnapshotOf(ind: IndicatorSet): (s: Snapshot)
    requires ind.Aligned() && |ind.close| > 0
    ensures s.price == ind.close[|ind.close| - 1]
    ensures s.ma20 == ind.ma20[|ind.close| - 1] && s.ma50 == ind.ma50[|ind.close| - 1]
    ensures s.rsi == ind.rsi[|ind.close| - 1]
  {
    var n := |ind.close| - 1;
    Snapshot(ind.close[n], ind.ma20[n], ind.ma50[n], ind.rsi[n])
  }

  /**
   The scoring part of `show_analysis`: it first reads the last and the
   previous close, which fails on a table with fewer than two rows.
   */
  function ShowAnalysis(ind: IndicatorSet): (r: Result<Analysis, AnalysisError>)
    requires ind.Aligned()
    ensures r.Ok? <==> |ind.close| >= 2
    ensures r.Err? ==> r.error == NoPreviousClose
    ensures r.Ok? ==> -4 <= r.value.score <= 4 && r.value.recommendation == Recommend(r.value.score)
    ensures r.Ok? ==> r.value.score == Score(SnapshotOf(ind))
  {
    if |ind.close| < 2 then Err(NoPreviousClose)
    else
      var score := Score(SnapshotOf(ind));
      Ok(Analysis(score, Recommend(score)))
  }

  /**
   One analysis request: no rows means "no data found"; otherwise the
   indicators are computed and scored.
   */
  function Analyze(closes: seq<real>, sd20: seq<Option<real>>): (r: Result<Analysis, AnalysisError>)
    requires IsRollingStd(closes, BandWindow, sd20)
    ensures |closes| == 0 <==> r == Err(NoData)
    ensures r.Ok? <==> |closes| >= 2
  {
    if |closes| == 0 then Err(NoData)
    else ShowAnalysis(CalculateIndicators(closes, sd20))
  }

  /**
   The MACD and Bollinger columns do not influence the analysis: two tables
   that agree on closes, moving averages and RSI are scored alike.
   */
  lemma AnalysisIgnoresMacdAndBands(a: IndicatorSet, b: IndicatorSet)
    requires a.Aligned() && b.Aligned()
    requires a.close == b.close && a.ma20 == b.ma20 && a.ma50 == b.ma50 && a.rsi == b.rsi
    ensures ShowAnalysis(a) == ShowAnalysis(b)
  {
  }

  /**
   Only the last row is scored: two tables with at least two rows that agree
   on the last close, MA20, MA50 and RSI get the same analysis, whatever
   their earlier rows hold.
   */
  lemma AnalysisReadsLastRow(a: IndicatorSet, b: IndicatorSet)
    requires a.Aligned() && b.Aligned()
    requires |a.close| >= 2 && |b.close| >= 2
    requires a.close[|a.close| - 1] == b.close[|b.close| - 1]
    requires a.ma20[|a.close| - 1] == b.ma20[|b.close| - 1] && a.ma50[|a.close| - 1] == b.ma50[|b.close| - 1]
    requires a.rsi[|a.close| - 1] == b.rsi[|b.close| - 1]
    ensures ShowAnalysis(a) == ShowAnalysis(b)
  {
  }

  // ---------------------------------------------------------------- scenarios

  /**
   A flat series of at least 50 closes: the averages tie (bearish, -2), the
   price equals MA20 (-1) and RSI is 0 / 0 = NaN (neutral), so the score is
   -3 and the recommendation SELL.
   */
  lemma FlatSeriesSells(closes: seq<real>, sd20: seq<Option<real>>, p: real)
    requires IsRollingStd(closes, BandWindow, sd20)
    requires |closes| >= 50
    requires forall k :: 0 <= k < |closes| ==> closes[k] == p
    ensures Analyze(closes, sd20) == Ok(Analysis(-3, Sell))
  {
    var n := |closes| - 1;
    var ind := CalculateIndicators(closes, sd20);
    RollingMeanOfConstant(closes, ShortWindow, n, p);
    RollingMeanOfConstant(closes, LongWindow, n, p);
    GuiRsiMatchesCalculateRsi(closes);
    RsiOfFlatWindow(closes, RsiWindow, n);
    assert SnapshotOf(ind) == Snapshot(p, Some(p), Some(p), None);
  }

  /**
   A strictly increasing series of at least 50 closes: MA20 above MA50 (+2),
   price above MA20 (+1), no losses so RSI = 100, overbought (-1); the
   score is 2 and the recommendation BUY.
   */
  lemma UptrendBuys(closes: seq<real>, sd20: seq<Option<real>>)
    requires IsRollingStd(closes, BandWindow, sd20)
    requires |closes| >= 50
    requires StrictlyIncreasing(closes)
    ensures Analyze(closes, sd20) == Ok(Analysis(2, Buy))
  {
    var n := |closes| - 1;
    var ind := CalculateIndicators(closes, sd20);
    ShortAboveLong(closes, n);
    LastAboveMean(closes, ShortWindow, n);
    GuiRsiMatchesCalculateRsi(closes);
    RsiOfRisingWindow(closes, RsiWindow, n);
    var s := SnapshotOf(ind);
    assert MaTerm(s.ma20, s.ma50) == 2;
    assert PriceTerm(s.price, s.ma20) == 1;
    assert RsiTerm(s.rsi) == -1;
  }
}

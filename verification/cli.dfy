/**
 The command-line analysis script: it adds MA_20, MA_50 and RSI(14) columns
 to the price table, reads their last values, and prints a trend signal, an
 RSI zone and an overall BUY / SELL / HOLD decision.
 */
module Cli {
  import opened Values
  import opened Rolling
  import opened Indicators
  import Signals

  /** The columns the script derives from the closes. */
  datatype Columns = Columns(close: seq<real>, ma20: seq<Option<real>>, ma50: seq<Option<real>>, rsi: seq<Option<real>>)

  datatype Trend = Bullish | Bearish

  datatype RsiZone = Overbought | Oversold | Neutral

  datatype Overall = Buy | Sell | Hold

  /** What the script prints for the last row. */
  datatype Report = Report(price: real, ma20: Option<real>, ma50: Option<real>, rsi: Option<real>,
                           trend: Trend, zone: RsiZone, overall: Overall)

  /** Reading the last row of an empty table is an index error. */
  datatype ScriptError = EmptyHistory

  /** MA_20, MA_50 and RSI(14) of the closes. */
  function ScriptColumns(closes: seq<real>): (c: Columns)
    ensures |c.ma20| == |closes| && |c.ma50| == |closes| && |c.rsi| == |closes|
    ensures c.close == closes
  {
    Columns(closes, RollingMean(closes, 20), RollingMean(closes, 50), CalculateRsi(closes, 14))
  }

  /** The moving-average signal: bullish only when MA20 > MA50, so a tie or NaN reads bearish. */
  function MaSignal(ma20: Option<real>, ma50: Option<real>): (r: Trend)
    ensures r == Bullish <==> ma20.Some? && ma50.Some? && ma20.value > ma50.value
  {
    if Greater(ma20, ma50) then Bullish else Bearish
  }

  /** The RSI signal: above 70 overbought, below 30 oversold, otherwise (NaN included) neutral. */
  function RsiSignal(rsi: Option<real>): (r: RsiZone)
    ensures r == Overbought <==> rsi.Some? && rsi.value > 70.0
    ensures r == Oversold <==> rsi.Some? && rsi.value < 30.0
    ensures r == Neutral <==> rsi.None? || 30.0 <= rsi.value <= 70.0
  {
    if Greater(rsi, Some(70.0)) then Overbought
    else if Less(rsi, Some(30.0)) then Oversold
    else Neutral
  }

  /** The overall decision. */
  function OverallSignal(ma20: Option<real>, ma50: Option<real>, rsi: Option<real>): (r: Overall)
    ensures r == Buy <==> Greater(ma20, ma50) && Less(rsi, Some(70.0))
    ensures r == Sell <==> !Greater(ma20, ma50) && Less(ma20, ma50) && Greater(rsi, Some(30.0))
    ensures r == Hold <==> !(Greater(ma20, ma50) && Less(rsi, Some(70.0))) && !(Less(ma20, ma50) && Greater(rsi, Some(30.0)))
  {
    if Greater(ma20, ma50) && Less(rsi, Some(70.0)) then Buy
    else if Less(ma20, ma50) && Greater(rsi, Some(30.0)) then Sell
    else Hold
  }

  /** The script's report for a price history, or the index error of an empty one. */
  function ScriptReport(closes: seq<real>): (r: Result<Report, ScriptError>)
    ensures r.Err? <==> |closes| == 0
    ensures r.Ok? ==> r.value.price == closes[|closes| - 1]
    ensures r.Ok? ==> r.value.ma20 == RollingMean(closes, 20)[|closes| - 1]
    ensures r.Ok? ==> r.value.ma50 == RollingMean(closes, 50)[|closes| - 1]
    ensures r.Ok? ==> r.value.rsi == CalculateRsi(closes, 14)[|closes| - 1]
    ensures r.Ok? ==> r.value.trend == MaSignal(r.value.ma20, r.value.ma50) && r.value.zone == RsiSignal(r.value.rsi)
    ensures r.Ok? ==> r.value.overall == OverallSignal(r.value.ma20, r.value.ma50, r.value.rsi)
  {
    if |closes| == 0 then Err(EmptyHistory)
    else
      var c := ScriptColumns(closes);
      var n := |closes| - 1;
      Ok(Report(closes[n], c.ma20[n], c.ma50[n], c.rsi[n],
                MaSignal(c.ma20[n], c.ma50[n]), RsiSignal(c.rsi[n]),
                OverallSignal(c.ma20[n], c.ma50[n], c.rsi[n])))
  }

  // ---------------------------------------------------------------- properties

  /** The BUY and SELL conditions can never hold together. */
  lemma BuyAndSellExclusive(ma20: Option<real>, ma50: Option<real>, rsi: Option<real>)
    ensures !(Greater(ma20, ma50) && Less(rsi, Some(70.0)) && Less(ma20, ma50) && Greater(rsi, Some(30.0)))
  {
  }

  /** Equal averages, or any NaN input, always give HOLD. */
  lemma TieOrUndefinedHolds(ma20: Option<real>, ma50: Option<real>, rsi: Option<real>)
    requires (ma20.Some? && ma50.Some? && ma20.value == ma50.value) || ma20.None? || ma50.None? || rsi.None?
    ensures OverallSignal(ma20, ma50, rsi) == Hold
  {
  }

  /** The trend signal reads a tie, and a NaN average, as bearish. */
  lemma TrendTieIsBearish(x: real, ma50: Option<real>)
    ensures MaSignal(Some(x), Some(x)) == Bearish
    ensures MaSignal(None, ma50) == Bearish && MaSignal(ma50, None) == Bearish
  {
  }

  /** The script's RSI zones and the GUI's RSI term read the same thresholds. */
  lemma RsiZoneMatchesGuiTerm(rsi: Option<real>)
    ensures RsiSignal(rsi) == Overbought <==> Signals.RsiTerm(rsi) == -1
    ensures RsiSignal(rsi) == Oversold <==> Signals.RsiTerm(rsi) == 1
    ensures RsiSignal(rsi) == Neutral <==> Signals.RsiTerm(rsi) == 0
  {
  }

  /**
   The two front-ends never contradict each other on the same last row: when
   the script says BUY the GUI says BUY or STRONG BUY, and when the script
   says SELL the GUI says HOLD or SELL.
   */
  lemma FrontEndsAgree(price: real, ma20: Option<real>, ma50: Option<real>, rsi: Option<real>)
    ensures OverallSignal(ma20, ma50, rsi) == Buy ==>
      Signals.Rank(Signals.Recommend(Signals.Score(Signals.Snapshot(price, ma20, ma50, rsi)))) >= Signals.Rank(Signals.Buy)
    ensures OverallSignal(ma20, ma50, rsi) == Sell ==>
      Signals.Rank(Signals.Recommend(Signals.Score(Signals.Snapshot(price, ma20, ma50, rsi)))) <= Signals.Rank(Signals.Hold)
  {
  }

  /** The script's RSI column is the GUI's inline RSI. */
  lemma ScriptRsiMatchesGui(closes: seq<real>)
    ensures ScriptColumns(closes).rsi == GuiRsi(closes)
  {
    GuiRsiMatchesCalculateRsi(closes);
  }

  /**
   On a strictly increasing history of at least 50 closes the script holds:
   MA20 is above MA50 but RSI is 100, which is not below 70, and the SELL
   branch needs MA20 below MA50.
   */
  lemma UptrendHolds(closes: seq<real>)
    requires |closes| >= 50
    requires StrictlyIncreasing(closes)
    ensures ScriptReport(closes).Ok?
    ensures ScriptReport(closes).value.trend == Bullish
    ensures ScriptReport(closes).value.zone == Overbought
    ensures ScriptReport(closes).value.overall == Hold
  {
    var n := |closes| - 1;
    ShortAboveLong(closes, n);
    RsiOfRisingWindow(closes, 14, n);
  }
}

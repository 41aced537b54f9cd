# Stock analyzer: indicator engine and signal scorer in Dafny

This project models the analysis core of a small stock analyzer that has two
front-ends. One is a desktop application (`stock_analyzer_gui.py`). The other is
a command-line script (`stock_analyzer.py`). Both take the daily close prices of
one ticker and turn them into technical indicators and a trading recommendation.

- **Indicator engine** (`calculate_indicators`, `calculate_rsi`): 20- and 50-bar
  simple moving averages, RSI(14) from rolling mean gains and losses, MACD line
  and signal from exponential averages with `adjust=False`, and 20-bar
  Bollinger bands at two standard deviations.
- **GUI signal scorer** (`show_analysis`): an additive integer score from MA20
  against MA50, the price against MA20, and RSI against 70/30. The score maps
  to STRONG BUY, BUY, HOLD or SELL.
- **CLI rule**: a trend signal, an RSI zone and an overall BUY/SELL/HOLD decision.
- **Watchlist**: the in-memory add and remove operations.

Prices are Dafny `real`, so arithmetic is exact. A NaN cell of a table column is
`Values.Option<real>`, where `None` stands for NaN. Comparisons with NaN are
false (`Values.Greater`, `Values.Less`), as in floating point. This decides the
`else` branches of the scorer. The modules are:

| file | module | models |
|---|---|---|
| values.dfy | `Values` | NaN cells and NaN-propagating column arithmetic |
| rolling.dfy | `Rolling` | `rolling(w).mean()` and `rolling(w).var()` |
| ema.dfy | `Exponential` | `ewm(span, adjust=False).mean()`, MACD line and signal |
| indicators.dfy | `Indicators` | RSI (both forms), Bollinger bands, the indicator table |
| signals.dfy | `Signals` | the GUI score, recommendation and analysis request |
| cli.dfy | `Cli` | the script's columns, signals and overall decision |
| watchlist.dfy | `Watchlist` | adding and removing tickers |

Facts about the code that decide the model's shape:

- The GUI score has three terms only: MA20 against MA50 (±2, or 0 when either
  average is NaN), the price against MA20 (±1), and RSI (−1 above 70, +1 below
  30, 0 otherwise). There is no MACD term.
- The recommendation has four categories, with lower thresholds 3, 1 and −1.
- On a flat price series RSI is 0/0 = NaN, and a NaN RSI scores 0.
- When MA20 is NaN the price term is still −1.
- MACD is the line and its signal; no histogram is computed.
- Every window and span is a fixed constant (14, 20, 50, 12, 26, 9).

## Model

| member | source | states |
|---|---|---|
| Rolling.RollingMean | stock_analyzer_gui.py:302-303 | `rolling(window=w).mean()` has one cell per close and a cell is defined exactly from position w−1 on (its contents: `RollingMeanDefinedExactly`, `SlidingMean`) |
| Rolling.RollingMeanDefinedExactly | stock_analyzer_gui.py:302-303 | an MA cell is NaN exactly for i < w−1; from then on, w times the cell is the sum of the last w closes |
| Rolling.SlidingMean | stock_analyzer_gui.py:302-303 | a single pass with a running window sum (add the entering close, subtract the leaving one) produces exactly the per-position rolling mean |
| Rolling.RollingMeanWithin | stock_analyzer_gui.py:302-303 | a defined moving average lies between any lower and upper bound of the closes in its window |
| Rolling.RollingVar | stock_analyzer_gui.py:320 | `rolling(window=w).var()` has one cell per close and a cell is defined exactly when w ≥ 2 and the window has filled |
| Rolling.RollingVarDefinedExactly | stock_analyzer_gui.py:320 | the rolling sample variance is defined exactly when w ≥ 2 and i ≥ w−1, and is then never negative |
| Rolling.RollingVarOfFlatWindow | stock_analyzer_gui.py:319-320 | over a window of equal closes p, the mean is p and the sample variance is 0 |
| Indicators.Diff | stock_analyzer.py:7 | `diff()` is NaN at the first position; at every later position adding the cell to the previous close gives the current close |
| Indicators.Rises | stock_analyzer.py:8 | `where(delta > 0, 0)` is never negative, is non-zero exactly where the change is a defined rise, and is then that rise |
| Indicators.Falls | stock_analyzer.py:9 | `where(delta < 0, 0)` is never positive, is non-zero exactly where the change is a defined fall, and is then that fall |
| Indicators.AverageGain | stock_analyzer.py:8 | the rolling average of `delta.where(delta > 0, 0)` is one cell per close and never negative |
| Indicators.AverageLoss | stock_analyzer.py:9 | the rolling average of the negated falls is one cell per close and never negative |
| Indicators.RsiColumn | stock_analyzer.py:10-11 | the RSI column is defined at a position exactly when both averages are and their sum is positive, and its values lie in [0,100] |
| Indicators.CalculateRsi | stock_analyzer.py:5-12 | `calculate_rsi(prices, window)` has one cell per price, is NaN before position window−1, and lies in [0,100] where defined |
| Indicators.GuiRsi | stock_analyzer_gui.py:306-310 | the GUI's inline RSI, with the loss negated after averaging, is the column `calculate_rsi(close, 14)` computes |
| Indicators.RsiCell | stock_analyzer_gui.py:309-310 | RSI is defined iff avgGain + avgLoss > 0; it then lies in [0,100] and equals 100·g/(g+l); zero loss gives 100, zero gain gives 0, and both zero give NaN |
| Indicators.GuiRsiMatchesCalculateRsi | stock_analyzer_gui.py:306-310 | the GUI's inline RSI negates after averaging the falls, the script negates before, and the two columns are equal for window 14 |
| Indicators.AverageGainPositive | stock_analyzer.py:7-8 | once the window has filled, the average gain is positive exactly when the close rises somewhere in the window |
| Indicators.AverageLossPositive | stock_analyzer.py:7-9 | once the window has filled, the average loss is positive exactly when the close falls somewhere in the window |
| Indicators.RsiAt | stock_analyzer.py:10-11 | once the window has filled, `calculate_rsi` is defined iff the average gain or the average loss is positive, and then lies in [0,100] |
| Indicators.RsiDefinedExactly | stock_analyzer.py:5-12 | `calculate_rsi(prices, w)` is NaN for i < w−1; from w−1 on it is defined exactly when the close changes inside the window (the index-0 diff counts as 0, not NaN); defined values lie in [0,100] |
| Indicators.RsiOfRisingWindow | stock_analyzer.py:7-11 | at any position i ≥ 1 whose window has filled, a close that rises at every step of the window gives RSI exactly 100; a window starting at position 0 needs rises from position 1 on, because the first change counts as 0 |
| Indicators.RsiOfFlatWindow | stock_analyzer.py:7-11 | a window in which the close never changes gives NaN |
| Indicators.MovesUpOrDown | stock_analyzer.py:7 | the close changes in a range exactly when it rises or falls somewhere in it |
| Exponential.Ema | stock_analyzer_gui.py:313-314 | the exponential average has one value per input and is seeded with the first input |
| Exponential.EmaRecurrence | stock_analyzer_gui.py:313-314 | every later position is α·x[i] + (1−α)·ema[i−1] with α = 2/(span+1) |
| Exponential.EmaPrefix | stock_analyzer_gui.py:313-314 | the average of a prefix of the input is the prefix of the average, so later closes never change earlier values |
| Exponential.EmaWithin | stock_analyzer_gui.py:313-314 | if every input lies in [lo,hi], so does every value of the average |
| Exponential.EmaOfConstant | stock_analyzer_gui.py:313-314 | a constant series P has an average equal to P everywhere |
| Exponential.MacdLine | stock_analyzer_gui.py:313-315 | EMA(12) − EMA(26) has one value per close and starts at 0 |
| Exponential.MacdSignal | stock_analyzer_gui.py:316 | EMA(9) of the MACD line has one value per close and starts at 0 |
| Exponential.MacdStartsAtZero | stock_analyzer_gui.py:313-316 | both averages seed at the first close, so the MACD line and the signal start at 0 |
| Exponential.MacdOfConstant | stock_analyzer_gui.py:313-316 | a flat close series gives a MACD line and a signal of 0 everywhere |
| Indicators.BollingerUpper | stock_analyzer_gui.py:319-321 | the upper band has one cell per close and is defined exactly from position 19 on where the std is |
| Indicators.BollingerLower | stock_analyzer_gui.py:319-322 | the lower band has one cell per close and is defined exactly from position 19 on where the std is |
| Indicators.BandsSymmetric | stock_analyzer_gui.py:319-322 | Upper − SMA = SMA − Lower and Upper − Lower = 4·std; the bands are defined exactly where the SMA and std are |
| Indicators.BandsOrdered | stock_analyzer_gui.py:319-322 | with the rolling std, both bands are NaN exactly for the first 19 positions, and Upper ≥ Lower |
| Indicators.BandsOfFlatWindow | stock_analyzer_gui.py:319-322 | over 20 equal closes p the std is 0, so both bands equal p |
| Indicators.SquareRootOfZero | stock_analyzer_gui.py:320 | a standard deviation whose square is a zero variance is itself zero |
| Indicators.CalculateIndicators | stock_analyzer_gui.py:299-324 | every column of the indicator table is aligned with the closes, and the closes are unchanged |
| Indicators.IndicatorsDefinedFrom | stock_analyzer_gui.py:299-324 | MA20 and the bands are defined iff i ≥ 19, MA50 iff i ≥ 49, and RSI iff i ≥ 13 and the close moves in its window; RSI is then in [0,100] |
| Signals.MaTerm | stock_analyzer_gui.py:439-447 | the MA term is 0 iff an average is NaN, +2 iff MA20 > MA50, and −2 iff both are defined and MA20 ≤ MA50 |
| Signals.PriceTerm | stock_analyzer_gui.py:450-455 | the price term is ±1, and +1 exactly when MA20 is defined and the price is above it |
| Signals.RsiTerm | stock_analyzer_gui.py:458-465 | the RSI term is −1 iff RSI > 70, +1 iff RSI < 30, and 0 iff RSI is NaN or in [30,70] |
| Signals.Score | stock_analyzer_gui.py:436-465 | the score always lies in [−4,4], and it is odd exactly when the RSI term is neutral |
| Signals.TermsAndEdgeCases | stock_analyzer_gui.py:439-465 | the MA term is 0 iff an MA is NaN and −2 on a tie; the price term is −1 on a tie or a NaN MA20; the RSI term is 0 iff RSI is NaN or in [30,70] |
| Signals.ExtremeScores | stock_analyzer_gui.py:439-486 | the all-bullish snapshot scores +4 (STRONG BUY) and the all-bearish one scores −4 (SELL) |
| Signals.ScoreMonotoneInPrice | stock_analyzer_gui.py:450-455 | a higher price, all else equal, never lowers the score |
| Signals.ScoreAntitoneInRsi | stock_analyzer_gui.py:458-465 | a higher RSI never raises the score, and a NaN RSI scores like a neutral one |
| Signals.Recommend | stock_analyzer_gui.py:471-486 | STRONG BUY iff the score is ≥ 3, a buy (BUY or STRONG BUY) iff the score is ≥ 1, SELL iff the score is < −1 |
| Signals.RecommendBands | stock_analyzer_gui.py:471-486 | STRONG BUY iff score ≥ 3, BUY iff 1 ≤ score < 3, HOLD iff −1 ≤ score < 1, SELL iff score < −1 |
| Signals.RecommendMonotone | stock_analyzer_gui.py:471-486 | a higher score never gives a more bearish recommendation |
| Signals.SnapshotOf | stock_analyzer_gui.py:399-405 | the scorer reads the last row's price, MA20, MA50 and RSI |
| Signals.ShowAnalysis | stock_analyzer_gui.py:397-486 | scoring succeeds iff the table has at least two rows (the previous close is read first); the score is the score of the last row, lies in [−4,4], and the recommendation is its category |
| Signals.Analyze | stock_analyzer_gui.py:266-279 | an empty history gives "no data"; a result exists iff there are at least two closes |
| Signals.AnalysisReadsLastRow | stock_analyzer_gui.py:399-405 | two tables of at least two rows that agree on the last close, MA20, MA50 and RSI get the same analysis, whatever their earlier rows |
| Signals.AnalysisIgnoresMacdAndBands | stock_analyzer_gui.py:403-465 | two tables that agree on closes, MAs and RSI get the same analysis, whatever their MACD and bands |
| Rolling.RollingMeanOfConstant | stock_analyzer_gui.py:302-303 | on a constant series P every defined moving average is P |
| Signals.FlatSeriesSells | stock_analyzer_gui.py:435-486 | 50 or more equal closes give score −3 and SELL: a tied MA (−2), price = MA20 (−1), NaN RSI (0) |
| Rolling.LastAboveMean | stock_analyzer_gui.py:450-455 | in a strictly increasing series the last close is above the moving average ending there |
| Indicators.ShortAboveLong | stock_analyzer_gui.py:439-443 | in a strictly increasing series MA20 is above MA50 |
| Signals.UptrendBuys | stock_analyzer_gui.py:435-486 | 50 or more strictly increasing closes give score 2 and BUY: MA20 > MA50 (+2), price > MA20 (+1), RSI = 100 (−1) |
| Cli.ScriptColumns | stock_analyzer.py:25-27 | MA_20, MA_50 and RSI have one cell per close |
| Cli.OverallSignal | stock_analyzer.py:86-91 | BUY iff MA20 > MA50 and RSI < 70; SELL iff not BUY, MA20 < MA50 and RSI > 30; HOLD otherwise |
| Cli.MaSignal | stock_analyzer.py:72-75 | BULLISH exactly when both averages are defined and MA20 > MA50 |
| Cli.RsiSignal | stock_analyzer.py:78-83 | OVERBOUGHT iff RSI > 70, OVERSOLD iff RSI < 30, NEUTRAL iff RSI is NaN or in [30,70] |
| Cli.ScriptReport | stock_analyzer.py:58-91 | an empty history is an error; otherwise the report holds the last close and the last MA_20, MA_50 and RSI cells, and its trend, zone and decision are the signals of those cells |
| Cli.BuyAndSellExclusive | stock_analyzer.py:86-89 | the BUY and SELL conditions never hold together |
| Cli.TieOrUndefinedHolds | stock_analyzer.py:86-91 | MA20 = MA50, or any NaN input, always gives HOLD |
| Cli.TrendTieIsBearish | stock_analyzer.py:72-75 | the trend signal reads a tie or a NaN average as bearish |
| Cli.RsiZoneMatchesGuiTerm | stock_analyzer.py:78-83 | the script's overbought/oversold/neutral zones are exactly the GUI's RSI terms −1/+1/0 |
| Cli.FrontEndsAgree | stock_analyzer.py:86-91 | on the same last row, CLI BUY implies GUI BUY or STRONG BUY, and CLI SELL implies GUI HOLD or SELL |
| Cli.ScriptRsiMatchesGui | stock_analyzer.py:27 | the script's RSI column equals the GUI's inline RSI |
| Cli.UptrendHolds | stock_analyzer.py:72-91 | on 50 or more strictly increasing closes the script reports a bullish trend and overbought, and holds overall |
| Watchlist.Add | stock_analyzer_gui.py:540-541 | the list changes iff the current ticker is set, non-empty and not listed, and then exactly that ticker is appended; a set, non-empty ticker is listed afterwards; no duplicates stay no duplicates |
| Watchlist.AddIdempotent | stock_analyzer_gui.py:540-541 | adding the same ticker twice equals adding it once |
| Watchlist.FirstIndex | stock_analyzer_gui.py:549 | the first position holding the ticker |
| Watchlist.RemoveFirst | stock_analyzer_gui.py:549 | `list.remove` deletes exactly the first occurrence and keeps the rest in order |
| Watchlist.Remove | stock_analyzer_gui.py:548-549 | an absent ticker leaves the list unchanged; a present one is deleted once (the multiset loses one copy) and every other ticker stays listed |
| Watchlist.RemoveKeepsOrder | stock_analyzer_gui.py:548-549 | on a list without duplicates, removal deletes the ticker's single position, leaves no copy, and keeps no duplicates |
| Watchlist.RemoveUndoesAdd | stock_analyzer_gui.py:540-549 | removing a ticker that was just added restores the original list |

## Left out

- Data fetching (`yf.Ticker`, `stock.history`, `stock.info`) is left out. It is a network client, and the model takes the closes as input.
- Every close is assumed to be a number: closes are `real`, not `Option<real>`. A NaN close from the data source would make the rolling means NaN over its window, turn the adjacent RSI deltas into 0, and make `ewm` skip it; none of that is modelled.
- Only the close column of a price bar is modelled, because no modelled computation reads open, high, low or volume.
- The tkinter UI, matplotlib charts, PNG export and the script's module-level plotting and printing are left out. They are presentation and I/O.
- `_analyze_thread` and `root.after` are left out. The threading exists only to keep the UI responsive.
- Loading and saving the watchlist as JSON is left out. It is file I/O with swallowed exceptions, and only the in-memory list operations are modelled.
- The percent change and the market-cap text are left out. They are float and string formatting only.
- IEEE float rounding is left out, including signed zeros, overflow and drift in the library's running sums. Exact reals replace it.
- Indicators.IsRollingStd: the standard deviation is not computed. It is a given column that is non-negative, squares to the sample variance and is NaN exactly where the variance is, because there is no square root over reals here.
- Indicators.RsiCell: this member requires non-negative averages. Averages of gains and of negated falls always are non-negative, and a negative input has no NaN-free meaning in this value model.
- Rolling.Window / Exponential.Span: windows and spans are at least 1. The code only uses 9, 12, 14, 20, 26 and 50, and a zero window is not modelled.
- Signals.AnalysisError: a table with fewer than two rows makes `show_analysis` raise an index error. This is modelled as `NoPreviousClose`; the traceback of the callback is not.

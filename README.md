# Stock signal pipeline — Dafny model

A model of the indicator and signal pipeline of a small stock-signal app.
From one series of closing prices it computes:

- the 20- and 50-period simple moving averages (MA20, MA50);
- the 14-period RSI, simple-average variant.

It then labels every period Buy, Sell or Hold. A moving-average crossover
sets the label first. Two RSI rules then overwrite it: oversold (RSI < 30)
gives Buy, and overbought (RSI > 70) gives Sell.

Prices are exact `real`s. A pandas NaN is `None` in `Cells.Option`.
Every comparison with a missing value is false, as in pandas, so each rule
skips undefined inputs.

Modules:

- `cells.dfy` (`Cells`): the `Option` and `Result` types and the
  NaN-aware comparisons `Gt`, `Lt`, `Ge`, `Le`.
- `indicators.dfy` (`IndicatorEngine`): pure functions over the column of closes.
  - `Rolling` is `rolling(w).mean()`.
  - `Delta`, `Gains` and `Losses` are `diff` and the two `where` masks.
  - `AvgGain`, `AvgLoss` and `Rsi` complete the RSI.
  - Lemmas state the defined ranges, the bounds and the telescoping of
    gains against losses.
- `signals.dfy` (`SignalClassifier`): the signal column.
  - Pure specification: `Crossovers`, then `Overwrite` with the oversold
    mask, then with the overbought mask.
  - `Classify` is the imperative version. It fills an `array<Signal>`
    with Hold, runs the crossover loop from index 1 and writes each cell in
    place, then does the two masked overwrites as loops. It is proved
    equal to the specification.
- `pipeline.dfy` (`Pipeline`):
  - `Analyze` stops with `NoData` on an empty series. Otherwise it builds
    the frame of columns.
  - `Latest` is `df.iloc[-1]`.
  - Lemmas cover whole runs: no crossover before index 50, Hold before
    index 13, a falling run forces Buy, and the latest signal follows the
    per-index rule.

Edge cases of the code's RSI:

- **Zero average loss.** With a zero average loss and a positive average
  gain, `avg_gain / 0` is +inf and the RSI is 100. Only 0/0 (a flat
  window) gives NaN, so the RSI is undefined there (`RsiOf`).
- **Falling closes.** A strictly falling run gives a zero average gain and
  a positive average loss. The RSI is then 0, and the oversold rule forces
  Buy (`FallingRunForcesBuy`).
- **Simple averages.** The averages are plain 14-period means, not Wilder's
  smoothing.
- **First RSI.** The RSI is first defined at index 13, not 14. The NaN
  delta at index 0 fails both `where` tests and becomes a gain and a loss of 0.

## Model

| member | source | states |
|---|---|---|
| `Cells.MissingFailsBoth` | app.py:42-47 | the comparisons `Gt`, `Lt`, `Ge`, `Le` with a missing value are false both ways, so `>` and `<=` are not complements |
| `IndicatorEngine.Rolling` | app.py:27-28 | `rolling(w).mean()`: entry i is defined exactly when i >= w-1 (19 for MA20, 49 for MA50), and then w times it is the sum of the w values ending at i |
| `IndicatorEngine.RollingNonNegative` | app.py:34-35 | a rolling mean of non-negative values is non-negative wherever defined |
| `IndicatorEngine.MovingAverageWithinWindow` | app.py:27-28 | a defined moving average lies between any lower and upper bound of the closes in its window |
| `IndicatorEngine.Delta` | app.py:31 | `diff` has one entry per close and is NaN exactly at index 0 |
| `IndicatorEngine.Gains` | app.py:32 | `delta.where(delta > 0, 0)` is never negative; `GainLoss` states its values |
| `IndicatorEngine.Losses` | app.py:33 | `-delta.where(delta < 0, 0)` is never negative; `GainLoss` states its values |
| `IndicatorEngine.GainLoss` | app.py:31-33 | gain and loss are >= 0 and at most one is nonzero; both are 0 at index 0; for i >= 1 gain − loss = close[i] − close[i-1] |
| `IndicatorEngine.AvgGain` | app.py:34 | the 14-period average gain is defined exactly from index 13 on and is then >= 0 |
| `IndicatorEngine.AvgLoss` | app.py:35 | the 14-period average loss is defined exactly from index 13 on and is then >= 0 |
| `IndicatorEngine.RsiOf` | app.py:36-37 | `100 - 100/(1 + g/l)` with float inf/NaN is defined exactly when g + l > 0; it equals 100·g/(g+l), lies in [0, 100], is 100 iff l = 0 and 0 iff g = 0 |
| `IndicatorEngine.Rsi` | app.py:36-37 | the RSI column is defined at i exactly when i >= 13 and avg_gain + avg_loss > 0, and then lies in [0, 100]; `RsiDefinedAndBounded` adds the 0 and 100 cases |
| `IndicatorEngine.RsiDefinedAndBounded` | app.py:34-37 | RSI[i] is defined iff i >= 13 and avg_gain + avg_loss > 0; when defined it lies in [0, 100], is 100 iff avg_loss = 0, and is 0 iff avg_gain = 0 |
| `IndicatorEngine.Telescope` | app.py:31-33 | over indices a..b the gains minus the losses sum to the change of the close across that stretch |
| `IndicatorEngine.RsiTrend` | app.py:31-37 | 14·(avg_gain − avg_loss) is the change of the close over the window, so RSI is above, at or below 50 exactly as the close rose, held or fell |
| `IndicatorEngine.FallingRunRsiZero` | app.py:31-37 | strictly falling closes over the 14-period window make RSI exactly 0 |
| `SignalClassifier.CrossoverAt` | app.py:41-45 | the crossover loop leaves Buy at i exactly on a golden cross with i >= 1, Sell exactly on a death cross with i >= 1, Hold otherwise |
| `SignalClassifier.Crossovers` | app.py:40-45 | the column after the loop: index 0 stays Hold and every other index is the crossover result; `CrossoverCases` spells out the comparisons |
| `SignalClassifier.Overwrite` | app.py:46-47 | a masked assignment sets the value where the mask holds and keeps the old entry elsewhere |
| `SignalClassifier.OversoldMask` | app.py:46 | `RSI < 30` holds exactly where the RSI is defined and below 30 |
| `SignalClassifier.OverboughtMask` | app.py:47 | `RSI > 70` holds exactly where the RSI is defined and above 70 |
| `SignalClassifier.Signals` | app.py:40-47 | the final column has one entry per period and is Sell wherever the RSI is above 70; `SignalRule` gives the full per-index rule |
| `SignalClassifier.Classify` | app.py:40-47 | filling with Hold, running the crossover loop in place and then the two masked overwrites yields exactly the layered specification `Signals` |
| `SignalClassifier.CrossoverCases` | app.py:40-45 | after the loop, Buy iff i >= 1 and `GoldenCross` holds, that is all four averages defined, MA20[i] > MA50[i] and MA20[i-1] <= MA50[i-1]; Sell iff the mirror case `DeathCross`; index 0 stays Hold |
| `SignalClassifier.NoCrossoverWhenEqual` | app.py:42-45 | equal averages at i never fire a crossover at i |
| `SignalClassifier.SignalRule` | app.py:46-47 | final signal: defined RSI > 70 gives Sell, else defined RSI < 30 gives Buy, else (RSI undefined or in [30, 70]) the crossover result |
| `SignalClassifier.OverridesBeatCrossover` | app.py:42-47 | a golden cross with RSI > 70 ends as Sell; a death cross with RSI < 30 ends as Buy |
| `Pipeline.SignalsOf` | app.py:27-47 | the signals of a series of closes, one per close, from its MA20, MA50 and RSI columns |
| `Pipeline.Analyze` | app.py:20-47 | an empty series fails with NoData and nothing else does; otherwise every column has one entry per close and holds MA20, MA50, RSI and the signals of those closes |
| `Pipeline.Latest` | app.py:69 | the latest row carries the last close, MA20, MA50, RSI and signal |
| `Pipeline.NoCrossoverBefore50` | app.py:28-45 | on the real averages, no crossover fires at any index below 50 |
| `Pipeline.EarlyPeriodsHold` | app.py:27-47 | every period before index 13 ends as Hold |
| `Pipeline.FallingRunForcesBuy` | app.py:31-46 | strictly falling closes over the RSI window force Buy at the window's end |
| `Pipeline.LatestOfRun` | app.py:46-47 | the headline signal is the final per-index rule applied to the last close |

## Left out

- Page setup, text and date inputs, the error message, and markdown/table output (app.py:8-16, 70-77): user interface.
- The `yf.download` call and the shape of its result (app.py:19): network I/O through a library. The model takes the downloaded closes as a `seq<real>`, and `Analyze` stops on an empty one.
- Plotting and the Buy/Sell scatter (app.py:50-66): rendering only.
- Float64 rounding and pandas' own rolling-mean algorithm: the model uses exact real arithmetic. Infinity and NaN appear only through `RsiOf`'s case split, which gives the same values as the float formula.
- NaN closes in the downloaded series: the model assumes every close is a number.
- Dates, the index, and `round(..., 2)` in the headline (app.py:72-73): presentation.
- Rejecting non-increasing or duplicate timestamps: the code has no such check, and timestamps are not modelled.
- Determinism across repeated runs holds trivially, because every indicator and signal is a function of the closes.

# Backtester core in Dafny

A model of the two components that hold the logic of a small trading
backtester:

- **Signal generation** (`core/strategy.py`, module `Strategy` in
  `strategy.dfy`). Each of three strategies maps a series of closing prices
  to one signal per bar: `Buy`, `Sell` or `Hold` (1, -1 and 0 in the
  source).
  - The moving-average crossover compares a short and a long rolling mean.
    Both means expand from the first bar until the window is full. It
    signals only where their ordering changes.
  - The RSI strategy averages the bar-to-bar gains and losses over a
    trailing window. An average loss of zero is floored to `1e-10`. It
    buys below a low threshold and sells above a high one.
  - Buy-and-hold buys on the first bar and holds afterwards.

  These are pure functions over `seq<real>`. A rolling mean is a windowed
  sum. The masked writes of the source become per-index expressions.
- **Portfolio simulation** (`core/backtest.py`, module `Backtest` in
  `backtest.dfy`). `RunBacktest` is the source's loop as a method. It
  replays the bars in order, updates `cash` and `position`, and appends one
  snapshot (date, price, cash, position, total) per bar. The method is
  proved equal to `Trajectory`, a functional specification built from the
  one-bar trade rule `Step`. Lemmas about `Step` and `Trajectory` state
  what the simulator promises:
  - trades are value-neutral at the bar's price;
  - a Buy spends whole shares within one share's price of the fixed budget;
  - the position never goes negative;
  - equity moves only with the price of the shares held;
  - a run that never buys stays flat at the initial capital;
  - a missing signal is a Hold.

Cash can go negative. The affordability test (core/backtest.py:33) asks
only for one share's price in cash, so a repeated Buy can overdraw
(`Backtest.RepeatedBuyOverdraws`). `Backtest.StepKeepsCashWhenBudgetCovered`
states when cash does stay non-negative across a bar.

Under the zero-loss floor, the RSI of a window with no falling bar is
`100 g / (g + 1e-10)` for the average gain `g`, and the bar sells exactly
when that value exceeds the high threshold (`Strategy.RsiNoFallValue`). A
flat window has RSI 0 and buys under a positive low threshold and a
non-negative high one, such as the defaults 30 and 70
(`Strategy.RsiNoRiseBuysByDefault`). The thresholds are not checked to be
in order: with the low one above the high one, an RSI on the high threshold
buys and one on the low threshold can sell
(`Strategy.ClassifyThresholdsOutOfOrder`).

An empty price history makes the simulator fail when it indexes its
snapshot table by date (core/backtest.py:53); the model returns
`Err(EmptyHistory)` there.

## Model

| member | source | states |
|---|---|---|
| Strategy.RollingMeanAtLeast | core/strategy.py:14-15 | a rolling mean is at least any lower bound of the elements in its window |
| Strategy.RollingMeanOfConstant | core/strategy.py:14-15 | a rolling mean over a window whose elements all equal c is c |
| Strategy.RollingMeanZeroIff | core/strategy.py:46-47 | over non-negative elements, a rolling mean is zero exactly when every element of its window is zero |
| Strategy.RollingMeanExpanding | core/strategy.py:14-15 | before w elements exist, the rolling mean is the mean of the whole prefix, independent of w |
| Strategy.RollingMeanFullWindow | core/strategy.py:14-15 | once w elements exist, the rolling mean is the sum of the last w elements divided by w |
| Strategy.SumAtLeast | core/strategy.py:14-15 | a windowed sum is at least the window length times any lower bound of its elements |
| Strategy.SumAtMost | core/strategy.py:14-15 | a windowed sum is at most the window length times any upper bound of its elements |
| Strategy.SumZeroIff | core/strategy.py:46-47 | a sum of non-negative terms is zero exactly when every term is zero |
| Strategy.SmaSignals | core/strategy.py:17-27 | one crossover signal per bar, and the first bar is Hold |
| Strategy.SmaCrossover | core/strategy.py:6-27 | fails with InvalidWindow exactly when a window is below one bar; otherwise returns one signal per bar |
| Strategy.SmaSignalAt | core/strategy.py:20-25 | after the first bar: Buy exactly when the short mean moves from below to at-or-above the long mean, or from equal to above; Sell on the mirror moves; Hold exactly when the ordering is unchanged |
| Strategy.SmaEqualWindowsHold | core/strategy.py:14-25 | with equal windows every bar holds |
| Strategy.SmaConstantSeriesHolds | core/strategy.py:14-25 | a constant price series holds on every bar, whatever the windows |
| Strategy.SmaEarlyBarsHold | core/strategy.py:14-25 | every bar before either window fills holds |
| Strategy.EarlyLevelEven | core/strategy.py:14-21 | before either window fills, the short and long means are equal |
| Strategy.PositivePart | core/strategy.py:43-44 | the clipped delta is non-negative, at least the delta, and zero exactly when the delta is not positive |
| Strategy.Gains | core/strategy.py:42-43 | one gain per bar after the first |
| Strategy.Losses | core/strategy.py:42-44 | one loss per bar after the first |
| Strategy.AvgGainWindow | core/strategy.py:42-46 | the average gain of bar i >= 1 is the mean of the gains of bars max(1, i - period + 1) .. i, which are min(i, period) bars: bar 0's missing delta is not counted |
| Strategy.AvgLossWindow | core/strategy.py:42-47 | the average loss of bar i >= 1 is the mean of the losses of the same min(i, period) bars |
| Strategy.AveragesNonNegative | core/strategy.py:43-47 | the average gain and the average loss are non-negative |
| Strategy.RsiValue | core/strategy.py:49-50 | the RSI lies in [0, 100), is zero exactly when the average gain is zero, and equals 100 g / (g + d) with d the average loss floored to 1e-10 |
| Strategy.RsiBounds | core/strategy.py:49-50 | 100 - 100 / (1 + g / d) lies in [0, 100), is zero exactly when g is zero, and equals 100 g / (g + d) |
| Strategy.RsiAt | core/strategy.py:42-53 | bar 0 has no RSI; every later bar has one in [0, 100) |
| Strategy.Classify | core/strategy.py:54-57 | Sell exactly when the RSI exceeds the high threshold; Buy exactly when it is below the low threshold and not above the high one; a missing RSI holds |
| Strategy.ClassifyHoldsOnThresholds | core/strategy.py:54-57 | a missing RSI, or one on a threshold when low <= high, holds |
| Strategy.ClassifyThresholdsOutOfOrder | core/strategy.py:54-57 | with the low threshold above the high one, an RSI of 70 under thresholds 80 and 70 buys, and an RSI of 30 under thresholds 30 and 20 sells |
| Strategy.RsiSignals | core/strategy.py:53-59 | one RSI signal per bar, and the first bar is Hold |
| Strategy.RsiStrategy | core/strategy.py:30-59 | fails with InvalidWindow exactly when the period is below one bar; otherwise returns one signal per bar |
| Strategy.AvgGainZeroIffNoRise | core/strategy.py:42-46 | the average gain of bar i >= 1 is zero exactly when no bar in its window closed above the previous bar |
| Strategy.GainsZeroIffNoRise | core/strategy.py:42-43 | the gains of bars lo .. i are all zero exactly when none of those bars closed above the previous bar |
| Strategy.RsiZeroIffNoRise | core/strategy.py:42-50 | the RSI of bar i >= 1 is zero exactly when no bar in its window rose |
| Strategy.RsiNoRiseBuys | core/strategy.py:42-57 | a flat or falling window gives RSI 0 and therefore Buy, for a positive low threshold and a non-negative high one |
| Strategy.RsiNoRiseBuysByDefault | core/strategy.py:30-57 | under the default period 14 and thresholds 30 and 70, a flat or falling window buys |
| Strategy.AvgLossZeroIfNoFall | core/strategy.py:44-47 | a window in which no bar fell has average loss zero |
| Strategy.RsiNoFallValue | core/strategy.py:44-57 | with no falling bar, the RSI is 100 g / (g + 1e-10) and the bar sells exactly when that exceeds the high threshold |
| Strategy.BuyAndHold | core/strategy.py:62-68 | fails with EmptySeries on an empty series; otherwise one signal per bar, Buy on the first and Hold on every other |
| Backtest.RunBacktest | core/backtest.py:6-54 | fails with EmptyHistory exactly when there are no bars; otherwise the loop's snapshots are exactly the trajectory of the trade rule applied bar by bar from all cash |
| Backtest.Trajectory | core/backtest.py:28-51 | one snapshot per bar, in bar order, carrying each bar's date and price |
| Backtest.StepValueNeutral | core/backtest.py:33-44 | a trade leaves the portfolio's worth at the bar's price unchanged |
| Backtest.StepTransitions | core/backtest.py:33-42 | the portfolio changes only on an affordable Buy, which adds floor(budget / price) shares, or on a Sell with shares held, which sells all of them at the bar's price |
| Backtest.BuySpendsFixedBudget | core/backtest.py:23-37 | an executed Buy spends shares times price, more than the budget minus one share's price and at most the budget |
| Backtest.NoShareBelowPrice | core/backtest.py:34 | a budget below one share's price buys zero shares |
| Backtest.PositionNonNegative | core/backtest.py:25-42 | with a non-negative budget the position after any number of bars is non-negative |
| Backtest.TrajectoryPositionNonNegative | core/backtest.py:25-42 | every snapshot of a run with a non-negative budget holds a non-negative position |
| Backtest.TrajectoryStep | core/backtest.py:28-51 | consecutive snapshots are linked by the later bar's trade, and each total is its cash plus its shares at its bar's price |
| Backtest.EquityStartsAtCapital | core/backtest.py:22-44 | the first snapshot's total is the initial capital, whatever the first trade |
| Backtest.StepEquity | core/backtest.py:33-44 | across a trade, the total moves only by the earlier holding times the price change |
| Backtest.TrajectoryValueNeutral | core/backtest.py:33-44 | bar i's trade keeps the holding's worth at bar i's price, and each snapshot's total is its cash plus its shares at its own bar's price |
| Backtest.EquityMovesWithPriceOnly | core/backtest.py:28-51 | between consecutive snapshots the total changes by the previous position times the price change |
| Backtest.PriceMove | core/backtest.py:44 | a fixed holding's worth changes by its shares times the price change |
| Backtest.NoSharesKeepsCapital | core/backtest.py:22-37 | when every Buy bar's price exceeds a non-negative budget, the state stays at the initial capital with no shares |
| Backtest.NoSharesFlatTrajectory | core/backtest.py:22-44 | in such a run every snapshot has no shares, the initial capital in cash and the initial capital as total |
| Backtest.SameSignalsSameStates | core/backtest.py:20-30 | runs whose signals agree on every bar's date pass through the same states |
| Backtest.MissingSignalIsHold | core/backtest.py:20 | a date missing from the signals gives the same trajectory as an explicit Hold on it |
| Backtest.StepKeepsCashWhenBudgetCovered | core/backtest.py:33-42 | cash stays non-negative across a bar when it covers the whole budget |
| Backtest.RepeatedBuyOverdraws | core/backtest.py:33-37 | two Buys at 100 with capital 1000 at 80% leave cash 200 with 8 shares, then cash -600 with 16 shares |
| Backtest.WorkedExample | core/backtest.py:22-51 | prices 100, 110, 105, 120 with capital 1000 at 50%, Buy then Sell, give totals 1000, 1050, 1025, 1100 and end with 1100 in cash |

## Left out

- The Qt user interface, plotting, entry and exit markers, and the
  data layer (network downloads, CSV files, caches) are I/O and
  presentation.
- The performance metrics (total return, Sharpe ratio, maximum drawdown)
  live in the user interface, interleaved with the network download and
  plotting, and need floating-point square roots; they are not modelled.
- Choosing a strategy by name is glue in the user interface. The
  defaults of the source's keyword arguments (windows 10 and 30, RSI
  period 14, thresholds 30 and 70, capital 10000, 10% per trade) are
  default parameter values of `SmaCrossover`, `RsiStrategy` and
  `RunBacktest`.
- DataFrame mechanics are not modelled: copies, flattening of MultiIndex
  columns, and the `Close` column assertion. The strategies take the close
  series itself, so the assertion holds by construction.
- Prices and averages are exact reals. IEEE rounding, and NaN beyond the
  missing RSI of the first bar, are not modelled. The `1e-10` floor is an
  exact constant.
- Signals are a three-valued datatype. A signal series holding other
  numbers is not representable.
- Dates are integer timestamps. The signal series is a map from date to
  signal; reindexing by date with a 0 fill becomes a lookup that defaults
  to Hold.
- Backtest.RunBacktest: requires every closing price to be positive. A
  zero price on an affordable Buy bar makes the source divide by zero, and
  negative prices are not modelled.
- Backtest.RunBacktest: the loop body calls the one-bar rule `Step`
  instead of repeating its branches inline. The order of updates is the
  same.
- Backtest.Portfolio: the position is an integer share count. The source
  holds it as a float with a whole-number value.
- Exceptions become error results: pandas' exception on a rolling window
  below one is `Err(InvalidWindow)`, the exception of `iloc[0]` on an empty
  series is `Err(EmptySeries)`, and the exception of indexing an empty
  snapshot table by date is `Err(EmptyHistory)`.

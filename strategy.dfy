/// Signal generation: three strategies that map a series of closing prices
/// to one trading signal per bar.  Each strategy is a pure function of the
/// close series and its parameters; the rolling means are windowed sums.

module Strategy {

  /** A trading instruction for one bar (-1, 0 and 1 in the source). */
  datatype Signal = Sell | Hold | Buy

  /** Why a strategy refuses its input instead of producing signals. */
  datatype StrategyError =
    | InvalidWindow   // a rolling window shorter than one bar
    | EmptySeries     // buy-and-hold has no first bar to buy on

  datatype Result<T, E> = Ok(value: T) | Err(error: E)

  /** A value that may be missing, as the RSI of the first bar is. */
  datatype Option<T> = None | Some(value: T)

  // Default parameters of the strategies.
  const DefaultShortWindow: nat := 10
  const DefaultLongWindow: nat := 30
  const DefaultRsiPeriod: nat := 14
  const DefaultThresholdLow: real := 30.0
  const DefaultThresholdHigh: real := 70.0

  /** The positive floor that replaces an average loss of exactly zero. */
  const LossFloor: real := 0.0000000001

  // ---------------------------------------------------------------------
  // Windowed sums and rolling means
  // ---------------------------------------------------------------------

  /** The sum of s[lo], ..., s[hi - 1]. */
  function Sum(s: seq<real>, lo: nat, hi: nat): (r: real)
    requires lo <= hi <= |s|
    decreases hi - lo
  {
    if lo == hi then 0.0 else s[lo] + Sum(s, lo + 1, hi)
  }

  /**
   * The first index of the trailing window of `w` elements that ends at
   * index i.  With at least one observation required, fewer than `w`
   * elements are averaged at the start of the series: the window expands
   * from index 0 until `w` elements exist.
   */
  function WindowStart(i: nat, w: nat): (lo: nat)
    requires w >= 1
    ensures lo <= i
  {
    if i + 1 < w then 0 else i + 1 - w
  }

  /** The mean of s over the trailing window of `w` elements ending at i. */
  function RollingMean(s: seq<real>, w: nat, i: nat): (r: real)
    requires w >= 1 && i < |s|
  {
    var lo := WindowStart(i, w);
    Sum(s, lo, i + 1) / (i + 1 - lo) as real
  }

  lemma {:induction false} SumAtLeast(s: seq<real>, lo: nat, hi: nat, a: real)
    requires lo <= hi <= |s|
    requires forall j :: lo <= j < hi ==> a <= s[j]
    ensures (hi - lo) as real * a <= Sum(s, lo, hi)
    decreases hi - lo
  {
    if lo < hi {
      SumAtLeast(s, lo + 1, hi, a);
      assert (hi - lo) as real * a == a + (hi - (lo + 1)) as real * a;
    }
  }

  lemma {:induction false} SumAtMost(s: seq<real>, lo: nat, hi: nat, b: real)
    requires lo <= hi <= |s|
    requires forall j :: lo <= j < hi ==> s[j] <= b
    ensures Sum(s, lo, hi) <= (hi - lo) as real * b
    decreases hi - lo
  {
    if lo < hi {
      SumAtMost(s, lo + 1, hi, b);
      assert (hi - lo) as real * b == b + (hi - (lo + 1)) as real * b;
    }
  }

  /** A sum of non-negative terms is zero exactly when every term is. */
  lemma {:induction false} SumZeroIff(s: seq<real>, lo: nat, hi: nat)
    requires lo <= hi <= |s|
    requires forall j :: lo <= j < hi ==> 0.0 <= s[j]
    ensures Sum(s, lo, hi) == 0.0 <==> forall j :: lo <= j < hi ==> s[j] == 0.0
    decreases hi - lo
  {
    if lo < hi {
      SumZeroIff(s, lo + 1, hi);
      SumAtLeast(s, lo + 1, hi, 0.0);
    }
  }

  /** A rolling mean is at least any lower bound of its window. */
  lemma RollingMeanAtLeast(s: seq<real>, w: nat, i: nat, a: real)
    requires w >= 1 && i < |s|
    requires forall j :: WindowStart(i, w) <= j <= i ==> a <= s[j]
    ensures a <= RollingMean(s, w, i)
  {
    var lo := WindowStart(i, w);
    var n := (i + 1 - lo) as real;
    SumAtLeast(s, lo, i + 1, a);
    assert RollingMean(s, w, i) * n == Sum(s, lo, i + 1);
  }

  /** The rolling mean of a window whose elements all equal c is c. */
  lemma RollingMeanOfConstant(s: seq<real>, w: nat, i: nat, c: real)
    requires w >= 1 && i < |s|
    requires forall j :: WindowStart(i, w) <= j <= i ==> s[j] == c
    ensures RollingMean(s, w, i) == c
  {
    var lo := WindowStart(i, w);
    var n := (i + 1 - lo) as real;
    SumAtLeast(s, lo, i + 1, c);
    SumAtMost(s, lo, i + 1, c);
    assert Sum(s, lo, i + 1) == n * c;
  }

  /** Over a non-negative window, the mean is zero exactly when the window is all zero. */
  lemma RollingMeanZeroIff(s: seq<real>, w: nat, i: nat)
    requires w >= 1 && i < |s|
    requires forall j :: WindowStart(i, w) <= j <= i ==> 0.0 <= s[j]
    ensures RollingMean(s, w, i) == 0.0 <==> forall j :: WindowStart(i, w) <= j <= i ==> s[j] == 0.0
  {
    var lo := WindowStart(i, w);
    var n := (i + 1 - lo) as real;
    SumZeroIff(s, lo, i + 1);
    assert RollingMean(s, w, i) * n == Sum(s, lo, i + 1);
  }

  /**
   * Before `w` elements exist the rolling mean is the mean of the whole
   * prefix, so it does not depend on the window length.
   */
  lemma RollingMeanExpanding(s: seq<real>, w: nat, i: nat)
    requires w >= 1 && i < |s| && i < w
    ensures RollingMean(s, w, i) == Sum(s, 0, i + 1) / (i + 1) as real
  {
  }

  /** Once `w` elements exist, the rolling mean is the mean of exactly the last `w`. */
  lemma RollingMeanFullWindow(s: seq<real>, w: nat, i: nat)
    requires w >= 1 && i < |s| && i + 1 >= w
    ensures RollingMean(s, w, i) == Sum(s, i + 1 - w, i + 1) / w as real
  {
  }

  // ---------------------------------------------------------------------
  // Moving-average crossover
  // ---------------------------------------------------------------------

  /** Relative order of the short and long averages at bar i: 1 above, -1 below, 0 equal. */
  function Level(close: seq<real>, shortWindow: nat, longWindow: nat, i: nat): (r: int)
    requires shortWindow >= 1 && longWindow >= 1 && i < |close|
  {
    var s, l := RollingMean(close, shortWindow, i), RollingMean(close, longWindow, i);
    if s > l then 1 else if s < l then -1 else 0
  }

  /** The sign of a change between two levels, as a signal. */
  function SignOf(x: int): (r: Signal)
  {
    if x > 0 then Buy else if x < 0 then Sell else Hold
  }

  /**
   * The crossover signals: the sign of the change in level from the
   * previous bar; the first bar has no previous one and holds.
   */
  function SmaSignals(close: seq<real>, shortWindow: nat, longWindow: nat): (r: seq<Signal>)
    requires shortWindow >= 1 && longWindow >= 1
    ensures |r| == |close|
    ensures |close| > 0 ==> r[0] == Hold
  {
    seq(|close|, i requires 0 <= i < |close| =>
      if i == 0 then Hold
      else SignOf(Level(close, shortWindow, longWindow, i) - Level(close, shortWindow, longWindow, i - 1)))
  }

  /** The crossover strategy, refusing a window shorter than one bar. */
  function SmaCrossover(close: seq<real>, shortWindow: int := DefaultShortWindow,
                       longWindow: int := DefaultLongWindow): (r: Result<seq<Signal>, StrategyError>)
    ensures r.Err? <==> shortWindow < 1 || longWindow < 1
    ensures r.Err? ==> r.error == InvalidWindow
    ensures r.Ok? ==> |r.value| == |close|
  {
    if shortWindow < 1 || longWindow < 1 then Err(InvalidWindow)
    else Ok(SmaSignals(close, shortWindow, longWindow))
  }

  /**
   * At a bar after the first, the signal is Buy exactly when the short
   * average moves up relative to the long one (below to equal, below to
   * above, or equal to above), Sell exactly on the mirror moves, and Hold
   * when the ordering is the same as on the previous bar.
   */
  lemma SmaSignalAt(close: seq<real>, shortWindow: nat, longWindow: nat, i: nat)
    requires shortWindow >= 1 && longWindow >= 1 && 1 <= i < |close|
    ensures var s0, l0 := RollingMean(close, shortWindow, i - 1), RollingMean(close, longWindow, i - 1);
            var s1, l1 := RollingMean(close, shortWindow, i), RollingMean(close, longWindow, i);
            && (SmaSignals(close, shortWindow, longWindow)[i] == Buy <==>
                 (s0 < l0 && s1 >= l1) || (s0 == l0 && s1 > l1))
            && (SmaSignals(close, shortWindow, longWindow)[i] == Sell <==>
                 (s0 > l0 && s1 <= l1) || (s0 == l0 && s1 < l1))
            && (SmaSignals(close, shortWindow, longWindow)[i] == Hold <==>
                 (s0 < l0 <==> s1 < l1) && (s0 > l0 <==> s1 > l1))
  {
  }

  /** With equal windows the two averages coincide and nothing is signalled. */
  lemma SmaEqualWindowsHold(close: seq<real>, w: nat)
    requires w >= 1
    ensures forall i :: 0 <= i < |close| ==> SmaSignals(close, w, w)[i] == Hold
  {
  }

  /**
   * While fewer bars exist than either window, both averages are the mean
   * of the same prefix, so those bars hold.
   */
  lemma SmaEarlyBarsHold(close: seq<real>, shortWindow: nat, longWindow: nat, i: nat)
    requires shortWindow >= 1 && longWindow >= 1
    requires i < |close| && i < shortWindow && i < longWindow
    ensures SmaSignals(close, shortWindow, longWindow)[i] == Hold
  {
    if i > 0 {
      EarlyLevelEven(close, shortWindow, longWindow, i);
      EarlyLevelEven(close, shortWindow, longWindow, i - 1);
    }
  }

  /** Before either window fills, the two averages coincide. */
  lemma EarlyLevelEven(close: seq<real>, shortWindow: nat, longWindow: nat, i: nat)
    requires shortWindow >= 1 && longWindow >= 1
    requires i < |close| && i < shortWindow && i < longWindow
    ensures Level(close, shortWindow, longWindow, i) == 0
  {
    RollingMeanExpanding(close, shortWindow, i);
    RollingMeanExpanding(close, longWindow, i);
  }

  /** A constant price series never crosses: every bar holds. */
  lemma SmaConstantSeriesHolds(close: seq<real>, shortWindow: nat, longWindow: nat, c: real)
    requires shortWindow >= 1 && longWindow >= 1
    requires forall j :: 0 <= j < |close| ==> close[j] == c
    ensures forall i :: 0 <= i < |close| ==> SmaSignals(close, shortWindow, longWindow)[i] == Hold
  {
    forall i | 0 <= i < |close|
      ensures Level(close, shortWindow, longWindow, i) == 0
    {
      RollingMeanOfConstant(close, shortWindow, i, c);
      RollingMeanOfConstant(close, longWindow, i, c);
    }
  }

  // ---------------------------------------------------------------------
  // RSI threshold
  // ---------------------------------------------------------------------

  /** The positive part of x. */
  function PositivePart(x: real): (r: real)
    ensures 0.0 <= r && x <= r
    ensures r == 0.0 <==> x <= 0.0
  {
    if x > 0.0 then x else 0.0
  }

  /**
   * Bar-to-bar gains: element j is the rise from bar j to bar j + 1.  Bar 0
   * has no delta, so these sequences start at bar 1.
   */
  function Gains(close: seq<real>): (g: seq<real>)
    ensures |close| > 0 ==> |g| == |close| - 1
  {
    if |close| == 0 then []
    else seq(|close| - 1, j requires 0 <= j < |close| - 1 => PositivePart(close[j + 1] - close[j]))
  }

  /** Bar-to-bar losses: element j is the fall from bar j to bar j + 1. */
  function Losses(close: seq<real>): (l: seq<real>)
    ensures |close| > 0 ==> |l| == |close| - 1
  {
    if |close| == 0 then []
    else seq(|close| - 1, j requires 0 <= j < |close| - 1 => PositivePart(close[j] - close[j + 1]))
  }

  /**
   * The first bar whose delta enters the average at bar i >= 1: the window
   * covers the deltas of bars max(1, i - period + 1) .. i, because the
   * missing delta of bar 0 is not counted.
   */
  function RsiWindowStart(i: nat, period: nat): (lo: nat)
    requires period >= 1 && i >= 1
    ensures 1 <= lo <= i
  {
    WindowStart(i - 1, period) + 1
  }

  /** The average gain over the trailing window of deltas ending at bar i >= 1. */
  function AvgGain(close: seq<real>, period: nat, i: nat): (r: real)
    requires period >= 1 && 1 <= i < |close|
  {
    RollingMean(Gains(close), period, i - 1)
  }

  /** The average loss over the trailing window of deltas ending at bar i >= 1. */
  function AvgLoss(close: seq<real>, period: nat, i: nat): (r: real)
    requires period >= 1 && 1 <= i < |close|
  {
    RollingMean(Losses(close), period, i - 1)
  }

  /**
   * The average gain of bar i >= 1 is the mean of the gains of bars
   * RsiWindowStart(i, period) .. i, which are min(i, period) bars: bar 0
   * has no delta and is not counted.
   */
  lemma AvgGainWindow(close: seq<real>, period: nat, i: nat)
    requires period >= 1 && 1 <= i < |close|
    ensures var lo := RsiWindowStart(i, period);
            && i + 1 - lo == (if i < period then i else period)
            && AvgGain(close, period, i) == Sum(Gains(close), lo - 1, i) / (i + 1 - lo) as real
  {
  }

  /** The average loss of bar i >= 1 is the mean of the losses of the same bars. */
  lemma AvgLossWindow(close: seq<real>, period: nat, i: nat)
    requires period >= 1 && 1 <= i < |close|
    ensures var lo := RsiWindowStart(i, period);
            && i + 1 - lo == (if i < period then i else period)
            && AvgLoss(close, period, i) == Sum(Losses(close), lo - 1, i) / (i + 1 - lo) as real
  {
  }

  lemma AveragesNonNegative(close: seq<real>, period: nat, i: nat)
    requires period >= 1 && 1 <= i < |close|
    ensures 0.0 <= AvgGain(close, period, i) && 0.0 <= AvgLoss(close, period, i)
  {
    var g, l := Gains(close), Losses(close);
    assert forall j :: 0 <= j < |g| ==> 0.0 <= g[j];
    assert forall j :: 0 <= j < |l| ==> 0.0 <= l[j];
    RollingMeanAtLeast(g, period, i - 1, 0.0);
    RollingMeanAtLeast(l, period, i - 1, 0.0);
  }

  /**
   * The relative strength index from the two averages, with an average loss
   * of exactly zero replaced by LossFloor.  It lies in [0, 100) and is zero
   * exactly when there was no gain.
   */
  function RsiValue(avgGain: real, avgLoss: real): (r: real)
    requires 0.0 <= avgGain && 0.0 <= avgLoss
    ensures 0.0 <= r < 100.0
    ensures r == 0.0 <==> avgGain == 0.0
    ensures r == 100.0 * avgGain / (avgGain + (if avgLoss == 0.0 then LossFloor else avgLoss))
  {
    var denominator := if avgLoss == 0.0 then LossFloor else avgLoss;
    var rs := avgGain / denominator;
    RsiBounds(avgGain, denominator);
    100.0 - 100.0 / (1.0 + rs)
  }

  lemma RsiBounds(g: real, d: real)
    requires 0.0 <= g && 0.0 < d
    ensures var r := 100.0 - 100.0 / (1.0 + g / d);
            && 0.0 <= r < 100.0
            && (r == 0.0 <==> g == 0.0)
            && r == 100.0 * g / (g + d)
  {
    var rs := g / d;
    assert rs * d == g;
    assert 0.0 <= rs;
    var q := 100.0 / (1.0 + rs);
    assert q * (1.0 + rs) == 100.0;
    assert 0.0 < q <= 100.0;
    var m := 100.0 * g / (g + d);
    assert m * (g + d) == 100.0 * g;
    assert (100.0 - q) * (1.0 + rs) == 100.0 * rs;
    assert (100.0 - q) * (1.0 + rs) * d == 100.0 * rs * d;
    assert (100.0 - q) * (g + d) == 100.0 * g;
    assert (100.0 - q) * (g + d) == m * (g + d);
    CancelPositive(100.0 - q, m, g + d);
  }

  lemma CancelPositive(a: real, b: real, c: real)
    requires 0.0 < c && a * c == b * c
    ensures a == b
  {
  }

  /** The RSI of bar i; bar 0 has no delta, so no value (NaN in the source). */
  function RsiAt(close: seq<real>, period: nat, i: nat): (r: Option<real>)
    requires period >= 1 && i < |close|
    ensures r.None? <==> i == 0
    ensures r.Some? ==> 0.0 <= r.value < 100.0
  {
    if i == 0 then None
    else
      AveragesNonNegative(close, period, i);
      Some(RsiValue(AvgGain(close, period, i), AvgLoss(close, period, i)))
  }

  /**
   * The signal for one RSI value: Sell above the high threshold, Buy below
   * the low one, Hold otherwise; the Sell test is applied last, so it wins
   * when both hold.  A missing value compares false and holds.
   */
  function Classify(rsi: Option<real>, low: real, high: real): (r: Signal)
    ensures r == Sell <==> rsi.Some? && rsi.value > high
    ensures r == Buy <==> rsi.Some? && rsi.value < low && rsi.value <= high
  {
    match rsi
    case None => Hold
    case Some(v) => if v > high then Sell else if v < low then Buy else Hold
  }

  /**
   * With the thresholds in order, a missing RSI and an RSI equal to either
   * threshold hold: both tests are strict.
   */
  lemma ClassifyHoldsOnThresholds(rsi: Option<real>, low: real, high: real)
    requires low <= high
    ensures rsi.None? || rsi == Some(low) || rsi == Some(high) ==> Classify(rsi, low, high) == Hold
  {
  }

  /** With the thresholds out of order, a value on the high threshold can still buy. */
  lemma ClassifyThresholdsOutOfOrder()
    ensures Classify(Some(70.0), 80.0, 70.0) == Buy
    ensures Classify(Some(30.0), 30.0, 20.0) == Sell
  {
  }

  /** The RSI signals, one per bar. */
  function RsiSignals(close: seq<real>, period: nat, low: real, high: real): (r: seq<Signal>)
    requires period >= 1
    ensures |r| == |close|
    ensures |close| > 0 ==> r[0] == Hold
  {
    seq(|close|, i requires 0 <= i < |close| => Classify(RsiAt(close, period, i), low, high))
  }

  /** The RSI strategy, refusing a period shorter than one bar. */
  function RsiStrategy(close: seq<real>, period: int := DefaultRsiPeriod,
                      low: real := DefaultThresholdLow, high: real := DefaultThresholdHigh): (r: Result<seq<Signal>, StrategyError>)
    ensures r.Err? <==> period < 1
    ensures r.Err? ==> r.error == InvalidWindow
    ensures r.Ok? ==> |r.value| == |close|
  {
    if period < 1 then Err(InvalidWindow) else Ok(RsiSignals(close, period, low, high))
  }

  /** Gains and losses at bar j >= 1 are the positive parts of its delta and of its negation. */
  lemma DeltaAt(close: seq<real>, j: nat)
    requires 1 <= j < |close|
    ensures Gains(close)[j - 1] == PositivePart(close[j] - close[j - 1])
    ensures Losses(close)[j - 1] == PositivePart(close[j - 1] - close[j])
  {
  }

  /** The average gain of bar i >= 1 is zero exactly when no bar in its window rose. */
  lemma AvgGainZeroIffNoRise(close: seq<real>, period: nat, i: nat)
    requires period >= 1 && 1 <= i < |close|
    ensures AvgGain(close, period, i) == 0.0 <==>
            forall j :: RsiWindowStart(i, period) <= j <= i ==> close[j] <= close[j - 1]
  {
    var g := Gains(close);
    var lo := RsiWindowStart(i, period);
    assert WindowStart(i - 1, period) == lo - 1;
    assert forall k :: 0 <= k < |g| ==> 0.0 <= g[k];
    RollingMeanZeroIff(g, period, i - 1);
    GainsZeroIffNoRise(close, lo, i);
  }

  /** The gains of bars lo .. i are all zero exactly when none of those bars rose. */
  lemma GainsZeroIffNoRise(close: seq<real>, lo: nat, i: nat)
    requires 1 <= lo <= i < |close|
    ensures (forall k :: lo - 1 <= k <= i - 1 ==> Gains(close)[k] == 0.0) <==>
            (forall j :: lo <= j <= i ==> close[j] <= close[j - 1])
  {
    var g := Gains(close);
    forall j | lo <= j <= i
      ensures g[j - 1] == 0.0 <==> close[j] <= close[j - 1]
    {
      DeltaAt(close, j);
    }
    if forall j :: lo <= j <= i ==> close[j] <= close[j - 1] {
      forall k | lo - 1 <= k <= i - 1 ensures g[k] == 0.0 {
        assert g[(k + 1) - 1] == 0.0 <==> close[k + 1] <= close[(k + 1) - 1];
      }
    }
  }

  /**
   * The RSI of bar i >= 1 is zero exactly when no bar in its window closed
   * above the previous one (a flat or falling window).
   */
  lemma RsiZeroIffNoRise(close: seq<real>, period: nat, i: nat)
    requires period >= 1 && 1 <= i < |close|
    ensures RsiAt(close, period, i) == Some(0.0) <==>
            forall j :: RsiWindowStart(i, period) <= j <= i ==> close[j] <= close[j - 1]
  {
    AveragesNonNegative(close, period, i);
    AvgGainZeroIffNoRise(close, period, i);
  }

  /**
   * A window with no rising bar has RSI zero, which is below any positive
   * low threshold: Buy, unless the high threshold is negative.
   */
  lemma RsiNoRiseBuys(close: seq<real>, period: nat, low: real, high: real, i: nat)
    requires period >= 1 && 1 <= i < |close|
    requires forall j :: RsiWindowStart(i, period) <= j <= i ==> close[j] <= close[j - 1]
    requires 0.0 < low && 0.0 <= high
    ensures RsiSignals(close, period, low, high)[i] == Buy
  {
    RsiZeroIffNoRise(close, period, i);
  }

  /** Under the default thresholds 30 and 70, a flat or falling window buys. */
  lemma RsiNoRiseBuysByDefault(close: seq<real>, i: nat)
    requires 1 <= i < |close|
    requires forall j :: RsiWindowStart(i, DefaultRsiPeriod) <= j <= i ==> close[j] <= close[j - 1]
    ensures RsiStrategy(close).Ok?
    ensures RsiStrategy(close).value[i] == Buy
  {
    RsiNoRiseBuys(close, DefaultRsiPeriod, DefaultThresholdLow, DefaultThresholdHigh, i);
  }

  /**
   * A window with no falling bar has average loss zero, floored to
   * LossFloor; the RSI is then 100 g / (g + LossFloor) for the average gain
   * g, and the bar sells exactly when that exceeds the high threshold.
   */
  lemma RsiNoFallValue(close: seq<real>, period: nat, low: real, high: real, i: nat)
    requires period >= 1 && 1 <= i < |close|
    requires forall j :: RsiWindowStart(i, period) <= j <= i ==> close[j - 1] <= close[j]
    ensures var g := AvgGain(close, period, i);
            && 0.0 <= g
            && RsiAt(close, period, i) == Some(100.0 * g / (g + LossFloor))
            && (RsiSignals(close, period, low, high)[i] == Sell <==> 100.0 * g / (g + LossFloor) > high)
  {
    AvgLossZeroIfNoFall(close, period, i);
    AveragesNonNegative(close, period, i);
    var g := AvgGain(close, period, i);
    var v := RsiValue(g, 0.0);
    assert RsiAt(close, period, i) == Some(v);
  }

  /** A window in which no bar fell has average loss zero. */
  lemma AvgLossZeroIfNoFall(close: seq<real>, period: nat, i: nat)
    requires period >= 1 && 1 <= i < |close|
    requires forall j :: RsiWindowStart(i, period) <= j <= i ==> close[j - 1] <= close[j]
    ensures AvgLoss(close, period, i) == 0.0
  {
    var l := Losses(close);
    var lo := WindowStart(i - 1, period);
    forall k | lo <= k <= i - 1 ensures l[k] == 0.0 {
      DeltaAt(close, k + 1);
    }
    RollingMeanOfConstant(l, period, i - 1, 0.0);
  }

  // ---------------------------------------------------------------------
  // Buy and hold
  // ---------------------------------------------------------------------

  /** Buy on the first bar and hold on every later one; an empty series has no first bar. */
  function BuyAndHold(close: seq<real>): (r: Result<seq<Signal>, StrategyError>)
    ensures r.Err? <==> |close| == 0
    ensures r.Err? ==> r.error == EmptySeries
    ensures r.Ok? ==> |r.value| == |close| && r.value[0] == Buy
    ensures r.Ok? ==> forall i :: 1 <= i < |r.value| ==> r.value[i] == Hold
  {
    if |close| == 0 then Err(EmptySeries)
    else Ok(seq(|close|, i => if i == 0 then Buy else Hold))
  }
}

/// The portfolio simulator: replays a price history bar by bar against a
/// cash balance and a share position, following the trade signals, and
/// records one snapshot of the portfolio per bar.

module Backtest {
  import opened Strategy

  type Timestamp = int

  /** One bar of the price history: its date and closing price. */
  datatype Bar = Bar(date: Timestamp, close: real)

  /** The simulation state: cash (which may go negative) and whole shares held. */
  datatype Portfolio = Portfolio(cash: real, position: int)

  /** The record kept for one bar, after that bar's trade. */
  datatype Snapshot = Snapshot(date: Timestamp, price: real, cash: real, position: int, total: real)

  /** Why a run produces no result. */
  datatype BacktestError =
    | EmptyHistory    // no bars: the snapshot table has no date column to index by

  // Default run parameters.
  const DefaultInitialCapital: real := 10000.0
  const DefaultPositionSizePct: real := 10.0

  predicate PositivePrices(bars: seq<Bar>)
  {
    forall i :: 0 <= i < |bars| ==> bars[i].close > 0.0
  }

  /**
   * The money set aside for each Buy: a fixed share of the initial capital,
   * computed once per run and never from the current equity.
   */
  function TradeBudget(initialCapital: real, positionSizePct: real): (r: real)
  {
    initialCapital * (positionSizePct / 100.0)
  }

  /** The signal for a date: signals are aligned by date, and a date without one holds. */
  function SignalFor(signals: map<Timestamp, Signal>, date: Timestamp): (r: Signal)
  {
    if date in signals then signals[date] else Hold
  }

  /** The worth of a portfolio at a given price. */
  function Value(p: Portfolio, price: real): (r: real)
  {
    p.cash + p.position as real * price
  }

  /**
   * One bar's trade.  A Buy with at least one share's price in cash buys
   * floor(budget / price) shares; otherwise a Sell with shares held sells
   * all of them; anything else leaves the portfolio as it was.
   */
  function Step(p: Portfolio, price: real, signal: Signal, budget: real): (r: Portfolio)
    requires price > 0.0
  {
    if signal == Buy && p.cash >= price then
      var shares := (budget / price).Floor;
      Portfolio(p.cash - shares as real * price, p.position + shares)
    else if signal == Sell && p.position > 0 then
      Portfolio(p.cash + p.position as real * price, 0)
    else
      p
  }

  /** Trades are value-neutral: the portfolio is worth the same at the bar's price after its trade. */
  lemma StepValueNeutral(p: Portfolio, price: real, signal: Signal, budget: real)
    requires price > 0.0
    ensures Value(Step(p, price, signal, budget), price) == Value(p, price)
  {
    if signal == Buy && p.cash >= price {
      var shares := (budget / price).Floor as real;
      assert (p.position as real + shares) * price == p.position as real * price + shares * price;
    }
  }

  /**
   * The portfolio changes only on a Buy with a share's price in cash, which
   * adds floor(budget / price) shares, or on a Sell with shares held, which
   * closes the whole position at the bar's price.
   */
  lemma StepTransitions(p: Portfolio, price: real, signal: Signal, budget: real)
    requires price > 0.0
    ensures var r := Step(p, price, signal, budget);
            && (r != p ==> (signal == Buy && p.cash >= price) || (signal == Sell && p.position > 0))
            && (signal == Buy && p.cash >= price ==> r.position - p.position == (budget / price).Floor)
            && (signal == Sell && p.position > 0 ==>
                  r.position == 0 && r.cash == p.cash + p.position as real * price && r.cash > p.cash)
  {
    if signal == Sell && p.position > 0 {
      assert p.position as real * price > 0.0;
    }
  }

  /** The portfolio after the first k bars, starting all in cash. */
  function StateAfter(bars: seq<Bar>, signals: map<Timestamp, Signal>, budget: real,
                      initialCapital: real, k: nat): (p: Portfolio)
    requires PositivePrices(bars) && k <= |bars|
  {
    if k == 0 then Portfolio(initialCapital, 0)
    else
      var bar := bars[k - 1];
      Step(StateAfter(bars, signals, budget, initialCapital, k - 1), bar.close,
           SignalFor(signals, bar.date), budget)
  }

  /** The snapshot of portfolio p at a bar. */
  function Snap(bar: Bar, p: Portfolio): (r: Snapshot)
  {
    Snapshot(bar.date, bar.close, p.cash, p.position, Value(p, bar.close))
  }

  /** The equity trajectory of a run: one snapshot per bar, in bar order. */
  function Trajectory(bars: seq<Bar>, signals: map<Timestamp, Signal>,
                      initialCapital: real, positionSizePct: real): (t: seq<Snapshot>)
    requires PositivePrices(bars)
    ensures |t| == |bars|
    ensures forall i :: 0 <= i < |t| ==> t[i].date == bars[i].date && t[i].price == bars[i].close
  {
    var budget := TradeBudget(initialCapital, positionSizePct);
    seq(|bars|, i requires 0 <= i < |bars| =>
      Snap(bars[i], StateAfter(bars, signals, budget, initialCapital, i + 1)))
  }

  /**
   * The simulation loop: cash and position are updated bar by bar through
   * the trade rule, and one snapshot is appended per bar.  The snapshots
   * are then indexed by date, which fails when there are none.
   */
  method RunBacktest(bars: seq<Bar>, signals: map<Timestamp, Signal>,
                     initialCapital: real := DefaultInitialCapital,
                     positionSizePct: real := DefaultPositionSizePct)
    returns (r: Result<seq<Snapshot>, BacktestError>)
    requires PositivePrices(bars)
    ensures r.Err? <==> |bars| == 0
    ensures r.Err? ==> r.error == EmptyHistory
    ensures r.Ok? ==> r.value == Trajectory(bars, signals, initialCapital, positionSizePct)
  {
    var positionSize := TradeBudget(initialCapital, positionSizePct);
    var cash := initialCapital;
    var position := 0;
    var portfolio := [];
    ghost var t := Trajectory(bars, signals, initialCapital, positionSizePct);
    for i := 0 to |bars|
      invariant Portfolio(cash, position) == StateAfter(bars, signals, positionSize, initialCapital, i)
      invariant portfolio == t[..i]
    {
      var price := bars[i].close;
      var signal := SignalFor(signals, bars[i].date);
      var next := Step(Portfolio(cash, position), price, signal, positionSize);
      cash, position := next.cash, next.position;
      var value := Value(Portfolio(cash, position), price);
      portfolio := portfolio + [Snapshot(bars[i].date, price, cash, position, value)];
      assert t[..i + 1] == t[..i] + [t[i]];
    }
    assert t[..|bars|] == t;
    if |portfolio| == 0 {
      return Err(EmptyHistory);
    }
    return Ok(portfolio);
  }

  // ---------------------------------------------------------------------
  // Properties of a run
  // ---------------------------------------------------------------------

  /**
   * A Buy that executes spends whole shares' worth, within one share's
   * price of the budget and never more than it, whatever the cash and
   * position were before.
   */
  lemma BuySpendsFixedBudget(p: Portfolio, price: real, budget: real)
    requires price > 0.0 && p.cash >= price && 0.0 <= budget
    ensures var r := Step(p, price, Buy, budget);
            && p.cash - r.cash == (r.position - p.position) as real * price
            && budget - price < p.cash - r.cash <= budget
  {
    var q := budget / price;
    var shares := q.Floor as real;
    assert q * price == budget;
    assert shares <= q < shares + 1.0;
    ScaleLe(shares, q, price);
    ScaleLt(q, shares + 1.0, price);
    assert (shares + 1.0) * price == shares * price + price;
    var r := Step(p, price, Buy, budget);
    assert p.cash - r.cash == shares * price;
    assert shares * price <= budget;
    assert budget < shares * price + price;
  }

  lemma ScaleLe(a: real, b: real, c: real)
    requires a <= b && 0.0 < c
    ensures a * c <= b * c
  {
  }

  lemma ScaleLt(a: real, b: real, c: real)
    requires a < b && 0.0 < c
    ensures a * c < b * c
  {
  }

  /** With a non-negative budget the position never goes negative. */
  lemma {:induction false} PositionNonNegative(bars: seq<Bar>, signals: map<Timestamp, Signal>,
                                               budget: real, initialCapital: real, k: nat)
    requires PositivePrices(bars) && k <= |bars| && 0.0 <= budget
    ensures StateAfter(bars, signals, budget, initialCapital, k).position >= 0
  {
    if k > 0 {
      PositionNonNegative(bars, signals, budget, initialCapital, k - 1);
      var q := budget / bars[k - 1].close;
      assert 0.0 <= q;
    }
  }

  /** Every snapshot of a run with a non-negative budget holds a non-negative position. */
  lemma TrajectoryPositionNonNegative(bars: seq<Bar>, signals: map<Timestamp, Signal>,
                                      initialCapital: real, positionSizePct: real)
    requires PositivePrices(bars) && 0.0 <= TradeBudget(initialCapital, positionSizePct)
    ensures forall i :: 0 <= i < |bars| ==>
      Trajectory(bars, signals, initialCapital, positionSizePct)[i].position >= 0
  {
    var budget := TradeBudget(initialCapital, positionSizePct);
    forall i | 0 <= i < |bars|
      ensures Trajectory(bars, signals, initialCapital, positionSizePct)[i].position >= 0
    {
      PositionNonNegative(bars, signals, budget, initialCapital, i + 1);
    }
  }

  /** The snapshot of bar i records the portfolio after the first i + 1 trades. */
  lemma TrajectoryAt(bars: seq<Bar>, signals: map<Timestamp, Signal>,
                     initialCapital: real, positionSizePct: real, i: nat)
    requires PositivePrices(bars) && i < |bars|
    ensures Trajectory(bars, signals, initialCapital, positionSizePct)[i]
         == Snap(bars[i], StateAfter(bars, signals, TradeBudget(initialCapital, positionSizePct), initialCapital, i + 1))
  {
  }

  /** The first snapshot is worth exactly the initial capital, whatever its trade. */
  lemma EquityStartsAtCapital(bars: seq<Bar>, signals: map<Timestamp, Signal>,
                              initialCapital: real, positionSizePct: real)
    requires PositivePrices(bars) && |bars| > 0
    ensures Trajectory(bars, signals, initialCapital, positionSizePct)[0].total == initialCapital
  {
    var budget := TradeBudget(initialCapital, positionSizePct);
    StepValueNeutral(Portfolio(initialCapital, 0), bars[0].close, SignalFor(signals, bars[0].date), budget);
    TrajectoryAt(bars, signals, initialCapital, positionSizePct, 0);
  }

  /**
   * From one bar to the next the equity changes only by the held shares'
   * price move: trades themselves neither create nor destroy value.
   */
  lemma EquityMovesWithPriceOnly(bars: seq<Bar>, signals: map<Timestamp, Signal>,
                                 initialCapital: real, positionSizePct: real, i: nat)
    requires PositivePrices(bars) && 1 <= i < |bars|
    ensures Trajectory(bars, signals, initialCapital, positionSizePct)[i].total
          - Trajectory(bars, signals, initialCapital, positionSizePct)[i - 1].total
         == Trajectory(bars, signals, initialCapital, positionSizePct)[i - 1].position as real
            * (bars[i].close - bars[i - 1].close)
  {
    var t := Trajectory(bars, signals, initialCapital, positionSizePct);
    TrajectoryValueNeutral(bars, signals, initialCapital, positionSizePct, i);
    PriceMove(Holding(t[i - 1]), bars[i - 1].close, bars[i].close);
  }

  /**
   * Bar i's trade keeps the worth of the holding at bar i's price, and each
   * of the two snapshots' totals is its holding valued at its own bar's price.
   */
  lemma TrajectoryValueNeutral(bars: seq<Bar>, signals: map<Timestamp, Signal>,
                               initialCapital: real, positionSizePct: real, i: nat)
    requires PositivePrices(bars) && 1 <= i < |bars|
    ensures var t := Trajectory(bars, signals, initialCapital, positionSizePct);
            && Value(Holding(t[i]), bars[i].close) == Value(Holding(t[i - 1]), bars[i].close)
            && t[i].total == Value(Holding(t[i]), bars[i].close)
            && t[i - 1].total == Value(Holding(t[i - 1]), bars[i - 1].close)
  {
    var t := Trajectory(bars, signals, initialCapital, positionSizePct);
    TrajectoryStep(bars, signals, initialCapital, positionSizePct, i);
    StepValueNeutral(Holding(t[i - 1]), bars[i].close, SignalFor(signals, bars[i].date),
                     TradeBudget(initialCapital, positionSizePct));
  }

  /** The cash and shares a snapshot records. */
  function Holding(s: Snapshot): (p: Portfolio)
  {
    Portfolio(s.cash, s.position)
  }

  /**
   * Consecutive snapshots are linked by bar i's trade, and each snapshot's
   * total is its holding valued at its bar's price.
   */
  lemma TrajectoryStep(bars: seq<Bar>, signals: map<Timestamp, Signal>,
                       initialCapital: real, positionSizePct: real, i: nat)
    requires PositivePrices(bars) && 1 <= i < |bars|
    ensures var t := Trajectory(bars, signals, initialCapital, positionSizePct);
            && Holding(t[i]) == Step(Holding(t[i - 1]), bars[i].close, SignalFor(signals, bars[i].date),
                                     TradeBudget(initialCapital, positionSizePct))
            && t[i] == Snap(bars[i], Holding(t[i]))
            && t[i - 1] == Snap(bars[i - 1], Holding(t[i - 1]))
  {
    var budget := TradeBudget(initialCapital, positionSizePct);
    TrajectoryAt(bars, signals, initialCapital, positionSizePct, i - 1);
    TrajectoryAt(bars, signals, initialCapital, positionSizePct, i);
    StateAfterNext(bars, signals, budget, initialCapital, i);
  }

  /** The state after bar k is bar k's trade applied to the state before it. */
  lemma StateAfterNext(bars: seq<Bar>, signals: map<Timestamp, Signal>, budget: real,
                       initialCapital: real, k: nat)
    requires PositivePrices(bars) && k < |bars|
    ensures StateAfter(bars, signals, budget, initialCapital, k + 1)
         == Step(StateAfter(bars, signals, budget, initialCapital, k), bars[k].close,
                 SignalFor(signals, bars[k].date), budget)
  {
  }

  /** A trade at the later bar leaves only the price move of the earlier holding. */
  lemma StepEquity(bar0: Bar, bar1: Bar, p: Portfolio, q: Portfolio, signal: Signal, budget: real)
    requires bar1.close > 0.0 && q == Step(p, bar1.close, signal, budget)
    ensures Snap(bar1, q).total - Snap(bar0, p).total == p.position as real * (bar1.close - bar0.close)
  {
    StepValueNeutral(p, bar1.close, signal, budget);
    PriceMove(p, bar0.close, bar1.close);
  }

  lemma PriceMove(p: Portfolio, price0: real, price1: real)
    ensures Value(p, price1) - Value(p, price0) == p.position as real * (price1 - price0)
  {
  }

  /** A budget short of one share's price buys nothing. */
  lemma NoShareBelowPrice(budget: real, price: real)
    requires 0.0 <= budget < price
    ensures (budget / price).Floor == 0
  {
    var q := budget / price;
    assert q * price == budget;
    if q < 0.0 {
      ScaleLt(q, 0.0, price);
    }
    if q >= 1.0 {
      ScaleLe(1.0, q, price);
    }
    assert 0.0 <= q < 1.0;
    assert q.Floor <= 0;
  }

  /**
   * When no Buy can buy a share (every Buy bar's price exceeds a
   * non-negative budget), the run stays all in cash at the initial capital.
   */
  lemma {:induction false} NoSharesKeepsCapital(bars: seq<Bar>, signals: map<Timestamp, Signal>,
                                                budget: real, initialCapital: real, k: nat)
    requires PositivePrices(bars) && k <= |bars| && 0.0 <= budget
    requires forall i :: 0 <= i < |bars| && SignalFor(signals, bars[i].date) == Buy ==> budget < bars[i].close
    ensures StateAfter(bars, signals, budget, initialCapital, k) == Portfolio(initialCapital, 0)
  {
    if k > 0 {
      NoSharesKeepsCapital(bars, signals, budget, initialCapital, k - 1);
      var bar := bars[k - 1];
      if SignalFor(signals, bar.date) == Buy {
        NoShareBelowPrice(budget, bar.close);
      }
    }
  }

  /** The run-level form: every snapshot shows no shares and the initial capital. */
  lemma NoSharesFlatTrajectory(bars: seq<Bar>, signals: map<Timestamp, Signal>,
                               initialCapital: real, positionSizePct: real)
    requires PositivePrices(bars) && 0.0 <= TradeBudget(initialCapital, positionSizePct)
    requires forall i :: 0 <= i < |bars| && SignalFor(signals, bars[i].date) == Buy ==>
               TradeBudget(initialCapital, positionSizePct) < bars[i].close
    ensures forall s :: s in Trajectory(bars, signals, initialCapital, positionSizePct) ==>
              s.position == 0 && s.cash == initialCapital && s.total == initialCapital
  {
    var t := Trajectory(bars, signals, initialCapital, positionSizePct);
    var budget := TradeBudget(initialCapital, positionSizePct);
    forall i | 0 <= i < |t|
      ensures t[i].position == 0 && t[i].cash == initialCapital && t[i].total == initialCapital
    {
      NoSharesKeepsCapital(bars, signals, budget, initialCapital, i + 1);
    }
  }

  /** Runs whose signals agree on every bar's date pass through the same states. */
  lemma {:induction false} SameSignalsSameStates(bars: seq<Bar>, s1: map<Timestamp, Signal>,
                                                 s2: map<Timestamp, Signal>, budget: real,
                                                 initialCapital: real, k: nat)
    requires PositivePrices(bars) && k <= |bars|
    requires forall i :: 0 <= i < |bars| ==> SignalFor(s1, bars[i].date) == SignalFor(s2, bars[i].date)
    ensures StateAfter(bars, s1, budget, initialCapital, k) == StateAfter(bars, s2, budget, initialCapital, k)
  {
    if k > 0 {
      SameSignalsSameStates(bars, s1, s2, budget, initialCapital, k - 1);
    }
  }

  /** A date missing from the signals behaves exactly as an explicit Hold. */
  lemma MissingSignalIsHold(bars: seq<Bar>, signals: map<Timestamp, Signal>, date: Timestamp,
                            initialCapital: real, positionSizePct: real)
    requires PositivePrices(bars) && date !in signals
    ensures Trajectory(bars, signals, initialCapital, positionSizePct)
         == Trajectory(bars, signals[date := Hold], initialCapital, positionSizePct)
  {
    var budget := TradeBudget(initialCapital, positionSizePct);
    var t1 := Trajectory(bars, signals, initialCapital, positionSizePct);
    var t2 := Trajectory(bars, signals[date := Hold], initialCapital, positionSizePct);
    forall i | 0 <= i < |bars| ensures t1[i] == t2[i] {
      SameSignalsSameStates(bars, signals, signals[date := Hold], budget, initialCapital, i + 1);
    }
  }

  /**
   * Cash stays non-negative across a bar whose budget the cash covers:
   * the Buy then spends at most the budget, and a Sell only adds cash.
   */
  lemma StepKeepsCashWhenBudgetCovered(p: Portfolio, price: real, signal: Signal, budget: real)
    requires price > 0.0 && p.position >= 0 && 0.0 <= budget <= p.cash
    ensures Step(p, price, signal, budget).cash >= 0.0
  {
    if signal == Buy && p.cash >= price {
      BuySpendsFixedBudget(p, price, budget);
    }
  }

  /**
   * The affordability test asks only for one share's price, so a second
   * Buy can overdraw: capital 1000 at 80% buys 8 shares at 100, and a
   * second Buy at 100 with 200 in cash buys 8 more, leaving -600.
   */
  lemma RepeatedBuyOverdraws()
    ensures var bars := [Bar(0, 100.0), Bar(1, 100.0)];
            var t := Trajectory(bars, map[0 := Buy, 1 := Buy], 1000.0, 80.0);
            && t[0].cash == 200.0 && t[0].position == 8
            && t[1].cash == -600.0 && t[1].position == 16
  {
    var bars := [Bar(0, 100.0), Bar(1, 100.0)];
    var signals := map[0 := Buy, 1 := Buy];
    assert (800.0 / 100.0).Floor == 8;
    var s1 := StateAfter(bars, signals, 800.0, 1000.0, 1);
    assert s1 == Portfolio(200.0, 8);
    assert StateAfter(bars, signals, 800.0, 1000.0, 2) == Portfolio(-600.0, 16);
  }

  /**
   * Prices 100, 110, 105, 120 with capital 1000 at 50%, buying on the first
   * bar and selling on the last: 5 shares, totals 1000, 1050, 1025, 1100.
   */
  lemma WorkedExample()
    ensures var bars := [Bar(0, 100.0), Bar(1, 110.0), Bar(2, 105.0), Bar(3, 120.0)];
            var t := Trajectory(bars, map[0 := Buy, 3 := Sell], 1000.0, 50.0);
            && t[0].position == 5 && t[0].cash == 500.0
            && t[0].total == 1000.0 && t[1].total == 1050.0
            && t[2].total == 1025.0 && t[3].total == 1100.0
            && t[3].position == 0 && t[3].cash == 1100.0
  {
    var bars := [Bar(0, 100.0), Bar(1, 110.0), Bar(2, 105.0), Bar(3, 120.0)];
    var signals := map[0 := Buy, 3 := Sell];
    assert (500.0 / 100.0).Floor == 5;
    assert StateAfter(bars, signals, 500.0, 1000.0, 1) == Portfolio(500.0, 5);
    assert StateAfter(bars, signals, 500.0, 1000.0, 3) == Portfolio(500.0, 5);
    assert StateAfter(bars, signals, 500.0, 1000.0, 4) == Portfolio(1100.0, 0);
  }
}

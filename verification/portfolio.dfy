/**
 The market-on-close portfolio: a fixed block of shares held while the
 strategy's signal is 1, valued at each row's close, with cash reduced by the
 cost of every change of position.
 */
module Portfolio {
  import opened Wrappers
  import opened Series
  import Strategy

  /** Shares bought when the signal turns on. */
  const ShareSize: real := 100.0
  const DefaultInitialCapital: real := 100000.0

  /** One row of the portfolio table. */
  datatype PortfolioRow = PortfolioRow(holdings: real, cash: real, total: real)

  /** `generate_positions`: the shares held on each row, a block per unit of signal. */
  function GeneratePositions(signals: seq<Strategy.SignalRow>): (shares: seq<real>)
    ensures |shares| == |signals|
    ensures forall i :: 0 <= i < |signals| ==> shares[i] == ShareSize * signals[i].signal
  {
    seq(|signals|, i requires 0 <= i < |signals| => ShareSize * signals[i].signal)
  }

  /**
   Under the strategy's signals the portfolio is either flat or holds exactly
   one block, and it holds the block exactly on the invested rows.
   */
  lemma StrategyIsFlatOrLong(closes: seq<real>, shortWindow: Strategy.Window, longWindow: Strategy.Window, i: nat)
    requires i < |closes|
    ensures var rows := Strategy.SignalTable(closes, shortWindow, longWindow);
      var shares := GeneratePositions(rows);
      && (shares[i] == 0.0 || shares[i] == ShareSize)
      && (shares[i] == ShareSize <==> Strategy.Above(rows[i].shortMavg, rows[i].longMavg))
  {
  }

  /**
   The row sum of a position change priced at the close. The first row's
   change is NaN, and its cost is taken as 0 (see the README's Left out).
   */
  function RowCost(change: Option<real>, close: real): real
  {
    match change
    case Some(c) => c * close
    case None => 0.0
  }

  /** Cash spent by the trade made on each row. */
  function TradeCosts(shares: seq<real>, closes: seq<real>): (costs: seq<real>)
    requires |shares| == |closes|
    ensures |costs| == |closes|
    ensures |costs| > 0 ==> costs[0] == 0.0
    ensures forall i {:trigger costs[i]} :: 1 <= i < |costs| ==>
      costs[i] == (shares[i] - shares[i - 1]) * closes[i]
  {
    var change := Diff(shares);
    seq(|closes|, i requires 0 <= i < |closes| => RowCost(change[i], closes[i]))
  }

  /** Each row's shares valued at that row's close. */
  function Holdings(shares: seq<real>, closes: seq<real>): (h: seq<real>)
    requires |shares| == |closes|
    ensures |h| == |closes|
    ensures forall i {:trigger h[i]} :: 0 <= i < |h| ==> h[i] == shares[i] * closes[i]
  {
    seq(|closes|, i requires 0 <= i < |closes| => shares[i] * closes[i])
  }

  /** Cash on each row: the initial capital less the running sum of the costs. */
  function CashColumn(costs: seq<real>, initialCapital: real): (cash: seq<real>)
    ensures |cash| == |costs|
    ensures |cash| > 0 ==> cash[0] == initialCapital - costs[0]
    ensures forall h, i {:trigger cash[h], cash[i]} :: 0 <= h && h + 1 == i < |cash| ==>
      cash[i] == cash[h] - costs[i]
  {
    var cash := seq(|costs|, i requires 0 <= i < |costs| => initialCapital - SumRange(costs, 0, i + 1));
    assert |cash| > 0 ==> SumRange(costs, 0, 1) == costs[0];
    assert forall h, i {:trigger cash[h], cash[i]} :: 0 <= h && h + 1 == i < |cash| ==>
      cash[i] == cash[h] - costs[i];
    cash
  }

  /**
   What a backtest table records, row by row: holdings valued at the close,
   the total as cash plus holdings, and cash that moves only by the cost of
   the shares bought or sold at the close.
   */
  ghost predicate Ledger(shares: seq<real>, closes: seq<real>, p: seq<PortfolioRow>)
    requires |shares| == |closes| == |p|
  {
    && (forall i {:trigger p[i].holdings} :: 0 <= i < |p| ==> p[i].holdings == shares[i] * closes[i])
    && (forall i {:trigger p[i].total} :: 0 <= i < |p| ==> p[i].total == p[i].cash + p[i].holdings)
    && (forall h, i {:trigger p[h].cash, p[i].cash} :: 0 <= h && h + 1 == i < |p| ==>
          p[i].cash == p[h].cash - (shares[i] - shares[h]) * closes[i])
  }

  /**
   `backtest_portfolio`: holdings are the shares valued at the close, cash is
   the initial capital less the cumulative trade costs, and the total is
   their sum.
   */
  function Backtest(shares: seq<real>, closes: seq<real>, initialCapital: real): (p: seq<PortfolioRow>)
    requires |shares| == |closes|
    ensures |p| == |closes|
    ensures |p| > 0 ==> p[0].cash == initialCapital
    ensures Ledger(shares, closes, p)
  {
    var costs := TradeCosts(shares, closes);
    var cash := CashColumn(costs, initialCapital);
    var holdings := Holdings(shares, closes);
    var p := seq(|closes|, i requires 0 <= i < |closes| => PortfolioRow(holdings[i], cash[i], cash[i] + holdings[i]));
    assert forall h, i {:trigger p[h].cash, p[i].cash} :: 0 <= h && h + 1 == i < |p| ==>
      p[i].cash == p[h].cash - (shares[i] - shares[h]) * closes[i] by {
      forall h, i | 0 <= h && h + 1 == i < |p|
        ensures p[i].cash == p[h].cash - (shares[i] - shares[h]) * closes[i]
      {
        assert p[i].cash == cash[i] && p[h].cash == cash[h];
        assert cash[i] == cash[h] - costs[i];
        assert costs[i] == (shares[i] - shares[h]) * closes[i];
      }
    }
    p
  }

  /**
   In any ledger that starts with `initialCapital` in cash, cash on row i is
   that capital less every trade cost up to and including row i: the
   row-to-row cash movement determines the cumulative-sum column.
   */
  lemma {:induction false} CashIsCapitalLessCumulativeCosts(
    shares: seq<real>, closes: seq<real>, p: seq<PortfolioRow>, initialCapital: real, i: nat)
    requires |shares| == |closes| == |p|
    requires Ledger(shares, closes, p)
    requires i < |p|
    requires p[0].cash == initialCapital
    ensures p[i].cash == initialCapital - SumRange(TradeCosts(shares, closes), 0, i + 1)
  {
    var costs := TradeCosts(shares, closes);
    if i == 0 {
      assert SumRange(costs, 0, 1) == costs[0];
    } else {
      CashIsCapitalLessCumulativeCosts(shares, closes, p, initialCapital, i - 1);
      assert p[i].cash == p[i - 1].cash - (shares[i] - shares[i - 1]) * closes[i];
      assert costs[i] == (shares[i] - shares[i - 1]) * closes[i];
    }
  }

  /**
   Mark-to-market gain on each row: the shares carried in from the previous
   row times the move of the close. The first row has none.
   */
  function Gains(shares: seq<real>, closes: seq<real>): (g: seq<real>)
    requires |shares| == |closes|
    ensures |g| == |closes|
  {
    seq(|closes|, i requires 0 <= i < |closes| =>
      if i == 0 then 0.0 else shares[i - 1] * (closes[i] - closes[i - 1]))
  }

  /**
   Buying `held - carried` shares at `after` and valuing the `held` shares at
   `after` leaves the carried shares' gain from `before` to `after`.
   */
  lemma MarkToMarket(
    cashBefore: real, cashAfter: real, totalBefore: real, totalAfter: real, cost: real, gain: real,
    carried: real, held: real, before: real, after: real)
    requires cost == (held - carried) * after
    requires cashAfter == cashBefore - cost
    requires totalBefore == cashBefore + carried * before
    requires totalAfter == cashAfter + held * after
    requires gain == carried * (after - before)
    ensures totalAfter == totalBefore + gain
  {
  }

  /** In any ledger the total moves from row to row by the gain on the shares carried over. */
  lemma LedgerProfitAndLoss(shares: seq<real>, closes: seq<real>, p: seq<PortfolioRow>, i: nat)
    requires |shares| == |closes| == |p|
    requires Ledger(shares, closes, p)
    requires 1 <= i < |p|
    ensures p[i].total == p[i - 1].total + shares[i - 1] * (closes[i] - closes[i - 1])
  {
    var cost := (shares[i] - shares[i - 1]) * closes[i];
    assert p[i].cash == p[i - 1].cash - cost;
    MarkToMarket(p[i - 1].cash, p[i].cash, p[i - 1].total, p[i].total, cost,
      shares[i - 1] * (closes[i] - closes[i - 1]), shares[i - 1], shares[i], closes[i - 1], closes[i]);
  }

  /** The total moves from row to row by the gain on the shares carried over. */
  lemma DailyProfitAndLoss(shares: seq<real>, closes: seq<real>, initialCapital: real, i: nat)
    requires |shares| == |closes|
    requires 1 <= i < |closes|
    ensures var p := Backtest(shares, closes, initialCapital);
      p[i].total == p[i - 1].total + Gains(shares, closes)[i]
  {
    var p := Backtest(shares, closes, initialCapital);
    assert Gains(shares, closes)[i] == shares[i - 1] * (closes[i] - closes[i - 1]);
    LedgerProfitAndLoss(shares, closes, p, i);
  }

  /**
   The total at row i is the initial capital plus the value of the first
   row's shares plus every gain up to row i.
   */
  lemma {:induction false} TotalIsCapitalPlusGains(shares: seq<real>, closes: seq<real>, initialCapital: real, i: nat)
    requires |shares| == |closes|
    requires i < |closes|
    ensures Backtest(shares, closes, initialCapital)[i].total ==
      initialCapital + shares[0] * closes[0] + SumRange(Gains(shares, closes), 0, i + 1)
  {
    if i > 0 {
      TotalIsCapitalPlusGains(shares, closes, initialCapital, i - 1);
      DailyProfitAndLoss(shares, closes, initialCapital, i);
    }
  }

  /** A portfolio that starts flat starts with its initial capital and then adds up its gains. */
  lemma FlatStartIsCapitalPlusGains(shares: seq<real>, closes: seq<real>, initialCapital: real, i: nat)
    requires |shares| == |closes|
    requires i < |closes|
    requires shares[0] == 0.0
    ensures var p := Backtest(shares, closes, initialCapital);
      && p[0].total == initialCapital
      && p[i].total == initialCapital + SumRange(Gains(shares, closes), 0, i + 1)
  {
    TotalIsCapitalPlusGains(shares, closes, initialCapital, 0);
    TotalIsCapitalPlusGains(shares, closes, initialCapital, i);
  }

  /**
   Run on the strategy's signals, the portfolio starts with exactly its
   initial capital and thereafter is worth the capital plus the gains.
   */
  lemma StrategyBacktestIsCapitalPlusGains(
    closes: seq<real>, shortWindow: Strategy.Window, longWindow: Strategy.Window,
    initialCapital: real, i: nat)
    requires i < |closes|
    ensures var shares := GeneratePositions(Strategy.SignalTable(closes, shortWindow, longWindow));
      var p := Backtest(shares, closes, initialCapital);
      && p[0].total == initialCapital
      && p[i].total == initialCapital + SumRange(Gains(shares, closes), 0, i + 1)
  {
    Strategy.FirstSignalIsFlat(closes, shortWindow, longWindow);
    FlatStartIsCapitalPlusGains(GeneratePositions(Strategy.SignalTable(closes, shortWindow, longWindow)), closes, initialCapital, i);
  }

  /** A portfolio that has held nothing up to row i still has its initial capital, all in cash. */
  lemma FlatPrefixKeepsCapital(shares: seq<real>, closes: seq<real>, initialCapital: real, i: nat)
    requires |shares| == |closes|
    requires i < |closes|
    requires forall k :: 0 <= k <= i ==> shares[k] == 0.0
    ensures var p := Backtest(shares, closes, initialCapital);
      && p[i].holdings == 0.0
      && p[i].cash == initialCapital
      && p[i].total == initialCapital
  {
    var gains := Gains(shares, closes);
    forall k | 0 <= k < i + 1 ensures 0.0 <= gains[k] <= 0.0 {
      if k > 0 {
        assert gains[k] == shares[k - 1] * (closes[k] - closes[k - 1]);
      }
    }
    SumRangeBounds(gains, 0, i + 1, 0.0, 0.0);
    FlatStartIsCapitalPlusGains(shares, closes, initialCapital, i);
  }

  /**
   Until both windows have filled the strategy holds nothing, so the
   portfolio sits at its initial capital, all in cash.
   */
  lemma CapitalUntilWarmup(
    closes: seq<real>, shortWindow: Strategy.Window, longWindow: Strategy.Window,
    initialCapital: real, i: nat)
    requires i < |closes| && i < Strategy.Max(shortWindow, longWindow) - 1
    ensures var p := Backtest(GeneratePositions(Strategy.SignalTable(closes, shortWindow, longWindow)), closes, initialCapital);
      && p[i].holdings == 0.0
      && p[i].cash == initialCapital
      && p[i].total == initialCapital
  {
    var shares := GeneratePositions(Strategy.SignalTable(closes, shortWindow, longWindow));
    forall k | 0 <= k <= i ensures shares[k] == 0.0 {
      Strategy.FlatBeforeWarmup(closes, shortWindow, longWindow, k);
    }
    FlatPrefixKeepsCapital(shares, closes, initialCapital, i);
  }

  /**
   With the default 100/400-row windows and 100000.0 of capital, the first
   399 rows of the backtest hold exactly the capital in cash.
   */
  lemma DefaultCapitalUntilWarmup(closes: seq<real>, i: nat)
    requires i < |closes| && i < 399
    ensures var rows := Strategy.SignalTable(closes, Strategy.DefaultShortWindow, Strategy.DefaultLongWindow);
      var p := Backtest(GeneratePositions(rows), closes, DefaultInitialCapital);
      p[i].cash == 100000.0 && p[i].total == 100000.0
  {
    CapitalUntilWarmup(closes, Strategy.DefaultShortWindow, Strategy.DefaultLongWindow, DefaultInitialCapital, i);
  }
}

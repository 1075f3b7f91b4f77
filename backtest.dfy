/** The backtest engine of `src/backtest.py`: the portfolio and equal-weight
    benchmark aggregators, the Sharpe rule, the fail-soft orchestrator, the
    trading-day heuristic and the growth-of-$1 series behind the chart.

    Prices are exact reals, so floating-point rounding is not modelled. The
    price provider, the sample standard deviation scaled by the square root of
    252, and the `:.1f` percentage formatter are parameters. */
module Backtest {
  import opened Wrappers
  import opened Strings
  import opened PriceTable

  /** `weights.items()`, in insertion order. */
  type Weights = seq<(Ticker, real)>

  const TRADING_DAYS_PER_YEAR: real := 252.0
  /** Fewer rows than this and the backtest is skipped. */
  const MIN_ROWS: nat := 5
  const DEFAULT_RISK_FREE_RATE: real := 0.05
  /** `self.all_tickers` as the constructor sets it. */
  const DEFAULT_UNIVERSE: seq<Ticker> := ["AAPL", "MSFT", "NVDA", "TSLA"]
  const CASH_COMPOSITION: string := "Cash (0 stocks)"
  const BENCHMARK_COMPOSITION: string := "Equal-weight AAPL, MSFT, NVDA, TSLA (25% each)"
  const INSUFFICIENT_DATA: string := "Insufficient price data"

  // ---------------------------------------------------------------------
  // Returns

  /** A ticker's first-to-last return: last close over first close minus 1,
      after sorting its own rows by date; 0 with fewer than two rows. */
  function StockReturn(t: Table, k: Ticker): real
    requires PositiveCloses(t)
  {
    var rows := TickerRows(t, k);
    if |rows| < 2 then 0.0 else LatestRow(rows).close / EarliestRow(rows).close - 1.0
  }

  /** `sum(weight * stock_returns.get(ticker, 0) for ticker, weight in weights.items())`,
      added left to right. */
  function TotalReturn(t: Table, w: Weights): real
    requires PositiveCloses(t)
  {
    if |w| == 0 then 0.0
    else TotalReturn(t, w[..|w| - 1]) + Share(t, w[|w| - 1].0, w[|w| - 1].1)
  }

  /** One ticker's share of the total return. */
  function Share(t: Table, k: Ticker, wt: real): real
    requires PositiveCloses(t)
  {
    wt * StockReturn(t, k)
  }

  /** One ticker's share of a day's return: weight times its close-to-close
      return when it has a row on both days, otherwise nothing. */
  function Contribution(t: Table, k: Ticker, wt: real, prev: Day, today: Day): real
    requires PositiveCloses(t)
  {
    var c1 := FindClose(t, k, today);
    var c0 := FindClose(t, k, prev);
    if c1.Some? && c0.Some? then wt * (c1.value / c0.value - 1.0) else 0.0
  }

  /** The weighted return of the day `today` against the day `prev`. */
  function DayReturn(t: Table, w: Weights, prev: Day, today: Day): real
    requires PositiveCloses(t)
  {
    if |w| == 0 then 0.0
    else DayReturn(t, w[..|w| - 1], prev, today) + Contribution(t, w[|w| - 1].0, w[|w| - 1].1, prev, today)
  }

  /** The daily return series over consecutive distinct dates of the table. */
  function DailySeries(t: Table, w: Weights): seq<real>
    requires PositiveCloses(t)
  {
    var ds := SortedDates(t);
    if |ds| < 2 then []
    else seq(|ds| - 1, i requires 0 <= i < |ds| - 1 => DayReturn(t, w, ds[i], ds[i + 1]))
  }

  // ---------------------------------------------------------------------
  // Risk metrics

  /** `daily_vol * sqrt(252) if daily_vol > 0 else 0`, where `annualisedStd`
      stands for the sample standard deviation times the square root of 252.
      pandas gives NaN for fewer than two values, and `NaN > 0` is false. */
  function AnnualisedVolatility(daily: seq<real>, annualisedStd: seq<real> -> real): real
  {
    if |daily| >= 2 && annualisedStd(daily) > 0.0 then annualisedStd(daily) else 0.0
  }

  /** `(total_return * (252 / rows) - rf) / vol if vol > 0 else 0`. */
  function Sharpe(totalReturn: real, rows: nat, riskFreeRate: real, vol: real): (s: real)
    requires rows > 0
    ensures vol > 0.0 ==> s * vol == totalReturn * (TRADING_DAYS_PER_YEAR / rows as real) - riskFreeRate
    ensures vol <= 0.0 ==> s == 0.0
  {
    if vol > 0.0 then (totalReturn * (TRADING_DAYS_PER_YEAR / rows as real) - riskFreeRate) / vol else 0.0
  }

  datatype Metrics = Metrics(totalReturn: real, volatility: real, sharpe: real)

  /** What both aggregators compute for a non-empty weight list. */
  function WeightedMetrics(t: Table, w: Weights, riskFreeRate: real, annualisedStd: seq<real> -> real): Metrics
    requires PositiveCloses(t) && |t| > 0
  {
    var total := TotalReturn(t, w);
    var vol := AnnualisedVolatility(DailySeries(t, w), annualisedStd);
    Metrics(total, vol, Sharpe(total, |t|, riskFreeRate, vol))
  }

  datatype PortfolioMetrics = PortfolioMetrics(metrics: Metrics, composition: string)

  /** `", ".join(f"{ticker}: {weight*100:.1f}%")`; `formatPct` is the `:.1f` formatter. */
  function Composition(w: Weights, formatPct: real -> string): string
  {
    Join(", ", seq(|w|, i requires 0 <= i < |w| => w[i].0 + ": " + formatPct(w[i].1 * 100.0) + "%"))
  }

  /** `_calculate_portfolio_performance`: cash for empty weights; otherwise the
      weighted metrics, where `252 / len(price_data)` raises on an empty table. */
  function PortfolioSpec(t: Table, w: Weights, riskFreeRate: real, annualisedStd: seq<real> -> real,
                         formatPct: real -> string): Result<PortfolioMetrics>
    requires PositiveCloses(t)
  {
    if |w| == 0 then Ok(PortfolioMetrics(Metrics(0.0, 0.0, 0.0), CASH_COMPOSITION))
    else if |t| == 0 then Err(Error(ZeroDivisionError, "division by zero"))
    else Ok(PortfolioMetrics(WeightedMetrics(t, w, riskFreeRate, annualisedStd), Composition(w, formatPct)))
  }

  /** Weight `1 / len(universe)` on every universe ticker, in universe order. */
  function EqualWeights(universe: seq<Ticker>): (w: Weights)
    requires |universe| > 0
    ensures |w| == |universe|
    ensures forall i :: 0 <= i < |w| ==> w[i] == (universe[i], 1.0 / |universe| as real)
  {
    seq(|universe|, i requires 0 <= i < |universe| => (universe[i], 1.0 / |universe| as real))
  }

  /** `_calculate_benchmark_performance`: `1.0 / len(all_tickers)` raises on an
      empty universe, `252 / len(price_data)` on an empty table. */
  function BenchmarkSpec(t: Table, universe: seq<Ticker>, riskFreeRate: real,
                         annualisedStd: seq<real> -> real): Result<Metrics>
    requires PositiveCloses(t)
  {
    if |universe| == 0 then Err(Error(ZeroDivisionError, "float division by zero"))
    else if |t| == 0 then Err(Error(ZeroDivisionError, "division by zero"))
    else Ok(WeightedMetrics(t, EqualWeights(universe), riskFreeRate, annualisedStd))
  }

  /** The first loop: `stock_returns[ticker]` for every weighted ticker with
      at least two rows. */
  method CollectStockReturns(t: Table, w: Weights) returns (stockReturns: map<Ticker, real>)
    requires PositiveCloses(t)
    ensures forall k :: k in stockReturns ==> stockReturns[k] == StockReturn(t, k)
    ensures forall j :: 0 <= j < |w| ==> w[j].0 in stockReturns || StockReturn(t, w[j].0) == 0.0
  {
    stockReturns := map[];
    var i := 0;
    while i < |w|
      invariant 0 <= i <= |w|
      invariant forall k :: k in stockReturns ==> stockReturns[k] == StockReturn(t, k)
      invariant forall j :: 0 <= j < i ==> w[j].0 in stockReturns || StockReturn(t, w[j].0) == 0.0
    {
      var k := w[i].0;
      var rows := TickerRows(t, k);
      if |rows| >= 2 {
        stockReturns := stockReturns[k := LatestRow(rows).close / EarliestRow(rows).close - 1.0];
      }
      i := i + 1;
    }
  }

  /** The weighted sum with `stock_returns.get(ticker, 0)`. */
  method WeightedTotal(t: Table, w: Weights, stockReturns: map<Ticker, real>) returns (total: real)
    requires PositiveCloses(t)
    requires forall k :: k in stockReturns ==> stockReturns[k] == StockReturn(t, k)
    requires forall j :: 0 <= j < |w| ==> w[j].0 in stockReturns || StockReturn(t, w[j].0) == 0.0
    ensures total == TotalReturn(t, w)
  {
    total := 0.0;
    var i := 0;
    while i < |w|
      invariant 0 <= i <= |w|
      invariant total == TotalReturn(t, w[..i])
    {
      var k := w[i].0;
      var r := if k in stockReturns then stockReturns[k] else 0.0;
      LookupIsStockReturn(t, stockReturns, k);
      TotalReturnSnoc(t, w, i, r);
      total := total + w[i].1 * r;
      i := i + 1;
    }
    assert w[..|w|] == w;
  }

  /** `stock_returns.get(ticker, 0)` is the stock's return. */
  lemma LookupIsStockReturn(t: Table, stockReturns: map<Ticker, real>, k: Ticker)
    requires PositiveCloses(t)
    requires forall k :: k in stockReturns ==> stockReturns[k] == StockReturn(t, k)
    requires k in stockReturns || StockReturn(t, k) == 0.0
    ensures (if k in stockReturns then stockReturns[k] else 0.0) == StockReturn(t, k)
  {
  }

  lemma TotalReturnSnoc(t: Table, w: Weights, i: nat, r: real)
    requires PositiveCloses(t) && i < |w| && r == StockReturn(t, w[i].0)
    ensures TotalReturn(t, w[..i + 1]) == TotalReturn(t, w[..i]) + w[i].1 * r
  {
    assert w[..i + 1][..i] == w[..i];
    assert Share(t, w[i].0, w[i].1) == w[i].1 * r;
  }

  /** The inner loop: `daily_portfolio_return += weight * daily_return`. */
  method AccumulateDay(t: Table, w: Weights, prev: Day, today: Day) returns (acc: real)
    requires PositiveCloses(t)
    ensures acc == DayReturn(t, w, prev, today)
  {
    acc := 0.0;
    var j := 0;
    while j < |w|
      invariant 0 <= j <= |w|
      invariant acc == DayReturn(t, w[..j], prev, today)
    {
      var closeToday := FindClose(t, w[j].0, today);
      var closeYesterday := FindClose(t, w[j].0, prev);
      assert w[..j + 1][..j] == w[..j];
      if closeToday.Some? && closeYesterday.Some? {
        acc := acc + w[j].1 * (closeToday.value / closeYesterday.value - 1.0);
      } else {
        acc := acc + 0.0;
      }
      j := j + 1;
    }
    assert w[..|w|] == w;
  }

  /** The outer loop over `range(1, len(dates))`, appending one return per date. */
  method DailyReturns(t: Table, w: Weights) returns (daily: seq<real>)
    requires PositiveCloses(t)
    ensures daily == DailySeries(t, w)
  {
    var dates := SortedDates(t);
    daily := [];
    var d := 1;
    while d < |dates|
      invariant 1 <= d && (d <= |dates| || d == 1)
      invariant daily == DailySeries(t, w)[..d - 1]
    {
      var acc := AccumulateDay(t, w, dates[d - 1], dates[d]);
      DailySeriesAt(t, w, d - 1);
      PrefixSnoc(DailySeries(t, w), d - 1);
      daily := daily + [acc];
      d := d + 1;
    }
    WholeDailySeries(t, w, d);
  }

  lemma PrefixSnoc(s: seq<real>, k: nat)
    requires k < |s|
    ensures s[..k + 1] == s[..k] + [s[k]]
  {
  }

  /** What both aggregators run for a non-empty weight list. */
  method WeightedPerformance(t: Table, w: Weights, riskFreeRate: real, annualisedStd: seq<real> -> real)
    returns (m: Metrics)
    requires PositiveCloses(t) && |t| > 0
    ensures m == WeightedMetrics(t, w, riskFreeRate, annualisedStd)
  {
    var stockReturns := CollectStockReturns(t, w);
    var total := WeightedTotal(t, w, stockReturns);
    var daily := DailyReturns(t, w);
    var vol := AnnualisedVolatility(daily, annualisedStd);
    m := Metrics(total, vol, Sharpe(total, |t|, riskFreeRate, vol));
  }

  /** `_calculate_portfolio_performance`. */
  method PortfolioPerformance(t: Table, w: Weights, riskFreeRate: real, annualisedStd: seq<real> -> real,
                              formatPct: real -> string) returns (r: Result<PortfolioMetrics>)
    requires PositiveCloses(t)
    ensures r == PortfolioSpec(t, w, riskFreeRate, annualisedStd, formatPct)
  {
    if |w| == 0 {
      return Ok(PortfolioMetrics(Metrics(0.0, 0.0, 0.0), CASH_COMPOSITION));
    }
    if |t| == 0 {
      return Err(Error(ZeroDivisionError, "division by zero"));
    }
    var m := WeightedPerformance(t, w, riskFreeRate, annualisedStd);
    r := Ok(PortfolioMetrics(m, Composition(w, formatPct)));
  }

  /** `_calculate_benchmark_performance`. */
  method BenchmarkPerformance(t: Table, universe: seq<Ticker>, riskFreeRate: real,
                              annualisedStd: seq<real> -> real) returns (r: Result<Metrics>)
    requires PositiveCloses(t)
    ensures r == BenchmarkSpec(t, universe, riskFreeRate, annualisedStd)
  {
    if |universe| == 0 {
      return Err(Error(ZeroDivisionError, "float division by zero"));
    }
    if |t| == 0 {
      return Err(Error(ZeroDivisionError, "division by zero"));
    }
    var m := WeightedPerformance(t, EqualWeights(universe), riskFreeRate, annualisedStd);
    r := Ok(m);
  }

  // ---------------------------------------------------------------------
  // Trading days

  /** `int(trading_days * 7 / 5)`: `int` truncates toward zero. */
  function CalendarDays(tradingDays: int): (c: int)
    ensures tradingDays >= 0 ==> 0 <= 5 * c <= 7 * tradingDays < 5 * c + 5
    ensures tradingDays < 0 ==> 5 * c - 5 < 7 * tradingDays <= 5 * c <= 0
  {
    if tradingDays >= 0 then (7 * tradingDays) / 5 else -((-7 * tradingDays) / 5)
  }

  /** `_add_trading_days`: five trading days to seven calendar days. */
  function AddTradingDays(start: Day, tradingDays: int): Day
  {
    start + CalendarDays(tradingDays)
  }

  /** No trading days stay on the start date; a week, a month and a quarter
      of trading days (5, 21 and 63) become 7, 29 and 88 calendar days. */
  lemma TradingDayConversions(start: Day)
    ensures AddTradingDays(start, 0) == start
    ensures AddTradingDays(start, 5) == start + 7
    ensures AddTradingDays(start, 21) == start + 29
    ensures AddTradingDays(start, 63) == start + 88
  {
  }

  // ---------------------------------------------------------------------
  // Orchestration

  /** The success record and the ten-field error record of `run_backtest`.
      Fields shared by both carry the same name. */
  datatype BacktestResult =
    | Completed(asOfDate: Day, endDate: Day, testPeriodDays: nat, forwardDays: int,
                portfolioReturn: real, portfolioVolatility: real, portfolioSharpe: real,
                portfolioComposition: string,
                benchmarkReturn: real, benchmarkVolatility: real, benchmarkSharpe: real,
                benchmarkComposition: string,
                excessReturn: real, priceData: Table, portfolioWeights: Weights)
    | Failed(asOfDate: Day, portfolioReturn: real, benchmarkReturn: real, excessReturn: real,
             portfolioSharpe: real, benchmarkSharpe: real,
             portfolioVolatility: real, benchmarkVolatility: real,
             error: string, testPeriodDays: nat)

  /** `_create_error_result`. */
  function ErrorResult(asOf: Day, message: string): BacktestResult
  {
    Failed(asOf, 0.0, 0.0, 0.0, 0.0, 0.0, 0.0, 0.0, message, 0)
  }

  /** The table the provider returns for the engine's request, when it returns one,
      has positive closes. */
  predicate ProviderGivesPrices(provider: PriceProvider, universe: seq<Ticker>, asOf: Day, forwardDays: int)
  {
    var loaded := provider(universe, asOf, AddTradingDays(asOf, forwardDays));
    loaded.Ok? ==> PositiveCloses(loaded.value)
  }

  /** What `run_backtest` returns; `Err` only when the benchmark divides by an
      empty universe (that exception is not caught). */
  function BacktestSpec(asOf: Day, weights: Weights, forwardDays: int, universe: seq<Ticker>,
                        riskFreeRate: real, provider: PriceProvider,
                        annualisedStd: seq<real> -> real, formatPct: real -> string): Result<BacktestResult>
    requires ProviderGivesPrices(provider, universe, asOf, forwardDays)
  {
    var endDate := AddTradingDays(asOf, forwardDays);
    var loaded := provider(universe, asOf, endDate);
    if loaded.Err? then Ok(ErrorResult(asOf, loaded.error.message))
    else if |loaded.value| < MIN_ROWS then Ok(ErrorResult(asOf, INSUFFICIENT_DATA))
    else RunSpec(asOf, endDate, forwardDays, loaded.value, weights, universe, riskFreeRate, annualisedStd, formatPct)
  }

  /** The record built from a loaded table: both performances, and the
      exception when the benchmark divides by an empty universe. */
  function RunSpec(asOf: Day, endDate: Day, forwardDays: int, t: Table, weights: Weights, universe: seq<Ticker>,
                   riskFreeRate: real, annualisedStd: seq<real> -> real, formatPct: real -> string): Result<BacktestResult>
    requires PositiveCloses(t) && |t| >= MIN_ROWS
  {
    var b := BenchmarkSpec(t, universe, riskFreeRate, annualisedStd);
    if b.Err? then Err(b.error)
    else Ok(CompletedRecord(asOf, endDate, forwardDays, t, weights,
                            PortfolioSpec(t, weights, riskFreeRate, annualisedStd, formatPct).value, b.value))
  }

  /** The completed record: the excess return is portfolio minus benchmark. */
  function CompletedRecord(asOf: Day, endDate: Day, forwardDays: int, t: Table, weights: Weights,
                           p: PortfolioMetrics, b: Metrics): BacktestResult
  {
    Completed(asOf, endDate, |t|, forwardDays,
              p.metrics.totalReturn, p.metrics.volatility, p.metrics.sharpe, p.composition,
              b.totalReturn, b.volatility, b.sharpe, BENCHMARK_COMPOSITION,
              p.metrics.totalReturn - b.totalReturn, t, weights)
  }

  /** `run_backtest`: request prices from the decision date to the converted end
      date; a provider failure or fewer than five rows gives the error record. */
  method RunBacktest(asOf: Day, weights: Weights, forwardDays: int, universe: seq<Ticker>,
                     riskFreeRate: real, provider: PriceProvider,
                     annualisedStd: seq<real> -> real, formatPct: real -> string)
    returns (r: Result<BacktestResult>)
    requires ProviderGivesPrices(provider, universe, asOf, forwardDays)
    ensures r == BacktestSpec(asOf, weights, forwardDays, universe, riskFreeRate, provider, annualisedStd, formatPct)
    ensures var loaded := provider(universe, asOf, AddTradingDays(asOf, forwardDays));
            && (loaded.Err? ==> r == Ok(ErrorResult(asOf, loaded.error.message)))
            && (loaded.Ok? && |loaded.value| < MIN_ROWS ==> r == Ok(ErrorResult(asOf, INSUFFICIENT_DATA)))
            && (r.Err? <==> loaded.Ok? && |loaded.value| >= MIN_ROWS && |universe| == 0)
    ensures r.Ok? && r.value.Completed? ==>
              && r.value.testPeriodDays == |r.value.priceData| >= MIN_ROWS
              && r.value.endDate == AddTradingDays(asOf, forwardDays)
              && r.value.excessReturn == r.value.portfolioReturn - r.value.benchmarkReturn
  {
    var endDate := AddTradingDays(asOf, forwardDays);
    var loaded := provider(universe, asOf, endDate);
    if loaded.Err? {
      r := Ok(ErrorResult(asOf, loaded.error.message));
    } else if |loaded.value| < MIN_ROWS {
      r := Ok(ErrorResult(asOf, INSUFFICIENT_DATA));
    } else {
      r := RunOnPrices(asOf, endDate, forwardDays, loaded.value, weights, universe, riskFreeRate, annualisedStd, formatPct);
    }
    BacktestOutcomes(asOf, weights, forwardDays, universe, riskFreeRate, provider, annualisedStd, formatPct);
  }

  /** The body of `run_backtest` once the prices are loaded. */
  method RunOnPrices(asOf: Day, endDate: Day, forwardDays: int, t: Table, weights: Weights, universe: seq<Ticker>,
                     riskFreeRate: real, annualisedStd: seq<real> -> real, formatPct: real -> string)
    returns (r: Result<BacktestResult>)
    requires PositiveCloses(t) && |t| >= MIN_ROWS
    ensures r == RunSpec(asOf, endDate, forwardDays, t, weights, universe, riskFreeRate, annualisedStd, formatPct)
  {
    var p := PortfolioPerformance(t, weights, riskFreeRate, annualisedStd, formatPct);
    assert p.Ok?;
    var b := BenchmarkPerformance(t, universe, riskFreeRate, annualisedStd);
    if b.Err? {
      r := Err(b.error);
    } else {
      r := Ok(CompletedRecord(asOf, endDate, forwardDays, t, weights, p.value, b.value));
    }
  }

  /** The outcomes of `run_backtest`: the error record for a provider failure
      or too few rows, an exception only for an empty universe, and otherwise
      a record whose test period is the row count. */
  lemma BacktestOutcomes(asOf: Day, weights: Weights, forwardDays: int, universe: seq<Ticker>,
                         riskFreeRate: real, provider: PriceProvider,
                         annualisedStd: seq<real> -> real, formatPct: real -> string)
    requires ProviderGivesPrices(provider, universe, asOf, forwardDays)
    ensures var r := BacktestSpec(asOf, weights, forwardDays, universe, riskFreeRate, provider, annualisedStd, formatPct);
            var loaded := provider(universe, asOf, AddTradingDays(asOf, forwardDays));
            && (loaded.Err? ==> r == Ok(ErrorResult(asOf, loaded.error.message)))
            && (loaded.Ok? && |loaded.value| < MIN_ROWS ==> r == Ok(ErrorResult(asOf, INSUFFICIENT_DATA)))
            && (r.Err? <==> loaded.Ok? && |loaded.value| >= MIN_ROWS && |universe| == 0)
            && (r.Ok? && r.value.Completed? ==>
                  && r.value.testPeriodDays == |r.value.priceData| >= MIN_ROWS
                  && r.value.endDate == AddTradingDays(asOf, forwardDays)
                  && r.value.excessReturn == r.value.portfolioReturn - r.value.benchmarkReturn)
  {
  }

  // ---------------------------------------------------------------------
  // Growth of $1 (the series behind `generate_performance_chart`)

  /** Start at 1.0 and multiply by `1 + r` for each daily return `r`. */
  function Growth(daily: seq<real>): (g: seq<real>)
    ensures |g| == |daily| + 1
    ensures g[0] == 1.0
  {
    if |daily| == 0 then [1.0]
    else
      var prefix := Growth(daily[..|daily| - 1]);
      prefix + [Grow(prefix[|prefix| - 1], daily[|daily| - 1])]
  }

  /** A value after one day's return. */
  function Grow(value: real, dayReturn: real): real
  {
    value * (1.0 + dayReturn)
  }

  /** The chart's benchmark: a fixed 0.25 on the four hard-coded tickers. */
  const CHART_BENCHMARK_WEIGHTS: Weights := [("AAPL", 0.25), ("MSFT", 0.25), ("NVDA", 0.25), ("TSLA", 0.25)]

  /** The two value series `generate_performance_chart` plots, or `None` when it
      skips the chart (no `price_data`, or `error` set). */
  method ChartSeries(result: BacktestResult) returns (series: Option<(seq<real>, seq<real>)>)
    requires result.Completed? ==> PositiveCloses(result.priceData)
    ensures result.Failed? <==> series.None?
    ensures result.Completed? ==>
              series == Some((Growth(DailySeries(result.priceData, result.portfolioWeights)),
                              Growth(DailySeries(result.priceData, CHART_BENCHMARK_WEIGHTS))))
  {
    if result.Failed? {
      return None;
    }
    var t := result.priceData;
    var w := result.portfolioWeights;
    var dates := SortedDates(t);
    var portfolioValues := [1.0];
    var benchmarkValues := [1.0];
    var i := 1;
    while i < |dates|
      invariant 1 <= i && (i <= |dates| || i == 1)
      invariant portfolioValues == Growth(DailySeries(t, w)[..i - 1])
      invariant benchmarkValues == Growth(DailySeries(t, CHART_BENCHMARK_WEIGHTS)[..i - 1])
    {
      var portfolioDay := 0.0;
      if |w| > 0 {
        portfolioDay := AccumulateDay(t, w, dates[i - 1], dates[i]);
      }
      GrowthExtends(t, w, i, portfolioValues, portfolioDay);
      portfolioValues := portfolioValues + [Grow(portfolioValues[i - 1], portfolioDay)];

      var benchmarkDay := AccumulateDay(t, CHART_BENCHMARK_WEIGHTS, dates[i - 1], dates[i]);
      GrowthExtends(t, CHART_BENCHMARK_WEIGHTS, i, benchmarkValues, benchmarkDay);
      benchmarkValues := benchmarkValues + [Grow(benchmarkValues[i - 1], benchmarkDay)];
      i := i + 1;
    }
    WholeDailySeries(t, w, i);
    WholeDailySeries(t, CHART_BENCHMARK_WEIGHTS, i);
    series := Some((portfolioValues, benchmarkValues));
  }

  /** One step of the chart loop: the day's return extends the growth series. */
  lemma GrowthExtends(t: Table, w: Weights, i: int, values: seq<real>, day: real)
    requires PositiveCloses(t)
    requires 0 < i < |SortedDates(t)|
    requires values == Growth(DailySeries(t, w)[..i - 1])
    requires day == DayReturn(t, w, SortedDates(t)[i - 1], SortedDates(t)[i])
    ensures values + [Grow(values[i - 1], day)] == Growth(DailySeries(t, w)[..i])
  {
    DailySeriesAt(t, w, i - 1);
    GrowthPrefixExtends(DailySeries(t, w), i);
  }

  /** Growth over one more day of a series. */
  lemma GrowthPrefixExtends(daily: seq<real>, i: nat)
    requires 0 < i <= |daily|
    ensures Growth(daily[..i]) == Growth(daily[..i - 1]) + [Grow(Growth(daily[..i - 1])[i - 1], daily[i - 1])]
  {
    assert daily[..i] == daily[..i - 1] + [daily[i - 1]];
    GrowthSnoc(daily[..i - 1], daily[i - 1]);
  }

  /** The chart loop ends with the growth of the whole daily series. */
  lemma WholeDailySeries(t: Table, w: Weights, i: int)
    requires PositiveCloses(t)
    requires 1 <= i && (i == |SortedDates(t)| || (i == 1 && |SortedDates(t)| <= 1))
    ensures DailySeries(t, w)[..i - 1] == DailySeries(t, w)
  {
  }

  /** Each value is the previous one grown by that day's return. */
  lemma {:induction false} GrowthStep(daily: seq<real>, i: int)
    requires 0 < i <= |daily|
    ensures Growth(daily)[i] == Grow(Growth(daily)[i - 1], daily[i - 1])
  {
    var prefix := daily[..|daily| - 1];
    if i < |daily| {
      GrowthStep(prefix, i);
      assert prefix[i - 1] == daily[i - 1];
    }
  }

  lemma GrowthSnoc(daily: seq<real>, x: real)
    ensures Growth(daily + [x]) == Growth(daily) + [Grow(Growth(daily)[|daily|], x)]
  {
    var longer := daily + [x];
    var prefix := Growth(longer[..|longer| - 1]);
    assert Growth(longer) == prefix + [Grow(prefix[|prefix| - 1], longer[|longer| - 1])];
    assert longer[..|longer| - 1] == daily;
  }

  // ---------------------------------------------------------------------
  // Properties of the aggregators

  /** Splitting the weight list splits the total return. */
  lemma {:induction false} TotalReturnAppend(t: Table, w1: Weights, w2: Weights)
    requires PositiveCloses(t)
    ensures TotalReturn(t, w1 + w2) == TotalReturn(t, w1) + TotalReturn(t, w2)
    decreases |w2|
  {
    if |w2| == 0 {
      assert w1 + w2 == w1;
    } else {
      var init := w2[..|w2| - 1];
      TotalReturnAppend(t, w1, init);
      assert (w1 + w2)[..|w1 + w2| - 1] == w1 + init;
      assert (w1 + w2)[|w1 + w2| - 1] == w2[|w2| - 1];
    }
  }

  /** Splitting the weight list splits every day's return. */
  lemma {:induction false} DayReturnAppend(t: Table, w1: Weights, w2: Weights, prev: Day, today: Day)
    requires PositiveCloses(t)
    ensures DayReturn(t, w1 + w2, prev, today) == DayReturn(t, w1, prev, today) + DayReturn(t, w2, prev, today)
    decreases |w2|
  {
    if |w2| == 0 {
      assert w1 + w2 == w1;
    } else {
      var init := w2[..|w2| - 1];
      DayReturnAppend(t, w1, init, prev, today);
      assert (w1 + w2)[..|w1 + w2| - 1] == w1 + init;
      assert (w1 + w2)[|w1 + w2| - 1] == w2[|w2| - 1];
    }
  }

  /** A weight on a ticker the table has no rows for contributes nothing: the
      total return and the daily series are those without it. */
  lemma AbsentTickerAddsNothing(t: Table, w: Weights, k: Ticker, wt: real)
    requires PositiveCloses(t)
    requires forall row :: row in t ==> row.ticker != k
    ensures TotalReturn(t, w + [(k, wt)]) == TotalReturn(t, w)
    ensures DailySeries(t, w + [(k, wt)]) == DailySeries(t, w)
  {
    var longer := w + [(k, wt)];
    assert longer[..|longer| - 1] == w;
    forall prev: Day, today: Day
      ensures DayReturn(t, longer, prev, today) == DayReturn(t, w, prev, today)
    {
      assert FindClose(t, k, today).None?;
    }
  }

  /** One stock at full weight earns exactly that stock's return. */
  lemma SingleTickerTotalReturn(t: Table, k: Ticker)
    requires PositiveCloses(t)
    ensures TotalReturn(t, [(k, 1.0)]) == StockReturn(t, k)
  {
    assert [(k, 1.0)][..0] == [];
  }

  /** The chart's hard-coded benchmark weights are the equal weights of the
      default universe. */
  lemma ChartBenchmarkIsDefaultEqualWeights()
    ensures CHART_BENCHMARK_WEIGHTS == EqualWeights(DEFAULT_UNIVERSE)
  {
    var e := EqualWeights(DEFAULT_UNIVERSE);
    assert 1.0 / |DEFAULT_UNIVERSE| as real == 0.25;
    assert e[0] == CHART_BENCHMARK_WEIGHTS[0] && e[1] == CHART_BENCHMARK_WEIGHTS[1];
    assert e[2] == CHART_BENCHMARK_WEIGHTS[2] && e[3] == CHART_BENCHMARK_WEIGHTS[3];
  }

  // ---------------------------------------------------------------------
  // Properties of the orchestrator

  /** A portfolio weighted like the benchmark matches it: same return,
      volatility and Sharpe ratio, and no excess return. */
  lemma EqualWeightPortfolioMatchesBenchmark(asOf: Day, forwardDays: int, universe: seq<Ticker>,
                                             riskFreeRate: real, provider: PriceProvider,
                                             annualisedStd: seq<real> -> real, formatPct: real -> string)
    requires |universe| > 0
    requires ProviderGivesPrices(provider, universe, asOf, forwardDays)
    ensures var r := BacktestSpec(asOf, EqualWeights(universe), forwardDays, universe, riskFreeRate,
                                  provider, annualisedStd, formatPct);
            && r.Ok?
            && (r.value.Completed? ==>
                  && r.value.portfolioReturn == r.value.benchmarkReturn
                  && r.value.portfolioVolatility == r.value.benchmarkVolatility
                  && r.value.portfolioSharpe == r.value.benchmarkSharpe
                  && r.value.excessReturn == 0.0)
  {
  }

  /** An empty portfolio is cash: zero return, volatility and Sharpe ratio, and
      the excess return is minus the benchmark's. */
  lemma CashPortfolio(asOf: Day, forwardDays: int, universe: seq<Ticker>,
                      riskFreeRate: real, provider: PriceProvider,
                      annualisedStd: seq<real> -> real, formatPct: real -> string)
    requires ProviderGivesPrices(provider, universe, asOf, forwardDays)
    ensures var r := BacktestSpec(asOf, [], forwardDays, universe, riskFreeRate,
                                  provider, annualisedStd, formatPct);
            r.Ok? && r.value.Completed? ==>
              && r.value.portfolioReturn == 0.0
              && r.value.portfolioVolatility == 0.0
              && r.value.portfolioSharpe == 0.0
              && r.value.portfolioComposition == CASH_COMPOSITION
              && r.value.excessReturn == -r.value.benchmarkReturn
  {
  }

  // ---------------------------------------------------------------------
  // Telescoping: the chart's last value is the backtest's return

  /** Ticker `k` has a close on every date of the table. */
  ghost predicate ClosedEveryDay(t: Table, k: Ticker)
  {
    forall d :: HasDate(t, d) ==> FindClose(t, k, d).Some?
  }

  lemma SelfRatio(a: real)
    requires a > 0.0
    ensures a / a == 1.0
  {
  }

  lemma RatioChain(a: real, b: real, c: real)
    requires a > 0.0 && b > 0.0
    ensures (a / b) * (c / a) == c / b
  {
  }

  /** One stock at full weight: one plus the day's return is the close ratio. */
  lemma SingleTickerDay(t: Table, k: Ticker, prev: Day, today: Day)
    requires PositiveCloses(t)
    requires FindClose(t, k, prev).Some? && FindClose(t, k, today).Some?
    ensures 1.0 + DayReturn(t, [(k, 1.0)], prev, today) == FindClose(t, k, today).value / FindClose(t, k, prev).value
  {
    assert [(k, 1.0)][..0] == [];
  }

  /** Day `j` of the growth series of one stock at full weight is its close on
      that day over its close on the first day. */
  lemma {:induction false} SingleTickerGrowthAt(t: Table, k: Ticker, j: nat)
    requires PositiveCloses(t) && ClosedEveryDay(t, k)
    requires j < |SortedDates(t)|
    ensures GrowthIsCloseRatio(t, k, j)
  {
    if j == 0 {
      GrowthAtFirstDate(t, k);
    } else {
      SingleTickerGrowthAt(t, k, j - 1);
      SingleTickerGrowthStep(t, k, j);
    }
  }

  /** Growth value `j` of one stock at full weight is its close on date `j`
      over its close on the first date. */
  predicate GrowthIsCloseRatio(t: Table, k: Ticker, j: nat)
    requires PositiveCloses(t) && j < |SortedDates(t)|
  {
    var ds := SortedDates(t);
    && FindClose(t, k, ds[0]).Some? && FindClose(t, k, ds[j]).Some?
    && Growth(DailySeries(t, [(k, 1.0)]))[j] == FindClose(t, k, ds[j]).value / FindClose(t, k, ds[0]).value
  }

  /** The growth series starts at the first close over itself. */
  lemma GrowthAtFirstDate(t: Table, k: Ticker)
    requires PositiveCloses(t) && ClosedEveryDay(t, k) && 0 < |SortedDates(t)|
    ensures GrowthIsCloseRatio(t, k, 0)
  {
    CloseOnSortedDate(t, k, 0);
    SelfRatio(FindClose(t, k, SortedDates(t)[0]).value);
  }

  /** One step of the induction above: the ratio to the first close carries
      over from day `j - 1` to day `j`. */
  lemma SingleTickerGrowthStep(t: Table, k: Ticker, j: nat)
    requires PositiveCloses(t) && ClosedEveryDay(t, k)
    requires 0 < j < |SortedDates(t)| && GrowthIsCloseRatio(t, k, j - 1)
    ensures GrowthIsCloseRatio(t, k, j)
  {
    var ds := SortedDates(t);
    SingleTickerDayRatio(t, k, j);
    CloseRatioStep(DailySeries(t, [(k, 1.0)]), j, FindClose(t, k, ds[0]).value,
                   FindClose(t, k, ds[j - 1]).value, FindClose(t, k, ds[j]).value);
  }

  /** One stock at full weight: one plus daily return `j - 1` is the ratio of
      its closes on dates `j` and `j - 1`. */
  lemma SingleTickerDayRatio(t: Table, k: Ticker, j: nat)
    requires PositiveCloses(t) && ClosedEveryDay(t, k)
    requires 0 < j < |SortedDates(t)|
    ensures var ds := SortedDates(t);
            && |DailySeries(t, [(k, 1.0)])| == |ds| - 1
            && FindClose(t, k, ds[j - 1]).Some? && FindClose(t, k, ds[j - 1]).value > 0.0
            && FindClose(t, k, ds[j]).Some?
            && 1.0 + DailySeries(t, [(k, 1.0)])[j - 1] == FindClose(t, k, ds[j]).value / FindClose(t, k, ds[j - 1]).value
  {
    var ds := SortedDates(t);
    CloseOnSortedDate(t, k, j - 1);
    CloseOnSortedDate(t, k, j);
    DailySeriesAt(t, [(k, 1.0)], j - 1);
    SingleTickerDay(t, k, ds[j - 1], ds[j]);
  }

  /** A growth value that is a ratio of closes stays one after a day whose
      return is the ratio of the next close to the last. */
  lemma CloseRatioStep(daily: seq<real>, j: nat, c0: real, cp: real, cj: real)
    requires 0 < j <= |daily| && c0 > 0.0 && cp > 0.0
    requires Growth(daily)[j - 1] == cp / c0 && 1.0 + daily[j - 1] == cj / cp
    ensures Growth(daily)[j] == cj / c0
  {
    GrowthStep(daily, j);
    GrowByRatio(Growth(daily)[j - 1], daily[j - 1], c0, cp, cj);
  }

  /** A stock trading every day has a positive close on each sorted date. */
  lemma CloseOnSortedDate(t: Table, k: Ticker, i: nat)
    requires PositiveCloses(t) && ClosedEveryDay(t, k)
    requires i < |SortedDates(t)|
    ensures var ds := SortedDates(t);
            FindClose(t, k, ds[i]).Some? && FindClose(t, k, ds[i]).value > 0.0
  {
    var ds := SortedDates(t);
    assert ds[i] in ds;
    assert PriceRow(ds[i], k, FindClose(t, k, ds[i]).value) in t;
  }

  /** Day `i` of the daily series compares the `i`-th and the next sorted date. */
  lemma DailySeriesAt(t: Table, w: Weights, i: nat)
    requires PositiveCloses(t)
    requires i + 1 < |SortedDates(t)|
    ensures var ds := SortedDates(t);
            |DailySeries(t, w)| == |ds| - 1 && DailySeries(t, w)[i] == DayReturn(t, w, ds[i], ds[i + 1])
  {
  }

  lemma GrowByRatio(value: real, dayReturn: real, c0: real, cp: real, cj: real)
    requires c0 > 0.0 && cp > 0.0
    requires value == cp / c0 && 1.0 + dayReturn == cj / cp
    ensures Grow(value, dayReturn) == cj / c0
  {
    RatioChain(cp, c0, cj);
  }

  /** A day of the table lies between its first and last sorted dates. */
  lemma DateBetweenEnds(t: Table, d: Day)
    requires HasDate(t, d)
    ensures var ds := SortedDates(t); |ds| > 0 && ds[0] <= d <= ds[|ds| - 1]
  {
    var ds := SortedDates(t);
    assert d in ds;
    MemberBetweenEnds(ds, d);
  }

  /** A member of an increasing sequence lies between its ends. */
  lemma MemberBetweenEnds(s: seq<Day>, d: Day)
    requires StrictlyIncreasing(s) && d in s
    ensures |s| > 0 && s[0] <= d <= s[|s| - 1]
  {
    var i :| 0 <= i < |s| && s[i] == d;
    if 0 < i { assert s[0] < s[i]; }
    if i < |s| - 1 { assert s[i] < s[|s| - 1]; }
  }

  /** The stock's earliest row is its row on the table's first date. */
  lemma EarliestIsFirstDate(t: Table, k: Ticker)
    requires PositiveCloses(t) && OneClosePerKey(t) && ClosedEveryDay(t, k)
    requires |SortedDates(t)| > 0 && |TickerRows(t, k)| > 0
    ensures var ds := SortedDates(t);
            FindClose(t, k, ds[0]).Some? && EarliestRow(TickerRows(t, k)).close == FindClose(t, k, ds[0]).value
  {
    var ds := SortedDates(t);
    assert ds[0] in ds;
    var first := PriceRow(ds[0], k, FindClose(t, k, ds[0]).value);
    var e := EarliestRow(TickerRows(t, k));
    assert first in TickerRows(t, k);
    DateBetweenEnds(t, e.date);
  }

  /** The stock's latest row is its row on the table's last date. */
  lemma LatestIsLastDate(t: Table, k: Ticker)
    requires PositiveCloses(t) && OneClosePerKey(t) && ClosedEveryDay(t, k)
    requires |SortedDates(t)| > 0 && |TickerRows(t, k)| > 0
    ensures var ds := SortedDates(t);
            FindClose(t, k, ds[|ds| - 1]).Some? && LatestRow(TickerRows(t, k)).close == FindClose(t, k, ds[|ds| - 1]).value
  {
    var ds := SortedDates(t);
    assert ds[|ds| - 1] in ds;
    var last := PriceRow(ds[|ds| - 1], k, FindClose(t, k, ds[|ds| - 1]).value);
    var l := LatestRow(TickerRows(t, k));
    assert last in TickerRows(t, k);
    DateBetweenEnds(t, l.date);
  }

  /** The stock's first-to-last return is its last-date close over its
      first-date close, when it trades every day of the table. */
  lemma StockReturnFromEnds(t: Table, k: Ticker)
    requires PositiveCloses(t) && OneClosePerKey(t) && ClosedEveryDay(t, k)
    requires |SortedDates(t)| > 0
    ensures var ds := SortedDates(t);
            && FindClose(t, k, ds[0]).Some? && FindClose(t, k, ds[|ds| - 1]).Some?
            && 1.0 + StockReturn(t, k) == FindClose(t, k, ds[|ds| - 1]).value / FindClose(t, k, ds[0]).value
  {
    var ds := SortedDates(t);
    var n := |ds|;
    assert ds[0] in ds && ds[n - 1] in ds;
    var c0 := FindClose(t, k, ds[0]).value;
    var cn := FindClose(t, k, ds[n - 1]).value;
    var rows := TickerRows(t, k);
    assert PriceRow(ds[0], k, c0) in rows && PriceRow(ds[n - 1], k, cn) in rows;
    EarliestIsFirstDate(t, k);
    LatestIsLastDate(t, k);
    if |rows| < 2 {
      assert rows[0] == PriceRow(ds[0], k, c0) && rows[0] == PriceRow(ds[n - 1], k, cn);
      assert PriceRow(ds[0], k, c0) in t;
      assert cn == c0;
      SelfRatio(c0);
    }
  }

  /** One stock at full weight that trades every day: the chart's last value is
      one plus the backtest's total return. */
  lemma SingleTickerGrowthTelescopes(t: Table, k: Ticker)
    requires PositiveCloses(t) && OneClosePerKey(t) && ClosedEveryDay(t, k)
    ensures var g := Growth(DailySeries(t, [(k, 1.0)]));
            g[|g| - 1] == 1.0 + TotalReturn(t, [(k, 1.0)])
  {
    SingleTickerTotalReturn(t, k);
    var ds := SortedDates(t);
    if |ds| > 0 {
      SingleTickerGrowthAt(t, k, |ds| - 1);
      StockReturnFromEnds(t, k);
    }
  }
}

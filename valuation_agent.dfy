/** The valuation agent (`src/agents/valuation_agent.py`): prices over a
    look-back window that ends at the as-of date, the cumulative return, its
    annualisation, the annualised volatility of the daily returns, and the
    return/volatility classifier.

    The fractional power `(1 + R) ** (252 / n) - 1` is the parameter
    `annualise`, and the sample standard deviation times the square root of
    252 is the parameter `annualisedStd`. pandas gives a NaN deviation for
    fewer than two daily returns; the model writes that as `None`, and every
    comparison with it is false. */
module ValuationAgent {
  import opened Wrappers
  import opened Ratings
  import opened PriceTable
  import opened PriceLoader
  import opened Backtest

  /** `config.valuation`. */
  datatype ValuationConfig = ValuationConfig(
    lookbackDays: int,
    buyReturnThreshold: real, sellReturnThreshold: real,
    buyVolatilityThreshold: real, sellVolatilityThreshold: real)

  /** The `valuation_analysis` record (the percentages are not rounded). */
  datatype ValuationAnalysis = ValuationAnalysis(
    recommendation: string, annualizedReturnPct: real, annualizedVolatilityPct: Option<real>,
    lookbackDays: nat, cfg: ValuationConfig)

  /** `price_data['close']`, in table order. */
  function Closes(t: Table): (c: seq<real>)
    ensures |c| == |t|
    ensures forall i :: 0 <= i < |t| ==> c[i] == t[i].close
  {
    seq(|t|, i requires 0 <= i < |t| => t[i].close)
  }

  /** `closes.pct_change().dropna()`: each close over the one before, minus 1. */
  function PctChange(closes: seq<real>): (daily: seq<real>)
    requires forall i :: 0 <= i < |closes| ==> closes[i] > 0.0
    ensures |closes| > 0 ==> |daily| == |closes| - 1
    ensures |closes| == 0 ==> daily == []
  {
    if |closes| == 0 then []
    else seq(|closes| - 1, i requires 0 <= i < |closes| - 1 => closes[i + 1] / closes[i] - 1.0)
  }

  /** `return_pct > buy_return and vol_pct < buy_vol` gives BUY; otherwise
      `return_pct < sell_return or vol_pct > sell_vol` gives SELL; otherwise
      HOLD. A NaN volatility (`None`) fails both volatility tests. */
  function ValuationRating(returnPct: real, volPct: Option<real>, cfg: ValuationConfig): (r: string)
    ensures IsRating(r)
    ensures r == BUY <==> returnPct > cfg.buyReturnThreshold && volPct.Some? && volPct.value < cfg.buyVolatilityThreshold
    ensures r == SELL <==>
              !(returnPct > cfg.buyReturnThreshold && volPct.Some? && volPct.value < cfg.buyVolatilityThreshold)
              && (returnPct < cfg.sellReturnThreshold || (volPct.Some? && volPct.value > cfg.sellVolatilityThreshold))
  {
    if returnPct > cfg.buyReturnThreshold && volPct.Some? && volPct.value < cfg.buyVolatilityThreshold then BUY
    else if returnPct < cfg.sellReturnThreshold || (volPct.Some? && volPct.value > cfg.sellVolatilityThreshold) then SELL
    else HOLD
  }

  /** A higher return never lowers the rating. */
  lemma RatingMonotoneInReturn(lower: real, higher: real, volPct: Option<real>, cfg: ValuationConfig)
    requires lower <= higher
    ensures Rank(ValuationRating(lower, volPct, cfg)) <= Rank(ValuationRating(higher, volPct, cfg))
  {
  }

  /** A lower volatility never lowers the rating. */
  lemma RatingMonotoneInVolatility(returnPct: real, calmer: real, wilder: real, cfg: ValuationConfig)
    requires calmer <= wilder
    ensures Rank(ValuationRating(returnPct, Some(wilder), cfg)) <= Rank(ValuationRating(returnPct, Some(calmer), cfg))
  {
  }

  /** The request the agent makes: its ticker, from `lookback_days` before
      the as-of date (a forward window of 0) up to the as-of date itself. */
  function PriceRequest(ticker: Ticker, asOf: Day, cfg: ValuationConfig): (seq<Ticker>, Day, Day)
  {
    var (start, _) := CalculateDateRange(asOf, cfg.lookbackDays, 0);
    ([ticker], start, asOf)
  }

  /** The provider's table for the agent's request has positive closes. */
  predicate ProviderPricesPositive(provider: PriceProvider, ticker: Ticker, asOf: Day, cfg: ValuationConfig)
  {
    var (ks, start, end) := PriceRequest(ticker, asOf, cfg);
    var loaded := provider(ks, start, end);
    loaded.Ok? ==> PositiveCloses(loaded.value)
  }

  /** The analysis of a loaded, non-empty table. */
  function Analyse(t: Table, cfg: ValuationConfig, annualise: (real, nat) -> real, annualisedStd: seq<real> -> real): ValuationAnalysis
    requires |t| > 0 && PositiveCloses(t)
  {
    var closes := Closes(t);
    assert forall i :: 0 <= i < |closes| ==> t[i] in t;
    var cumulative := closes[|closes| - 1] / closes[0] - 1.0;
    var returnPct := annualise(cumulative, |t|) * 100.0;
    var daily := PctChange(closes);
    var volPct := if |daily| >= 2 then Some(annualisedStd(daily) * 100.0) else None;
    ValuationAnalysis(ValuationRating(returnPct, volPct, cfg), returnPct, volPct, |t|, cfg)
  }

  /** `valuation_agent`: a provider failure propagates; an empty table fails
      at `iloc[0]` with `IndexError`. */
  function ValuationAgentSpec(ticker: Ticker, asOf: Day, cfg: ValuationConfig, provider: PriceProvider,
                              annualise: (real, nat) -> real, annualisedStd: seq<real> -> real): (r: Result<ValuationAnalysis>)
    requires ProviderPricesPositive(provider, ticker, asOf, cfg)
    ensures var (ks, start, end) := PriceRequest(ticker, asOf, cfg);
            var loaded := provider(ks, start, end);
            && (loaded.Err? ==> r == Err(loaded.error))
            && (loaded.Ok? && |loaded.value| == 0 ==> r.Err? && r.error.kind == IndexError)
            && (r.Ok? ==> loaded.Ok? && r.value.lookbackDays == |loaded.value| > 0)
  {
    var (ks, start, end) := PriceRequest(ticker, asOf, cfg);
    var loaded := provider(ks, start, end);
    if loaded.Err? then Err(loaded.error)
    else if |loaded.value| == 0 then Err(Error(IndexError, "single positional indexer is out-of-bounds"))
    else Ok(Analyse(loaded.value, cfg, annualise, annualisedStd))
  }

  /** A successful analysis reports the annualised cumulative return of the
      loaded closes (last over first, minus 1), the annualised volatility of
      their daily returns when there are at least two of them, the number of
      rows as `lookback_days`, and the return/volatility rating of those two. */
  lemma AnalysisFacts(ticker: Ticker, asOf: Day, cfg: ValuationConfig, provider: PriceProvider,
                      annualise: (real, nat) -> real, annualisedStd: seq<real> -> real)
    requires ProviderPricesPositive(provider, ticker, asOf, cfg)
    requires ValuationAgentSpec(ticker, asOf, cfg, provider, annualise, annualisedStd).Ok?
    ensures var t := provider([ticker], asOf - cfg.lookbackDays, asOf).value;
            var a := ValuationAgentSpec(ticker, asOf, cfg, provider, annualise, annualisedStd).value;
            && |t| > 0 && PositiveCloses(t)
            && a.lookbackDays == |t|
            && a.annualizedReturnPct == annualise(t[|t| - 1].close / t[0].close - 1.0, |t|) * 100.0
            && a.annualizedVolatilityPct ==
                 (if |t| >= 3 then Some(annualisedStd(PctChange(Closes(t))) * 100.0) else None)
            && a.recommendation == ValuationRating(a.annualizedReturnPct, a.annualizedVolatilityPct, cfg)
  {
  }

  /** No look-ahead: the request ends at the as-of date and starts
      `lookback_days` before it, and the outcome depends on nothing but the
      provider's answer to that request. */
  lemma UsesOnlyThePastWindow(ticker: Ticker, asOf: Day, cfg: ValuationConfig,
                              p1: PriceProvider, p2: PriceProvider,
                              annualise: (real, nat) -> real, annualisedStd: seq<real> -> real)
    requires ProviderPricesPositive(p1, ticker, asOf, cfg) && ProviderPricesPositive(p2, ticker, asOf, cfg)
    requires p1([ticker], asOf - cfg.lookbackDays, asOf) == p2([ticker], asOf - cfg.lookbackDays, asOf)
    ensures PriceRequest(ticker, asOf, cfg) == ([ticker], asOf - cfg.lookbackDays, asOf)
    ensures ValuationAgentSpec(ticker, asOf, cfg, p1, annualise, annualisedStd)
            == ValuationAgentSpec(ticker, asOf, cfg, p2, annualise, annualisedStd)
  {
  }

  /** Compounding the daily returns gives back the cumulative growth: day `j`
      of the growth series is the `j`-th close over the first. */
  lemma {:induction false} CompoundedDailyReturns(closes: seq<real>, j: nat)
    requires forall i :: 0 <= i < |closes| ==> closes[i] > 0.0
    requires j < |closes|
    ensures Growth(PctChange(closes))[j] == closes[j] / closes[0]
  {
    var daily := PctChange(closes);
    if j == 0 {
      SelfRatio(closes[0]);
    } else {
      CompoundedDailyReturns(closes, j - 1);
      GrowthStep(daily, j);
      assert 1.0 + daily[j - 1] == closes[j] / closes[j - 1];
      GrowByRatio(Growth(daily)[j - 1], daily[j - 1], closes[0], closes[j - 1], closes[j]);
    }
  }

  /** The cumulative return the agent annualises is the compounded daily
      return over the window. */
  lemma CumulativeIsCompoundedDaily(t: Table)
    requires |t| > 0 && PositiveCloses(t)
    ensures var closes := Closes(t);
            var daily := PctChange(closes);
            Growth(daily)[|daily|] - 1.0 == closes[|closes| - 1] / closes[0] - 1.0
  {
    var closes := Closes(t);
    assert forall i :: 0 <= i < |closes| ==> t[i] in t;
    CompoundedDailyReturns(closes, |closes| - 1);
  }
}

# Alpha Agents: a Dafny model of the decision and backtest core

Alpha Agents is a multi-agent stock analysis pipeline for four tickers
(AAPL, MSFT, NVDA, TSLA). It takes an as-of date in August 2024 and runs
three agents per ticker:

- a valuation agent, which uses the price window before the date;
- a sentiment agent, which uses news published by the date;
- a fundamental agent, which uses a factsheet of scored metrics.

The agents' ratings then flow through three more stages:

- A coordinator combines the three ratings into a BUY/HOLD/SELL consensus by a weighted vote.
- A portfolio builder turns the consensus ratings into normalised weights: BUY counts 1.0, HOLD 0.5, SELL nothing.
- A backtest engine measures that portfolio over a forward window against an equal-weight benchmark. It reports total return, volatility, Sharpe ratio and the growth-of-$1 series for the chart.

The output layer turns the results into the picks and performance rows and a text summary.

The project models these parts, one Dafny module per source file:

- the backtest engine (`backtest.dfy`);
- the portfolio builder (`portfolio_workflow.dfy`);
- the coordinator and the three agents: `coordinator.dfy`, `valuation_agent.dfy`, `sentiment_agent.dfy`, `fundamental_agent.dfy`;
- the LangGraph state reducer (`agent_state.dfy`);
- the news, fundamental and price loaders: `news_loader.dfy`, `fundamental_loader.dfy`, `price_loader.dfy`;
- the output layer (`output_utils.dfy`);
- the command-line input validation (`run_pipeline.dfy`).

Shared vocabulary comes from small modules:

- `wrappers.dfy`: a `Result` carrying a Python exception kind and message;
- `py_value.dfy`: JSON-like values with Python's `in`, indexing and `.get` semantics, including their `TypeError`s;
- `price_table.dfy`: the long price table of (date, ticker, close) rows;
- `ratings.dfy`, `tickers.dfy`, `numbers.dfy`, `sequences.dfy` and `strings.dfy`.

How the source's imprecise or external parts are represented:

- Dates are day numbers, the same as `date.toordinal()`: 2024-08-01 is 739099.
- Closes are positive reals.
- Weights are ordered (ticker, weight) lists, because dict order reaches the composition text.
- Every raised exception is an `Err`.
- Code that cannot be seen or is numeric becomes a function parameter:
  - the price API request and each cache file's contents;
  - the JSON news and factsheet files;
  - VADER's compound score;
  - pandas' annualised standard deviation and the fractional-power annualisation;
  - `strptime` and `datetime.now()`;
  - the `:.1f`/`:+.2f` formatters.

Each loop in the source is a Dafny `method` with a `while` loop. The loops are:

- the stock-return, daily-return and chart loops of the backtest;
- the weight loop of `build_portfolio`;
- the score loops of the agents and loaders;
- the filters and validators of the loaders;
- the tally and row loops of the output layer.

Each method is proved equal to a specification function. The lemmas then state what the source promises of that function.

## Model

| member | source | states |
|---|---|---|
| Backtest.Sharpe | src/backtest.py:204-206 | with positive volatility the ratio times the volatility is the annualised total return (252 over the row count) minus the risk-free rate; with zero or negative volatility it is exactly 0 |
| Backtest.EqualWeights | src/backtest.py:221 | the benchmark weights: one entry per universe ticker, in universe order, each 1 / N |
| Backtest.CollectStockReturns | src/backtest.py:167-179 | every recorded stock return is that ticker's last-over-first close minus 1, and a weighted ticker left unrecorded (fewer than 2 rows) has return 0 |
| Backtest.WeightedTotal | src/backtest.py:182 | the loop's sum with `stock_returns.get(ticker, 0)` is the total return Σ weight × stock return |
| Backtest.AccumulateDay | src/backtest.py:187-193 | the inner loop's accumulated value is the weighted return of the day, counting only tickers with a close on both dates |
| Backtest.DailyReturns | src/backtest.py:185-195 | the outer loop produces the daily series: one weighted return per pair of consecutive sorted distinct dates |
| Backtest.WeightedPerformance | src/backtest.py:160-206 | the metrics for a non-empty weight list are the total return, annualised volatility and Sharpe ratio of the specification |
| Backtest.PortfolioPerformance | src/backtest.py:150-217 | `_calculate_portfolio_performance` is cash for empty weights, otherwise the weighted metrics and the composition text |
| Backtest.BenchmarkPerformance | src/backtest.py:219-275 | `_calculate_benchmark_performance` is the weighted computation at weight 1/N on every universe ticker, and an empty universe raises `ZeroDivisionError` |
| Backtest.CalendarDays | src/backtest.py:285 | `int(n * 7 / 5)` truncates toward zero: for n ≥ 0 the result is ⌊7n/5⌋, for n < 0 it is −⌊−7n/5⌋ |
| Backtest.TradingDayConversions | src/backtest.py:277-286 | 0, 5, 21 and 63 trading days move the start date by 0, 7, 29 and 88 calendar days |
| Backtest.RunBacktest | src/backtest.py:81-147 | a loader failure returns the 10-field error record with the message kept, and fewer than 5 rows returns the error record “Insufficient price data”, never raising; otherwise the record's test period is the row count, the end date is the converted forward date, and the excess return is portfolio minus benchmark |
| Backtest.RunOnPrices | src/backtest.py:110-147 | once at least five rows are loaded, the record holds both performances, and the benchmark's division by an empty universe is the only exception |
| Backtest.Growth | src/backtest.py:336-365 | the growth series has one value more than the daily series and starts at 1.0 |
| Backtest.GrowthStep | src/backtest.py:352 | each growth value is the previous one times (1 + that day's return) |
| Backtest.ChartSeries | src/backtest.py:325-365 | the chart is skipped exactly for the error record; otherwise both series are the growth of the daily series of the portfolio weights and of the fixed 0.25 benchmark weights |
| Backtest.ChartBenchmarkIsDefaultEqualWeights | src/backtest.py:355-357 | the chart's hard-coded 0.25 weights on the four tickers equal the engine's 1/N benchmark weights for the default universe |
| Backtest.TotalReturnAppend | src/backtest.py:182 | the total return is additive over a split of the weight list |
| Backtest.DayReturnAppend | src/backtest.py:187-193 | each day's return is additive over a split of the weight list |
| Backtest.AbsentTickerAddsNothing | src/backtest.py:172-193 | a weight on a ticker absent from the table changes neither the total return nor any daily return |
| Backtest.SingleTickerTotalReturn | src/backtest.py:176-182 | one stock at full weight earns exactly its own first-to-last return |
| Backtest.EqualWeightPortfolioMatchesBenchmark | src/backtest.py:115-139 | a portfolio at 1/N on every universe ticker gets the benchmark's return, volatility and Sharpe ratio, and an excess return of 0 |
| Backtest.CashPortfolio | src/backtest.py:152-158 | with empty weights the portfolio's return, volatility and Sharpe ratio are 0 and its composition is “Cash (0 stocks)”, whatever the table holds, so the excess return is minus the benchmark's |
| Backtest.DailySeriesAt | src/backtest.py:185-195 | the daily series has one entry fewer than the distinct dates, and entry i is the weighted return from the i-th to the next sorted date |
| Backtest.SingleTickerDay | src/backtest.py:188-193 | for one stock at full weight, one plus the day's return is today's close over yesterday's |
| Backtest.SingleTickerGrowthAt | src/backtest.py:340-352 | for one stock at full weight with a close on every date, growth value j is the close on date j over the close on the first date |
| Backtest.DateBetweenEnds | src/backtest.py:165 | every date of the table lies between the first and the last sorted distinct date |
| Backtest.EarliestIsFirstDate | src/backtest.py:169-176 | a stock trading every date has its date-sorted first row on the table's first date |
| Backtest.LatestIsLastDate | src/backtest.py:169-177 | a stock trading every date has its date-sorted last row on the table's last date |
| Backtest.StockReturnFromEnds | src/backtest.py:169-178 | for such a stock, one plus its return is its close on the last date over its close on the first date |
| Backtest.SingleTickerGrowthTelescopes | src/backtest.py:336-352 | single ticker at full weight trading every date: the chart's last value is 1 + the engine's total return (the daily returns telescope) |
| PriceTable.SortedDates | src/backtest.py:165 | `sorted(price_data['date'].unique())`: strictly increasing, and holds exactly the table's dates |
| PriceTable.TickerRows | src/backtest.py:169 | every row kept belongs to the table and has that ticker, and every such row is kept |
| PriceTable.TickerRowsIsFilter | src/backtest.py:169 | the rows kept are the table filtered by the ticker mask |
| PriceTable.TickerRowsExact | src/backtest.py:169 | the rows kept are a subsequence of the table, in table order, holding each row of the ticker as often as the table does and no other row |
| PriceTable.FindClose | src/backtest.py:188-192 | a close is found exactly when the table has a row for that ticker and date, and the row found is in the table |
| PriceTable.FindCloseIsFirst | src/backtest.py:188-192 | `.iloc[0]`: the close found is that of the first row matching the ticker and date |
| PriceTable.EarliestRow | src/backtest.py:170-176 | the first row after sorting by date is a row with no earlier date |
| PriceTable.LatestRow | src/backtest.py:170-177 | the last row after sorting by date is a row with no later date |
| PortfolioWorkflow.WeightFor | src/workflow/portfolio_workflow.py:42-55 | `WEIGHT_MAP.get(rating, 0)` lies in [0, 1] and is positive exactly for the strings BUY and HOLD; an unhashable rating raises `TypeError` |
| PortfolioWorkflow.TickerWeight | src/workflow/portfolio_workflow.py:53-55 | a listed ticker without an analysis raises `KeyError` naming it, and a weight needs an analysis holding `consensus_rating` |
| PortfolioWorkflow.Upsert | src/workflow/portfolio_workflow.py:58 | dict assignment: an existing key keeps its place with the new weight, and a new key is appended |
| PortfolioWorkflow.Normalise | src/workflow/portfolio_workflow.py:63-66 | every ticker keeps its place and its weight is divided by the total |
| PortfolioWorkflow.BuildPortfolio | src/workflow/portfolio_workflow.py:38-73 | the loop and normalisation compute the specification of `build_portfolio` |
| PortfolioWorkflow.RawFailureSticks | src/workflow/portfolio_workflow.py:52-59 | once a ticker raises, the loop fails with that same error |
| PortfolioWorkflow.RawEntriesFacts | src/workflow/portfolio_workflow.py:52-59 | each raw entry is a listed ticker at its own positive weight no larger than the total; the total is 0 exactly when nothing was kept |
| PortfolioWorkflow.RawKeysFacts | src/workflow/portfolio_workflow.py:52-59 | a ticker has a raw weight exactly when it is listed and its rating carries weight |
| PortfolioWorkflow.RawTallyFacts | src/workflow/portfolio_workflow.py:52-59 | both of the above at once: what the raw tally holds after the loop |
| PortfolioWorkflow.DistinctTallyAppends | src/workflow/portfolio_workflow.py:52-59 | with no ticker listed twice, the kept tickers appear in listing order and their raw weights add up to the total |
| PortfolioWorkflow.WeightsFollowRatings | src/workflow/portfolio_workflow.py:42-70 | the composition is the weight keys; a ticker is held exactly when it is listed and rated BUY or HOLD; each weight is its raw weight over the total |
| PortfolioWorkflow.WeightsArePositiveFractions | src/workflow/portfolio_workflow.py:62-66 | every held weight lies in (0, 1] |
| PortfolioWorkflow.WeightsSumToOne | src/workflow/portfolio_workflow.py:61-71 | with distinct tickers, a non-empty portfolio's weights sum to 1 and its composition is the kept tickers in listing order |
| PortfolioWorkflow.BuyWeighsTwiceHold | src/workflow/portfolio_workflow.py:42-46 | in one portfolio a BUY ticker's weight is exactly twice a HOLD ticker's |
| PortfolioWorkflow.CashOnlyWithoutConviction | src/workflow/portfolio_workflow.py:62-73 | weights and composition are both empty exactly when no listed ticker is rated BUY or HOLD |
| Coordinator.Consensus | src/agents/coordinator.py:24-29 | always a rating; BUY exactly at or above the buy threshold; SELL exactly below it and at or below the sell threshold |
| Coordinator.Summary | src/agents/coordinator.py:34-39 | the summary's keys, in the source's order |
| Coordinator.Coordinate | src/agents/coordinator.py:3-44 | the successive `+=` on the buy weight and the if/elif give the consensus of the summed BUY weights, and the summary record |
| Coordinator.SummaryCopiesRatings | src/agents/coordinator.py:34-37 | the summary holds the ticker, the consensus and each agent's rating unchanged |
| Coordinator.SummaryCopiesScores | src/agents/coordinator.py:38 | the summary holds each agent's decision score unchanged |
| Coordinator.BuyWeightRange | src/agents/coordinator.py:17-20 | with no BUY vote the buy weight is 0; with non-negative weights it lies between 0 and their sum |
| Coordinator.ConsensusMonotone | src/agents/coordinator.py:24-29 | a larger buy weight never gives a lower consensus |
| Coordinator.ExtraBuyVoteNeverLowers | src/agents/coordinator.py:17-29 | turning the sentiment vote into BUY never lowers the consensus when its weight is non-negative |
| Ratings.ThresholdRating | src/agents/fundamental_agent.py:26-31 | always a rating; BUY exactly above the buy threshold; SELL exactly when not above it and below the sell threshold |
| Ratings.ThresholdRatingMonotone | src/agents/sentiment_agent.py:26-31 | a higher score never gives a lower rating |
| FundamentalAgent.CountedScores | src/agents/fundamental_agent.py:16-20 | on success, one score per metric that is a dict holding `score`, so the count is the number of such metrics |
| FundamentalAgent.CountedScoresAreTheScores | src/agents/fundamental_agent.py:16-20 | on success, the counted values are exactly the `score` values of those metrics, in file order, each a number |
| FundamentalAgent.CountedFailsIffBadScore | src/agents/fundamental_agent.py:17-19 | the tally raises exactly when some counted metric's `score` is not a number |
| FundamentalAgent.CountedFailsAtFirstBadScore | src/agents/fundamental_agent.py:16-19 | the error raised is the one for the first metric whose `score` is not a number |
| FundamentalAgent.RunFundamentalAgent | src/agents/fundamental_agent.py:4-47 | the accumulating loop computes the specification: the mean of the counted scores, or 3 without any, rated against the thresholds, with `factors_analyzed` the count |
| FundamentalAgent.RatingFollowsThresholds | src/agents/fundamental_agent.py:23-31 | the recommendation is the threshold rule applied to the decision score, and with nothing counted the score is the neutral 3 |
| FundamentalAgent.CountedFailureSticks | src/agents/fundamental_agent.py:17-21 | once a score fails, the whole tally fails with that error |
| FundamentalAgent.CountedScoresWithin | src/agents/fundamental_agent.py:17-21 | counted scores stay within any bounds every metric's score respects |
| FundamentalAgent.DecisionScoreOnScale | src/agents/fundamental_agent.py:23 | factsheets scored on the 1-5 scale give a decision score on that scale |
| SentimentAgent.ArticleScores | src/agents/sentiment_agent.py:16-20 | one polarity score per article, in article order, of “title. snippet” |
| SentimentAgent.RunSentimentAgent | src/agents/sentiment_agent.py:5-49 | the appending loop computes the specification: the loader's as-of articles scored in order, rated by their mean |
| SentimentAgent.AnalysisFacts | src/agents/sentiment_agent.py:22-43 | `article_count` is the number of articles, `individual_scores` the first min(5, n) scores, the mean is 0 without articles, and the rating is the threshold rule |
| SentimentAgent.DecisionScoreInRange | src/agents/sentiment_agent.py:22 | compound scores in [−1, 1] give a decision score in [−1, 1] |
| ValuationAgent.Closes | src/agents/valuation_agent.py:21-22 | the close column, in table order |
| ValuationAgent.PctChange | src/agents/valuation_agent.py:29 | `pct_change().dropna()` has one entry fewer than the closes, and none for no closes |
| ValuationAgent.ValuationRating | src/agents/valuation_agent.py:38-45 | always a rating; BUY exactly when the return beats the buy threshold and the volatility is under the buy threshold; otherwise SELL exactly when the return is under the sell threshold or the volatility over it |
| ValuationAgent.RatingMonotoneInReturn | src/agents/valuation_agent.py:38-45 | a higher return never lowers the rating |
| ValuationAgent.RatingMonotoneInVolatility | src/agents/valuation_agent.py:38-45 | a lower volatility never lowers the rating |
| ValuationAgent.ValuationAgentSpec | src/agents/valuation_agent.py:4-69 | a loader error propagates, an empty table raises `IndexError` at `iloc[0]`, and a result reports the positive row count as `lookback_days` |
| ValuationAgent.AnalysisFacts | src/agents/valuation_agent.py:20-61 | the return is the annualised last-over-first close minus 1; the volatility is present exactly with at least two daily returns; `lookback_days` is the row count; the rating follows the two |
| ValuationAgent.UsesOnlyThePastWindow | src/agents/valuation_agent.py:12-17 | the request runs from `lookback_days` before the as-of date to the as-of date itself, and the result depends only on the provider's answer to it |
| ValuationAgent.CompoundedDailyReturns | src/agents/valuation_agent.py:23-29 | compounding the daily returns up to day j gives close j over the first close |
| ValuationAgent.CumulativeIsCompoundedDaily | src/agents/valuation_agent.py:20-29 | the cumulative return the agent annualises is the compounded daily return over the window |
| AgentState.MergeTickerAnalyses | src/agents/state.py:6-10 | the merged keys are the union; a key of the right takes the right's value, any other key keeps the left's |
| AgentState.MergeIdentity | src/agents/state.py:6-10 | merging with an empty map on either side changes nothing |
| AgentState.MergeAssociative | src/agents/state.py:6-10 | branch results can be merged in any grouping |
| AgentState.MergeCommutesOnDisjointKeys | src/agents/state.py:6-10 | branches reporting different tickers can be merged in either order |
| NewsLoader.MissingFields | src/data_collectors/news_loader.py:65 | the listed fields are required fields the article lacks, and none are listed exactly when it is complete |
| NewsLoader.MissingFieldsListed | src/data_collectors/news_loader.py:63-67 | the comprehension is empty exactly when the article has title, snippet, date and source |
| NewsLoader.FirstIncomplete | src/data_collectors/news_loader.py:64-67 | the index reported is the first incomplete article, and none is reported when all are complete |
| NewsLoader.LoadNewsData | src/data_collectors/news_loader.py:36-74 | an unsupported ticker raises `ValueError` before the file; a missing file raises `FileNotFoundError`; an incomplete article is re-raised as a plain `Exception`; success returns the file's articles exactly when all are complete |
| NewsLoader.GetNewsForAsOfDate | src/data_collectors/news_loader.py:76-96 | the loop keeps the articles dated on or before the as-of date, in order, and load errors propagate |
| NewsLoader.KeepOnOrBefore | src/data_collectors/news_loader.py:91-96 | the loop keeps exactly the articles dated on or before the as-of date, in their order |
| NewsLoader.GetNewsForDateRange | src/data_collectors/news_loader.py:98-117 | the loop keeps the articles dated from start to end inclusive, in order, and load errors propagate |
| NewsLoader.KeepWithin | src/data_collectors/news_loader.py:112-117 | the loop keeps exactly the articles dated from start to end inclusive, in their order |
| NewsLoader.AsOfFilterIsExact | src/data_collectors/news_loader.py:91-94 | no leakage and nothing lost: the result is a subsequence of the articles dated on or before the as-of date, holding each such article as many times as the file does and no other article |
| NewsLoader.RangeFilterIsExact | src/data_collectors/news_loader.py:112-115 | the result is a subsequence of the articles dated within the range, holding each such article as many times as the file does and no other article |
| NewsLoader.AsOfNewsComplete | src/data_collectors/news_loader.py:76-96 | every article `get_news_for_as_of_date` returns has title, snippet, date and source |
| NewsLoader.AsOfFilterMonotone | src/data_collectors/news_loader.py:93 | a later as-of date sees every article an earlier one saw |
| NewsLoader.CountIssue | src/data_collectors/news_loader.py:182-187 | at most one count issue, and none exactly for 5 to 15 articles |
| NewsLoader.DateIssues | src/data_collectors/news_loader.py:190-194 | no date issue exactly when every article's date parses |
| NewsLoader.ValidateTicker | src/data_collectors/news_loader.py:172-197 | the per-ticker checks: missing file, load error, article count, date format |
| NewsLoader.CheckDates | src/data_collectors/news_loader.py:190-194 | one issue per article whose date does not parse, in article order, naming the article index and the date |
| NewsLoader.ValidateNewsData | src/data_collectors/news_loader.py:163-199 | every supported ticker's issues in order, and valid exactly when there are none |
| NewsLoader.TickerIssuesEmptyIff | src/data_collectors/news_loader.py:175-194 | a ticker raises no issue exactly when its file loads, holds 5 to 15 articles, and every date parses |
| NewsLoader.NewsIssuesEmptyIff | src/data_collectors/news_loader.py:163-199 | validation passes exactly when every ticker's file is well stocked in that sense |
| NewsLoader.LoadAllNewsForAsOfDate | src/data_collectors/news_loader.py:202-222 | one entry per supported ticker: its as-of news, or [] when loading failed |
| FundamentalLoader.LoadFundamentalData | src/data_collectors/fundamental_loader.py:38-79 | an unsupported ticker raises `ValueError` before the file; then `FileNotFoundError`, `ValueError` for bad JSON, `RuntimeError` otherwise; success returns the parsed data |
| FundamentalLoader.MetricFieldIff | src/data_collectors/fundamental_loader.py:117-118 | a field is found exactly when the data is an object whose metric is an object holding it |
| FundamentalLoader.LoadedMetricField | src/data_collectors/fundamental_loader.py:104-140 | the shared lookup of `get_metric_value` (field `value`) and `get_metric_score` (field `score`) reports a field only for a supported ticker whose file parses |
| FundamentalLoader.LoadedMetricFieldIff | src/data_collectors/fundamental_loader.py:115-140 | the metric's `value` (`score`) is returned exactly when both the metric and the field exist in a supported ticker's parsed file, otherwise None |
| FundamentalLoader.SummaryEntries | src/data_collectors/fundamental_loader.py:171-173 | the summary never has more entries than there are metrics |
| FundamentalLoader.GetFundamentalsSummary | src/data_collectors/fundamental_loader.py:158-176 | the loop computes the summary of the specification, `{}` on any error |
| FundamentalLoader.SummaryFailureSticks | src/data_collectors/fundamental_loader.py:171-176 | once a metric cannot be tested, the summary fails |
| FundamentalLoader.SummaryIsSound | src/data_collectors/fundamental_loader.py:170-174 | whenever the summary is built, each entry is some metric's name with that metric's `value` |
| FundamentalLoader.SummaryIsComplete | src/data_collectors/fundamental_loader.py:170-174 | whenever the summary is built, every metric that is an object holding `value` appears in it with that value |
| FundamentalLoader.SummaryFailsIffSomeMetricRaises | src/data_collectors/fundamental_loader.py:171-176 | the summary falls back to `{}` exactly when some metric raises: `in` on a non-container, or indexing a list or string that contains `value` |
| FundamentalLoader.ObjectMetricsAlwaysSummarise | src/data_collectors/fundamental_loader.py:171-174 | a factsheet whose metrics are all objects always gets its summary |
| FundamentalLoader.FileIssues | src/data_collectors/fundamental_loader.py:194-207 | at most one issue per file, and none exactly when the file parses to non-empty data |
| FundamentalLoader.ValidateFundamentalData | src/data_collectors/fundamental_loader.py:178-210 | the issues in order, and valid exactly when there are none |
| FundamentalLoader.ValidIffAllParsed | src/data_collectors/fundamental_loader.py:185-210 | `validate_fundamental_data` passes exactly when the directory exists and every supported ticker's file parses to non-empty data |
| FundamentalLoader.MetricScores | src/data_collectors/fundamental_loader.py:227-230 | never more scores than metrics |
| FundamentalLoader.MetricScoresAreTheScores | src/data_collectors/fundamental_loader.py:227-230 | when gathering succeeds, the scores are, in file order, the numeric `score` fields; a non-numeric score is skipped |
| FundamentalLoader.MetricScoresFailIffSomeMetricRaises | src/data_collectors/fundamental_loader.py:228-229 | gathering fails exactly when some metric's `'score' in metric_data` or `metric_data['score']` raises |
| FundamentalLoader.FundamentalScore | src/data_collectors/fundamental_loader.py:212-241 | the fundamental score always lies in [1, 5] |
| FundamentalLoader.GetFundamentalScore | src/data_collectors/fundamental_loader.py:212-241 | the loop computes the specification: 3.0 for empty data, no numeric score or any error, else the clamped mean |
| FundamentalLoader.ScoreFailureSticks | src/data_collectors/fundamental_loader.py:228-230 | once a metric cannot be tested, the score list fails |
| FundamentalLoader.MetricScoresWithin | src/data_collectors/fundamental_loader.py:227-230 | gathered scores stay within any bounds every metric's score respects |
| FundamentalLoader.ScoreIsPlainMean | src/data_collectors/fundamental_loader.py:236-238 | when the scores lie on the 1-5 scale the clamp changes nothing: the score is their mean |
| FundamentalLoader.ObjectMetricsAlwaysScore | src/data_collectors/fundamental_loader.py:228-230 | a factsheet whose every metric is an object never fails the score list |
| PriceLoader.DateRangeAroundAsOf | src/data_collectors/price_loader.py:261-263 | the window starts `lookback` days before and ends `forward` days after the as-of date |
| PriceLoader.LoadCachedData | src/data_collectors/price_loader.py:202-244 | a missing file raises `FileNotFoundError` unwrapped; success needs every required column and a non-empty date-filtered set, and returns the file's rows within the window; other failures are wrapped in a plain `Exception` |
| PriceLoader.MissingColumnsListed | src/data_collectors/price_loader.py:215-218 | no column is missing exactly when every required column is present |
| PriceLoader.CachedRowsInWindow | src/data_collectors/price_loader.py:231-238 | the cached rows returned are non-empty, dated within the window, in file order, and include every file row in it |
| PriceLoader.InsertRow | src/data_collectors/price_loader.py:118 | inserting into a (ticker, date)-sorted table keeps it sorted and adds exactly that row |
| PriceLoader.SortByTickerDate | src/data_collectors/price_loader.py:118 | `sort_values(['ticker', 'date'])` yields a sorted permutation |
| PriceLoader.TickerPart | src/data_collectors/price_loader.py:93-111 | each ticker contributes at most one part |
| PriceLoader.GetPriceData | src/data_collectors/price_loader.py:65-121 | the fallback loop computes the specification of `get_price_data` |
| PriceLoader.UnsupportedRejectedBeforeFetch | src/data_collectors/price_loader.py:84-86 | any unsupported ticker, even in a mixed list, fails the request whatever the API and caches would answer |
| PriceLoader.FailsIffNothingLoads | src/data_collectors/price_loader.py:84-114 | the request fails exactly when a ticker is unsupported or every ticker fails both API and cache |
| PriceLoader.PriceDataSortedPermutation | src/data_collectors/price_loader.py:117-118 | the combined table is (ticker, date)-sorted and holds exactly the loaded rows |
| PriceLoader.SingleTickerFallback | src/data_collectors/price_loader.py:93-114 | the API's rows win; without them the cache's rows; without either, “Failed to load price data for any ticker” |
| PriceLoader.CacheGap | src/data_collectors/price_loader.py:298-311 | each ticker's cache records at most one coverage problem |
| PriceLoader.CacheGapEmptyIffCovers | src/data_collectors/price_loader.py:302-308 | a cache has no problem exactly when it is readable and covers the required window |
| PriceLoader.ValidateForAsOfDate | src/data_collectors/price_loader.py:271-322 | the coverage loop computes the specification of `validate_for_as_of_date` |
| PriceLoader.SupportedIffCachesCover | src/data_collectors/price_loader.py:281-322 | supported exactly when an API key is set or every supported ticker's cache covers as-of − 90 to as-of + 90 |
| OutputUtils.Rounded | src/utils/output_utils.py:105-124 | `round` succeeds exactly on numbers, whose value it keeps |
| OutputUtils.PickRowFor | src/utils/output_utils.py:94-125 | a row carries its ticker and the portfolio weight, with 0.0 for an unweighted ticker; a non-dict analysis raises `TypeError` |
| OutputUtils.ValuationColumnsAt | src/utils/output_utils.py:103-109 | the valuation columns are read exactly when `recommendation` and the two `decision_score` entries exist and the latter are numbers; each column is the value at its path |
| OutputUtils.ScoredColumnsAt | src/utils/output_utils.py:111-118 | the sentiment or fundamental columns are read exactly when `recommendation`, a numeric `decision_score` and `metadata[count]` exist; each column is the value at its path |
| OutputUtils.PickRowColumns | src/utils/output_utils.py:94-125 | a row is built exactly when the analysis holds the three agent analyses, every nested field the row reads and `consensus_rating`, with the four rounded fields numeric; each of the ten analysis columns equals the field it is read from |
| OutputUtils.CompleteRecordIff | src/utils/output_utils.py:90-125 | a listed ticker yields a row exactly when it has an analysis holding every field the row reads |
| OutputUtils.TickerPick | src/utils/output_utils.py:87-131 | at most one row per ticker, present exactly when the ticker has a complete record, and then the row built from it |
| OutputUtils.PicksSpec | src/utils/output_utils.py:80-134 | missing or empty analyses raise `ValueError`, and a result is never empty |
| OutputUtils.SavePicksCsv | src/utils/output_utils.py:45-134 | the row loop computes the specification of `save_picks_csv` |
| OutputUtils.TryPickRow | src/utils/output_utils.py:88-131 | one pass of the row loop: a ticker without an analysis or with a missing key adds no row, any other exception escapes, and a ticker whose record is complete adds exactly its row |
| OutputUtils.PickRowsFailureSticks | src/utils/output_utils.py:87-131 | once a non-`KeyError` escapes for some ticker, the whole call fails with it |
| OutputUtils.PickRowsSelect | src/utils/output_utils.py:87-131 | the rows are those of the listed tickers with a complete record, in listing order, each built from its record |
| OutputUtils.PicksSucceedWhenSomeRecordIsComplete | src/utils/output_utils.py:80-134 | with analyses present, the call succeeds exactly when some listed ticker has a complete record; otherwise “No valid ticker data” |
| OutputUtils.FirstMissing | src/utils/output_utils.py:187-190 | the key reported is the first required key missing, and none is reported when all are present |
| OutputUtils.TallyCountsRatings | src/utils/output_utils.py:193-198 | each count is the number of analyses with that consensus rating, so the counts sum to at most the number of analyses |
| OutputUtils.TallyFailureSticks | src/utils/output_utils.py:195-198 | once an analysis fails, the tally fails with the same error |
| OutputUtils.CompositionRoundTrip | src/utils/output_utils.py:201-203 | the composition text read back at “, ” gives the held tickers in order, whenever no ticker holds a comma and the list is not the single ticker “Empty” |
| OutputUtils.Percent | src/utils/output_utils.py:212-218 | `value * 100` succeeds exactly on numbers |
| OutputUtils.SavePerformanceCsv | src/utils/output_utils.py:147-230 | the key check and tally loops compute the specification of `save_performance_csv` |
| OutputUtils.CheckRequiredKeys | src/utils/output_utils.py:187-190 | the first of `portfolio_return`, `benchmark_return`, `as_of_date` absent from the result, if any |
| OutputUtils.TallyRatings | src/utils/output_utils.py:193-198 | the loop counts BUY, HOLD and SELL consensus ratings in order, ignores any other value, and stops at the first analysis whose rating lookup raises |
| OutputUtils.FirstMissingAt | src/utils/output_utils.py:187-190 | the first missing key is the one reported |
| OutputUtils.MissingKeyRaises | src/utils/output_utils.py:187-190 | any missing required key raises `KeyError`, and a missing `portfolio_return` is the one named |
| OutputUtils.PerformanceRowCounts | src/utils/output_utils.py:192-230 | the row's stock count and composition come from the weight keys, and its three counts are the consensus-rating counts |
| OutputUtils.FormatAgentMetadata | src/utils/output_utils.py:243-272 | the loop computes the specification of `format_agent_metadata` |
| OutputUtils.MetadataKeysKept | src/utils/output_utils.py:257-272 | success exactly for dict metadata, `{}` without metadata, every key kept in order with its formatted value |
| OutputUtils.FormatValueOfStrings | src/utils/output_utils.py:261-270 | a string is kept; a list of strings becomes the strings joined by “, ”; a dict of strings becomes “k=v” joined by “, ” |
| OutputUtils.CreateOutputSummary | src/utils/output_utils.py:275-322 | the text is the summary lines joined by newlines, and fails exactly when a line cannot be computed |
| OutputUtils.HoldingLines | src/utils/output_utils.py:302-309 | the holding count and one line per ticker in weight order, or “Portfolio: Empty (Cash)” |
| OutputUtils.SummaryFramedByRules | src/utils/output_utils.py:291-322 | the text opens with the rule, the title and the rule again, and ends with the rule |
| OutputUtils.SummaryListsHoldings | src/utils/output_utils.py:302-308 | “Portfolio: Empty (Cash)” for empty weights, otherwise the holding count and one line per ticker in weight order |
| RunPipeline.AfterMomentIsAfterDay | run_pipeline.py:88 | a parsed midnight lies after now exactly when its day does |
| RunPipeline.ValidateDate | run_pipeline.py:72-97 | an accepted date is returned unchanged, and every rejection is a `ValueError` |
| RunPipeline.AcceptedIffInWindow | run_pipeline.py:74-91 | accepted exactly when the string parses to a day from 2024-08-01 to 2024-08-31 inclusive and not after today |
| RunPipeline.RejectionsInOrder | run_pipeline.py:82-89 | too early, then too late, then in the future, each with its message |
| RunPipeline.UnparseableRejected | run_pipeline.py:93-97 | a string that does not match the format gets the “Invalid date format” message; other parse errors pass through unchanged |
| RunPipeline.CheckForwardDays | run_pipeline.py:430-431 | accepted exactly when positive, otherwise the `ValueError` naming the value |
| RunPipeline.ValidateInputs | run_pipeline.py:426-431 | the date is checked before the forward window, and the inputs pass exactly when both checks do |

## Left out

- Network and file I/O are not modelled. This covers the price API request and its parsing, `time.sleep`, dotenv, CSV and JSON reads and writes, and directory creation. Each external source is a parameter that yields data or a failure.
- Floating-point numerics are not modelled. This covers pandas' sample standard deviation, `np.sqrt(252)`, the fractional power `** (252 / n)`, `round()` and the `:.1f`/`:+.2f`/`:.3f` formatting. They are parameters, or are left unrounded, and reals are exact.
- A NaN standard deviation, from fewer than two daily returns, is modelled as a volatility of 0 in the backtest and as `None` in the valuation agent. In both places every comparison with NaN is false, which is how the source treats it.
- VADER is not modelled: its compound score is the parameter `polarity`. YAML configuration is not modelled: thresholds and weights are datatype parameters.
- LangGraph graph construction, parallel execution and the ticker subgraph are not modelled. Only the state reducer is, and it is a function on map values. Because the source updates a fresh copy, nothing is aliased.
- Plotting, console printing, logging, argparse and the rest of `main` are not modelled. Neither is the configuration-file existence check at run_pipeline.py:433-434, which is file I/O.
- `strptime` is not modelled: it is the parameter `parse`, which returns a day, a format mismatch or another error. `datetime.now()` is a parameter too.
- `get_all_news_summary`, `get_available_metrics` and `load_all_fundamentals` are not modelled: they only aggregate loader output for display.
- `create_demo_cache` and `calibrate_thresholds.py` are development scripts, so they are not modelled.
- `repr` escaping of quotes inside strings is approximated: error messages quote tickers and field names without escaping.
- Several `TypeError`s are reduced to their kind, and their messages are simplified. Multiplying a string by 100 in the source gives a string and fails only when formatted; the model reports these failures as a `TypeError`.
- Dict keys in JSON values are assumed unique, as parsed JSON objects are.
- `PortfolioWorkflow.WeightsSumToOne` requires distinct tickers. If a ticker is listed twice, `build_portfolio` adds its weight to the total twice but stores it once, so the weights then sum to less than 1.
- Stability of `sort_values` on rows with equal (ticker, date) keys is not modelled. The sorted table is specified as a sorted permutation, not as a stable sort.
- `PriceTable.EarliestRow` and `PriceTable.LatestRow` choose among rows with equal dates by a fixed rule: the first such row for the earliest and the last for the latest. The backtest's per-ticker `sort_values('date')` (backtest.py:170) uses pandas' default quicksort, which is not stable, so with duplicate dates the source may pick another of the tied rows. Which tied row is used is not modelled.
- `NewsLoader.LoadNewsData`, `NewsLoader.KeepOnOrBefore` and `NewsLoader.KeepWithin` assume a news file is a list of objects whose fields are strings. The source's `TypeError` from comparing a non-string `date` (news_loader.py:93, :114) is not modelled. Neither are the `in` tests on a non-dict article or a non-list top level.
- `Backtest.RunBacktest` takes the decision date already parsed. The `ValueError` that `strptime` raises for a malformed `as_of_date` at backtest.py:91 sits outside the `try` and propagates, and it is not modelled.
- `Coordinator.Coordinate` takes each agent's analysis as a record with `recommendation` and `decision_score`. The `KeyError` the source raises at coordinator.py:10-14 when one of these keys is missing is not modelled.
- `OutputUtils.HeaderLines` reads `as_of_date` as present or absent. A key present with the value `None` prints "Analysis Date: None" in the source, but the model cannot express it.
- `OutputUtils.PickRowFor` and the output rows keep values unrounded, and CSV serialisation is not modelled.

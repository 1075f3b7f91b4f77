/** The output layer (`src/utils/output_utils.py`): which rows reach
    `picks.csv`, the single row of `performance.csv` (the required keys, the
    consensus tally, the composition string), the metadata formatter and the
    text summary. Writing the files is left out; each operation returns what
    it would write.

    The top level of the portfolio state follows its `TypedDict` (a `None`
    field is an absent key); the nested analyses and the backtest result are
    untyped `Dict[str, Any]` values. `round` is left out: numbers are kept
    unrounded, and only its `TypeError` on a non-number is modelled. */
module OutputUtils {
  import opened Wrappers
  import opened Strings
  import opened PyValue
  import opened Ratings
  import opened Sequences

  /** A `Dict[str, Any]`, in insertion order. */
  type Record = seq<(string, Value)>

  /** The keys of the portfolio state the output layer reads. */
  datatype PortfolioResult = PortfolioResult(
    asOfDate: Option<string>, tickers: Option<seq<string>>,
    tickerAnalyses: Option<Record>, portfolioWeights: Option<seq<(string, real)>>)

  /** `d.get(key, default)`. */
  function Get(d: Record, key: string, default: Value): (v: Value)
    ensures Lookup(d, key).Some? ==> v == Lookup(d, key).value
    ensures Lookup(d, key).None? ==> v == default
  {
    var found := Lookup(d, key);
    if found.Some? then found.value else default
  }

  /** The values of a dict, in order. */
  function Values(d: Record): (vs: seq<Value>)
    ensures |vs| == |d|
    ensures forall i :: 0 <= i < |d| ==> vs[i] == d[i].1
  {
    seq(|d|, i requires 0 <= i < |d| => d[i].1)
  }

  /** `round(v, n)` without the rounding: a non-number raises `TypeError`. */
  function Rounded(v: Value): (r: Result<real>)
    ensures r.Ok? <==> IsNumber(v)
    ensures r.Ok? ==> r.value == ToReal(v)
  {
    if IsNumber(v) then Ok(ToReal(v))
    else Err(Error(TypeError, "type " + TypeName(v) + " doesn't define __round__ method"))
  }

  /** `v[outer][inner]`. */
  function Path(v: Value, outer: string, inner: string): Result<Value>
  {
    var o :- GetItem(v, outer);
    GetItem(o, inner)
  }

  // ---------------------------------------------------------------- picks.csv

  /** One row of `picks.csv`. */
  datatype PickRow = PickRow(
    ticker: string,
    valuationRating: Value, valuationReturnPct: real, valuationVolatilityPct: real,
    sentimentRating: Value, sentimentScore: real, sentimentArticles: Value,
    fundamentalRating: Value, fundamentalScore: real, fundamentalFactors: Value,
    consensusRating: Value, portfolioWeight: real)

  /** The valuation columns, read in the order the row is built: the
      rating, then the rounded return and volatility. */
  function ValuationColumns(valuation: Value): Result<(Value, real, real)>
  {
    var rating :- GetItem(valuation, "recommendation");
    var ret :- Path(valuation, "decision_score", "annualized_return_pct");
    var retPct :- Rounded(ret);
    var volatility :- Path(valuation, "decision_score", "annualized_volatility_pct");
    var volatilityPct :- Rounded(volatility);
    Ok((rating, retPct, volatilityPct))
  }

  /** The columns of a sentiment or fundamental analysis: the rating, the
      rounded decision score, then `metadata[count]`. */
  function ScoredColumns(agent: Value, count: string): Result<(Value, real, Value)>
  {
    var rating :- GetItem(agent, "recommendation");
    var score :- GetItem(agent, "decision_score");
    var scoreValue :- Rounded(score);
    var counted :- Path(agent, "metadata", count);
    Ok((rating, scoreValue, counted))
  }

  /** The body of the `try` block: every lookup in the order the row is
      built; the first exception wins. */
  function PickRowFor(ticker: string, analysis: Value, weights: seq<(string, real)>): (r: Result<PickRow>)
    ensures r.Ok? ==> r.value.ticker == ticker
    ensures r.Ok? && Lookup(weights, ticker).Some? ==> r.value.portfolioWeight == Lookup(weights, ticker).value
    ensures r.Ok? && Lookup(weights, ticker).None? ==> r.value.portfolioWeight == 0.0
    ensures !analysis.VDict? ==> r.Err? && r.error.kind == TypeError
  {
    var valuation :- GetItem(analysis, "valuation_analysis");
    var sentiment :- GetItem(analysis, "sentiment_analysis");
    var fundamental :- GetItem(analysis, "fundamental_analysis");
    var v :- ValuationColumns(valuation);
    var s :- ScoredColumns(sentiment, "article_count");
    var f :- ScoredColumns(fundamental, "factors_analyzed");
    var consensus :- GetItem(analysis, "consensus_rating");
    var w := Lookup(weights, ticker);
    Ok(PickRow(ticker, v.0, v.1, v.2, s.0, s.1, s.2, f.0, f.1, f.2, consensus,
               if w.Some? then w.value else 0.0))
  }

  /** The value reached from `v` by the dict keys of `path`, when every step
      is a dict holding the next key. */
  function At(v: Value, path: seq<string>): Option<Value>
    decreases |path|
  {
    if |path| == 0 then Some(v)
    else if v.VDict? && Lookup(v.entries, path[0]).Some? then At(Lookup(v.entries, path[0]).value, path[1..])
    else None
  }

  /** The path leads to a number. */
  predicate NumberAt(v: Value, path: seq<string>)
  {
    At(v, path).Some? && IsNumber(At(v, path).value)
  }

  /** A valuation analysis holds a rating and a numeric return and
      volatility under `decision_score`. */
  predicate ValuationData(valuation: Value)
  {
    && At(valuation, ["recommendation"]).Some?
    && NumberAt(valuation, ["decision_score", "annualized_return_pct"])
    && NumberAt(valuation, ["decision_score", "annualized_volatility_pct"])
  }

  /** A sentiment or fundamental analysis holds a rating, a numeric decision
      score and `metadata[count]`. */
  predicate ScoredData(agent: Value, count: string)
  {
    && At(agent, ["recommendation"]).Some?
    && NumberAt(agent, ["decision_score"])
    && At(agent, ["metadata", count]).Some?
  }

  /** Every nested field the row reads exists, and the four rounded ones are
      numbers. */
  predicate HasRowData(a: Value)
  {
    && At(a, ["valuation_analysis"]).Some? && ValuationData(At(a, ["valuation_analysis"]).value)
    && At(a, ["sentiment_analysis"]).Some? && ScoredData(At(a, ["sentiment_analysis"]).value, "article_count")
    && At(a, ["fundamental_analysis"]).Some? && ScoredData(At(a, ["fundamental_analysis"]).value, "factors_analyzed")
    && At(a, ["consensus_rating"]).Some?
  }

  /** One lookup step of `At`. */
  lemma AtCons(v: Value, key: string, rest: seq<string>)
    ensures At(v, [key] + rest) ==
              if v.VDict? && Lookup(v.entries, key).Some? then At(Lookup(v.entries, key).value, rest) else None
  {
    assert ([key] + rest)[1..] == rest;
  }

  /** `v[key]` succeeds exactly when the one-key path exists, with its value. */
  lemma GetItemIsAt(v: Value, key: string)
    ensures GetItem(v, key).Ok? <==> At(v, [key]).Some?
    ensures GetItem(v, key).Ok? ==> GetItem(v, key).value == At(v, [key]).value
  {
    AtCons(v, key, []);
  }

  /** `v[outer][inner]` succeeds exactly when the two-key path exists, with
      its value. */
  lemma PathIsAt(v: Value, outer: string, inner: string)
    ensures Path(v, outer, inner).Ok? <==> At(v, [outer, inner]).Some?
    ensures Path(v, outer, inner).Ok? ==> Path(v, outer, inner).value == At(v, [outer, inner]).value
  {
    AtCons(v, outer, [inner]);
    assert [outer] + [inner] == [outer, inner];
    if GetItem(v, outer).Ok? {
      GetItemIsAt(GetItem(v, outer).value, inner);
    }
  }

  /** The valuation columns are built exactly when their fields exist and
      the rounded ones are numbers; each column is its field. */
  lemma ValuationColumnsAt(valuation: Value)
    ensures ValuationColumns(valuation).Ok? <==> ValuationData(valuation)
    ensures ValuationColumns(valuation).Ok? ==>
              ValuationColumns(valuation).value ==
                (At(valuation, ["recommendation"]).value,
                 ToReal(At(valuation, ["decision_score", "annualized_return_pct"]).value),
                 ToReal(At(valuation, ["decision_score", "annualized_volatility_pct"]).value))
  {
    GetItemIsAt(valuation, "recommendation");
    PathIsAt(valuation, "decision_score", "annualized_return_pct");
    PathIsAt(valuation, "decision_score", "annualized_volatility_pct");
  }

  /** The same for a sentiment or fundamental analysis. */
  lemma ScoredColumnsAt(agent: Value, count: string)
    ensures ScoredColumns(agent, count).Ok? <==> ScoredData(agent, count)
    ensures ScoredColumns(agent, count).Ok? ==>
              ScoredColumns(agent, count).value ==
                (At(agent, ["recommendation"]).value,
                 ToReal(At(agent, ["decision_score"]).value),
                 At(agent, ["metadata", count]).value)
  {
    GetItemIsAt(agent, "recommendation");
    GetItemIsAt(agent, "decision_score");
    PathIsAt(agent, "metadata", count);
  }

  /** The row is built exactly when the analysis holds every field it reads,
      and each column is the field it is read from. */
  lemma PickRowColumns(ticker: string, a: Value, weights: seq<(string, real)>)
    ensures PickRowFor(ticker, a, weights).Ok? <==> HasRowData(a)
    ensures PickRowFor(ticker, a, weights).Ok? ==>
              var row := PickRowFor(ticker, a, weights).value;
              var valuation := At(a, ["valuation_analysis"]).value;
              var sentiment := At(a, ["sentiment_analysis"]).value;
              var fundamental := At(a, ["fundamental_analysis"]).value;
              && row.valuationRating == At(valuation, ["recommendation"]).value
              && row.valuationReturnPct == ToReal(At(valuation, ["decision_score", "annualized_return_pct"]).value)
              && row.valuationVolatilityPct == ToReal(At(valuation, ["decision_score", "annualized_volatility_pct"]).value)
              && row.sentimentRating == At(sentiment, ["recommendation"]).value
              && row.sentimentScore == ToReal(At(sentiment, ["decision_score"]).value)
              && row.sentimentArticles == At(sentiment, ["metadata", "article_count"]).value
              && row.fundamentalRating == At(fundamental, ["recommendation"]).value
              && row.fundamentalScore == ToReal(At(fundamental, ["decision_score"]).value)
              && row.fundamentalFactors == At(fundamental, ["metadata", "factors_analyzed"]).value
              && row.consensusRating == At(a, ["consensus_rating"]).value
  {
    GetItemIsAt(a, "valuation_analysis");
    GetItemIsAt(a, "sentiment_analysis");
    GetItemIsAt(a, "fundamental_analysis");
    GetItemIsAt(a, "consensus_rating");
    if GetItem(a, "valuation_analysis").Ok? {
      ValuationColumnsAt(GetItem(a, "valuation_analysis").value);
    }
    if GetItem(a, "sentiment_analysis").Ok? {
      ScoredColumnsAt(GetItem(a, "sentiment_analysis").value, "article_count");
    }
    if GetItem(a, "fundamental_analysis").Ok? {
      ScoredColumnsAt(GetItem(a, "fundamental_analysis").value, "factors_analyzed");
    }
  }

  /** A listed ticker gets a row exactly when it has an analysis holding
      every field the row reads. */
  lemma CompleteRecordIff(analyses: Record, weights: seq<(string, real)>, ticker: string)
    ensures HasCompleteRecord(analyses, weights, ticker) <==>
              Lookup(analyses, ticker).Some? && HasRowData(Lookup(analyses, ticker).value)
  {
    if Lookup(analyses, ticker).Some? {
      PickRowColumns(ticker, Lookup(analyses, ticker).value, weights);
    }
  }

  /** The ticker has an analysis from which a whole row can be built. */
  predicate HasCompleteRecord(analyses: Record, weights: seq<(string, real)>, ticker: string)
  {
    var a := Lookup(analyses, ticker);
    a.Some? && PickRowFor(ticker, a.value, weights).Ok?
  }

  /** The rows one listed ticker contributes: none without an analysis or
      when a key is missing (`KeyError` is caught), its row otherwise; any
      other exception escapes. */
  function TickerPick(ticker: string, analyses: Record, weights: seq<(string, real)>): (r: Result<seq<PickRow>>)
    ensures r.Ok? ==> |r.value| <= 1
    ensures r.Ok? ==> (|r.value| == 1 <==> HasCompleteRecord(analyses, weights, ticker))
    ensures HasCompleteRecord(analyses, weights, ticker) ==>
              r == Ok([PickRowFor(ticker, Lookup(analyses, ticker).value, weights).value])
  {
    var a := Lookup(analyses, ticker);
    if a.None? then Ok([])
    else
      var row := PickRowFor(ticker, a.value, weights);
      if row.Ok? then Ok([row.value])
      else if row.error.kind == KeyError then Ok([])
      else Err(row.error)
  }

  /** The rows after the tickers of `tickers`, in order. */
  function PickRows(tickers: seq<string>, analyses: Record, weights: seq<(string, real)>): Result<seq<PickRow>>
  {
    if |tickers| == 0 then Ok([])
    else
      var prev :- PickRows(tickers[..|tickers| - 1], analyses, weights);
      var next :- TickerPick(tickers[|tickers| - 1], analyses, weights);
      Ok(prev + next)
  }

  const NO_ANALYSES: Error := Error(ValueError, "No ticker analyses found in portfolio result")
  const NO_ROWS: Error := Error(ValueError, "No valid ticker data found for CSV generation")

  /** What `save_picks_csv` writes: missing or empty analyses and an empty
      result both raise `ValueError`. */
  function PicksSpec(p: PortfolioResult): (r: Result<seq<PickRow>>)
    ensures p.tickerAnalyses.None? || |p.tickerAnalyses.value| == 0 ==> r == Err(NO_ANALYSES)
    ensures r.Ok? ==> |r.value| > 0
  {
    if p.tickerAnalyses.None? || |p.tickerAnalyses.value| == 0 then Err(NO_ANALYSES)
    else
      var tickers := if p.tickers.Some? then p.tickers.value else [];
      var weights := if p.portfolioWeights.Some? then p.portfolioWeights.value else [];
      var rows :- PickRows(tickers, p.tickerAnalyses.value, weights);
      if |rows| == 0 then Err(NO_ROWS) else Ok(rows)
  }

  /** `save_picks_csv`, up to the rows it hands to the CSV writer. */
  method SavePicksCsv(p: PortfolioResult) returns (r: Result<seq<PickRow>>)
    ensures r == PicksSpec(p)
  {
    if p.tickerAnalyses.None? || |p.tickerAnalyses.value| == 0 {
      return Err(NO_ANALYSES);
    }
    var analyses := p.tickerAnalyses.value;
    var tickers := if p.tickers.Some? then p.tickers.value else [];
    var weights := if p.portfolioWeights.Some? then p.portfolioWeights.value else [];
    var rows: seq<PickRow> := [];
    var i := 0;
    while i < |tickers|
      invariant 0 <= i <= |tickers|
      invariant PickRows(tickers[..i], analyses, weights) == Ok(rows)
    {
      PickRowsExtend(tickers, i, analyses, weights, rows);
      var pick := TryPickRow(tickers[i], analyses, weights);
      if pick.Err? {
        PickRowsFailureSticks(tickers, analyses, weights, i + 1);
        return Err(pick.error);
      }
      rows := rows + pick.value;
      i := i + 1;
    }
    assert tickers[..i] == tickers;
    if |rows| == 0 {
      return Err(NO_ROWS);
    }
    r := Ok(rows);
  }

  /** The body of the row loop of `save_picks_csv` for one ticker: a
      missing analysis or a `KeyError` adds no row, any other exception
      escapes. */
  method TryPickRow(ticker: string, analyses: Record, weights: seq<(string, real)>) returns (r: Result<seq<PickRow>>)
    ensures r == TickerPick(ticker, analyses, weights)
  {
    var found := Lookup(analyses, ticker);
    if found.None? {
      return Ok([]);
    }
    var row := PickRowFor(ticker, found.value, weights);
    if row.Ok? {
      r := Ok([row.value]);
    } else if row.error.kind == KeyError {
      r := Ok([]);
    } else {
      r := Err(row.error);
    }
  }

  /** One more ticker through the row loop. */
  lemma PickRowsExtend(tickers: seq<string>, i: nat, analyses: Record, weights: seq<(string, real)>, rows: seq<PickRow>)
    requires i < |tickers| && PickRows(tickers[..i], analyses, weights) == Ok(rows)
    ensures var pick := TickerPick(tickers[i], analyses, weights);
            PickRows(tickers[..i + 1], analyses, weights) == if pick.Err? then Err(pick.error) else Ok(rows + pick.value)
  {
    assert tickers[..i + 1][..i] == tickers[..i];
  }

  lemma {:induction false} PickRowsFailureSticks(tickers: seq<string>, analyses: Record, weights: seq<(string, real)>, n: nat)
    requires n <= |tickers|
    requires PickRows(tickers[..n], analyses, weights).Err?
    ensures PickRows(tickers, analyses, weights) == PickRows(tickers[..n], analyses, weights)
    decreases |tickers| - n
  {
    if n < |tickers| {
      assert tickers[..n + 1][..n] == tickers[..n];
      PickRowsFailureSticks(tickers, analyses, weights, n + 1);
    } else {
      assert tickers[..n] == tickers;
    }
  }

  /** The tickers of a list of rows. */
  function RowTickers(rows: seq<PickRow>): (ts: seq<string>)
    ensures |ts| == |rows|
    ensures forall i :: 0 <= i < |rows| ==> ts[i] == rows[i].ticker
  {
    seq(|rows|, i requires 0 <= i < |rows| => rows[i].ticker)
  }

  /** The rows are exactly those of the listed tickers with a complete
      record, in list order, each built from that ticker's analysis and
      carrying its portfolio weight (0.0 when it holds none). */
  lemma PickRowsSelect(tickers: seq<string>, analyses: Record, weights: seq<(string, real)>)
    requires PickRows(tickers, analyses, weights).Ok?
    ensures var rows := PickRows(tickers, analyses, weights).value;
            && RowTickers(rows) == Filter(tickers, t => HasCompleteRecord(analyses, weights, t))
            && forall i :: 0 <= i < |rows| ==>
                 HasCompleteRecord(analyses, weights, rows[i].ticker)
                 && rows[i] == PickRowFor(rows[i].ticker, Lookup(analyses, rows[i].ticker).value, weights).value
  {
    PickRowsTickers(tickers, analyses, weights);
    PickRowsBuilt(tickers, analyses, weights);
  }

  lemma {:induction false} PickRowsTickers(tickers: seq<string>, analyses: Record, weights: seq<(string, real)>)
    requires PickRows(tickers, analyses, weights).Ok?
    ensures RowTickers(PickRows(tickers, analyses, weights).value) == Filter(tickers, t => HasCompleteRecord(analyses, weights, t))
    decreases |tickers|
  {
    if |tickers| > 0 {
      var init := tickers[..|tickers| - 1];
      var ticker := tickers[|tickers| - 1];
      assert tickers == init + [ticker];
      PickRowsSnoc(tickers, analyses, weights);
      PickRowsTickers(init, analyses, weights);
      FilterSnoc(init, ticker, t => HasCompleteRecord(analyses, weights, t));
      var prev := PickRows(init, analyses, weights).value;
      var next := TickerPick(ticker, analyses, weights).value;
      RowTickersAppend(prev, next);
      assert RowTickers(next) == if HasCompleteRecord(analyses, weights, ticker) then [ticker] else [];
    }
  }

  lemma RowTickersAppend(a: seq<PickRow>, b: seq<PickRow>)
    ensures RowTickers(a + b) == RowTickers(a) + RowTickers(b)
  {
  }

  lemma {:induction false} PickRowsBuilt(tickers: seq<string>, analyses: Record, weights: seq<(string, real)>)
    requires PickRows(tickers, analyses, weights).Ok?
    ensures var rows := PickRows(tickers, analyses, weights).value;
            forall i :: 0 <= i < |rows| ==>
              HasCompleteRecord(analyses, weights, rows[i].ticker)
              && rows[i] == PickRowFor(rows[i].ticker, Lookup(analyses, rows[i].ticker).value, weights).value
    decreases |tickers|
  {
    if |tickers| > 0 {
      var init := tickers[..|tickers| - 1];
      var ticker := tickers[|tickers| - 1];
      PickRowsSnoc(tickers, analyses, weights);
      PickRowsBuilt(init, analyses, weights);
      var prev := PickRows(init, analyses, weights).value;
      var next := TickerPick(ticker, analyses, weights).value;
      var rows := prev + next;
      forall i | 0 <= i < |rows|
        ensures HasCompleteRecord(analyses, weights, rows[i].ticker)
        ensures rows[i] == PickRowFor(rows[i].ticker, Lookup(analyses, rows[i].ticker).value, weights).value
      {
        if i < |prev| {
          assert rows[i] == prev[i];
        } else {
          assert rows[i] == next[i - |prev|];
        }
      }
    }
  }

  lemma PickRowsSnoc(tickers: seq<string>, analyses: Record, weights: seq<(string, real)>)
    requires |tickers| > 0 && PickRows(tickers, analyses, weights).Ok?
    ensures var init := tickers[..|tickers| - 1];
            var last := tickers[|tickers| - 1];
            && PickRows(init, analyses, weights).Ok? && TickerPick(last, analyses, weights).Ok?
            && PickRows(tickers, analyses, weights).value
               == PickRows(init, analyses, weights).value + TickerPick(last, analyses, weights).value
  {
  }

  /** `save_picks_csv` succeeds exactly when the analyses are present and
      not empty, no unexpected exception escapes, and some listed ticker has
      a complete record; the rows are then those tickers', in list order. */
  lemma PicksSucceedWhenSomeRecordIsComplete(p: PortfolioResult)
    requires p.tickerAnalyses.Some? && |p.tickerAnalyses.value| > 0
    requires var tickers := if p.tickers.Some? then p.tickers.value else [];
             var weights := if p.portfolioWeights.Some? then p.portfolioWeights.value else [];
             PickRows(tickers, p.tickerAnalyses.value, weights).Ok?
    ensures var tickers := if p.tickers.Some? then p.tickers.value else [];
            var weights := if p.portfolioWeights.Some? then p.portfolioWeights.value else [];
            var complete := Filter(tickers, t => HasCompleteRecord(p.tickerAnalyses.value, weights, t));
            && (PicksSpec(p).Ok? <==> |complete| > 0)
            && (PicksSpec(p).Ok? ==> RowTickers(PicksSpec(p).value) == complete && IsSubsequence(complete, tickers))
            && (PicksSpec(p).Err? ==> PicksSpec(p) == Err(NO_ROWS))
  {
    var tickers := if p.tickers.Some? then p.tickers.value else [];
    var weights := if p.portfolioWeights.Some? then p.portfolioWeights.value else [];
    PickRowsSelect(tickers, p.tickerAnalyses.value, weights);
    FilterIsSubsequence(tickers, t => HasCompleteRecord(p.tickerAnalyses.value, weights, t));
  }

  // ---------------------------------------------------------- performance.csv

  const REQUIRED_BACKTEST_KEYS: seq<string> := ["portfolio_return", "benchmark_return", "as_of_date"]

  /** The first of `keys` that `d` lacks. */
  function FirstMissing(keys: seq<string>, d: Record): (r: Option<string>)
    ensures r.None? <==> forall i :: 0 <= i < |keys| ==> Lookup(d, keys[i]).Some?
    ensures r.Some? ==> exists i :: 0 <= i < |keys| && keys[i] == r.value && Lookup(d, keys[i]).None?
                                    && forall j :: 0 <= j < i ==> Lookup(d, keys[j]).Some?
  {
    if |keys| == 0 then None
    else if Lookup(d, keys[0]).None? then Some(keys[0])
    else
      var rest := FirstMissing(keys[1..], d);
      assert forall i :: 1 <= i < |keys| ==> keys[i] == keys[1..][i - 1];
      if rest.Some? then
        ghost var i :| 0 <= i < |keys[1..]| && keys[1..][i] == rest.value && Lookup(d, keys[1..][i]).None?
                       && forall j :: 0 <= j < i ==> Lookup(d, keys[1..][j]).Some?;
        assert keys[i + 1] == rest.value;
        rest
      else rest
  }

  /** `rating_counts`. */
  datatype RatingCounts = RatingCounts(buy: nat, hold: nat, sell: nat)

  /** One step of the tally: `analysis.get("consensus_rating", "UNKNOWN")`
      (only a dict has `get`), then `rating in rating_counts` (an unhashable
      rating raises `TypeError`). */
  function CountRating(c: RatingCounts, analysis: Value): Result<RatingCounts>
  {
    var rating :- GetOr(analysis, "consensus_rating", VStr("UNKNOWN"));
    if !Hashable(rating) then Err(Error(TypeError, "unhashable type: '" + TypeName(rating) + "'"))
    else if rating == VStr(BUY) then Ok(c.(buy := c.buy + 1))
    else if rating == VStr(HOLD) then Ok(c.(hold := c.hold + 1))
    else if rating == VStr(SELL) then Ok(c.(sell := c.sell + 1))
    else Ok(c)
  }

  /** The tally after the analyses of `analyses`, in order. */
  function Tally(analyses: seq<Value>): Result<RatingCounts>
  {
    if |analyses| == 0 then Ok(RatingCounts(0, 0, 0))
    else
      var prev :- Tally(analyses[..|analyses| - 1]);
      CountRating(prev, analyses[|analyses| - 1])
  }

  /** The analysis is a dict whose consensus rating is `rating`. */
  predicate HasRating(analysis: Value, rating: string)
  {
    analysis.VDict? && Lookup(analysis.entries, "consensus_rating") == Some(VStr(rating))
  }

  /** Each count is the number of analyses with that consensus rating, so
      the three together never exceed the number of analyses. */
  lemma {:induction false} TallyCountsRatings(analyses: seq<Value>)
    requires Tally(analyses).Ok?
    ensures var c := Tally(analyses).value;
            && c.buy == |Filter(analyses, a => HasRating(a, BUY))|
            && c.hold == |Filter(analyses, a => HasRating(a, HOLD))|
            && c.sell == |Filter(analyses, a => HasRating(a, SELL))|
            && c.buy + c.hold + c.sell <= |analyses|
    decreases |analyses|
  {
    if |analyses| > 0 {
      var init := analyses[..|analyses| - 1];
      var last := analyses[|analyses| - 1];
      assert analyses == init + [last];
      TallyCountsRatings(init);
      CountRatingStep(Tally(init).value, last);
      FilterSnoc(init, last, a => HasRating(a, BUY));
      FilterSnoc(init, last, a => HasRating(a, HOLD));
      FilterSnoc(init, last, a => HasRating(a, SELL));
    }
  }

  /** One analysis adds one to the count of its consensus rating, if it has
      one of the three, and nothing otherwise. */
  lemma CountRatingStep(c: RatingCounts, analysis: Value)
    requires CountRating(c, analysis).Ok?
    ensures var n := CountRating(c, analysis).value;
            && n.buy == c.buy + (if HasRating(analysis, BUY) then 1 else 0)
            && n.hold == c.hold + (if HasRating(analysis, HOLD) then 1 else 0)
            && n.sell == c.sell + (if HasRating(analysis, SELL) then 1 else 0)
            && n.buy + n.hold + n.sell <= c.buy + c.hold + c.sell + 1
  {
  }

  /** Once a prefix fails, the whole tally fails with the same error. */
  lemma {:induction false} TallyFailureSticks(analyses: seq<Value>, n: nat)
    requires n <= |analyses|
    requires Tally(analyses[..n]).Err?
    ensures Tally(analyses) == Tally(analyses[..n])
    decreases |analyses| - n
  {
    if n < |analyses| {
      assert analyses[..n + 1][..n] == analyses[..n];
      TallyFailureSticks(analyses, n + 1);
    } else {
      assert analyses[..n] == analyses;
    }
  }

  /** `", ".join(portfolio_tickers) if portfolio_tickers else "Empty"`. */
  function Composition(tickers: seq<string>): string
  {
    if |tickers| > 0 then Join(", ", tickers) else "Empty"
  }

  /** The reading a consumer of the CSV applies: split at each `','` and
      drop the one character after it, the space that `", "` puts there. */
  function SplitList(s: string): (parts: seq<string>)
    ensures |parts| > 0
    decreases |s|
  {
    if |s| == 0 then [""]
    else if s[0] == ',' then [""] + SplitList(if |s| >= 2 then s[2..] else s[1..])
    else
      var rest := SplitList(s[1..]);
      [[s[0]] + rest[0]] + rest[1..]
  }

  /** The composition column read back. */
  function ParseComposition(s: string): seq<string>
  {
    if s == "Empty" then [] else SplitList(s)
  }

  /** Reading up to the first comma of a comma-free part. */
  lemma {:induction false} SplitAfterPart(part: string, tail: string)
    requires ',' !in part
    ensures SplitList(part + tail) == [part + SplitList(tail)[0]] + SplitList(tail)[1..]
    decreases |part|
  {
    if |part| > 0 {
      var t := SplitList(tail);
      SplitAfterPart(part[1..], tail);
      assert (part + tail)[0] == part[0];
      assert (part + tail)[1..] == part[1..] + tail;
      var rest := SplitList(part[1..] + tail);
      assert rest == [part[1..] + t[0]] + t[1..];
      assert rest[0] == part[1..] + t[0];
      assert rest[1..] == t[1..];
      assert [part[0]] + (part[1..] + t[0]) == part + t[0];
    } else {
      var rest := SplitList(tail);
      assert part + tail == tail;
      assert part + rest[0] == rest[0];
      assert [rest[0]] + rest[1..] == rest;
    }
  }

  lemma {:induction false} SplitJoin(parts: seq<string>)
    requires |parts| > 0
    requires forall i :: 0 <= i < |parts| ==> ',' !in parts[i]
    ensures SplitList(Join(", ", parts)) == parts
    decreases |parts|
  {
    if |parts| == 1 {
      SplitAfterPart(parts[0], "");
      assert parts[0] + "" == parts[0];
    } else {
      var rest := Join(", ", parts[1..]);
      SplitJoin(parts[1..]);
      assert parts[0] + ", " + rest == parts[0] + (", " + rest);
      SplitAfterPart(parts[0], ", " + rest);
      assert (", " + rest)[2..] == rest;
      assert parts[0] + "" == parts[0];
      assert [parts[0]] + parts[1..] == parts;
    }
  }

  /** The composition column names exactly the held tickers, in order,
      provided no ticker contains a comma and the portfolio is not the
      single ticker "Empty". */
  lemma CompositionRoundTrip(tickers: seq<string>)
    requires forall i :: 0 <= i < |tickers| ==> ',' !in tickers[i]
    requires tickers != ["Empty"]
    ensures ParseComposition(Composition(tickers)) == tickers
  {
    if |tickers| > 0 {
      var s := Join(", ", tickers);
      if |tickers| > 1 {
        assert s[|tickers[0]|] == ',';
        assert ',' !in "Empty";
      } else {
        assert s == tickers[0];
      }
      SplitJoin(tickers);
    }
  }

  /** The single row of `performance.csv` (numbers unrounded). */
  datatype PerformanceRow = PerformanceRow(
    decisionDate: Value, endDate: Value, testPeriodDays: Value,
    portfolioReturnPct: real, benchmarkReturnPct: real, excessReturnPct: real,
    portfolioVolatilityPct: real, benchmarkVolatilityPct: real,
    portfolioSharpe: real, benchmarkSharpe: real,
    numBuyRatings: nat, numHoldRatings: nat, numSellRatings: nat,
    portfolioStocks: nat, portfolioComposition: string)

  /** `value * 100`, which only a number survives. */
  function Percent(v: Value): (r: Result<real>)
    ensures r.Ok? <==> IsNumber(v)
    ensures r.Ok? ==> r.value == ToReal(v) * 100.0
  {
    var x :- Rounded(v);
    Ok(x * 100.0)
  }

  const NO_COUNTS: RatingCounts := RatingCounts(0, 0, 0)

  /** The columns computed from the backtest result once the tally and the
      composition are known, in the order the row literal evaluates them. */
  function PerformanceColumns(backtest: Record, counts: RatingCounts, tickers: seq<string>): (r: Result<PerformanceRow>)
    ensures r.Ok? ==> r.value.numBuyRatings == counts.buy && r.value.numHoldRatings == counts.hold
                      && r.value.numSellRatings == counts.sell
    ensures r.Ok? ==> r.value.portfolioStocks == |tickers| && r.value.portfolioComposition == Composition(tickers)
  {
    var portfolioReturn :- Percent(Get(backtest, "portfolio_return", VNone));
    var benchmarkReturn :- Percent(Get(backtest, "benchmark_return", VNone));
    var excessReturn :- Percent(Get(backtest, "excess_return", VInt(0)));
    var portfolioVolatility :- Percent(Get(backtest, "portfolio_volatility", VInt(0)));
    var benchmarkVolatility :- Percent(Get(backtest, "benchmark_volatility", VInt(0)));
    var portfolioSharpe :- Rounded(Get(backtest, "portfolio_sharpe", VInt(0)));
    var benchmarkSharpe :- Rounded(Get(backtest, "benchmark_sharpe", VInt(0)));
    Ok(PerformanceRow(
      Get(backtest, "as_of_date", VNone), Get(backtest, "end_date", VStr("N/A")), Get(backtest, "test_period_days", VInt(0)),
      portfolioReturn, benchmarkReturn, excessReturn, portfolioVolatility, benchmarkVolatility,
      portfolioSharpe, benchmarkSharpe, counts.buy, counts.hold, counts.sell, |tickers|, Composition(tickers)))
  }

  /** What `save_performance_csv` writes. */
  function PerformanceSpec(backtest: Record, p: PortfolioResult): (r: Result<PerformanceRow>)
  {
    var missing := FirstMissing(REQUIRED_BACKTEST_KEYS, backtest);
    if missing.Some? then Err(Error(KeyError, Quote("Required backtest result key missing: " + missing.value)))
    else
      var counts :- if p.tickerAnalyses.Some? then Tally(Values(p.tickerAnalyses.value)) else Ok(NO_COUNTS);
      var tickers := if p.portfolioWeights.Some? then Keys(p.portfolioWeights.value) else [];
      PerformanceColumns(backtest, counts, tickers)
  }

  /** `save_performance_csv`, up to the row it hands to the CSV writer. */
  method SavePerformanceCsv(backtest: Record, p: PortfolioResult) returns (r: Result<PerformanceRow>)
    ensures r == PerformanceSpec(backtest, p)
  {
    var missing := CheckRequiredKeys(backtest);
    if missing.Some? {
      return Err(Error(KeyError, Quote("Required backtest result key missing: " + missing.value)));
    }
    var counts := NO_COUNTS;
    if p.tickerAnalyses.Some? {
      var tally := TallyRatings(Values(p.tickerAnalyses.value));
      if tally.Err? {
        return Err(tally.error);
      }
      counts := tally.value;
    }
    var tickers := if p.portfolioWeights.Some? then Keys(p.portfolioWeights.value) else [];
    r := PerformanceColumns(backtest, counts, tickers);
  }

  /** The loop over the required keys, stopping at the first missing one. */
  method CheckRequiredKeys(backtest: Record) returns (missing: Option<string>)
    ensures missing == FirstMissing(REQUIRED_BACKTEST_KEYS, backtest)
  {
    var k := 0;
    while k < |REQUIRED_BACKTEST_KEYS|
      invariant 0 <= k <= |REQUIRED_BACKTEST_KEYS|
      invariant forall j :: 0 <= j < k ==> Lookup(backtest, REQUIRED_BACKTEST_KEYS[j]).Some?
    {
      var key := REQUIRED_BACKTEST_KEYS[k];
      if Lookup(backtest, key).None? {
        FirstMissingAt(REQUIRED_BACKTEST_KEYS, backtest, k);
        return Some(key);
      }
      k := k + 1;
    }
    missing := None;
  }

  /** The `rating_counts` loop. */
  method TallyRatings(analyses: seq<Value>) returns (r: Result<RatingCounts>)
    ensures r == Tally(analyses)
  {
    var counts := NO_COUNTS;
    var i := 0;
    while i < |analyses|
      invariant 0 <= i <= |analyses|
      invariant Tally(analyses[..i]) == Ok(counts)
    {
      assert analyses[..i + 1][..i] == analyses[..i];
      var step := CountRating(counts, analyses[i]);
      if step.Err? {
        TallyFailureSticks(analyses, i + 1);
        return Err(step.error);
      }
      counts := step.value;
      i := i + 1;
    }
    assert analyses[..i] == analyses;
    r := Ok(counts);
  }

  /** The key at `k` is the first missing one when all before it are present. */
  lemma {:induction false} FirstMissingAt(keys: seq<string>, d: Record, k: nat)
    requires k < |keys|
    requires Lookup(d, keys[k]).None?
    requires forall j :: 0 <= j < k ==> Lookup(d, keys[j]).Some?
    ensures FirstMissing(keys, d) == Some(keys[k])
    decreases k
  {
    if k > 0 {
      assert forall j :: 0 <= j < k - 1 ==> keys[1..][j] == keys[j + 1];
      FirstMissingAt(keys[1..], d, k - 1);
    }
  }

  /** A missing required key is reported as `KeyError`, checked in the
      order portfolio_return, benchmark_return, as_of_date. */
  lemma MissingKeyRaises(backtest: Record, p: PortfolioResult)
    ensures var r := PerformanceSpec(backtest, p);
            && ((exists i :: 0 <= i < |REQUIRED_BACKTEST_KEYS| && Lookup(backtest, REQUIRED_BACKTEST_KEYS[i]).None?)
                 ==> r.Err? && r.error.kind == KeyError)
            && (Lookup(backtest, "portfolio_return").None? ==>
                  r == Err(Error(KeyError, Quote("Required backtest result key missing: portfolio_return"))))
  {
    var missing := FirstMissing(REQUIRED_BACKTEST_KEYS, backtest);
    if Lookup(backtest, "portfolio_return").None? {
      FirstMissingAt(REQUIRED_BACKTEST_KEYS, backtest, 0);
    }
    if missing.Some? {
      assert PerformanceSpec(backtest, p) == Err(Error(KeyError, Quote("Required backtest result key missing: " + missing.value)));
    }
  }

  /** Once the required keys are present, the tally counts the consensus
      ratings (nothing without analyses), `portfolio_stocks` is the number of
      held tickers and the composition column names them. */
  lemma PerformanceRowCounts(backtest: Record, p: PortfolioResult)
    requires PerformanceSpec(backtest, p).Ok?
    ensures var row := PerformanceSpec(backtest, p).value;
            var tickers := if p.portfolioWeights.Some? then Keys(p.portfolioWeights.value) else [];
            && row.portfolioStocks == |tickers|
            && row.portfolioComposition == Composition(tickers)
            && (p.tickerAnalyses.None? ==> row.numBuyRatings + row.numHoldRatings + row.numSellRatings == 0)
            && (p.tickerAnalyses.Some? ==>
                  var analyses := Values(p.tickerAnalyses.value);
                  && row.numBuyRatings == |Filter(analyses, a => HasRating(a, BUY))|
                  && row.numHoldRatings == |Filter(analyses, a => HasRating(a, HOLD))|
                  && row.numSellRatings == |Filter(analyses, a => HasRating(a, SELL))|
                  && row.numBuyRatings + row.numHoldRatings + row.numSellRatings <= |analyses|)
  {
    if p.tickerAnalyses.Some? {
      TallyCountsRatings(Values(p.tickerAnalyses.value));
    }
  }

  // ---------------------------------------------------------- metadata formatting

  /** One metadata value as `format_agent_metadata` writes it: a dict as
      `k=v` pairs, a list or tuple as its items, anything else as `str`,
      the pieces joined by ", ". */
  function FormatValue(v: Value, floatRepr: real -> string): string
  {
    match v
    case VDict(entries) =>
      Join(", ", seq(|entries|, i requires 0 <= i < |entries| => entries[i].0 + "=" + Str(entries[i].1, floatRepr)))
    case VList(items) => Join(", ", seq(|items|, i requires 0 <= i < |items| => Str(items[i], floatRepr)))
    case VTuple(items) => Join(", ", seq(|items|, i requires 0 <= i < |items| => Str(items[i], floatRepr)))
    case _ => Str(v, floatRepr)
  }

  /** What `format_agent_metadata` returns: `analysis.get("metadata", {})`
      must be a dict (anything else has no `items`). */
  function FormatAgentMetadataSpec(analysis: Record, floatRepr: real -> string): Result<seq<(string, string)>>
  {
    var metadata :- Items(Get(analysis, "metadata", VDict([])));
    Ok(seq(|metadata|, i requires 0 <= i < |metadata| => (metadata[i].0, FormatValue(metadata[i].1, floatRepr))))
  }

  /** `format_agent_metadata`. */
  method FormatAgentMetadata(analysis: Record, floatRepr: real -> string) returns (r: Result<seq<(string, string)>>)
    ensures r == FormatAgentMetadataSpec(analysis, floatRepr)
  {
    var items := Items(Get(analysis, "metadata", VDict([])));
    if items.Err? {
      return Err(items.error);
    }
    var metadata := items.value;
    var formatted: seq<(string, string)> := [];
    var i := 0;
    while i < |metadata|
      invariant 0 <= i <= |metadata|
      invariant |formatted| == i
      invariant forall j :: 0 <= j < i ==> formatted[j] == (metadata[j].0, FormatValue(metadata[j].1, floatRepr))
    {
      var (key, value) := metadata[i];
      formatted := formatted + [(key, FormatValue(value, floatRepr))];
      i := i + 1;
    }
    assert formatted == seq(|metadata|, j requires 0 <= j < |metadata| => (metadata[j].0, FormatValue(metadata[j].1, floatRepr)));
    r := Ok(formatted);
  }

  /** Every metadata key is kept, in order, with its value formatted; a
      missing metadata key gives nothing, and only a non-dict metadata value
      fails. */
  lemma MetadataKeysKept(analysis: Record, floatRepr: real -> string)
    ensures var r := FormatAgentMetadataSpec(analysis, floatRepr);
            var metadata := Get(analysis, "metadata", VDict([]));
            && (r.Ok? <==> metadata.VDict?)
            && (Lookup(analysis, "metadata").None? ==> r == Ok([]))
            && (r.Ok? ==>
                  && Keys(r.value) == Keys(metadata.entries)
                  && forall i :: 0 <= i < |r.value| ==> r.value[i].1 == FormatValue(metadata.entries[i].1, floatRepr))
  {
    var r := FormatAgentMetadataSpec(analysis, floatRepr);
    var metadata := Get(analysis, "metadata", VDict([]));
    if r.Ok? {
      assert Keys(r.value) == Keys(metadata.entries);
    }
  }

  /** Strings are kept verbatim, a list of strings becomes its items joined
      by ", ", and a dict of strings its `k=v` pairs joined by ", ". */
  lemma FormatValueOfStrings(v: Value, floatRepr: real -> string)
    ensures v.VStr? ==> FormatValue(v, floatRepr) == v.s
    ensures v.VList? && (forall j :: 0 <= j < |v.items| ==> v.items[j].VStr?) ==>
              FormatValue(v, floatRepr) == Join(", ", seq(|v.items|, j requires 0 <= j < |v.items| && v.items[j].VStr? => v.items[j].s))
    ensures v.VDict? && (forall j :: 0 <= j < |v.entries| ==> v.entries[j].1.VStr?) ==>
              FormatValue(v, floatRepr)
              == Join(", ", seq(|v.entries|, j requires 0 <= j < |v.entries| && v.entries[j].1.VStr? => v.entries[j].0 + "=" + v.entries[j].1.s))
  {
    if v.VList? && (forall j :: 0 <= j < |v.items| ==> v.items[j].VStr?) {
      assert seq(|v.items|, j requires 0 <= j < |v.items| => Str(v.items[j], floatRepr))
          == seq(|v.items|, j requires 0 <= j < |v.items| && v.items[j].VStr? => v.items[j].s);
    }
    if v.VDict? && (forall j :: 0 <= j < |v.entries| ==> v.entries[j].1.VStr?) {
      assert seq(|v.entries|, j requires 0 <= j < |v.entries| => v.entries[j].0 + "=" + Str(v.entries[j].1, floatRepr))
          == seq(|v.entries|, j requires 0 <= j < |v.entries| && v.entries[j].1.VStr? => v.entries[j].0 + "=" + v.entries[j].1.s);
    }
  }

  // ---------------------------------------------------------- text summary

  const RULE: string := Repeat('=', 60)
  const SUMMARY_TITLE: string := "ALPHA AGENTS OUTPUT SUMMARY"
  const EMPTY_PORTFOLIO: string := "Portfolio: Empty (Cash)"

  /** `f"  {ticker}: {weight*100:.1f}%"`; `fixed1` is the `.1f` format. */
  function WeightLine(entry: (string, real), fixed1: real -> string): string
  {
    "  " + entry.0 + ": " + fixed1(entry.1 * 100.0) + "%"
  }

  /** The lines before the portfolio section. */
  function HeaderLines(p: PortfolioResult): seq<string>
  {
    [RULE, SUMMARY_TITLE, RULE,
     "Analysis Date: " + (if p.asOfDate.Some? then p.asOfDate.value else "Unknown"),
     "Universe: " + Join(", ", if p.tickers.Some? then p.tickers.value else [])]
  }

  /** The performance lines, present when the backtest result is a
      non-empty dict; `signed2` is the `+.2f` format. */
  function PerformanceLines(backtest: Option<Record>, signed2: real -> string): Result<seq<string>>
  {
    if backtest.None? || |backtest.value| == 0 then Ok([])
    else
      var portfolioReturn :- Percent(Get(backtest.value, "portfolio_return", VInt(0)));
      var benchmarkReturn :- Percent(Get(backtest.value, "benchmark_return", VInt(0)));
      var excessReturn :- Percent(Get(backtest.value, "excess_return", VInt(0)));
      Ok(["Portfolio Return: " + signed2(portfolioReturn) + "%",
          "Benchmark Return: " + signed2(benchmarkReturn) + "%",
          "Excess Return: " + signed2(excessReturn) + "%"])
  }

  /** The portfolio section: the holding count and one line per ticker, or
      the cash line. */
  function PortfolioLines(weights: seq<(string, real)>, fixed1: real -> string): seq<string>
  {
    if |weights| > 0 then
      ["Portfolio: " + NatToString(|weights|) + " stocks"] + seq(|weights|, i requires 0 <= i < |weights| => WeightLine(weights[i], fixed1))
    else [EMPTY_PORTFOLIO]
  }

  /** The lines of `create_output_summary`. */
  function SummaryLines(p: PortfolioResult, backtest: Option<Record>, fixed1: real -> string, signed2: real -> string): Result<seq<string>>
  {
    var weights := if p.portfolioWeights.Some? then p.portfolioWeights.value else [];
    var performance :- PerformanceLines(backtest, signed2);
    Ok(HeaderLines(p) + PortfolioLines(weights, fixed1) + performance + [RULE])
  }

  /** `create_output_summary`. */
  method CreateOutputSummary(p: PortfolioResult, backtest: Option<Record>, fixed1: real -> string, signed2: real -> string)
    returns (r: Result<string>)
    ensures r.Ok? <==> SummaryLines(p, backtest, fixed1, signed2).Ok?
    ensures r.Ok? ==> r.value == Join("\n", SummaryLines(p, backtest, fixed1, signed2).value)
  {
    var weights := if p.portfolioWeights.Some? then p.portfolioWeights.value else [];
    var holdings := HoldingLines(weights, fixed1);
    var performance := PerformanceLines(backtest, signed2);
    if performance.Err? {
      return Err(performance.error);
    }
    var lines := HeaderLines(p) + holdings + performance.value + [RULE];
    r := Ok(Join("\n", lines));
  }

  /** The portfolio section's loop over the weights. */
  method HoldingLines(weights: seq<(string, real)>, fixed1: real -> string) returns (lines: seq<string>)
    ensures lines == PortfolioLines(weights, fixed1)
  {
    if |weights| == 0 {
      return [EMPTY_PORTFOLIO];
    }
    lines := ["Portfolio: " + NatToString(|weights|) + " stocks"];
    var i := 0;
    while i < |weights|
      invariant 0 <= i <= |weights|
      invariant lines == ["Portfolio: " + NatToString(|weights|) + " stocks"]
                         + seq(i, j requires 0 <= j < i => WeightLine(weights[j], fixed1))
    {
      lines := lines + [WeightLine(weights[i], fixed1)];
      i := i + 1;
    }
  }

  /** A joined text starts with its first three parts. */
  lemma JoinStartsWithThree(sep: string, lines: seq<string>)
    requires |lines| >= 4
    ensures |Join(sep, lines)| >= |lines[0]| + |sep| + |lines[1]| + |sep| + |lines[2]|
    ensures Join(sep, lines)[..|lines[0]| + |sep| + |lines[1]| + |sep| + |lines[2]|]
            == lines[0] + sep + lines[1] + sep + lines[2]
  {
    var rest := Join(sep, lines[3..]);
    assert lines[1..][1..] == lines[2..];
    assert lines[2..][1..] == lines[3..];
    assert Join(sep, lines) == lines[0] + sep + Join(sep, lines[1..]);
    assert Join(sep, lines[1..]) == lines[1] + sep + Join(sep, lines[2..]);
    assert Join(sep, lines[2..]) == lines[2] + sep + rest;
    var head := lines[0] + sep + lines[1] + sep + lines[2];
    assert Join(sep, lines) == head + (sep + rest);
  }

  /** A joined text ends with its last part. */
  lemma JoinEndsWithLast(sep: string, lines: seq<string>)
    requires |lines| >= 2
    ensures |Join(sep, lines)| >= |sep| + |lines[|lines| - 1]|
    ensures var text := Join(sep, lines);
            text[|text| - |sep| - |lines[|lines| - 1]|..] == sep + lines[|lines| - 1]
  {
    JoinSnoc(sep, lines);
    var front := Join(sep, lines[..|lines| - 1]);
    var tail := sep + lines[|lines| - 1];
    var text := Join(sep, lines);
    assert text == front + tail;
    assert |text| - |sep| - |lines[|lines| - 1]| == |front|;
    assert text[|front|..] == tail;
  }

  /** Lines opening with `rule`, `title`, `rule` and closing with `rule`
      join to a text framed the same way. */
  lemma FramedJoin(lines: seq<string>, rule: string, title: string)
    requires |lines| >= 4
    requires lines[0] == rule && lines[1] == title && lines[2] == rule && lines[|lines| - 1] == rule
    ensures var text := Join("\n", lines);
            && |text| >= |rule| + 1 + |title| + 1 + |rule|
            && text[..|rule| + 1 + |title| + 1 + |rule|] == rule + "\n" + title + "\n" + rule
            && text[|text| - |rule| - 1..] == "\n" + rule
  {
    JoinStartsWithThree("\n", lines);
    JoinEndsWithLast("\n", lines);
  }

  /** The summary opens with the rule, the title and the rule again, and
      closes with the rule. */
  lemma SummaryFramedByRules(p: PortfolioResult, backtest: Option<Record>, fixed1: real -> string, signed2: real -> string)
    requires SummaryLines(p, backtest, fixed1, signed2).Ok?
    ensures var text := Join("\n", SummaryLines(p, backtest, fixed1, signed2).value);
            && |text| >= |RULE| + 1 + |SUMMARY_TITLE| + 1 + |RULE|
            && text[..|RULE| + 1 + |SUMMARY_TITLE| + 1 + |RULE|] == RULE + "\n" + SUMMARY_TITLE + "\n" + RULE
            && text[|text| - |RULE| - 1..] == "\n" + RULE
  {
    var lines := SummaryLines(p, backtest, fixed1, signed2).value;
    assert |lines| >= 4;
    assert lines[0] == RULE && lines[1] == SUMMARY_TITLE && lines[2] == RULE;
    assert lines[|lines| - 1] == RULE;
    FramedJoin(lines, RULE, SUMMARY_TITLE);
  }

  /** Between the frames the summary states the cash position, or the number
      of holdings followed by one line per held ticker in the portfolio's order. */
  lemma SummaryListsHoldings(p: PortfolioResult, backtest: Option<Record>, fixed1: real -> string, signed2: real -> string)
    requires SummaryLines(p, backtest, fixed1, signed2).Ok?
    ensures var lines := SummaryLines(p, backtest, fixed1, signed2).value;
            var weights := if p.portfolioWeights.Some? then p.portfolioWeights.value else [];
            && (|weights| == 0 ==> lines[5] == EMPTY_PORTFOLIO)
            && (|weights| > 0 ==>
                  && lines[5] == "Portfolio: " + NatToString(|weights|) + " stocks"
                  && |lines| > 5 + |weights|
                  && forall i :: 0 <= i < |weights| ==> lines[6 + i] == WeightLine(weights[i], fixed1))
  {
    var weights := if p.portfolioWeights.Some? then p.portfolioWeights.value else [];
    var header := HeaderLines(p);
    var holdings := PortfolioLines(weights, fixed1);
    var rest := PerformanceLines(backtest, signed2).value + [RULE];
    assert SummaryLines(p, backtest, fixed1, signed2).value == header + holdings + rest;
    if |weights| > 0 {
      var items := seq(|weights|, i requires 0 <= i < |weights| => WeightLine(weights[i], fixed1));
      SectionAt(header, holdings, rest, "Portfolio: " + NatToString(|weights|) + " stocks", items);
    } else {
      SectionAt(header, holdings, rest, EMPTY_PORTFOLIO, []);
    }
  }

  /** A section placed after a five-line header: its first line is line 5
      and its items follow. */
  lemma SectionAt<T>(header: seq<T>, section: seq<T>, rest: seq<T>, first: T, items: seq<T>)
    requires |header| == 5 && section == [first] + items
    ensures var lines := header + section + rest;
            && |lines| > 5 + |items|
            && lines[5] == first
            && forall i :: 0 <= i < |items| ==> lines[6 + i] == items[i]
  {
    InnerPartAt(header, section, rest);
    forall i | 0 <= i < |items|
      ensures (header + section + rest)[6 + i] == items[i]
    {
      assert (header + section + rest)[|header| + (1 + i)] == section[1 + i];
    }
  }

  /** The middle part of `a + b + c` starts right after `a`. */
  lemma InnerPartAt<T>(a: seq<T>, b: seq<T>, c: seq<T>)
    ensures forall k :: 0 <= k < |b| ==> (a + b + c)[|a| + k] == b[k]
  {
  }
}

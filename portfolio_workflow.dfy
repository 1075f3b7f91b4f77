/** Portfolio construction (`build_portfolio` in
    `src/workflow/portfolio_workflow.py`): each listed ticker's consensus
    rating becomes a raw weight (BUY 1.0, HOLD 0.5, anything else 0), the
    positive ones are kept in first-seen order, and the kept weights are
    divided by their total. */
module PortfolioWorkflow {
  import opened Wrappers
  import opened Strings
  import opened PyValue
  import opened Numbers
  import opened Ratings
  import opened Sequences

  const BUY_WEIGHT: real := 1.0
  const HOLD_WEIGHT: real := 0.5

  /** `portfolio_weights` (in insertion order) and `portfolio_composition`. */
  datatype Portfolio = Portfolio(weights: seq<(string, real)>, composition: seq<string>)

  /** `raw_weights` and `total_weight` part-way through the loop. */
  datatype RawTally = RawTally(entries: seq<(string, real)>, total: real)

  /** No ticker listed twice. */
  predicate Distinct<T(==)>(xs: seq<T>)
  {
    forall i, j :: 0 <= i < j < |xs| ==> xs[i] != xs[j]
  }

  /** `WEIGHT_MAP.get(rating, 0)`: only the strings BUY and HOLD carry
      weight; a rating that cannot be a dict key raises `TypeError`. */
  function WeightFor(rating: Value): (r: Result<real>)
    ensures r.Ok? <==> Hashable(rating)
    ensures r.Ok? ==> 0.0 <= r.value <= BUY_WEIGHT
    ensures r.Ok? ==> (r.value > 0.0 <==> rating == VStr(BUY) || rating == VStr(HOLD))
  {
    if !Hashable(rating) then Err(Error(TypeError, "unhashable type: '" + TypeName(rating) + "'"))
    else if rating == VStr(BUY) then Ok(BUY_WEIGHT)
    else if rating == VStr(HOLD) then Ok(HOLD_WEIGHT)
    else Ok(0.0)
  }

  /** The raw weight of one ticker: a ticker without an analysis raises
      `KeyError`, and so does an analysis without `consensus_rating`. */
  function TickerWeight(analyses: map<string, Value>, ticker: string): (r: Result<real>)
    ensures ticker !in analyses ==> r == Err(Error(KeyError, Quote(ticker)))
    ensures r.Ok? ==> ticker in analyses && GetItem(analyses[ticker], "consensus_rating").Ok?
  {
    if ticker !in analyses then Err(Error(KeyError, Quote(ticker)))
    else
      var rating := GetItem(analyses[ticker], "consensus_rating");
      if rating.Err? then Err(rating.error) else WeightFor(rating.value)
  }

  /** The ticker ends up in the portfolio. */
  predicate Kept(analyses: map<string, Value>, ticker: string)
  {
    var w := TickerWeight(analyses, ticker);
    w.Ok? && w.value > 0.0
  }

  /** The ticker's analysis has consensus rating `rating`. */
  predicate RatedAs(analyses: map<string, Value>, ticker: string, rating: string)
  {
    ticker in analyses && GetItem(analyses[ticker], "consensus_rating") == Ok(VStr(rating))
  }

  /** `raw_weights[ticker] = weight`: an existing key keeps its place, a new
      key goes last. */
  function Upsert(entries: seq<(string, real)>, key: string, w: real): (r: seq<(string, real)>)
    ensures key in Keys(entries) ==> |r| == |entries|
    ensures key !in Keys(entries) ==> r == entries + [(key, w)]
    ensures forall i :: 0 <= i < |entries| ==> r[i] == if entries[i].0 == key then (key, w) else entries[i]
  {
    if key in Keys(entries) then
      seq(|entries|, i requires 0 <= i < |entries| => if entries[i].0 == key then (key, w) else entries[i])
    else entries + [(key, w)]
  }

  /** The raw tally after the tickers of `tickers`, in order; the first
      failing ticker's error ends the loop. */
  function RawWeights(tickers: seq<string>, analyses: map<string, Value>): Result<RawTally>
  {
    if |tickers| == 0 then Ok(RawTally([], 0.0))
    else
      var prev := RawWeights(tickers[..|tickers| - 1], analyses);
      var ticker := tickers[|tickers| - 1];
      if prev.Err? then prev
      else
        var w := TickerWeight(analyses, ticker);
        if w.Err? then Err(w.error)
        else if w.value > 0.0 then Ok(RawTally(Upsert(prev.value.entries, ticker, w.value), prev.value.total + w.value))
        else prev
  }

  /** `{ticker: weight / total_weight for ticker, weight in raw_weights.items()}`. */
  function Normalise(entries: seq<(string, real)>, total: real): (r: seq<(string, real)>)
    requires total > 0.0
    ensures |r| == |entries|
    ensures forall i :: 0 <= i < |entries| ==> r[i] == (entries[i].0, entries[i].1 / total)
  {
    seq(|entries|, i requires 0 <= i < |entries| => (entries[i].0, entries[i].1 / total))
  }

  /** What `build_portfolio` returns. */
  function BuildPortfolioSpec(tickers: seq<string>, analyses: map<string, Value>): Result<Portfolio>
  {
    var raw := RawWeights(tickers, analyses);
    if raw.Err? then Err(raw.error)
    else if raw.value.total > 0.0 then
      var weights := Normalise(raw.value.entries, raw.value.total);
      Ok(Portfolio(weights, Keys(weights)))
    else Ok(Portfolio([], []))
  }

  /** `build_portfolio`. */
  method BuildPortfolio(tickers: seq<string>, analyses: map<string, Value>) returns (r: Result<Portfolio>)
    ensures r == BuildPortfolioSpec(tickers, analyses)
  {
    var raw: seq<(string, real)> := [];
    var total := 0.0;
    var i := 0;
    while i < |tickers|
      invariant 0 <= i <= |tickers|
      invariant RawWeights(tickers[..i], analyses) == Ok(RawTally(raw, total))
    {
      var ticker := tickers[i];
      assert tickers[..i + 1][..i] == tickers[..i];
      if ticker !in analyses {
        RawFailureSticks(tickers, analyses, i + 1);
        return Err(Error(KeyError, Quote(ticker)));
      }
      var rating := GetItem(analyses[ticker], "consensus_rating");
      if rating.Err? {
        RawFailureSticks(tickers, analyses, i + 1);
        return Err(rating.error);
      }
      var weight := WeightFor(rating.value);
      if weight.Err? {
        RawFailureSticks(tickers, analyses, i + 1);
        return Err(weight.error);
      }
      if weight.value > 0.0 {
        raw := Upsert(raw, ticker, weight.value);
        total := total + weight.value;
      }
      i := i + 1;
    }
    assert tickers[..i] == tickers;
    if total > 0.0 {
      var weights := Normalise(raw, total);
      r := Ok(Portfolio(weights, Keys(weights)));
    } else {
      r := Ok(Portfolio([], []));
    }
  }

  /** Once a prefix fails, the whole loop fails with the same error. */
  lemma {:induction false} RawFailureSticks(tickers: seq<string>, analyses: map<string, Value>, n: nat)
    requires n <= |tickers|
    requires RawWeights(tickers[..n], analyses).Err?
    ensures RawWeights(tickers, analyses) == RawWeights(tickers[..n], analyses)
    decreases |tickers| - n
  {
    if n < |tickers| {
      assert tickers[..n + 1][..n] == tickers[..n];
      RawFailureSticks(tickers, analyses, n + 1);
    } else {
      assert tickers[..n] == tickers;
    }
  }

  /** Each tally entry is a listed ticker with its own positive raw weight,
      no larger than the running total; the total is zero exactly when
      nothing was kept. */
  lemma {:induction false} RawEntriesFacts(tickers: seq<string>, analyses: map<string, Value>)
    requires RawWeights(tickers, analyses).Ok?
    ensures var t := RawWeights(tickers, analyses).value;
            && (forall i :: 0 <= i < |t.entries| ==>
                  && t.entries[i].0 in tickers
                  && TickerWeight(analyses, t.entries[i].0) == Ok(t.entries[i].1)
                  && 0.0 < t.entries[i].1 <= t.total)
            && (t.total == 0.0 <==> |t.entries| == 0)
            && t.total >= 0.0
    decreases |tickers|
  {
    if |tickers| > 0 {
      var init := tickers[..|tickers| - 1];
      var ticker := tickers[|tickers| - 1];
      assert tickers == init + [ticker];
      assert RawWeights(init, analyses).Ok?;
      RawEntriesFacts(init, analyses);
      var prev := RawWeights(init, analyses).value;
      var t := RawWeights(tickers, analyses).value;
      var w := TickerWeight(analyses, ticker);
      if w.value > 0.0 {
        assert t.entries == Upsert(prev.entries, ticker, w.value);
        forall i | 0 <= i < |t.entries|
          ensures && t.entries[i].0 in tickers
                  && TickerWeight(analyses, t.entries[i].0) == Ok(t.entries[i].1)
                  && 0.0 < t.entries[i].1 <= t.total
        {
          if i < |prev.entries| {
            assert prev.entries[i].0 in init;
          }
        }
      }
    }
  }

  /** A ticker has a tally entry exactly when it is listed and kept. */
  lemma {:induction false} RawKeysFacts(tickers: seq<string>, analyses: map<string, Value>)
    requires RawWeights(tickers, analyses).Ok?
    ensures var t := RawWeights(tickers, analyses).value;
            forall k :: k in Keys(t.entries) <==> k in tickers && Kept(analyses, k)
    decreases |tickers|
  {
    if |tickers| > 0 {
      var init := tickers[..|tickers| - 1];
      var ticker := tickers[|tickers| - 1];
      assert tickers == init + [ticker];
      assert RawWeights(init, analyses).Ok?;
      RawKeysFacts(init, analyses);
      var prev := RawWeights(init, analyses).value;
      var t := RawWeights(tickers, analyses).value;
      var w := TickerWeight(analyses, ticker);
      if w.value > 0.0 {
        assert t.entries == Upsert(prev.entries, ticker, w.value);
        UpsertKeys(prev.entries, ticker, w.value);
      } else {
        assert t == prev;
        assert !Kept(analyses, ticker);
      }
    }
  }

  /** Dict assignment adds its key to the keys and nothing else. */
  lemma UpsertKeys(entries: seq<(string, real)>, key: string, w: real)
    ensures forall k :: k in Keys(Upsert(entries, key, w)) <==> k in Keys(entries) || k == key
  {
    var r := Upsert(entries, key, w);
    if key in Keys(entries) {
      forall k
        ensures k in Keys(r) <==> k in Keys(entries) || k == key
      {
        if k in Keys(r) {
          var i :| 0 <= i < |r| && Keys(r)[i] == k;
          if entries[i].0 != key {
            assert Keys(entries)[i] == k;
          }
        }
        if k in Keys(entries) {
          var i :| 0 <= i < |entries| && Keys(entries)[i] == k;
          assert Keys(r)[i] == k;
        }
      }
    } else {
      AppendEntry(entries, key, w);
    }
  }

  /** Everything the tally holds after the loop. */
  lemma RawTallyFacts(tickers: seq<string>, analyses: map<string, Value>)
    requires RawWeights(tickers, analyses).Ok?
    ensures var t := RawWeights(tickers, analyses).value;
            && (forall i :: 0 <= i < |t.entries| ==>
                  && t.entries[i].0 in tickers
                  && TickerWeight(analyses, t.entries[i].0) == Ok(t.entries[i].1)
                  && 0.0 < t.entries[i].1 <= t.total)
            && (forall k :: k in Keys(t.entries) <==> k in tickers && Kept(analyses, k))
            && (t.total == 0.0 <==> |t.entries| == 0)
            && t.total >= 0.0
  {
    RawEntriesFacts(tickers, analyses);
    RawKeysFacts(tickers, analyses);
  }

  /** With every ticker listed once, each kept ticker is appended after the
      previous ones: the tally's keys are the kept tickers in list order and
      its weights add up to the total. */
  lemma {:induction false} DistinctTallyAppends(tickers: seq<string>, analyses: map<string, Value>)
    requires Distinct(tickers)
    requires RawWeights(tickers, analyses).Ok?
    ensures var t := RawWeights(tickers, analyses).value;
            && Keys(t.entries) == Filter(tickers, k => Kept(analyses, k))
            && Sum(Weights(t.entries)) == t.total
    decreases |tickers|
  {
    if |tickers| > 0 {
      var init := tickers[..|tickers| - 1];
      var ticker := tickers[|tickers| - 1];
      assert tickers == init + [ticker];
      assert Distinct(init);
      assert RawWeights(init, analyses).Ok?;
      DistinctTallyAppends(init, analyses);
      FilterSnoc(init, ticker, k => Kept(analyses, k));
      var prev := RawWeights(init, analyses).value;
      var t := RawWeights(tickers, analyses).value;
      var w := TickerWeight(analyses, ticker);
      if w.value > 0.0 {
        RawKeysFacts(init, analyses);
        assert ticker !in init;
        assert ticker !in Keys(prev.entries);
        assert t.entries == prev.entries + [(ticker, w.value)];
        assert t.total == prev.total + w.value;
        AppendEntry(prev.entries, ticker, w.value);
        SumAppend(Weights(prev.entries), [w.value]);
      } else {
        assert t == prev;
      }
    }
  }

  /** Appending an entry appends its key and its weight. */
  lemma AppendEntry(entries: seq<(string, real)>, key: string, w: real)
    ensures Keys(entries + [(key, w)]) == Keys(entries) + [key]
    ensures Weights(entries + [(key, w)]) == Weights(entries) + [w]
  {
    var e := entries + [(key, w)];
    assert forall i :: 0 <= i < |entries| ==> e[i] == entries[i];
    assert Keys(e) == Keys(entries) + [key];
    assert Weights(e) == Weights(entries) + [w];
  }

  /** The weight column of an association list. */
  function Weights(entries: seq<(string, real)>): (ws: seq<real>)
    ensures |ws| == |entries|
    ensures forall i :: 0 <= i < |entries| ==> ws[i] == entries[i].1
  {
    seq(|entries|, i requires 0 <= i < |entries| => entries[i].1)
  }

  /** Only BUY and HOLD tickers are held, each at its raw weight over the
      total raw weight, and the composition is exactly the held tickers. */
  lemma WeightsFollowRatings(tickers: seq<string>, analyses: map<string, Value>)
    requires BuildPortfolioSpec(tickers, analyses).Ok?
    ensures var p := BuildPortfolioSpec(tickers, analyses).value;
            var total := RawWeights(tickers, analyses).value.total;
            && p.composition == Keys(p.weights)
            && (forall k :: k in p.composition <==> k in tickers && (RatedAs(analyses, k, BUY) || RatedAs(analyses, k, HOLD)))
            && (forall i :: 0 <= i < |p.weights| ==>
                  && TickerWeight(analyses, p.weights[i].0).Ok?
                  && p.weights[i].1 == TickerWeight(analyses, p.weights[i].0).value / total)
  {
    RawTallyFacts(tickers, analyses);
    var p := BuildPortfolioSpec(tickers, analyses).value;
    var t := RawWeights(tickers, analyses).value;
    if t.total > 0.0 {
      assert Keys(p.weights) == Keys(t.entries);
    }
  }

  /** Each held weight lies in (0, 1]. */
  lemma WeightsArePositiveFractions(tickers: seq<string>, analyses: map<string, Value>)
    requires BuildPortfolioSpec(tickers, analyses).Ok?
    ensures var p := BuildPortfolioSpec(tickers, analyses).value;
            forall i :: 0 <= i < |p.weights| ==> 0.0 < p.weights[i].1 <= 1.0
  {
    RawTallyFacts(tickers, analyses);
    var t := RawWeights(tickers, analyses).value;
    if t.total > 0.0 {
      forall i | 0 <= i < |t.entries|
        ensures 0.0 < t.entries[i].1 / t.total <= 1.0
      {
        FractionAtMostOne(t.entries[i].1, t.total);
      }
    }
  }

  lemma FractionAtMostOne(w: real, total: real)
    requires 0.0 < w <= total
    ensures 0.0 < w / total <= 1.0
  {
  }

  /** With every ticker listed once, a non-empty portfolio's weights add up
      to 1, and its composition is the kept tickers in list order. */
  lemma WeightsSumToOne(tickers: seq<string>, analyses: map<string, Value>)
    requires Distinct(tickers)
    requires BuildPortfolioSpec(tickers, analyses).Ok?
    requires |BuildPortfolioSpec(tickers, analyses).value.weights| > 0
    ensures var p := BuildPortfolioSpec(tickers, analyses).value;
            && Sum(Weights(p.weights)) == 1.0
            && p.composition == Filter(tickers, k => Kept(analyses, k))
            && IsSubsequence(p.composition, tickers)
  {
    DistinctTallyAppends(tickers, analyses);
    FilterIsSubsequence(tickers, k => Kept(analyses, k));
    var t := RawWeights(tickers, analyses).value;
    assert t.total > 0.0;
    NormalisedSumsToOne(t.entries, t.total);
  }

  /** Dividing weights by their own sum makes them sum to 1 and keeps the keys. */
  lemma NormalisedSumsToOne(entries: seq<(string, real)>, total: real)
    requires total > 0.0 && Sum(Weights(entries)) == total
    ensures Sum(Weights(Normalise(entries, total))) == 1.0
    ensures Keys(Normalise(entries, total)) == Keys(entries)
  {
    var n := Normalise(entries, total);
    SumScaled(Weights(entries), Weights(n), total);
    SelfDivision(total);
  }

  lemma SelfDivision(x: real)
    requires x > 0.0
    ensures x / x == 1.0
  {
  }

  /** A BUY ticker holds exactly twice the weight of a HOLD ticker. */
  lemma BuyWeighsTwiceHold(tickers: seq<string>, analyses: map<string, Value>, i: nat, j: nat)
    requires BuildPortfolioSpec(tickers, analyses).Ok?
    requires var p := BuildPortfolioSpec(tickers, analyses).value;
             && i < |p.weights| && j < |p.weights|
             && RatedAs(analyses, p.weights[i].0, BUY)
             && RatedAs(analyses, p.weights[j].0, HOLD)
    ensures var p := BuildPortfolioSpec(tickers, analyses).value;
            p.weights[i].1 == 2.0 * p.weights[j].1
  {
    WeightsFollowRatings(tickers, analyses);
    var total := RawWeights(tickers, analyses).value.total;
    RawTallyFacts(tickers, analyses);
    TwiceHalf(total);
  }

  lemma TwiceHalf(total: real)
    requires total > 0.0
    ensures BUY_WEIGHT / total == 2.0 * (HOLD_WEIGHT / total)
  {
  }

  /** When no listed ticker is rated BUY or HOLD the portfolio is all cash:
      no weights and no composition; and that is the only way to get one. */
  lemma CashOnlyWithoutConviction(tickers: seq<string>, analyses: map<string, Value>)
    requires BuildPortfolioSpec(tickers, analyses).Ok?
    ensures var p := BuildPortfolioSpec(tickers, analyses).value;
            (p.weights == [] && p.composition == []) <==> forall k :: k in tickers ==> !Kept(analyses, k)
  {
    RawTallyFacts(tickers, analyses);
    var t := RawWeights(tickers, analyses).value;
    if t.total > 0.0 {
      assert t.entries[0].0 in Keys(t.entries);
    }
  }
}

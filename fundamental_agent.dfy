/** The fundamental agent (`src/agents/fundamental_agent.py`): the mean of the
    `score` of every metric record in the ticker's factsheet, rated against
    the configured buy and sell thresholds. */
module FundamentalAgent {
  import opened Wrappers
  import opened PyValue
  import opened Numbers
  import opened Ratings
  import opened Sequences
  import opened FundamentalLoader

  /** `config.fundamental`. */
  datatype FundamentalThresholds = FundamentalThresholds(buyScoreThreshold: real, sellScoreThreshold: real)

  /** The `fundamental_analysis` record (the decision score is not rounded). */
  datatype FundamentalAnalysis = FundamentalAnalysis(
    recommendation: string, decisionScore: real, factorsAnalyzed: nat,
    buyThreshold: real, sellThreshold: real)

  /** A metric counts when it is an object holding a `score`. */
  predicate IsScored(metric: (string, Value))
  {
    metric.1.VDict? && Lookup(metric.1.entries, "score").Some?
  }

  /** The counted scores in file order; adding a non-number raises `TypeError`. */
  function CountedScores(metrics: seq<(string, Value)>): (r: Result<seq<real>>)
    ensures r.Ok? ==> |r.value| == |Filter(metrics, IsScored)|
  {
    if |metrics| == 0 then Ok([])
    else
      var init := metrics[..|metrics| - 1];
      var last := metrics[|metrics| - 1];
      var counted := CountedScores(init);
      FilterSnoc(init, last, IsScored);
      assert init + [last] == metrics;
      if counted.Err? then counted
      else if !IsScored(last) then counted
      else
        var score := AsNumber(Lookup(last.1.entries, "score").value);
        if score.Err? then Err(score.error) else Ok(counted.value + [score.value])
  }

  /** `total_score / factor_count if factor_count > 0 else 3`. */
  function AverageScore(scores: seq<real>): real
  {
    if |scores| > 0 then Mean(scores) else NEUTRAL_SCORE
  }

  /** What `fundamental_agent` returns for a ticker whose factsheet file is
      `file`; a load failure, a non-object factsheet and a non-numeric score
      propagate. */
  function FundamentalAgentSpec(ticker: string, file: FundamentalFile, cfg: FundamentalThresholds): Result<FundamentalAnalysis>
  {
    var loaded := LoadFundamentalData(ticker, file);
    if loaded.Err? then Err(loaded.error)
    else
      var items := Items(loaded.value);
      if items.Err? then Err(items.error)
      else
        var counted := CountedScores(items.value);
        if counted.Err? then Err(counted.error)
        else
          var avg := AverageScore(counted.value);
          Ok(FundamentalAnalysis(ThresholdRating(avg, cfg.buyScoreThreshold, cfg.sellScoreThreshold), avg,
                                 |counted.value|, cfg.buyScoreThreshold, cfg.sellScoreThreshold))
  }

  /** `fundamental_agent`: one pass over the metrics accumulating the total
      and the count, then the threshold rule. */
  method RunFundamentalAgent(ticker: string, file: FundamentalFile, cfg: FundamentalThresholds)
    returns (r: Result<FundamentalAnalysis>)
    ensures r == FundamentalAgentSpec(ticker, file, cfg)
  {
    var loaded := LoadFundamentalData(ticker, file);
    if loaded.Err? {
      return Err(loaded.error);
    }
    var items := Items(loaded.value);
    if items.Err? {
      return Err(items.error);
    }
    var tally := TallyScores(items.value);
    if tally.Err? {
      return Err(tally.error);
    }
    var (total, count) := tally.value;
    var avg := if count > 0 then total / count as real else NEUTRAL_SCORE;
    r := Ok(FundamentalAnalysis(ThresholdRating(avg, cfg.buyScoreThreshold, cfg.sellScoreThreshold), avg,
                                count, cfg.buyScoreThreshold, cfg.sellScoreThreshold));
  }

  /** The loop of `fundamental_agent`: the total and the number of the
      counted scores, or the error of the first score that is not a number. */
  method TallyScores(metrics: seq<(string, Value)>) returns (r: Result<(real, nat)>)
    ensures CountedScores(metrics).Err? ==> r == Err(CountedScores(metrics).error)
    ensures CountedScores(metrics).Ok? ==>
              r == Ok((Sum(CountedScores(metrics).value), |CountedScores(metrics).value|))
  {
    var total := 0.0;
    var count: nat := 0;
    ghost var scores: seq<real> := [];
    var i := 0;
    while i < |metrics|
      invariant 0 <= i <= |metrics|
      invariant CountedScores(metrics[..i]) == Ok(scores)
      invariant total == Sum(scores) && count == |scores|
    {
      var metric := metrics[i];
      if IsScored(metric) {
        var score := AsNumber(Lookup(metric.1.entries, "score").value);
        if score.Err? {
          CountedFailsAt(metrics, i, scores);
          return Err(score.error);
        }
        CountedAddsAt(metrics, i, scores);
        SumAppend(scores, [score.value]);
        total := total + score.value;
        count := count + 1;
        scores := scores + [score.value];
      } else {
        CountedSkipsAt(metrics, i, scores);
      }
      i := i + 1;
    }
    assert metrics[..i] == metrics;
    r := Ok((total, count));
  }

  lemma CountedSkipsAt(metrics: seq<(string, Value)>, i: nat, scores: seq<real>)
    requires i < |metrics| && CountedScores(metrics[..i]) == Ok(scores)
    requires !IsScored(metrics[i])
    ensures CountedScores(metrics[..i + 1]) == Ok(scores)
  {
    assert metrics[..i + 1][..i] == metrics[..i];
  }

  lemma CountedAddsAt(metrics: seq<(string, Value)>, i: nat, scores: seq<real>)
    requires i < |metrics| && CountedScores(metrics[..i]) == Ok(scores)
    requires IsScored(metrics[i]) && AsNumber(Lookup(metrics[i].1.entries, "score").value).Ok?
    ensures CountedScores(metrics[..i + 1]) == Ok(scores + [AsNumber(Lookup(metrics[i].1.entries, "score").value).value])
  {
    assert metrics[..i + 1][..i] == metrics[..i];
  }

  lemma CountedFailsAt(metrics: seq<(string, Value)>, i: nat, scores: seq<real>)
    requires i < |metrics| && CountedScores(metrics[..i]) == Ok(scores)
    requires IsScored(metrics[i]) && AsNumber(Lookup(metrics[i].1.entries, "score").value).Err?
    ensures CountedScores(metrics) == Err(AsNumber(Lookup(metrics[i].1.entries, "score").value).error)
  {
    var e := AsNumber(Lookup(metrics[i].1.entries, "score").value).error;
    var prefix := metrics[..i + 1];
    assert prefix[..|prefix| - 1] == metrics[..i];
    assert prefix[|prefix| - 1] == metrics[i];
    assert CountedScores(prefix) == Err(e);
    CountedFailureSticks(metrics, i + 1);
  }

  /** The `score` of a counted metric. */
  function ScoreValue(metric: (string, Value)): Value
    requires IsScored(metric)
  {
    Lookup(metric.1.entries, "score").value
  }

  /** A counted metric whose score is not a number, so `total_score += score`
      raises. */
  predicate BadScore(metric: (string, Value))
  {
    IsScored(metric) && !IsNumber(ScoreValue(metric))
  }

  /** The tally fails exactly when some counted score is not a number. */
  lemma {:induction false} CountedFailsIffBadScore(metrics: seq<(string, Value)>)
    ensures CountedScores(metrics).Err? <==> exists i :: 0 <= i < |metrics| && BadScore(metrics[i])
    decreases |metrics|
  {
    if |metrics| > 0 {
      var init := metrics[..|metrics| - 1];
      var last := metrics[|metrics| - 1];
      CountedFailsIffBadScore(init);
      assert forall i :: 0 <= i < |init| ==> init[i] == metrics[i];
      if CountedScores(metrics).Err? && CountedScores(init).Ok? {
        assert BadScore(last);
      }
      if CountedScores(metrics).Ok? {
        forall i | 0 <= i < |metrics|
          ensures !BadScore(metrics[i])
        {
          if i < |init| {
            assert metrics[i] == init[i];
          }
        }
      }
    }
  }

  /** The `score` values of the counted metrics, in file order. */
  function ScoreValues(metrics: seq<(string, Value)>): seq<Value>
  {
    if |metrics| == 0 then []
    else
      var last := metrics[|metrics| - 1];
      ScoreValues(metrics[..|metrics| - 1]) + if IsScored(last) then [ScoreValue(last)] else []
  }

  /** The counted values are the scores of the counted metrics, in file order. */
  lemma {:induction false} CountedScoresAreTheScores(metrics: seq<(string, Value)>)
    requires CountedScores(metrics).Ok?
    ensures |CountedScores(metrics).value| == |ScoreValues(metrics)|
    ensures forall j :: 0 <= j < |ScoreValues(metrics)| ==>
              IsNumber(ScoreValues(metrics)[j]) && CountedScores(metrics).value[j] == ToReal(ScoreValues(metrics)[j])
    decreases |metrics|
  {
    if |metrics| > 0 {
      CountedScoresAreTheScores(metrics[..|metrics| - 1]);
    }
  }

  /** The first metric with a non-numeric score decides the error. */
  lemma CountedFailsAtFirstBadScore(metrics: seq<(string, Value)>, k: nat)
    requires k < |metrics| && BadScore(metrics[k])
    requires forall i :: 0 <= i < k ==> !BadScore(metrics[i])
    ensures CountedScores(metrics) == Err(AsNumber(ScoreValue(metrics[k])).error)
  {
    var prefix := metrics[..k];
    assert forall i :: 0 <= i < |prefix| ==> prefix[i] == metrics[i];
    CountedFailsIffBadScore(prefix);
    CountedFailsAt(metrics, k, CountedScores(prefix).value);
  }

  /** The rating is the threshold rule applied to the decision score, and
      with nothing counted the decision score is the neutral 3. */
  lemma RatingFollowsThresholds(ticker: string, file: FundamentalFile, cfg: FundamentalThresholds)
    requires FundamentalAgentSpec(ticker, file, cfg).Ok?
    ensures var a := FundamentalAgentSpec(ticker, file, cfg).value;
            && IsRating(a.recommendation)
            && (a.recommendation == BUY <==> a.decisionScore > cfg.buyScoreThreshold)
            && (a.recommendation == SELL <==> a.decisionScore <= cfg.buyScoreThreshold && a.decisionScore < cfg.sellScoreThreshold)
            && (a.factorsAnalyzed == 0 ==> a.decisionScore == NEUTRAL_SCORE)
  {
  }

  /** Once a prefix fails, the whole tally fails with the same error. */
  lemma {:induction false} CountedFailureSticks(metrics: seq<(string, Value)>, n: nat)
    requires n <= |metrics|
    requires CountedScores(metrics[..n]).Err?
    ensures CountedScores(metrics) == CountedScores(metrics[..n])
    decreases |metrics| - n
  {
    if n < |metrics| {
      assert metrics[..n + 1][..n] == metrics[..n];
      CountedFailureSticks(metrics, n + 1);
    } else {
      assert metrics[..n] == metrics;
    }
  }

  /** Every counted score lies in `[lo, hi]` when every metric's numeric
      score does. */
  lemma {:induction false} CountedScoresWithin(metrics: seq<(string, Value)>, lo: real, hi: real)
    requires ScoresWithin(metrics, lo, hi)
    requires CountedScores(metrics).Ok?
    ensures forall j :: 0 <= j < |CountedScores(metrics).value| ==> lo <= CountedScores(metrics).value[j] <= hi
    decreases |metrics|
  {
    if |metrics| > 0 {
      var init := metrics[..|metrics| - 1];
      assert forall i :: 0 <= i < |init| ==> init[i] == metrics[i];
      CountedScoresWithin(init, lo, hi);
    }
  }

  /** Factsheets scored on the 1-5 scale give a decision score on that scale,
      so the thresholds compare like with like. */
  lemma DecisionScoreOnScale(ticker: string, file: FundamentalFile, cfg: FundamentalThresholds)
    requires file.Parsed? && file.data.VDict?
    requires ScoresWithin(file.data.entries, MIN_SCORE, MAX_SCORE)
    requires FundamentalAgentSpec(ticker, file, cfg).Ok?
    ensures MIN_SCORE <= FundamentalAgentSpec(ticker, file, cfg).value.decisionScore <= MAX_SCORE
  {
    var scores := CountedScores(file.data.entries).value;
    CountedScoresWithin(file.data.entries, MIN_SCORE, MAX_SCORE);
    if |scores| > 0 {
      MeanBounds(scores, MIN_SCORE, MAX_SCORE);
    }
  }
}

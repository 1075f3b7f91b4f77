/** The coordinator node (`src/agents/coordinator.py`): a weighted BUY vote of
    the valuation, sentiment and fundamental agents becomes the consensus
    rating, and the agents' ratings and decision scores are copied into the
    summary record the output layer exports. */
module Coordinator {
  import opened Wrappers
  import opened PyValue
  import opened Ratings

  /** What the coordinator reads from one agent's analysis. */
  datatype AgentAnalysis = AgentAnalysis(recommendation: string, decisionScore: Value)

  /** `config.coordinator`: one weight per agent and the two vote thresholds. */
  datatype CoordinatorConfig = CoordinatorConfig(
    valuationWeight: real, sentimentWeight: real, fundamentalWeight: real,
    buyWeightThreshold: real, sellWeightThreshold: real)

  datatype TickerAnalysis = TickerAnalysis(
    ticker: string, valuation: AgentAnalysis, sentiment: AgentAnalysis, fundamental: AgentAnalysis)

  /** An agent's weight counts exactly when it votes BUY. */
  function VoteWeight(vote: string, weight: real): real
  {
    if vote == BUY then weight else 0.0
  }

  /** The combined weight of the agents voting BUY. */
  function BuyWeight(s: TickerAnalysis, cfg: CoordinatorConfig): real
  {
    VoteWeight(s.valuation.recommendation, cfg.valuationWeight)
      + VoteWeight(s.sentiment.recommendation, cfg.sentimentWeight)
      + VoteWeight(s.fundamental.recommendation, cfg.fundamentalWeight)
  }

  /** BUY at or above the buy threshold; below it, SELL at or below the sell
      threshold; HOLD between. */
  function Consensus(buyWeight: real, cfg: CoordinatorConfig): (c: string)
    ensures IsRating(c)
    ensures c == BUY <==> buyWeight >= cfg.buyWeightThreshold
    ensures c == SELL <==> buyWeight < cfg.buyWeightThreshold && buyWeight <= cfg.sellWeightThreshold
  {
    if buyWeight >= cfg.buyWeightThreshold then BUY
    else if buyWeight <= cfg.sellWeightThreshold then SELL
    else HOLD
  }

  /** `analysis_summary`, in the source's key order. */
  function Summary(s: TickerAnalysis, consensus: string): (r: seq<(string, Value)>)
    ensures Keys(r) == ["ticker", "consensus_rating", "valuation_rating", "sentiment_rating", "fundamental_rating",
                        "valuation_decision_score", "sentiment_decision_score", "fundamental_decision_score"]
  {
    [("ticker", VStr(s.ticker)),
     ("consensus_rating", VStr(consensus)),
     ("valuation_rating", VStr(s.valuation.recommendation)),
     ("sentiment_rating", VStr(s.sentiment.recommendation)),
     ("fundamental_rating", VStr(s.fundamental.recommendation)),
     ("valuation_decision_score", s.valuation.decisionScore),
     ("sentiment_decision_score", s.sentiment.decisionScore),
     ("fundamental_decision_score", s.fundamental.decisionScore)]
  }

  /** `coordinator`: the vote is added up one agent at a time. */
  method Coordinate(s: TickerAnalysis, cfg: CoordinatorConfig) returns (consensus: string, summary: seq<(string, Value)>)
    ensures consensus == Consensus(BuyWeight(s, cfg), cfg)
    ensures summary == Summary(s, consensus)
  {
    var buyWeight := 0.0;
    if s.valuation.recommendation == BUY { buyWeight := buyWeight + cfg.valuationWeight; }
    if s.sentiment.recommendation == BUY { buyWeight := buyWeight + cfg.sentimentWeight; }
    if s.fundamental.recommendation == BUY { buyWeight := buyWeight + cfg.fundamentalWeight; }
    if buyWeight >= cfg.buyWeightThreshold {
      consensus := BUY;
    } else if buyWeight <= cfg.sellWeightThreshold {
      consensus := SELL;
    } else {
      consensus := HOLD;
    }
    summary := Summary(s, consensus);
  }

  /** The summary carries the ticker, the consensus and each agent's rating
      unchanged. */
  lemma SummaryCopiesRatings(s: TickerAnalysis, consensus: string)
    ensures var r := Summary(s, consensus);
            && Lookup(r, "ticker") == Some(VStr(s.ticker))
            && Lookup(r, "consensus_rating") == Some(VStr(consensus))
            && Lookup(r, "valuation_rating") == Some(VStr(s.valuation.recommendation))
            && Lookup(r, "sentiment_rating") == Some(VStr(s.sentiment.recommendation))
            && Lookup(r, "fundamental_rating") == Some(VStr(s.fundamental.recommendation))
  {
    SummaryLookup1(s, consensus);
    SummaryLookup2(s, consensus);
    SummaryLookup3(s, consensus);
    SummaryLookup4(s, consensus);
  }

  /** The summary carries each agent's decision score unchanged. */
  lemma SummaryCopiesScores(s: TickerAnalysis, consensus: string)
    ensures var r := Summary(s, consensus);
            && Lookup(r, "valuation_decision_score") == Some(s.valuation.decisionScore)
            && Lookup(r, "sentiment_decision_score") == Some(s.sentiment.decisionScore)
            && Lookup(r, "fundamental_decision_score") == Some(s.fundamental.decisionScore)
  {
    SummaryLookup5(s, consensus);
    SummaryLookup6(s, consensus);
    SummaryLookup7(s, consensus);
  }

  // One lookup per summary key: no two keys share both their length and
  // their first letter.

  lemma SummaryLookup1(s: TickerAnalysis, consensus: string)
    ensures Lookup(Summary(s, consensus), "consensus_rating") == Some(VStr(consensus))
  {
    var r := Summary(s, consensus);
    assert |r[0].0| == 6;
    LookupAt(r, 1);
  }

  lemma SummaryLookup2(s: TickerAnalysis, consensus: string)
    ensures Lookup(Summary(s, consensus), "valuation_rating") == Some(VStr(s.valuation.recommendation))
  {
    var r := Summary(s, consensus);
    assert |r[0].0| == 6 && r[1].0[0] == 'c' && r[2].0[0] == 'v';
    LookupAt(r, 2);
  }

  lemma SummaryLookup3(s: TickerAnalysis, consensus: string)
    ensures Lookup(Summary(s, consensus), "sentiment_rating") == Some(VStr(s.sentiment.recommendation))
  {
    var r := Summary(s, consensus);
    assert |r[0].0| == 6 && r[1].0[0] == 'c' && r[2].0[0] == 'v' && r[3].0[0] == 's';
    LookupAt(r, 3);
  }

  lemma SummaryLookup4(s: TickerAnalysis, consensus: string)
    ensures Lookup(Summary(s, consensus), "fundamental_rating") == Some(VStr(s.fundamental.recommendation))
  {
    var r := Summary(s, consensus);
    assert |r[0].0| == 6 && |r[1].0| == 16 && |r[2].0| == 16 && |r[3].0| == 16 && |r[4].0| == 18;
    LookupAt(r, 4);
  }

  lemma SummaryLookup5(s: TickerAnalysis, consensus: string)
    ensures Lookup(Summary(s, consensus), "valuation_decision_score") == Some(s.valuation.decisionScore)
  {
    var r := Summary(s, consensus);
    assert |r[0].0| == 6 && |r[1].0| == 16 && |r[2].0| == 16 && |r[3].0| == 16 && |r[4].0| == 18;
    assert |r[5].0| == 24;
    LookupAt(r, 5);
  }

  lemma SummaryLookup6(s: TickerAnalysis, consensus: string)
    ensures Lookup(Summary(s, consensus), "sentiment_decision_score") == Some(s.sentiment.decisionScore)
  {
    var r := Summary(s, consensus);
    assert |r[0].0| == 6 && |r[1].0| == 16 && |r[2].0| == 16 && |r[3].0| == 16 && |r[4].0| == 18;
    assert |r[5].0| == 24 && r[5].0[0] == 'v' && r[6].0[0] == 's';
    LookupAt(r, 6);
  }

  lemma SummaryLookup7(s: TickerAnalysis, consensus: string)
    ensures Lookup(Summary(s, consensus), "fundamental_decision_score") == Some(s.fundamental.decisionScore)
  {
    var r := Summary(s, consensus);
    assert |r[0].0| == 6 && |r[1].0| == 16 && |r[2].0| == 16 && |r[3].0| == 16 && |r[4].0| == 18;
    assert |r[5].0| == 24 && |r[6].0| == 24 && |r[7].0| == 26;
    LookupAt(r, 7);
  }

  /** With no BUY vote the buy weight is 0; with non-negative weights it never
      exceeds their total. */
  lemma BuyWeightRange(s: TickerAnalysis, cfg: CoordinatorConfig)
    ensures (s.valuation.recommendation != BUY && s.sentiment.recommendation != BUY
             && s.fundamental.recommendation != BUY) ==> BuyWeight(s, cfg) == 0.0
    ensures cfg.valuationWeight >= 0.0 && cfg.sentimentWeight >= 0.0 && cfg.fundamentalWeight >= 0.0 ==>
              0.0 <= BuyWeight(s, cfg) <= cfg.valuationWeight + cfg.sentimentWeight + cfg.fundamentalWeight
  {
  }

  /** A larger buy weight never lowers the consensus. */
  lemma ConsensusMonotone(lower: real, higher: real, cfg: CoordinatorConfig)
    requires lower <= higher
    ensures Rank(Consensus(lower, cfg)) <= Rank(Consensus(higher, cfg))
  {
  }

  /** Turning one more agent's vote into BUY never lowers the consensus,
      when that agent's weight is non-negative. */
  lemma ExtraBuyVoteNeverLowers(s: TickerAnalysis, cfg: CoordinatorConfig)
    requires cfg.sentimentWeight >= 0.0
    ensures var flipped := s.(sentiment := s.sentiment.(recommendation := BUY));
            Rank(Consensus(BuyWeight(s, cfg), cfg)) <= Rank(Consensus(BuyWeight(flipped, cfg), cfg))
  {
    var flipped := s.(sentiment := s.sentiment.(recommendation := BUY));
    ConsensusMonotone(BuyWeight(s, cfg), BuyWeight(flipped, cfg), cfg);
  }
}

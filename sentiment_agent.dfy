/** The sentiment agent (`src/agents/sentiment_agent.py`): one polarity score
    per news article visible at the as-of date, averaged and rated against the
    configured thresholds. The VADER compound score is the parameter
    `polarity`. */
module SentimentAgent {
  import opened Wrappers
  import opened Numbers
  import opened Ratings
  import opened Sequences
  import opened NewsLoader

  /** `config.sentiment`. */
  datatype SentimentThresholds = SentimentThresholds(buySentimentThreshold: real, sellSentimentThreshold: real)

  /** The `sentiment_analysis` record (the decision score is not rounded). */
  datatype SentimentAnalysis = SentimentAnalysis(
    recommendation: string, decisionScore: real, articleCount: nat, individualScores: seq<real>,
    buyThreshold: real, sellThreshold: real)

  /** How many individual scores the metadata shows. */
  const SHOWN_SCORES: nat := 5

  /** `f"{article['title']}. {article['snippet']}"`. */
  function ArticleText(a: Article): string
    requires Complete(a)
  {
    a["title"] + ". " + a["snippet"]
  }

  /** `sum(scores) / len(scores) if scores else 0`. */
  function AverageSentiment(scores: seq<real>): real
  {
    if |scores| > 0 then Mean(scores) else 0.0
  }

  /** The score of each article, in article order. */
  ghost predicate ScoresArticles(scores: seq<real>, articles: seq<Article>, polarity: string -> real)
  {
    && |scores| == |articles|
    && forall i :: 0 <= i < |articles| ==> Complete(articles[i]) && scores[i] == polarity(ArticleText(articles[i]))
  }

  /** The analysis built from the articles and their scores. */
  function Analysis(articles: seq<Article>, scores: seq<real>, cfg: SentimentThresholds): SentimentAnalysis
  {
    var avg := AverageSentiment(scores);
    SentimentAnalysis(ThresholdRating(avg, cfg.buySentimentThreshold, cfg.sellSentimentThreshold), avg,
                      |articles|, scores[..if |scores| < SHOWN_SCORES then |scores| else SHOWN_SCORES],
                      cfg.buySentimentThreshold, cfg.sellSentimentThreshold)
  }

  /** One polarity score per article, in article order. */
  function ArticleScores(articles: seq<Article>, polarity: string -> real): (scores: seq<real>)
    requires forall i :: 0 <= i < |articles| ==> Complete(articles[i])
    ensures ScoresArticles(scores, articles, polarity)
  {
    seq(|articles|, i requires 0 <= i < |articles| => polarity(ArticleText(articles[i])))
  }

  /** What `sentiment_agent` returns: the news loader's as-of articles (its
      errors propagate), scored in order, then the threshold rule on the mean. */
  function SentimentAgentSpec(ticker: string, asOf: string, file: NewsFile, polarity: string -> real,
                              cfg: SentimentThresholds): Result<SentimentAnalysis>
  {
    var news := NewsForAsOfDate(ticker, asOf, file);
    if news.Err? then Err(news.error)
    else
      AsOfNewsComplete(ticker, asOf, file);
      Ok(Analysis(news.value, ArticleScores(news.value, polarity), cfg))
  }

  /** `sentiment_agent`. */
  method RunSentimentAgent(ticker: string, asOf: string, file: NewsFile, polarity: string -> real, cfg: SentimentThresholds)
    returns (r: Result<SentimentAnalysis>)
    ensures r == SentimentAgentSpec(ticker, asOf, file, polarity, cfg)
  {
    var news := GetNewsForAsOfDate(ticker, asOf, file);
    if news.Err? {
      return Err(news.error);
    }
    var articles := news.value;
    AsOfNewsComplete(ticker, asOf, file);
    var scores: seq<real> := [];
    var i := 0;
    while i < |articles|
      invariant 0 <= i <= |articles|
      invariant ScoresArticles(scores, articles[..i], polarity)
    {
      scores := scores + [polarity(ArticleText(articles[i]))];
      i := i + 1;
    }
    assert articles[..i] == articles;
    assert scores == ArticleScores(articles, polarity);
    r := Ok(Analysis(articles, scores, cfg));
  }

  /** The metadata counts every article and shows the first five scores, and
      the rating is the threshold rule on the mean score (0 without articles). */
  lemma AnalysisFacts(articles: seq<Article>, scores: seq<real>, polarity: string -> real, cfg: SentimentThresholds)
    requires ScoresArticles(scores, articles, polarity)
    ensures var a := Analysis(articles, scores, cfg);
            && a.articleCount == |articles|
            && |a.individualScores| == (if |articles| < SHOWN_SCORES then |articles| else SHOWN_SCORES)
            && (forall i :: 0 <= i < |a.individualScores| ==> a.individualScores[i] == polarity(ArticleText(articles[i])))
            && (|articles| == 0 ==> a.decisionScore == 0.0)
            && (a.recommendation == BUY <==> a.decisionScore > cfg.buySentimentThreshold)
            && (a.recommendation == SELL <==>
                  a.decisionScore <= cfg.buySentimentThreshold && a.decisionScore < cfg.sellSentimentThreshold)
  {
  }

  /** Compound scores lie in [-1, 1], and so does their mean. */
  lemma DecisionScoreInRange(articles: seq<Article>, scores: seq<real>, polarity: string -> real, cfg: SentimentThresholds)
    requires ScoresArticles(scores, articles, polarity)
    requires forall text :: -1.0 <= polarity(text) <= 1.0
    ensures -1.0 <= Analysis(articles, scores, cfg).decisionScore <= 1.0
  {
    if |scores| > 0 {
      MeanBounds(scores, -1.0, 1.0);
    }
  }
}

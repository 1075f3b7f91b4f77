/** The news loader (`src/data_collectors/news_loader.py`): per-ticker JSON
    article lists, the required-field check, the as-of and date-range
    leakage filters, the data validator and the all-tickers convenience load.

    A news file is given by what reading and parsing it yields; its articles
    are objects with string fields. Dates are the articles' `YYYY-MM-DD`
    strings and are compared as strings, as the source does. */
module NewsLoader {
  import opened Wrappers
  import opened Strings
  import opened Sequences
  import opened Tickers

  type Article = map<string, string>

  const REQUIRED_FIELDS: seq<string> := ["title", "snippet", "date", "source"]
  const MIN_ARTICLES: nat := 5
  const MAX_ARTICLES: nat := 15

  /** What opening and parsing `data/news/<ticker>.json` yields. */
  datatype NewsFile =
    | Absent
    | Unreadable(reason: string)
    | InvalidJson(reason: string)
    | Loaded(articles: seq<Article>)

  function NewsPath(ticker: string): string
  {
    "data/news/" + ticker + ".json"
  }

  /** The article has every required field. */
  predicate Complete(a: Article)
  {
    "title" in a && "snippet" in a && "date" in a && "source" in a
  }

  /** `article['date']` of an article that has one. */
  function Date(a: Article): string
    requires Complete(a)
  {
    a["date"]
  }

  /** `[field for field in required_fields if field not in article]`. */
  function MissingFields(a: Article): (r: seq<string>)
    ensures forall i :: 0 <= i < |r| ==> r[i] in REQUIRED_FIELDS && r[i] !in a
    ensures |r| == 0 <==> Complete(a)
  {
    var r := Filter(REQUIRED_FIELDS, (f: string) => f !in a);
    MissingFieldsListed(a, r);
    r
  }

  lemma MissingFieldsListed(a: Article, r: seq<string>)
    requires r == Filter(REQUIRED_FIELDS, (f: string) => f !in a)
    ensures |r| == 0 <==> Complete(a)
  {
    if !Complete(a) {
      var k := if "title" !in a then 0 else if "snippet" !in a then 1 else if "date" !in a then 2 else 3;
      assert REQUIRED_FIELDS[k] !in a;
      assert REQUIRED_FIELDS[k] in r;
    }
    if |r| > 0 {
      assert r[0] in REQUIRED_FIELDS && r[0] !in a;
      assert r[0] == "title" || r[0] == "snippet" || r[0] == "date" || r[0] == "source";
    }
  }

  /** The first article from index `from` on that lacks a required field. */
  function FirstIncomplete(articles: seq<Article>, from: nat): (r: Option<nat>)
    requires from <= |articles|
    ensures r.None? ==> forall j :: from <= j < |articles| ==> Complete(articles[j])
    ensures r.Some? ==> from <= r.value < |articles| && !Complete(articles[r.value])
                        && forall j :: from <= j < r.value ==> Complete(articles[j])
    decreases |articles| - from
  {
    if from == |articles| then None
    else if !Complete(articles[from]) then Some(from)
    else FirstIncomplete(articles, from + 1)
  }

  /** `load_news_data`: an unsupported ticker raises `ValueError` before the
      file is touched; a missing file raises `FileNotFoundError`; invalid
      JSON raises `ValueError`; an article missing a field, or any other
      failure, is re-raised as a plain `Exception`. */
  function LoadNewsData(ticker: string, file: NewsFile): (r: Result<seq<Article>>)
    ensures ticker !in SUPPORTED_TICKERS ==> r == Err(UnsupportedTicker(ticker))
    ensures r.Ok? <==> ticker in SUPPORTED_TICKERS && file.Loaded? && forall i :: 0 <= i < |file.articles| ==> Complete(file.articles[i])
    ensures r.Ok? ==> r.value == file.articles
    ensures ticker in SUPPORTED_TICKERS && file.Absent? ==> r == Err(Error(FileNotFoundError, "News data not found: " + NewsPath(ticker)))
    ensures ticker in SUPPORTED_TICKERS && file.Loaded? && r.Err? ==> r.error.kind == GenericException
  {
    if ticker !in SUPPORTED_TICKERS then Err(UnsupportedTicker(ticker))
    else
      match file
      case Absent => Err(Error(FileNotFoundError, "News data not found: " + NewsPath(ticker)))
      case InvalidJson(e) => Err(Error(ValueError, "Invalid JSON in " + NewsPath(ticker) + ": " + e))
      case Unreadable(e) => Err(Error(GenericException, "Error loading news data for " + ticker + ": " + e))
      case Loaded(articles) =>
        var bad := FirstIncomplete(articles, 0);
        if bad.Some? then
          Err(Error(GenericException, "Error loading news data for " + ticker + ": Article " + NatToString(bad.value)
                                      + " missing fields: " + ReprList(MissingFields(articles[bad.value]))))
        else Ok(articles)
  }

  /** `article['date'] <= as_of_date`. */
  function OnOrBefore(asOf: string): Article -> bool
  {
    (a: Article) => "date" in a && LexLe(a["date"], asOf)
  }

  /** `start_date <= article['date'] <= end_date`. */
  function Within(start: string, end: string): Article -> bool
  {
    (a: Article) => "date" in a && LexLe(start, a["date"]) && LexLe(a["date"], end)
  }

  /** What `get_news_for_as_of_date` returns. */
  function NewsForAsOfDate(ticker: string, asOf: string, file: NewsFile): Result<seq<Article>>
  {
    var loaded := LoadNewsData(ticker, file);
    if loaded.Err? then Err(loaded.error) else Ok(Filter(loaded.value, OnOrBefore(asOf)))
  }

  /** What `get_news_for_date_range` returns. */
  function NewsForDateRange(ticker: string, start: string, end: string, file: NewsFile): Result<seq<Article>>
  {
    var loaded := LoadNewsData(ticker, file);
    if loaded.Err? then Err(loaded.error) else Ok(Filter(loaded.value, Within(start, end)))
  }

  /** `get_news_for_as_of_date`: the loaded articles dated on or before the
      as-of date, in file order; load errors propagate. */
  method GetNewsForAsOfDate(ticker: string, asOf: string, file: NewsFile) returns (r: Result<seq<Article>>)
    ensures r == NewsForAsOfDate(ticker, asOf, file)
  {
    var loaded := LoadNewsData(ticker, file);
    if loaded.Err? {
      return Err(loaded.error);
    }
    var filtered := KeepOnOrBefore(loaded.value, asOf);
    r := Ok(filtered);
  }

  /** The filtering loop of `get_news_for_as_of_date`. */
  method KeepOnOrBefore(articles: seq<Article>, asOf: string) returns (filtered: seq<Article>)
    requires forall i :: 0 <= i < |articles| ==> Complete(articles[i])
    ensures filtered == Filter(articles, OnOrBefore(asOf))
  {
    filtered := [];
    var i := 0;
    while i < |articles|
      invariant 0 <= i <= |articles|
      invariant filtered == Filter(articles[..i], OnOrBefore(asOf))
    {
      var article := articles[i];
      FilterPrefixStep(articles, i, OnOrBefore(asOf));
      if LexLe(Date(article), asOf) {
        filtered := filtered + [article];
      }
      i := i + 1;
    }
    assert articles[..|articles|] == articles;
  }

  /** `get_news_for_date_range`: the loaded articles dated from `start` to
      `end` inclusive, in file order; load errors propagate. */
  method GetNewsForDateRange(ticker: string, start: string, end: string, file: NewsFile) returns (r: Result<seq<Article>>)
    ensures r == NewsForDateRange(ticker, start, end, file)
  {
    var loaded := LoadNewsData(ticker, file);
    if loaded.Err? {
      return Err(loaded.error);
    }
    var filtered := KeepWithin(loaded.value, start, end);
    r := Ok(filtered);
  }

  /** The filtering loop of `get_news_for_date_range`. */
  method KeepWithin(articles: seq<Article>, start: string, end: string) returns (filtered: seq<Article>)
    requires forall i :: 0 <= i < |articles| ==> Complete(articles[i])
    ensures filtered == Filter(articles, Within(start, end))
  {
    filtered := [];
    var i := 0;
    while i < |articles|
      invariant 0 <= i <= |articles|
      invariant filtered == Filter(articles[..i], Within(start, end))
    {
      var article := articles[i];
      FilterPrefixStep(articles, i, Within(start, end));
      if LexLe(start, Date(article)) && LexLe(Date(article), end) {
        filtered := filtered + [article];
      }
      i := i + 1;
    }
    assert articles[..|articles|] == articles;
  }

  /** No leakage, nothing lost: the as-of filter keeps, in order, exactly the
      articles dated on or before the as-of date. */
  lemma AsOfFilterIsExact(articles: seq<Article>, asOf: string)
    requires forall i :: 0 <= i < |articles| ==> Complete(articles[i])
    ensures var r := Filter(articles, OnOrBefore(asOf));
            && IsSubsequence(r, articles)
            && (forall i :: 0 <= i < |r| ==> Complete(r[i]) && LexLe(Date(r[i]), asOf))
            && (forall i :: 0 <= i < |articles| && LexLe(Date(articles[i]), asOf) ==> articles[i] in r)
            && (forall a :: a in articles ==>
                  multiset(r)[a] == if LexLe(Date(a), asOf) then multiset(articles)[a] else 0)
  {
    FilterIsSubsequence(articles, OnOrBefore(asOf));
    FilterCounts(articles, OnOrBefore(asOf));
  }

  /** The range filter keeps, in order, exactly the articles dated within it. */
  lemma RangeFilterIsExact(articles: seq<Article>, start: string, end: string)
    requires forall i :: 0 <= i < |articles| ==> Complete(articles[i])
    ensures var r := Filter(articles, Within(start, end));
            && IsSubsequence(r, articles)
            && (forall i :: 0 <= i < |r| ==> Complete(r[i]) && LexLe(start, Date(r[i])) && LexLe(Date(r[i]), end))
            && (forall i :: 0 <= i < |articles| && LexLe(start, Date(articles[i])) && LexLe(Date(articles[i]), end)
                  ==> articles[i] in r)
            && (forall a :: a in articles ==>
                  multiset(r)[a] == if LexLe(start, Date(a)) && LexLe(Date(a), end) then multiset(articles)[a] else 0)
  {
    FilterIsSubsequence(articles, Within(start, end));
    FilterCounts(articles, Within(start, end));
  }

  /** Every article the as-of lookup returns has all four required fields. */
  lemma AsOfNewsComplete(ticker: string, asOf: string, file: NewsFile)
    requires NewsForAsOfDate(ticker, asOf, file).Ok?
    ensures var news := NewsForAsOfDate(ticker, asOf, file).value;
            forall i :: 0 <= i < |news| ==> Complete(news[i])
  {
    AsOfFilterIsExact(LoadNewsData(ticker, file).value, asOf);
  }

  /** A later as-of date sees every article an earlier one saw. */
  lemma AsOfFilterMonotone(articles: seq<Article>, earlier: string, later: string)
    requires LexLe(earlier, later)
    ensures IsSubsequence(Filter(articles, OnOrBefore(earlier)), Filter(articles, OnOrBefore(later)))
  {
    forall a | OnOrBefore(earlier)(a)
      ensures OnOrBefore(later)(a)
    {
      LexLeTransitive(a["date"], earlier, later);
    }
    FilterMonotone(articles, OnOrBefore(earlier), OnOrBefore(later));
  }

  // ---------------------------------------------------------------------
  // validate_news_data

  /** At most one issue about the article count. */
  function CountIssue(ticker: string, n: nat): (r: seq<string>)
    ensures |r| <= 1
    ensures |r| == 0 <==> MIN_ARTICLES <= n <= MAX_ARTICLES
  {
    if n == 0 then [ticker + ": No articles found"]
    else if n < MIN_ARTICLES then [ticker + ": Only " + NatToString(n) + " articles (minimum 5 recommended)"]
    else if n > MAX_ARTICLES then [ticker + ": " + NatToString(n) + " articles (maximum 15 recommended)"]
    else []
  }

  /** One issue per article among the first `n` whose date does not parse
      as `%Y-%m-%d`; `isDate` stands for that `strptime` check. */
  function DateIssues(ticker: string, articles: seq<Article>, n: nat, isDate: string -> bool): (r: seq<string>)
    requires n <= |articles|
    requires forall i :: 0 <= i < |articles| ==> Complete(articles[i])
    ensures |r| == 0 <==> forall i :: 0 <= i < n ==> isDate(Date(articles[i]))
  {
    if n == 0 then []
    else
      var d := Date(articles[n - 1]);
      DateIssues(ticker, articles, n - 1, isDate)
        + (if isDate(d) then [] else [ticker + " article " + NatToString(n - 1) + ": Invalid date format '" + d + "'"])
  }

  /** The issues recorded for one ticker. */
  function TickerIssues(ticker: string, file: NewsFile, isDate: string -> bool): seq<string>
  {
    if file.Absent? then ["Missing news file: " + NewsPath(ticker)]
    else
      var loaded := LoadNewsData(ticker, file);
      if loaded.Err? then [ticker + ": Error loading data - " + loaded.error.message]
      else CountIssue(ticker, |loaded.value|) + DateIssues(ticker, loaded.value, |loaded.value|, isDate)
  }

  /** The issues for each of `tickers`, in order. */
  function NewsIssues(tickers: seq<string>, files: string -> NewsFile, isDate: string -> bool): seq<string>
  {
    FlatMap(tickers, (k: string) => TickerIssues(k, files(k), isDate))
  }

  /** A supported ticker's news file passes validation: it loads, holds from
      5 to 15 articles and every date parses. */
  predicate WellStocked(ticker: string, file: NewsFile, isDate: string -> bool)
  {
    && ticker in SUPPORTED_TICKERS
    && file.Loaded?
    && (forall i :: 0 <= i < |file.articles| ==> Complete(file.articles[i]))
    && MIN_ARTICLES <= |file.articles| <= MAX_ARTICLES
    && forall i :: 0 <= i < |file.articles| ==> isDate(Date(file.articles[i]))
  }

  /** The checks `validate_news_data` makes on one ticker. */
  method ValidateTicker(ticker: string, file: NewsFile, isDate: string -> bool) returns (issues: seq<string>)
    ensures issues == TickerIssues(ticker, file, isDate)
  {
    if file.Absent? {
      return ["Missing news file: " + NewsPath(ticker)];
    }
    var loaded := LoadNewsData(ticker, file);
    if loaded.Err? {
      return [ticker + ": Error loading data - " + loaded.error.message];
    }
    var articles := loaded.value;
    var dateIssues := CheckDates(ticker, articles, isDate);
    issues := CountIssue(ticker, |articles|) + dateIssues;
  }

  /** The date-format loop of `validate_news_data`. */
  method CheckDates(ticker: string, articles: seq<Article>, isDate: string -> bool) returns (issues: seq<string>)
    requires forall i :: 0 <= i < |articles| ==> Complete(articles[i])
    ensures issues == DateIssues(ticker, articles, |articles|, isDate)
  {
    issues := [];
    var i := 0;
    while i < |articles|
      invariant 0 <= i <= |articles|
      invariant issues == DateIssues(ticker, articles, i, isDate)
    {
      var d := Date(articles[i]);
      if !isDate(d) {
        issues := issues + [ticker + " article " + NatToString(i) + ": Invalid date format '" + d + "'"];
      }
      i := i + 1;
    }
  }

  /** `validate_news_data`: every supported ticker's issues, in order; valid
      when there are none. */
  method ValidateNewsData(files: string -> NewsFile, isDate: string -> bool) returns (valid: bool, issues: seq<string>)
    ensures issues == NewsIssues(SUPPORTED_TICKERS, files, isDate)
    ensures valid <==> |issues| == 0
  {
    issues := [];
    var t := 0;
    while t < |SUPPORTED_TICKERS|
      invariant 0 <= t <= |SUPPORTED_TICKERS|
      invariant issues == NewsIssues(SUPPORTED_TICKERS[..t], files, isDate)
    {
      var ticker := SUPPORTED_TICKERS[t];
      var found := ValidateTicker(ticker, files(ticker), isDate);
      FlatMapSnoc(SUPPORTED_TICKERS[..t], ticker, (k: string) => TickerIssues(k, files(k), isDate));
      assert SUPPORTED_TICKERS[..t + 1] == SUPPORTED_TICKERS[..t] + [ticker];
      issues := issues + found;
      t := t + 1;
    }
    assert SUPPORTED_TICKERS[..t] == SUPPORTED_TICKERS;
    valid := |issues| == 0;
  }

  /** One ticker raises no issue exactly when its file is well stocked. */
  lemma TickerIssuesEmptyIff(ticker: string, file: NewsFile, isDate: string -> bool)
    requires ticker in SUPPORTED_TICKERS
    ensures |TickerIssues(ticker, file, isDate)| == 0 <==> WellStocked(ticker, file, isDate)
  {
  }

  /** Validation passes exactly when every listed ticker's file is well stocked. */
  lemma NewsIssuesEmptyIff(tickers: seq<string>, files: string -> NewsFile, isDate: string -> bool)
    requires forall i :: 0 <= i < |tickers| ==> tickers[i] in SUPPORTED_TICKERS
    ensures |NewsIssues(tickers, files, isDate)| == 0 <==>
            forall i :: 0 <= i < |tickers| ==> WellStocked(tickers[i], files(tickers[i]), isDate)
  {
    FlatMapEmptyIff(tickers, (k: string) => TickerIssues(k, files(k), isDate));
    forall i | 0 <= i < |tickers|
      ensures |TickerIssues(tickers[i], files(tickers[i]), isDate)| == 0 <==> WellStocked(tickers[i], files(tickers[i]), isDate)
    {
      TickerIssuesEmptyIff(tickers[i], files(tickers[i]), isDate);
    }
  }

  // ---------------------------------------------------------------------
  // load_all_news_for_as_of_date

  /** One entry per supported ticker: its as-of news, or `[]` when loading failed. */
  method LoadAllNewsForAsOfDate(asOf: string, files: string -> NewsFile) returns (news: map<string, seq<Article>>)
    ensures news.Keys == set i | 0 <= i < |SUPPORTED_TICKERS| :: SUPPORTED_TICKERS[i]
    ensures forall i :: 0 <= i < |SUPPORTED_TICKERS| ==>
              var r := NewsForAsOfDate(SUPPORTED_TICKERS[i], asOf, files(SUPPORTED_TICKERS[i]));
              news[SUPPORTED_TICKERS[i]] == if r.Ok? then r.value else []
  {
    news := map[];
    var t := 0;
    while t < |SUPPORTED_TICKERS|
      invariant 0 <= t <= |SUPPORTED_TICKERS|
      invariant news.Keys == set i | 0 <= i < t :: SUPPORTED_TICKERS[i]
      invariant forall i :: 0 <= i < t ==>
                  var r := NewsForAsOfDate(SUPPORTED_TICKERS[i], asOf, files(SUPPORTED_TICKERS[i]));
                  news[SUPPORTED_TICKERS[i]] == if r.Ok? then r.value else []
    {
      var ticker := SUPPORTED_TICKERS[t];
      var r := GetNewsForAsOfDate(ticker, asOf, files(ticker));
      news := news[ticker := if r.Ok? then r.value else []];
      t := t + 1;
    }
  }
}

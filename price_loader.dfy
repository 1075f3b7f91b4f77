/** The price loader (`src/data_collectors/price_loader.py`): ticker
    validation, the per-ticker API-then-cache fallback, the cached-row date
    filter, the (ticker, date) ordering of the combined table, the fetch
    window and the cache-coverage check.

    The API request is the parameter `fetch`; each ticker's cache file is
    given by what reading it yields. */
module PriceLoader {
  import opened Wrappers
  import opened Strings
  import opened Sequences
  import opened Tickers
  import opened PriceTable

  const DEFAULT_LOOKBACK_DAYS: int := 90
  const DEFAULT_FORWARD_DAYS: int := 90
  const CACHE_DIR: string := "data/raw/prices"
  const REQUIRED_COLUMNS: seq<string> := ["date", "ticker", "open", "high", "low", "close", "volume"]

  /** `_fetch_from_api(ticker, start, end)`: the ticker's rows, or the failure. */
  type Fetcher = (Ticker, Day, Day) -> Result<Table>

  /** What reading `data/raw/prices/<ticker>.csv` yields: nothing, a failure
      of the CSV reader or of the date conversion, or its header and rows. */
  datatype CacheFile =
    | NoCache
    | Unreadable(detail: string)
    | Cached(columns: seq<string>, rows: Table)

  function CachePath(ticker: Ticker): string
  {
    CACHE_DIR + "/" + ticker + ".csv"
  }

  // ---------------------------------------------------------------------
  // calculate_date_range

  /** `calculate_date_range`: `(as_of - lookback, as_of + forward)` in days. */
  function CalculateDateRange(asOf: Day, lookbackDays: int, forwardDays: int): (Day, Day)
  {
    (asOf - lookbackDays, asOf + forwardDays)
  }

  /** The window reaches back `lookbackDays` and forward `forwardDays` from
      the as-of date, so it holds the as-of date when neither is negative. */
  lemma DateRangeAroundAsOf(asOf: Day, lookbackDays: int, forwardDays: int)
    ensures var (start, end) := CalculateDateRange(asOf, lookbackDays, forwardDays);
            && asOf - start == lookbackDays
            && end - asOf == forwardDays
            && (lookbackDays >= 0 && forwardDays >= 0 ==> start <= asOf <= end)
  {
  }

  // ---------------------------------------------------------------------
  // _load_cached_data

  /** `start <= row.date <= end`. */
  function InRange(start: Day, end: Day): PriceRow -> bool
  {
    (row: PriceRow) => start <= row.date <= end
  }

  /** `Exception(f"Failed to load cached data for {ticker}: {e}")`. */
  function CacheFailure(ticker: Ticker, detail: string): Error
  {
    Error(GenericException, "Failed to load cached data for " + ticker + ": " + detail)
  }

  /** `_load_cached_data`: a missing file raises `FileNotFoundError` as is;
      every later failure is re-raised as a plain `Exception` naming the
      ticker. Reading `df['date']` without that column raises `KeyError('date')`,
      and the minimum date of an empty file is NaN, which a date cannot be
      compared with. */
  function LoadCachedData(ticker: Ticker, start: Day, end: Day, cache: CacheFile): (r: Result<Table>)
    ensures r.Ok? <==> cache.Cached? && (forall i :: 0 <= i < |REQUIRED_COLUMNS| ==> REQUIRED_COLUMNS[i] in cache.columns)
                       && |Filter(cache.rows, InRange(start, end))| > 0
    ensures r.Ok? ==> r.value == Filter(cache.rows, InRange(start, end))
    ensures cache.NoCache? ==> r == Err(Error(FileNotFoundError, "No cached data found for " + ticker + " at " + CachePath(ticker)))
    ensures !cache.NoCache? && r.Err? ==> r.error.kind == GenericException
  {
    match cache
    case NoCache => Err(Error(FileNotFoundError, "No cached data found for " + ticker + " at " + CachePath(ticker)))
    case Unreadable(e) => Err(CacheFailure(ticker, e))
    case Cached(columns, rows) =>
      var missing := Filter(REQUIRED_COLUMNS, (c: string) => c !in columns);
      MissingColumnsListed(columns, missing);
      if "date" !in columns then
        assert REQUIRED_COLUMNS[0] !in columns;
        Err(CacheFailure(ticker, Quote("date")))
      else if |missing| > 0 then Err(CacheFailure(ticker, "Cached data missing columns: " + ReprList(missing)))
      else if |rows| == 0 then
        Err(CacheFailure(ticker, "'<' not supported between instances of 'datetime.date' and 'float'"))
      else
        var filtered := Filter(rows, InRange(start, end));
        if |filtered| == 0 then Err(CacheFailure(ticker, "No cached data in requested date range for " + ticker))
        else Ok(filtered)
  }

  lemma MissingColumnsListed(columns: seq<string>, missing: seq<string>)
    requires missing == Filter(REQUIRED_COLUMNS, (c: string) => c !in columns)
    ensures |missing| == 0 <==> forall i :: 0 <= i < |REQUIRED_COLUMNS| ==> REQUIRED_COLUMNS[i] in columns
  {
    if |missing| > 0 {
      assert missing[0] in REQUIRED_COLUMNS && missing[0] !in columns;
    }
  }

  /** The cached rows returned are exactly the file's rows dated within the
      requested window, in file order, and there is at least one. */
  lemma CachedRowsInWindow(ticker: Ticker, start: Day, end: Day, cache: CacheFile)
    requires LoadCachedData(ticker, start, end, cache).Ok?
    ensures var rows := LoadCachedData(ticker, start, end, cache).value;
            && |rows| > 0
            && IsSubsequence(rows, cache.rows)
            && (forall i :: 0 <= i < |rows| ==> start <= rows[i].date <= end)
            && (forall i :: 0 <= i < |cache.rows| && start <= cache.rows[i].date <= end ==> cache.rows[i] in rows)
  {
    FilterIsSubsequence(cache.rows, InRange(start, end));
  }

  // ---------------------------------------------------------------------
  // Ordering of the combined table

  /** `sort_values(['ticker', 'date'])` order. */
  predicate RowLe(a: PriceRow, b: PriceRow)
  {
    LexLess(a.ticker, b.ticker) || (a.ticker == b.ticker && a.date <= b.date)
  }

  predicate SortedByTickerDate(t: Table)
  {
    forall i :: 0 <= i < |t| - 1 ==> RowLe(t[i], t[i + 1])
  }

  lemma RowLeTotal(a: PriceRow, b: PriceRow)
    ensures RowLe(a, b) || RowLe(b, a)
  {
    LexLessTotal(a.ticker, b.ticker);
  }

  /** Insert a row before the first row it does not follow. */
  function InsertRow(row: PriceRow, s: Table): (r: Table)
    requires SortedByTickerDate(s)
    ensures SortedByTickerDate(r)
    ensures multiset(r) == multiset(s) + multiset{row}
    ensures |r| == |s| + 1
    ensures r[0] == row || (|s| > 0 && r[0] == s[0])
  {
    if |s| == 0 then [row]
    else if RowLe(row, s[0]) then [row] + s
    else
      RowLeTotal(row, s[0]);
      var rest := InsertRow(row, s[1..]);
      assert s == [s[0]] + s[1..];
      [s[0]] + rest
  }

  /** The combined table in (ticker, date) order: sorted, and a permutation
      of its input. */
  function SortByTickerDate(t: Table): (r: Table)
    ensures SortedByTickerDate(r)
    ensures multiset(r) == multiset(t)
  {
    if |t| == 0 then []
    else
      assert t == [t[0]] + t[1..];
      InsertRow(t[0], SortByTickerDate(t[1..]))
  }

  // ---------------------------------------------------------------------
  // get_price_data

  /** One ticker's rows: the API's when it answers, else the cache's, else none. */
  function TickerPart(ticker: Ticker, start: Day, end: Day, fetch: Fetcher, caches: Ticker -> CacheFile): (r: seq<Table>)
    ensures |r| <= 1
  {
    var api := fetch(ticker, start, end);
    if api.Ok? then [api.value]
    else
      var cached := LoadCachedData(ticker, start, end, caches(ticker));
      if cached.Ok? then [cached.value] else []
  }

  /** `all_data`: the parts of the tickers that loaded, in request order. */
  function LoadedParts(tickers: seq<Ticker>, start: Day, end: Day, fetch: Fetcher, caches: Ticker -> CacheFile): seq<Table>
  {
    FlatMap(tickers, (k: Ticker) => TickerPart(k, start, end, fetch, caches))
  }

  /** `pd.concat(all_data)`. */
  function Concat(parts: seq<Table>): Table
  {
    FlatMap(parts, (p: Table) => p)
  }

  function UnsupportedTickers(tickers: seq<Ticker>): seq<Ticker>
  {
    Filter(tickers, (k: Ticker) => k !in SUPPORTED_TICKERS)
  }

  /** What `get_price_data` returns. */
  function PriceDataSpec(tickers: seq<Ticker>, start: Day, end: Day, fetch: Fetcher, caches: Ticker -> CacheFile): Result<Table>
  {
    var invalid := UnsupportedTickers(tickers);
    if |invalid| > 0 then
      Err(Error(ValueError, "Unsupported tickers: " + ReprList(invalid) + ". Supported: " + ReprList(SUPPORTED_TICKERS)))
    else
      var parts := LoadedParts(tickers, start, end, fetch, caches);
      if |parts| == 0 then Err(Error(ValueError, "Failed to load price data for any ticker"))
      else Ok(SortByTickerDate(Concat(parts)))
  }

  /** `get_price_data`: reject unsupported tickers, then try each ticker's
      API and fall back to its cache, skipping a ticker that fails both. */
  method GetPriceData(tickers: seq<Ticker>, start: Day, end: Day, fetch: Fetcher, caches: Ticker -> CacheFile)
    returns (r: Result<Table>)
    ensures r == PriceDataSpec(tickers, start, end, fetch, caches)
  {
    var invalid := UnsupportedTickers(tickers);
    if |invalid| > 0 {
      return Err(Error(ValueError, "Unsupported tickers: " + ReprList(invalid) + ". Supported: " + ReprList(SUPPORTED_TICKERS)));
    }
    var allData: seq<Table> := [];
    var i := 0;
    while i < |tickers|
      invariant 0 <= i <= |tickers|
      invariant allData == LoadedParts(tickers[..i], start, end, fetch, caches)
    {
      var ticker := tickers[i];
      FlatMapSnoc(tickers[..i], ticker, (k: Ticker) => TickerPart(k, start, end, fetch, caches));
      assert tickers[..i + 1] == tickers[..i] + [ticker];
      var api := fetch(ticker, start, end);
      if api.Ok? {
        allData := allData + [api.value];
      } else {
        var cached := LoadCachedData(ticker, start, end, caches(ticker));
        if cached.Ok? {
          allData := allData + [cached.value];
        }
      }
      i := i + 1;
    }
    assert tickers[..i] == tickers;
    if |allData| == 0 {
      return Err(Error(ValueError, "Failed to load price data for any ticker"));
    }
    r := Ok(SortByTickerDate(Concat(allData)));
  }

  /** An unsupported ticker anywhere in the request fails it before any
      fetch: the outcome does not depend on the API or the caches. */
  lemma UnsupportedRejectedBeforeFetch(tickers: seq<Ticker>, i: nat, start: Day, end: Day,
                                       fetch1: Fetcher, caches1: Ticker -> CacheFile,
                                       fetch2: Fetcher, caches2: Ticker -> CacheFile)
    requires i < |tickers| && tickers[i] !in SUPPORTED_TICKERS
    ensures PriceDataSpec(tickers, start, end, fetch1, caches1).Err?
    ensures PriceDataSpec(tickers, start, end, fetch1, caches1) == PriceDataSpec(tickers, start, end, fetch2, caches2)
  {
    assert tickers[i] in UnsupportedTickers(tickers);
  }

  /** The request fails exactly when a ticker is unsupported or every ticker
      fails both the API and the cache. */
  lemma FailsIffNothingLoads(tickers: seq<Ticker>, start: Day, end: Day, fetch: Fetcher, caches: Ticker -> CacheFile)
    ensures PriceDataSpec(tickers, start, end, fetch, caches).Err? <==>
            (exists i :: 0 <= i < |tickers| && tickers[i] !in SUPPORTED_TICKERS)
            || forall i :: 0 <= i < |tickers| ==>
                 fetch(tickers[i], start, end).Err? && LoadCachedData(tickers[i], start, end, caches(tickers[i])).Err?
  {
    FlatMapEmptyIff(tickers, (k: Ticker) => TickerPart(k, start, end, fetch, caches));
    var invalid := UnsupportedTickers(tickers);
    if |invalid| > 0 {
      assert invalid[0] in tickers;
    }
  }

  /** The combined table is in (ticker, date) order and holds exactly the
      loaded rows. */
  lemma PriceDataSortedPermutation(tickers: seq<Ticker>, start: Day, end: Day, fetch: Fetcher, caches: Ticker -> CacheFile)
    requires PriceDataSpec(tickers, start, end, fetch, caches).Ok?
    ensures SortedByTickerDate(PriceDataSpec(tickers, start, end, fetch, caches).value)
    ensures multiset(PriceDataSpec(tickers, start, end, fetch, caches).value)
            == multiset(Concat(LoadedParts(tickers, start, end, fetch, caches)))
  {
  }

  /** For one ticker, the API's rows win; without them the cache's rows
      within the window; without either the request fails. */
  lemma SingleTickerFallback(ticker: Ticker, start: Day, end: Day, fetch: Fetcher, caches: Ticker -> CacheFile)
    requires ticker in SUPPORTED_TICKERS
    ensures var r := PriceDataSpec([ticker], start, end, fetch, caches);
            var api := fetch(ticker, start, end);
            var cached := LoadCachedData(ticker, start, end, caches(ticker));
            && (api.Ok? ==> r.Ok? && multiset(r.value) == multiset(api.value))
            && (api.Err? && cached.Ok? ==> r.Ok? && multiset(r.value) == multiset(cached.value))
            && (api.Err? && cached.Err? ==> r == Err(Error(ValueError, "Failed to load price data for any ticker")))
  {
    var f := (k: Ticker) => TickerPart(k, start, end, fetch, caches);
    assert [ticker][..0] == [];
    assert LoadedParts([ticker], start, end, fetch, caches) == FlatMap([ticker][..0], f) + f(ticker);
    var part := TickerPart(ticker, start, end, fetch, caches);
    if |part| == 1 {
      assert Concat(part) == FlatMap(part[..0], (p: Table) => p) + part[0];
      assert part[..0] == [];
    }
  }

  // ---------------------------------------------------------------------
  // validate_for_as_of_date

  /** Why a ticker's cache cannot serve the window. */
  datatype CoverageGap =
    | NoCacheFile
    | RangeGap(availableStart: Day, availableEnd: Day)
    | CorruptCache

  /** The gap `validate_for_as_of_date` records for one cache, if any. Only
      the `date` column is read; a missing column, a failed read and the NaN
      minimum of an empty file all land in the `corrupt cache` branch. */
  function CacheGap(cache: CacheFile, start: Day, end: Day): (r: seq<CoverageGap>)
    ensures |r| <= 1
  {
    match cache
    case NoCache => [NoCacheFile]
    case Unreadable(_) => [CorruptCache]
    case Cached(columns, rows) =>
      if "date" !in columns || |rows| == 0 then [CorruptCache]
      else
        var lo := EarliestRow(rows).date;
        var hi := LatestRow(rows).date;
        if start < lo || end > hi then [RangeGap(lo, hi)] else []
  }

  /** A cache covers a window when it has dated rows on or before its start
      and on or after its end. */
  predicate Covers(cache: CacheFile, start: Day, end: Day)
  {
    && cache.Cached? && "date" in cache.columns
    && (exists i :: 0 <= i < |cache.rows| && cache.rows[i].date <= start)
    && (exists i :: 0 <= i < |cache.rows| && cache.rows[i].date >= end)
  }

  lemma CacheGapEmptyIffCovers(cache: CacheFile, start: Day, end: Day)
    ensures |CacheGap(cache, start, end)| == 0 <==> Covers(cache, start, end)
  {
    if cache.Cached? && "date" in cache.columns && |cache.rows| > 0 {
      var rows := cache.rows;
      var lo := EarliestRow(rows);
      var hi := LatestRow(rows);
      if start >= lo.date && end <= hi.date {
        var a :| 0 <= a < |rows| && rows[a] == lo;
        var b :| 0 <= b < |rows| && rows[b] == hi;
        assert rows[a].date <= start && rows[b].date >= end;
      }
      if Covers(cache, start, end) {
        var i :| 0 <= i < |rows| && rows[i].date <= start;
        var j :| 0 <= j < |rows| && rows[j].date >= end;
        assert rows[i] in rows && rows[j] in rows;
      }
    }
  }

  /** What `validate_for_as_of_date` returns: with an API key, always true;
      otherwise true when no supported ticker's cache has a gap in the
      default window around the as-of date. */
  function AsOfDateSupported(asOf: Day, apiKey: string, caches: Ticker -> CacheFile): bool
  {
    var (start, end) := CalculateDateRange(asOf, DEFAULT_LOOKBACK_DAYS, DEFAULT_FORWARD_DAYS);
    |apiKey| > 0 || |FlatMap(SUPPORTED_TICKERS, (k: Ticker) => CacheGap(caches(k), start, end))| == 0
  }

  /** `validate_for_as_of_date`. */
  method ValidateForAsOfDate(asOf: Day, apiKey: string, caches: Ticker -> CacheFile) returns (ok: bool)
    ensures ok == AsOfDateSupported(asOf, apiKey, caches)
  {
    var (start, end) := CalculateDateRange(asOf, DEFAULT_LOOKBACK_DAYS, DEFAULT_FORWARD_DAYS);
    if |apiKey| > 0 {
      return true;
    }
    var missing: seq<CoverageGap> := [];
    var t := 0;
    while t < |SUPPORTED_TICKERS|
      invariant 0 <= t <= |SUPPORTED_TICKERS|
      invariant missing == FlatMap(SUPPORTED_TICKERS[..t], (k: Ticker) => CacheGap(caches(k), start, end))
    {
      var ticker := SUPPORTED_TICKERS[t];
      FlatMapSnoc(SUPPORTED_TICKERS[..t], ticker, (k: Ticker) => CacheGap(caches(k), start, end));
      assert SUPPORTED_TICKERS[..t + 1] == SUPPORTED_TICKERS[..t] + [ticker];
      missing := missing + CacheGap(caches(ticker), start, end);
      t := t + 1;
    }
    assert SUPPORTED_TICKERS[..t] == SUPPORTED_TICKERS;
    ok := |missing| == 0;
  }

  /** Without an API key an as-of date is supported exactly when every
      supported ticker's cache covers the window from 90 days before it to
      90 days after it. */
  lemma SupportedIffCachesCover(asOf: Day, apiKey: string, caches: Ticker -> CacheFile)
    ensures AsOfDateSupported(asOf, apiKey, caches) <==>
            |apiKey| > 0 || forall i :: 0 <= i < |SUPPORTED_TICKERS| ==>
                              Covers(caches(SUPPORTED_TICKERS[i]), asOf - DEFAULT_LOOKBACK_DAYS, asOf + DEFAULT_FORWARD_DAYS)
  {
    var start := asOf - DEFAULT_LOOKBACK_DAYS;
    var end := asOf + DEFAULT_FORWARD_DAYS;
    FlatMapEmptyIff(SUPPORTED_TICKERS, (k: Ticker) => CacheGap(caches(k), start, end));
    forall i | 0 <= i < |SUPPORTED_TICKERS|
      ensures |CacheGap(caches(SUPPORTED_TICKERS[i]), start, end)| == 0 <==> Covers(caches(SUPPORTED_TICKERS[i]), start, end)
    {
      CacheGapEmptyIffCovers(caches(SUPPORTED_TICKERS[i]), start, end);
    }
  }
}

/** The fundamental-data loader (`src/data_collectors/fundamental_loader.py`):
    one JSON factsheet per ticker mapping metric names to records with a
    `value` and a `score`. The file is given by what opening and parsing it
    yields; its content is a parsed JSON value. */
module FundamentalLoader {
  import opened Wrappers
  import opened Strings
  import opened PyValue
  import opened Numbers
  import opened Sequences
  import opened Tickers

  /** What opening and parsing `data/fundamentals/<ticker>.json` yields. */
  datatype FundamentalFile =
    | Absent
    | InvalidJson(detail: string)
    | Unreadable(detail: string)
    | Parsed(data: Value)

  const FUNDAMENTALS_DIR: string := "data/fundamentals"
  const NEUTRAL_SCORE: real := 3.0
  const MIN_SCORE: real := 1.0
  const MAX_SCORE: real := 5.0

  function FundamentalPath(ticker: string): string
  {
    FUNDAMENTALS_DIR + "/" + ticker + ".json"
  }

  /** `load_fundamental_data`: the ticker is checked before the file is
      looked at; a missing file, invalid JSON and any other read failure
      raise `FileNotFoundError`, `ValueError` and `RuntimeError`. */
  function LoadFundamentalData(ticker: string, file: FundamentalFile): (r: Result<Value>)
    ensures ticker !in SUPPORTED_TICKERS ==> r == Err(UnsupportedTicker(ticker))
    ensures r.Ok? <==> ticker in SUPPORTED_TICKERS && file.Parsed?
    ensures r.Ok? ==> r.value == file.data
    ensures ticker in SUPPORTED_TICKERS && file.Absent? ==> r.Err? && r.error.kind == FileNotFoundError
    ensures ticker in SUPPORTED_TICKERS && file.InvalidJson? ==> r.Err? && r.error.kind == ValueError
    ensures ticker in SUPPORTED_TICKERS && file.Unreadable? ==> r.Err? && r.error.kind == RuntimeError
  {
    if ticker !in SUPPORTED_TICKERS then Err(UnsupportedTicker(ticker))
    else
      match file
      case Absent => Err(Error(FileNotFoundError, "Fundamental data file not found: " + FundamentalPath(ticker)))
      case InvalidJson(e) => Err(Error(ValueError, "Invalid JSON in fundamental file " + FundamentalPath(ticker) + ": " + e))
      case Unreadable(e) => Err(Error(RuntimeError, "Error loading fundamental file " + FundamentalPath(ticker) + ": " + e))
      case Parsed(data) => Ok(data)
  }

  // ---------------------------------------------------------------------
  // get_metric_value / get_metric_score

  /** `data[metric][field] if metric in data and field in data[metric] else
      None`, with every exception on the way read as `None`. */
  function MetricField(data: Value, metric: string, field: string): Option<Value>
  {
    var hasMetric := Contains(data, metric);
    if hasMetric.Err? || !hasMetric.value then None
    else
      var record := GetItem(data, metric);
      if record.Err? then None
      else
        var hasField := Contains(record.value, field);
        if hasField.Err? || !hasField.value then None
        else
          var found := GetItem(record.value, field);
          if found.Err? then None else Some(found.value)
  }

  /** A field is found exactly when the data is an object whose metric is an
      object holding the field. */
  lemma MetricFieldIff(data: Value, metric: string, field: string, v: Value)
    ensures MetricField(data, metric, field) == Some(v) <==>
            && data.VDict?
            && Lookup(data.entries, metric).Some?
            && Lookup(data.entries, metric).value.VDict?
            && Lookup(Lookup(data.entries, metric).value.entries, field) == Some(v)
  {
    if data.VDict? && Lookup(data.entries, metric).Some? {
      var record := Lookup(data.entries, metric).value;
      assert GetItem(data, metric) == Ok(record);
    }
  }

  /** The shared body of `get_metric_value` and `get_metric_score`: load
      the file, then look up `field` of `metric`; `None` on any error. */
  function LoadedMetricField(ticker: string, metric: string, field: string, file: FundamentalFile): (r: Option<Value>)
    ensures r.Some? ==> ticker in SUPPORTED_TICKERS && file.Parsed?
  {
    var loaded := LoadFundamentalData(ticker, file);
    if loaded.Err? then None else MetricField(loaded.value, metric, field)
  }

  /** `get_metric_value`. */
  function GetMetricValue(ticker: string, metric: string, file: FundamentalFile): Option<Value>
  {
    LoadedMetricField(ticker, metric, "value", file)
  }

  /** `get_metric_score`. */
  function GetMetricScore(ticker: string, metric: string, file: FundamentalFile): Option<Value>
  {
    LoadedMetricField(ticker, metric, "score", file)
  }

  /** A metric's field is reported exactly when the ticker is supported, its
      file parses to an object, and that metric is an object holding the
      field; every other case, errors included, gives `None`. */
  lemma LoadedMetricFieldIff(ticker: string, metric: string, field: string, file: FundamentalFile, v: Value)
    ensures LoadedMetricField(ticker, metric, field, file) == Some(v) <==>
            && ticker in SUPPORTED_TICKERS && file.Parsed? && file.data.VDict?
            && Lookup(file.data.entries, metric).Some? && Lookup(file.data.entries, metric).value.VDict?
            && Lookup(Lookup(file.data.entries, metric).value.entries, field) == Some(v)
  {
    if ticker in SUPPORTED_TICKERS && file.Parsed? {
      MetricFieldIff(file.data, metric, field, v);
    }
  }

  // ---------------------------------------------------------------------
  // get_fundamentals_summary

  /** The `value` of each metric that has one, in file order; `None` when a
      metric record cannot be tested or indexed. */
  function SummaryEntries(metrics: seq<(string, Value)>): (r: Option<seq<(string, Value)>>)
    ensures r.Some? ==> |r.value| <= |metrics|
  {
    if |metrics| == 0 then Some([])
    else
      var init := SummaryEntries(metrics[..|metrics| - 1]);
      var (name, record) := metrics[|metrics| - 1];
      var has := Contains(record, "value");
      if init.None? || has.Err? then None
      else if !has.value then init
      else
        var v := GetItem(record, "value");
        if v.Err? then None else Some(init.value + [(name, v.value)])
  }

  /** What `get_fundamentals_summary` returns: `{}` on any error. */
  function FundamentalsSummary(ticker: string, file: FundamentalFile): seq<(string, Value)>
  {
    var loaded := LoadFundamentalData(ticker, file);
    if loaded.Err? then []
    else
      var items := Items(loaded.value);
      if items.Err? then []
      else
        var s := SummaryEntries(items.value);
        if s.None? then [] else s.value
  }

  /** `get_fundamentals_summary`. */
  method GetFundamentalsSummary(ticker: string, file: FundamentalFile) returns (summary: seq<(string, Value)>)
    ensures summary == FundamentalsSummary(ticker, file)
  {
    var loaded := LoadFundamentalData(ticker, file);
    if loaded.Err? {
      return [];
    }
    var items := Items(loaded.value);
    if items.Err? {
      return [];
    }
    var metrics := items.value;
    summary := [];
    var i := 0;
    while i < |metrics|
      invariant 0 <= i <= |metrics|
      invariant SummaryEntries(metrics[..i]) == Some(summary)
    {
      var (name, record) := metrics[i];
      assert metrics[..i + 1][..i] == metrics[..i];
      var has := Contains(record, "value");
      if has.Err? {
        SummaryFailureSticks(metrics, i + 1);
        return [];
      }
      if has.value {
        var v := GetItem(record, "value");
        if v.Err? {
          SummaryFailureSticks(metrics, i + 1);
          return [];
        }
        summary := summary + [(name, v.value)];
      }
      i := i + 1;
    }
    assert metrics[..i] == metrics;
  }

  /** Once a prefix fails, the whole summary fails. */
  lemma {:induction false} SummaryFailureSticks(metrics: seq<(string, Value)>, n: nat)
    requires n <= |metrics|
    requires SummaryEntries(metrics[..n]).None?
    ensures SummaryEntries(metrics).None?
    decreases |metrics| - n
  {
    if n < |metrics| {
      assert metrics[..n + 1][..n] == metrics[..n];
      SummaryFailureSticks(metrics, n + 1);
    } else {
      assert metrics[..n] == metrics;
    }
  }

  /** The `value` a metric record holds, when it is an object holding one. */
  function ValueOf(record: Value): Option<Value>
  {
    if record.VDict? then Lookup(record.entries, "value") else None
  }

  /** `entry` is some metric's name paired with that metric's `value`. */
  predicate IsMetricValue(metrics: seq<(string, Value)>, entry: (string, Value))
  {
    exists i :: 0 <= i < |metrics| && ValueOf(metrics[i].1).Some? && entry == (metrics[i].0, ValueOf(metrics[i].1).value)
  }

  /** Whenever the summary succeeds, each entry is a metric's name paired
      with that metric's `value`. */
  lemma {:induction false} SummaryIsSound(metrics: seq<(string, Value)>)
    requires SummaryEntries(metrics).Some?
    ensures forall j :: 0 <= j < |SummaryEntries(metrics).value| ==> IsMetricValue(metrics, SummaryEntries(metrics).value[j])
    decreases |metrics|
  {
    if |metrics| > 0 {
      var init := metrics[..|metrics| - 1];
      var last := |metrics| - 1;
      SummaryStep(metrics);
      SummaryIsSound(init);
      var s0 := SummaryEntries(init).value;
      var s := SummaryEntries(metrics).value;
      forall j | 0 <= j < |s|
        ensures IsMetricValue(metrics, s[j])
      {
        if j < |s0| {
          assert s[j] == s0[j] && IsMetricValue(init, s0[j]);
          var i :| 0 <= i < |init| && ValueOf(init[i].1).Some? && s0[j] == (init[i].0, ValueOf(init[i].1).value);
          assert metrics[i] == init[i];
        } else {
          assert s == s0 + [(metrics[last].0, ValueOf(metrics[last].1).value)];
          assert s[j] == (metrics[last].0, ValueOf(metrics[last].1).value);
        }
      }
    }
  }

  /** A successful summary extends the summary of all but the last metric by
      the last metric's `value`, if it holds one. */
  lemma SummaryStep(metrics: seq<(string, Value)>)
    requires |metrics| > 0 && SummaryEntries(metrics).Some?
    ensures var init := metrics[..|metrics| - 1];
            var last := metrics[|metrics| - 1];
            && SummaryEntries(init).Some?
            && SummaryEntries(metrics).value ==
                 if ValueOf(last.1).Some? then SummaryEntries(init).value + [(last.0, ValueOf(last.1).value)]
                 else SummaryEntries(init).value
  {
  }

  /** Whenever the summary succeeds, every metric holding a `value` appears
      in it with that value. */
  lemma {:induction false} SummaryIsComplete(metrics: seq<(string, Value)>)
    requires SummaryEntries(metrics).Some?
    ensures forall i :: 0 <= i < |metrics| && ValueOf(metrics[i].1).Some? ==>
              (metrics[i].0, ValueOf(metrics[i].1).value) in SummaryEntries(metrics).value
    decreases |metrics|
  {
    if |metrics| > 0 {
      var init := metrics[..|metrics| - 1];
      assert forall i :: 0 <= i < |init| ==> init[i] == metrics[i];
      SummaryIsComplete(init);
    }
  }

  /** Reading `field` of one metric raises: `field in metric_data` on a value
      that is not a container, or `metric_data[field]` after a list or
      string said it holds `field`. */
  predicate FieldRaises(record: Value, field: string)
  {
    var has := Contains(record, field);
    has.Err? || (has.value && GetItem(record, field).Err?)
  }

  /** The summary fails exactly when some metric raises. */
  lemma {:induction false} SummaryFailsIffSomeMetricRaises(metrics: seq<(string, Value)>)
    ensures SummaryEntries(metrics).None? <==> exists i :: 0 <= i < |metrics| && FieldRaises(metrics[i].1, "value")
    decreases |metrics|
  {
    if |metrics| > 0 {
      var init := metrics[..|metrics| - 1];
      assert forall i :: 0 <= i < |init| ==> init[i] == metrics[i];
      SummaryFailsIffSomeMetricRaises(init);
      if SummaryEntries(metrics).None? && !FieldRaises(metrics[|metrics| - 1].1, "value") {
        var i :| 0 <= i < |init| && FieldRaises(init[i].1, "value");
        assert FieldRaises(metrics[i].1, "value");
      }
    }
  }

  /** A factsheet whose every metric is an object always has a summary. */
  lemma ObjectMetricsAlwaysSummarise(metrics: seq<(string, Value)>)
    requires forall i :: 0 <= i < |metrics| ==> metrics[i].1.VDict?
    ensures SummaryEntries(metrics).Some?
  {
    SummaryFailsIffSomeMetricRaises(metrics);
  }

  // ---------------------------------------------------------------------
  // validate_fundamental_data

  /** The issue, if any, recorded for one ticker's file. */
  function FileIssues(ticker: string, file: FundamentalFile): (r: seq<string>)
    ensures |r| <= 1
    ensures |r| == 0 <==> file.Parsed? && Truthy(file.data)
  {
    var path := FundamentalPath(ticker);
    match file
    case Absent => ["Missing fundamental data file: " + path]
    case Parsed(data) => if Truthy(data) then [] else ["Empty fundamental data file: " + path]
    case InvalidJson(_) => ["Invalid JSON in fundamental data file: " + path]
    case Unreadable(e) => ["Error reading fundamental data file " + path + ": " + e]
  }

  /** Every issue `validate_fundamental_data` records, in order. */
  function FundamentalIssues(dirExists: bool, files: string -> FundamentalFile): seq<string>
  {
    if !dirExists then ["Fundamentals directory not found: " + FUNDAMENTALS_DIR]
    else FlatMap(SUPPORTED_TICKERS, (k: string) => FileIssues(k, files(k)))
  }

  /** `validate_fundamental_data`. */
  method ValidateFundamentalData(dirExists: bool, files: string -> FundamentalFile) returns (valid: bool, issues: seq<string>)
    ensures issues == FundamentalIssues(dirExists, files)
    ensures valid <==> |issues| == 0
  {
    if !dirExists {
      return false, ["Fundamentals directory not found: " + FUNDAMENTALS_DIR];
    }
    issues := [];
    var t := 0;
    while t < |SUPPORTED_TICKERS|
      invariant 0 <= t <= |SUPPORTED_TICKERS|
      invariant issues == FlatMap(SUPPORTED_TICKERS[..t], (k: string) => FileIssues(k, files(k)))
    {
      var ticker := SUPPORTED_TICKERS[t];
      FlatMapSnoc(SUPPORTED_TICKERS[..t], ticker, (k: string) => FileIssues(k, files(k)));
      assert SUPPORTED_TICKERS[..t + 1] == SUPPORTED_TICKERS[..t] + [ticker];
      issues := issues + FileIssues(ticker, files(ticker));
      t := t + 1;
    }
    assert SUPPORTED_TICKERS[..t] == SUPPORTED_TICKERS;
    valid := |issues| == 0;
  }

  /** The data validates exactly when the directory exists and every
      supported ticker's file parses to non-empty data. */
  lemma ValidIffAllParsed(dirExists: bool, files: string -> FundamentalFile)
    ensures |FundamentalIssues(dirExists, files)| == 0 <==>
            dirExists && forall i :: 0 <= i < |SUPPORTED_TICKERS| ==>
                           files(SUPPORTED_TICKERS[i]).Parsed? && Truthy(files(SUPPORTED_TICKERS[i]).data)
  {
    FlatMapEmptyIff(SUPPORTED_TICKERS, (k: string) => FileIssues(k, files(k)));
  }

  // ---------------------------------------------------------------------
  // get_fundamental_score

  /** The numeric `score` of each metric that has one, in file order;
      `None` when a metric record cannot be tested or indexed. */
  function MetricScores(metrics: seq<(string, Value)>): (r: Option<seq<real>>)
    ensures r.Some? ==> |r.value| <= |metrics|
  {
    if |metrics| == 0 then Some([])
    else
      var init := MetricScores(metrics[..|metrics| - 1]);
      var record := metrics[|metrics| - 1].1;
      var has := Contains(record, "score");
      if init.None? || has.Err? then None
      else if !has.value then init
      else
        var s := GetItem(record, "score");
        if s.Err? then None
        else if IsNumber(s.value) then Some(init.value + [ToReal(s.value)])
        else init
  }

  /** What `get_fundamental_score` returns: the mean of the numeric scores
      clamped to [1, 5], or 3.0 when there is no data, no numeric score or
      any error. */
  function FundamentalScore(ticker: string, file: FundamentalFile): (r: real)
    ensures MIN_SCORE <= r <= MAX_SCORE
  {
    var loaded := LoadFundamentalData(ticker, file);
    if loaded.Err? || !Truthy(loaded.value) then NEUTRAL_SCORE
    else
      var items := Items(loaded.value);
      if items.Err? then NEUTRAL_SCORE
      else
        var scores := MetricScores(items.value);
        if scores.None? || |scores.value| == 0 then NEUTRAL_SCORE
        else Clamp(MIN_SCORE, MAX_SCORE, Mean(scores.value))
  }

  /** `get_fundamental_score`. */
  method GetFundamentalScore(ticker: string, file: FundamentalFile) returns (score: real)
    ensures score == FundamentalScore(ticker, file)
  {
    var loaded := LoadFundamentalData(ticker, file);
    if loaded.Err? || !Truthy(loaded.value) {
      return NEUTRAL_SCORE;
    }
    var items := Items(loaded.value);
    if items.Err? {
      return NEUTRAL_SCORE;
    }
    var scores := GatherScores(items.value);
    if scores.None? || |scores.value| == 0 {
      return NEUTRAL_SCORE;
    }
    score := Clamp(MIN_SCORE, MAX_SCORE, Sum(scores.value) / |scores.value| as real);
  }

  /** The loop of `get_fundamental_score`: the numeric scores, or `None`
      once a metric record cannot be tested or indexed. */
  method GatherScores(metrics: seq<(string, Value)>) returns (r: Option<seq<real>>)
    ensures r == MetricScores(metrics)
  {
    var scores: seq<real> := [];
    var i := 0;
    while i < |metrics|
      invariant 0 <= i <= |metrics|
      invariant MetricScores(metrics[..i]) == Some(scores)
    {
      var record := metrics[i].1;
      ScoreStep(metrics, i);
      var has := Contains(record, "score");
      if has.Err? {
        ScoreFailureSticks(metrics, i + 1);
        return None;
      }
      if has.value {
        var s := GetItem(record, "score");
        if s.Err? {
          ScoreFailureSticks(metrics, i + 1);
          return None;
        }
        if IsNumber(s.value) {
          scores := scores + [ToReal(s.value)];
        }
      }
      i := i + 1;
    }
    assert metrics[..i] == metrics;
    r := Some(scores);
  }

  lemma ScoreStep(metrics: seq<(string, Value)>, i: nat)
    requires i < |metrics|
    ensures var init := MetricScores(metrics[..i]);
            var record := metrics[i].1;
            var has := Contains(record, "score");
            MetricScores(metrics[..i + 1]) ==
              if init.None? || has.Err? then None
              else if !has.value then init
              else
                var s := GetItem(record, "score");
                if s.Err? then None
                else if IsNumber(s.value) then Some(init.value + [ToReal(s.value)])
                else init
  {
    assert metrics[..i + 1][..i] == metrics[..i];
  }

  /** Once a prefix fails, the whole score list fails. */
  lemma {:induction false} ScoreFailureSticks(metrics: seq<(string, Value)>, n: nat)
    requires n <= |metrics|
    requires MetricScores(metrics[..n]).None?
    ensures MetricScores(metrics).None?
    decreases |metrics| - n
  {
    if n < |metrics| {
      assert metrics[..n + 1][..n] == metrics[..n];
      ScoreFailureSticks(metrics, n + 1);
    } else {
      assert metrics[..n] == metrics;
    }
  }

  /** Every numeric score in the metrics lies in `[lo, hi]`. */
  ghost predicate ScoresWithin(metrics: seq<(string, Value)>, lo: real, hi: real)
  {
    forall i :: 0 <= i < |metrics| ==>
      var record := metrics[i].1;
      (record.VDict? && Lookup(record.entries, "score").Some? && IsNumber(Lookup(record.entries, "score").value))
        ==> lo <= ToReal(Lookup(record.entries, "score").value) <= hi
  }

  lemma {:induction false} MetricScoresWithin(metrics: seq<(string, Value)>, lo: real, hi: real)
    requires ScoresWithin(metrics, lo, hi)
    requires MetricScores(metrics).Some?
    ensures forall j :: 0 <= j < |MetricScores(metrics).value| ==> lo <= MetricScores(metrics).value[j] <= hi
    decreases |metrics|
  {
    if |metrics| > 0 {
      var init := metrics[..|metrics| - 1];
      assert forall i :: 0 <= i < |init| ==> init[i] == metrics[i];
      MetricScoresWithin(init, lo, hi);
    }
  }

  /** When the file's scores already lie on the 1-5 scale, clamping never
      bites: the score is the plain mean of the numeric scores. */
  lemma ScoreIsPlainMean(ticker: string, file: FundamentalFile)
    requires ticker in SUPPORTED_TICKERS && file.Parsed? && file.data.VDict? && Truthy(file.data)
    requires ScoresWithin(file.data.entries, MIN_SCORE, MAX_SCORE)
    requires MetricScores(file.data.entries).Some? && |MetricScores(file.data.entries).value| > 0
    ensures FundamentalScore(ticker, file) == Mean(MetricScores(file.data.entries).value)
  {
    var scores := MetricScores(file.data.entries).value;
    MetricScoresWithin(file.data.entries, MIN_SCORE, MAX_SCORE);
    MeanBounds(scores, MIN_SCORE, MAX_SCORE);
  }

  /** An object whose every metric is an object never fails the score list. */
  lemma {:induction false} ObjectMetricsAlwaysScore(metrics: seq<(string, Value)>)
    requires forall i :: 0 <= i < |metrics| ==> metrics[i].1.VDict?
    ensures MetricScores(metrics).Some?
    decreases |metrics|
  {
    if |metrics| > 0 {
      var init := metrics[..|metrics| - 1];
      assert forall i :: 0 <= i < |init| ==> init[i] == metrics[i];
      ObjectMetricsAlwaysScore(init);
    }
  }
  /** A metric whose `score` is present and numeric. */
  predicate HasNumericScore(metric: (string, Value))
  {
    var has := Contains(metric.1, "score");
    && has.Ok? && has.value
    && GetItem(metric.1, "score").Ok? && IsNumber(GetItem(metric.1, "score").value)
  }

  /** The numeric `score` values of the metrics, in file order. */
  function NumericScores(metrics: seq<(string, Value)>): seq<Value>
  {
    if |metrics| == 0 then []
    else
      var last := metrics[|metrics| - 1];
      NumericScores(metrics[..|metrics| - 1]) +
        if HasNumericScore(last) then [GetItem(last.1, "score").value] else []
  }

  /** The gathered scores are, in file order, the numeric `score` fields;
      a score that is not a number is skipped. */
  lemma {:induction false} MetricScoresAreTheScores(metrics: seq<(string, Value)>)
    requires MetricScores(metrics).Some?
    ensures |MetricScores(metrics).value| == |NumericScores(metrics)|
    ensures forall j :: 0 <= j < |NumericScores(metrics)| ==>
              IsNumber(NumericScores(metrics)[j]) && MetricScores(metrics).value[j] == ToReal(NumericScores(metrics)[j])
    decreases |metrics|
  {
    if |metrics| > 0 {
      MetricScoresAreTheScores(metrics[..|metrics| - 1]);
    }
  }

  /** Gathering the scores fails exactly when reading some metric's `score`
      raises. */
  lemma {:induction false} MetricScoresFailIffSomeMetricRaises(metrics: seq<(string, Value)>)
    ensures MetricScores(metrics).None? <==> exists i :: 0 <= i < |metrics| && FieldRaises(metrics[i].1, "score")
    decreases |metrics|
  {
    if |metrics| > 0 {
      var init := metrics[..|metrics| - 1];
      assert forall i :: 0 <= i < |init| ==> init[i] == metrics[i];
      MetricScoresFailIffSomeMetricRaises(init);
      if MetricScores(metrics).None? && !FieldRaises(metrics[|metrics| - 1].1, "score") {
        var i :| 0 <= i < |init| && FieldRaises(init[i].1, "score");
        assert FieldRaises(metrics[i].1, "score");
      }
    }
  }

}

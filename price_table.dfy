/** The long-format daily price table shared by the price loader, the
    valuation agent and the backtest engine: one row per (ticker, date).
    Dates are day numbers (Python's `date.toordinal()`); only the close of a
    row enters any modelled computation. */
module PriceTable {
  import opened Wrappers
  import opened Sequences

  type Day = int
  type Ticker = string

  datatype PriceRow = PriceRow(date: Day, ticker: Ticker, close: real)

  type Table = seq<PriceRow>

  /** `price_loader.get_price_data(tickers, start, end)` as its callers see it:
      a table, or the exception it raised. */
  type PriceProvider = (seq<Ticker>, Day, Day) -> Result<Table>

  /** Closes are positive prices. */
  predicate PositiveCloses(t: Table)
  {
    forall r :: r in t ==> r.close > 0.0
  }

  /** At most one close per (ticker, date): the table's key invariant. */
  predicate OneClosePerKey(t: Table)
  {
    forall r1, r2 :: r1 in t && r2 in t && r1.ticker == r2.ticker && r1.date == r2.date ==> r1 == r2
  }

  predicate HasDate(t: Table, d: Day)
  {
    exists r :: r in t && r.date == d
  }

  predicate StrictlyIncreasing(s: seq<Day>)
  {
    forall i, j :: 0 <= i < j < |s| ==> s[i] < s[j]
  }

  /** Inserts `d` into a strictly increasing sequence unless it is there already. */
  function InsertDate(d: Day, s: seq<Day>): (r: seq<Day>)
    requires StrictlyIncreasing(s)
    ensures StrictlyIncreasing(r)
    ensures forall x :: x in r <==> x == d || x in s
  {
    if |s| == 0 then [d]
    else if d < s[0] then
      PrependIncreasing(d, s);
      [d] + s
    else if d == s[0] then s
    else
      var rest := InsertDate(d, s[1..]);
      assert s == [s[0]] + s[1..];
      assert forall x :: x in rest ==> s[0] < x;
      PrependIncreasing(s[0], rest);
      [s[0]] + rest
  }

  /** A day below every element of an increasing sequence can head it. */
  lemma PrependIncreasing(d: Day, s: seq<Day>)
    requires StrictlyIncreasing(s)
    requires forall x :: x in s ==> d < x
    ensures StrictlyIncreasing([d] + s)
  {
    var r := [d] + s;
    forall i, j | 0 <= i < j < |r| ensures r[i] < r[j] {
      assert r[j] == s[j - 1];
      if i > 0 { assert r[i] == s[i - 1]; } else { assert r[j] in s; }
    }
  }

  /** `sorted(price_data['date'].unique())`: the distinct dates, ascending. */
  function SortedDates(t: Table): (r: seq<Day>)
    ensures StrictlyIncreasing(r)
    ensures forall d :: d in r <==> HasDate(t, d)
  {
    if |t| == 0 then []
    else
      var init := t[..|t| - 1];
      assert t == init + [t[|t| - 1]];
      InsertDate(t[|t| - 1].date, SortedDates(init))
  }

  /** `price_data[price_data['ticker'] == k]`, in table order. */
  function TickerRows(t: Table, k: Ticker): (r: Table)
    ensures forall row :: row in r <==> row in t && row.ticker == k
  {
    if |t| == 0 then []
    else if t[0].ticker == k then [t[0]] + TickerRows(t[1..], k)
    else TickerRows(t[1..], k)
  }

  /** The mask `price_data['ticker'] == k`. */
  function OfTicker(k: Ticker): PriceRow -> bool
  {
    (row: PriceRow) => row.ticker == k
  }

  /** The front-to-back recursion is the filter by the mask. */
  lemma {:induction false} TickerRowsIsFilter(t: Table, k: Ticker)
    ensures TickerRows(t, k) == Filter(t, OfTicker(k))
    decreases |t|
  {
    if |t| > 0 {
      TickerRowsIsFilter(t[1..], k);
      FilterCons(t[0], t[1..], OfTicker(k));
      assert [t[0]] + t[1..] == t;
    }
  }

  /** The mask keeps every row of the ticker, as often as the table holds
      it and in table order, and no other row. */
  lemma TickerRowsExact(t: Table, k: Ticker)
    ensures IsSubsequence(TickerRows(t, k), t)
    ensures forall row :: multiset(TickerRows(t, k))[row] == if row.ticker == k then multiset(t)[row] else 0
  {
    TickerRowsIsFilter(t, k);
    FilterIsSubsequence(t, OfTicker(k));
    FilterCounts(t, OfTicker(k));
  }

  /** The close of the first row for ticker `k` on date `d`
      (`price_data[(ticker == k) & (date == d)]['close'].iloc[0]`), if any. */
  function FindClose(t: Table, k: Ticker, d: Day): (c: Option<real>)
    ensures c.Some? <==> exists row :: row in t && row.ticker == k && row.date == d
    ensures c.Some? ==> PriceRow(d, k, c.value) in t
  {
    if |t| == 0 then None
    else if t[0].ticker == k && t[0].date == d then Some(t[0].close)
    else FindClose(t[1..], k, d)
  }

  /** `.iloc[0]`: the close found is that of the first matching row. */
  lemma {:induction false} FindCloseIsFirst(t: Table, k: Ticker, d: Day, i: nat)
    requires i < |t| && t[i].ticker == k && t[i].date == d
    requires forall j :: 0 <= j < i ==> !(t[j].ticker == k && t[j].date == d)
    ensures FindClose(t, k, d) == Some(t[i].close)
    decreases i
  {
    if i > 0 {
      var rest := t[1..];
      assert forall j :: 0 <= j < i - 1 ==> rest[j] == t[j + 1];
      FindCloseIsFirst(rest, k, d, i - 1);
    }
  }

  /** The first row after `sort_values('date')` (ties: the earlier row). */
  function EarliestRow(rows: Table): (r: PriceRow)
    requires |rows| > 0
    ensures r in rows
    ensures forall x :: x in rows ==> r.date <= x.date
  {
    if |rows| == 1 then rows[0]
    else
      var rest := EarliestRow(rows[1..]);
      if rows[0].date <= rest.date then rows[0] else rest
  }

  /** The last row after `sort_values('date')` (ties: the later row). */
  function LatestRow(rows: Table): (r: PriceRow)
    requires |rows| > 0
    ensures r in rows
    ensures forall x :: x in rows ==> x.date <= r.date
  {
    if |rows| == 1 then rows[0]
    else
      var rest := LatestRow(rows[1..]);
      if rows[0].date <= rest.date then rest else rows[0]
  }
}

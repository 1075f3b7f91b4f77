/** The reducer LangGraph applies to `ticker_analyses` when the parallel
    per-ticker branches report back (`src/agents/state.py`). */
module AgentState {

  /** `merged = left.copy(); merged.update(right)`: right wins on shared keys.
      Maps are values, so `left` is untouched as in the source's copy. */
  function MergeTickerAnalyses<T>(left: map<string, T>, right: map<string, T>): (merged: map<string, T>)
    ensures merged.Keys == left.Keys + right.Keys
    ensures forall k :: k in right ==> merged[k] == right[k]
    ensures forall k :: k in left && k !in right ==> merged[k] == left[k]
  {
    left + right
  }

  /** Merging nothing on either side changes nothing. */
  lemma MergeIdentity<T>(m: map<string, T>)
    ensures MergeTickerAnalyses(m, map[]) == m
    ensures MergeTickerAnalyses(map[], m) == m
  {
  }

  /** Branches can report in any grouping: the reducer is associative. */
  lemma MergeAssociative<T>(a: map<string, T>, b: map<string, T>, c: map<string, T>)
    ensures MergeTickerAnalyses(MergeTickerAnalyses(a, b), c) == MergeTickerAnalyses(a, MergeTickerAnalyses(b, c))
  {
  }

  /** Branches that report different tickers can report in either order. */
  lemma MergeCommutesOnDisjointKeys<T>(a: map<string, T>, b: map<string, T>)
    requires a.Keys !! b.Keys
    ensures MergeTickerAnalyses(a, b) == MergeTickerAnalyses(b, a)
  {
  }
}

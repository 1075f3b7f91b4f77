/** The three categorical ratings every agent and the coordinator emit, and
    the two-threshold rule the fundamental and sentiment agents share. */
module Ratings {
  const BUY: string := "BUY"
  const HOLD: string := "HOLD"
  const SELL: string := "SELL"

  predicate IsRating(s: string)
  {
    s == BUY || s == HOLD || s == SELL
  }

  /** SELL below HOLD below BUY. */
  function Rank(s: string): nat
  {
    if s == BUY then 2 else if s == HOLD then 1 else 0
  }

  /** `BUY if score > buy else SELL if score < sell else HOLD`. */
  function ThresholdRating(score: real, buyThreshold: real, sellThreshold: real): (r: string)
    ensures IsRating(r)
    ensures r == BUY <==> score > buyThreshold
    ensures r == SELL <==> score <= buyThreshold && score < sellThreshold
  {
    if score > buyThreshold then BUY
    else if score < sellThreshold then SELL
    else HOLD
  }

  /** A higher score never gives a lower rating. */
  lemma ThresholdRatingMonotone(lower: real, higher: real, buyThreshold: real, sellThreshold: real)
    requires lower <= higher
    ensures Rank(ThresholdRating(lower, buyThreshold, sellThreshold))
            <= Rank(ThresholdRating(higher, buyThreshold, sellThreshold))
  {
  }
}

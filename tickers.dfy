/** The four tickers every data loader supports, and the error an
    unsupported one raises. */
module Tickers {
  import opened Wrappers
  import opened Strings

  const SUPPORTED_TICKERS: seq<string> := ["AAPL", "MSFT", "NVDA", "TSLA"]

  /** `ValueError(f"Unsupported ticker: {ticker}. Supported: {supported}")`. */
  function UnsupportedTicker(ticker: string): Error
  {
    Error(ValueError, "Unsupported ticker: " + ticker + ". Supported: " + ReprList(SUPPORTED_TICKERS))
  }
}

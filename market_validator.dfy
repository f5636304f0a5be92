/** The feed sanity check run before any PnL computation (validate_market_data in backend/market_validator.py). */
module MarketValidator {
  import opened Wrappers

  /** The two fields the check reads from a market-data payload; a missing key is None. */
  datatype MarketData = MarketData(price: Option<real>, symbol: Option<string>)

  const MaxSymbolLength: nat := 12

  predicate PriceValid(d: MarketData)
  {
    d.price.Some? && d.price.value > 0.0
  }

  predicate SymbolValid(d: MarketData)
  {
    d.symbol.Some? && 1 <= |d.symbol.value| <= MaxSymbolLength
  }

  /**
   * The price is checked first, then the symbol; (true, None) exactly when the price is
   * positive and the symbol has 1 to 12 characters.
   */
  function ValidateMarketData(d: MarketData): (r: (bool, Option<string>))
    ensures !PriceValid(d) ==> r == (false, Some("INVALID_PRICE_VALUE"))
    ensures PriceValid(d) && !SymbolValid(d) ==> r == (false, Some("INVALID_SYMBOL_FORMAT"))
    ensures r.0 <==> PriceValid(d) && SymbolValid(d)
    ensures r.0 ==> r.1 == None
  {
    if d.price.None? || d.price.value <= 0.0 then (false, Some("INVALID_PRICE_VALUE"))
    else if d.symbol.None? || d.symbol.value == "" || |d.symbol.value| > MaxSymbolLength
    then (false, Some("INVALID_SYMBOL_FORMAT"))
    else (true, None)
  }

  /** The two rejected payloads documented beside the function, and an accepted one. */
  lemma DocumentedExamples()
    ensures ValidateMarketData(MarketData(Some(-100.0), Some("BTC"))) == (false, Some("INVALID_PRICE_VALUE"))
    ensures ValidateMarketData(MarketData(Some(65000.0), Some(""))) == (false, Some("INVALID_SYMBOL_FORMAT"))
    ensures ValidateMarketData(MarketData(Some(65000.0), Some("BTC-USD"))) == (true, None)
  {
  }

  /** A bad price is reported even when the symbol is bad as well. */
  lemma PriceCheckedFirst(d: MarketData)
    requires !PriceValid(d) && !SymbolValid(d)
    ensures ValidateMarketData(d).1 == Some("INVALID_PRICE_VALUE")
  {
  }
}

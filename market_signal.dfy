/** The client-side moving-average signal (MarketService.calculateSignal in frontend/services/marketService.ts). */
module MarketSignal {
  import opened Series

  /** The signal with the reason shown next to it. */
  datatype Advice = Advice(kind: Signal, reason: string)

  const WarmUp: nat := 20

  /** BUY needs SMA5 to clear SMA20 by 0.05%. */
  predicate Bullish(prices: seq<real>)
    requires |prices| >= WarmUp
  {
    Sma(prices, 5) > Sma(prices, 20) * 1.0005
  }

  /** SELL needs SMA5 to fall 0.05% below SMA20. */
  predicate Bearish(prices: seq<real>)
    requires |prices| >= WarmUp
  {
    Sma(prices, 5) < Sma(prices, 20) * 0.9995
  }

  /**
   * Under 20 prices the engine is still warming up; then BUY beats SELL, and inside the
   * ±0.05% dead band the market is consolidating.
   */
  function CalculateSignal(prices: seq<real>): (a: Advice)
    ensures |prices| < WarmUp ==> a == Advice(HOLD, "Analyzing market depth...")
    ensures |prices| >= WarmUp ==> (a.kind == BUY <==> Bullish(prices))
    ensures |prices| >= WarmUp ==> (a.kind == SELL <==> !Bullish(prices) && Bearish(prices))
    ensures a.kind == BUY ==> a.reason == "Bullish momentum (SMA5 > SMA20)"
    ensures a.kind == SELL ==> a.reason == "Bearish pressure (SMA5 < SMA20)"
    ensures |prices| >= WarmUp && a.kind == HOLD ==> a.reason == "Market consolidation"
  {
    if |prices| < WarmUp then Advice(HOLD, "Analyzing market depth...")
    else if Bullish(prices) then Advice(BUY, "Bullish momentum (SMA5 > SMA20)")
    else if Bearish(prices) then Advice(SELL, "Bearish pressure (SMA5 < SMA20)")
    else Advice(HOLD, "Market consolidation")
  }

  /** Only the last 20 prices enter the decision. */
  lemma {:induction false} OnlyLastTwentyMatter(p: seq<real>, q: seq<real>)
    requires |p| >= WarmUp && |q| >= WarmUp && Last(p, 20) == Last(q, 20)
    ensures CalculateSignal(p) == CalculateSignal(q)
  {
    SmaOfSuffix(p, q, 20, 5);
    SmaOfSuffix(p, q, 20, 20);
  }

  /** A flat market of non-negative prices sits inside the dead band. */
  lemma {:induction false} FlatMarketHolds(prices: seq<real>, x: real)
    requires |prices| >= WarmUp && Constant(prices, x) && x >= 0.0
    ensures CalculateSignal(prices) == Advice(HOLD, "Market consolidation")
  {
    SmaOfConstant(prices, 5, x);
    SmaOfConstant(prices, 20, x);
  }

  /**
   * The dead band is multiplicative, so for a flat series of negative values SMA5 exceeds
   * SMA20 * 1.0005 and the engine answers BUY.
   */
  lemma {:induction false} FlatNegativeSeriesBuys(prices: seq<real>, x: real)
    requires |prices| >= WarmUp && Constant(prices, x) && x < 0.0
    ensures CalculateSignal(prices).kind == BUY
  {
    SmaOfConstant(prices, 5, x);
    SmaOfConstant(prices, 20, x);
  }
}

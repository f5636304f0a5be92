/** The server-side crossover signal (calculate_signal in backend/signal_service.py). */
module SignalService {
  import opened Series
  import MarketSignal

  /** Exactly one of BUY, SELL, HOLD, decided by comparing SMA5 with SMA20 with no dead band. */
  function CalculateSignal(prices: seq<real>): (r: (Signal, string))
    ensures |prices| < 20 ==> r == (HOLD, "INSUFFICIENT_DATA")
    ensures |prices| >= 20 ==> (r.0 == BUY <==> Sma(prices, 5) > Sma(prices, 20))
    ensures |prices| >= 20 ==> (r.0 == SELL <==> Sma(prices, 5) < Sma(prices, 20))
    ensures |prices| >= 20 ==> (r.0 == HOLD <==> Sma(prices, 5) == Sma(prices, 20))
    ensures |prices| >= 20 ==> r.1 == (match r.0
                                       case BUY => "BULLISH_CROSSOVER"
                                       case SELL => "BEARISH_CROSSOVER"
                                       case HOLD => "NEUTRAL_MARKET")
  {
    if |prices| < 20 then (HOLD, "INSUFFICIENT_DATA")
    else
      var sma5 := Sma(prices, 5);
      var sma20 := Sma(prices, 20);
      if sma5 > sma20 then (BUY, "BULLISH_CROSSOVER")
      else if sma5 < sma20 then (SELL, "BEARISH_CROSSOVER")
      else (HOLD, "NEUTRAL_MARKET")
  }

  /** Only the last 20 prices enter the decision. */
  lemma {:induction false} OnlyLastTwentyMatter(p: seq<real>, q: seq<real>)
    requires |p| >= 20 && |q| >= 20 && Last(p, 20) == Last(q, 20)
    ensures CalculateSignal(p) == CalculateSignal(q)
  {
    SmaOfSuffix(p, q, 20, 5);
    SmaOfSuffix(p, q, 20, 20);
  }

  /** Any flat series of 20 or more prices is neutral. */
  lemma {:induction false} FlatMarketIsNeutral(prices: seq<real>, x: real)
    requires |prices| >= 20 && Constant(prices, x)
    ensures CalculateSignal(prices) == (HOLD, "NEUTRAL_MARKET")
  {
    SmaOfConstant(prices, 5, x);
    SmaOfConstant(prices, 20, x);
  }

  /**
   * The two engines agree wherever the client commits: for positive prices a client BUY or
   * SELL is also the server's answer, and a server HOLD is a client HOLD.
   */
  lemma {:induction false} ClientSignalImpliesServerSignal(prices: seq<real>)
    requires forall i :: 0 <= i < |prices| ==> prices[i] > 0.0
    ensures MarketSignal.CalculateSignal(prices).kind == BUY ==> CalculateSignal(prices).0 == BUY
    ensures MarketSignal.CalculateSignal(prices).kind == SELL ==> CalculateSignal(prices).0 == SELL
    ensures CalculateSignal(prices).0 == HOLD ==> MarketSignal.CalculateSignal(prices).kind == HOLD
  {
    if |prices| >= 20 {
      SmaOfPositive(prices, 20);
    }
  }

  /**
   * Inside the dead band the engines part: fifteen prices at 100 followed by five at 100.01
   * are a server BUY but a client HOLD.
   */
  lemma {:induction false} DeadBandDisagreement(prices: seq<real>)
    requires prices == seq(15, i => 100.0) + seq(5, i => 100.01)
    ensures CalculateSignal(prices).0 == BUY
    ensures MarketSignal.CalculateSignal(prices).kind == HOLD
  {
    var head := seq(15, i => 100.0);
    var tail := seq(5, i => 100.01);
    assert Last(prices, 5) == tail;
    assert Last(prices, 20) == prices;
    SumOfConstant(tail, 100.01);
    SumConcat(head, tail);
    SumOfConstant(head, 100.0);
  }
}

/**
 * Server-side trade execution (backend/trade_service.py): guards, the UTC daily reset,
 * the simulated fill and the in-place update of the record, then re-evaluation.
 * The clock, the trade id and the random slippage are parameters.
 */
module TradeService {
  import opened Types
  import opened Wrappers
  import opened ServerRecord
  import ChallengeEvaluator
  import ChallengeEngine

  /** Why a trade was refused; the record is then left as it was. */
  datatype TradeRejection =
    | NotActive                                   // "Challenge is not active"
    | InvalidPrice                                // "Invalid market price"
    | InsufficientEquity(equity: real, cost: real) // "Insufficient equity (...) for trade cost (...)"

  /** The trade object the service returns. */
  datatype TradeRecord = TradeRecord(
    id: string,
    challengeId: string,
    symbol: string,
    side: string,
    entryPrice: real,
    exitPrice: real,
    size: real,
    pnl: real,
    status: string,
    openedAt: Instant,
    closedAt: Instant)

  datatype TradeResult = Executed(trade: TradeRecord) | Rejected(reason: TradeRejection)

  /** The fill price after a relative slippage. */
  function ExitPrice(entry: real, slippagePct: real): real
  {
    entry * (1.0 + slippagePct)
  }

  /** PnL of a position closed at once: long for "BUY", short for any other side. */
  function SimulatedPnl(side: string, entry: real, exit: real, size: real): real
  {
    if side == "BUY" then (exit - entry) * size else (entry - exit) * size
  }

  /** For the same prices and size, a SELL earns exactly the negation of a BUY. */
  lemma SellIsNegatedBuy(entry: real, exit: real, size: real)
    ensures SimulatedPnl("SELL", entry, exit, size) == -SimulatedPnl("BUY", entry, exit, size)
  {
  }

  /** With slippage within the simulated ±0.1%, the PnL is at most 0.1% of the traded notional. */
  lemma {:induction false} PnlWithinSlippage(side: string, entry: real, slippagePct: real, size: real)
    requires entry > 0.0 && -0.001 <= slippagePct <= 0.001
    ensures var pnl := SimulatedPnl(side, entry, ExitPrice(entry, slippagePct), size);
      var notional := entry * (if size >= 0.0 then size else -size);
      -0.001 * notional <= pnl <= 0.001 * notional
  {
    var exit := ExitPrice(entry, slippagePct);
    assert exit - entry == entry * slippagePct;
    var a := if size >= 0.0 then size else -size;
    var m := entry * slippagePct;
    assert -0.001 * entry <= m <= 0.001 * entry by {
      assert entry * slippagePct <= entry * 0.001;
      assert entry * slippagePct >= entry * -0.001;
    }
    var pnl := SimulatedPnl(side, entry, exit, size);
    assert pnl == m * size || pnl == -(m * size);
    assert -0.001 * entry * a <= m * size <= 0.001 * entry * a by {
      if size >= 0.0 {
        assert m * size <= 0.001 * entry * size;
        assert m * size >= -0.001 * entry * size;
      } else {
        assert m * size == -(m * a);
        assert m * a <= 0.001 * entry * a;
        assert m * a >= -0.001 * entry * a;
      }
    }
  }

  /**
   * The UTC daily reset: when the stored day is not today's, the day becomes today and the
   * start-of-day balance becomes the current equity; otherwise nothing changes.
   */
  function DailyReset(s: ServerState, now: Instant): (r: ServerState)
    ensures r.dailyDate == Some(DayOf(now))
    ensures r.challenge == s.challenge.(dailyStartingBalance := r.challenge.dailyStartingBalance)
    ensures r.challenge.dailyStartingBalance ==
            if s.dailyDate == Some(DayOf(now)) then s.challenge.dailyStartingBalance else s.challenge.equity
  {
    var today := DayOf(now);
    if s.dailyDate != Some(today) then
      ServerState(s.challenge.(dailyStartingBalance := s.challenge.equity), Some(today))
    else s
  }

  /**
   * Lines 65-68 of the trade service: equity and cash balance take the PnL, the high-water
   * mark is raised to the new equity, the update time is stamped.
   */
  function Booked(c: Challenge, pnl: real, now: Instant): (r: Challenge)
    ensures r.equity == c.equity + pnl && r.currentBalance == c.currentBalance + pnl
    ensures r.maxEquity == Max(c.maxEquity, r.equity)
    ensures r.updatedAt == now
    ensures r.(equity := c.equity, currentBalance := c.currentBalance, maxEquity := c.maxEquity,
               updatedAt := c.updatedAt) == c
  {
    c.(equity := c.equity + pnl, currentBalance := c.currentBalance + pnl,
       maxEquity := Max(c.maxEquity, c.equity + pnl), updatedAt := now)
  }

  /** True when the guards of execute_trade let a trade through. */
  predicate Accepted(c: Challenge, price: Option<real>, size: real)
  {
    c.status == ACTIVE && price.Some? && price.value > 0.0 && price.value * size <= c.equity
  }

  /**
   * The whole of execute_trade as a function of the record before the call: the result and
   * the record afterwards.
   */
  function ExecuteTradeSpec(s: ServerState, symbol: string, side: string, price: Option<real>, size: real,
                            slippagePct: real, now: Instant, tradeId: string): (r: (TradeResult, ServerState))
    ensures s.challenge.status != ACTIVE ==> r == (Rejected(NotActive), s)
    ensures s.challenge.status == ACTIVE && (price.None? || price.value <= 0.0) ==> r == (Rejected(InvalidPrice), s)
    ensures s.challenge.status == ACTIVE && price.Some? && price.value > 0.0 && price.value * size > s.challenge.equity
            ==> r == (Rejected(InsufficientEquity(s.challenge.equity, price.value * size)), s)
    ensures r.0.Executed? <==> Accepted(s.challenge, price, size)
    ensures r.0.Rejected? ==> r.1 == s
  {
    var c := s.challenge;
    if c.status != ACTIVE then (Rejected(NotActive), s)
    else if price.None? || price.value <= 0.0 then (Rejected(InvalidPrice), s)
    else if price.value * size > c.equity then (Rejected(InsufficientEquity(c.equity, price.value * size)), s)
    else
      var reset := DailyReset(s, now);
      var entry := price.value;
      var exit := ExitPrice(entry, slippagePct);
      var pnl := SimulatedPnl(side, entry, exit, size);
      var moved := Booked(reset.challenge, pnl, now);
      var evaluated := moved.(status := ChallengeEvaluator.DeriveStatus(moved));
      var trade := TradeRecord(tradeId, evaluated.id, symbol, side, entry, exit, size, pnl, "CLOSED", now, now);
      (Executed(trade), ServerState(evaluated, reset.dailyDate))
  }

  /**
   * What an executed trade does: the returned trade is CLOSED and carries the PnL that was
   * booked; equity and cash balance both move by exactly that PnL; the high-water mark is
   * raised; the UTC day is rolled; the status is re-derived (loss first, then profit) and is
   * ACTIVE, FAILED or PASSED; identity, anchors and limits are untouched.
   */
  lemma {:induction false} ExecutedTradeEffect(s: ServerState, symbol: string, side: string, price: Option<real>,
                                               size: real, slippagePct: real, now: Instant, tradeId: string)
    requires Accepted(s.challenge, price, size)
    ensures var r := ExecuteTradeSpec(s, symbol, side, price, size, slippagePct, now, tradeId);
      var t := r.0.trade;
      var before := s.challenge;
      var after := r.1.challenge;
      && r.0.Executed?
      && t.status == "CLOSED" && t.id == tradeId && t.challengeId == before.id && t.symbol == symbol
      && t.side == side && t.size == size && t.openedAt == now && t.closedAt == now
      && t.entryPrice == price.value && t.exitPrice == ExitPrice(price.value, slippagePct)
      && t.pnl == SimulatedPnl(side, t.entryPrice, t.exitPrice, size)
      && after.equity == before.equity + t.pnl
      && after.currentBalance == before.currentBalance + t.pnl
      && after.maxEquity == Max(before.maxEquity, after.equity)
      && after.updatedAt == now
      && (after.status == ACTIVE || after.status == FAILED || after.status == PASSED)
      && (LossBreached(after) ==> after.status == FAILED)
      && (!LossBreached(after) && ProfitTargetMet(after) ==> after.status == PASSED)
      && (!LossBreached(after) && !ProfitTargetMet(after) ==> after.status == ACTIVE)
      && r.1.dailyDate == Some(DayOf(now))
      && after.dailyStartingBalance ==
         (if s.dailyDate == Some(DayOf(now)) then before.dailyStartingBalance else before.equity)
      && after.(equity := before.equity, currentBalance := before.currentBalance, maxEquity := before.maxEquity,
                updatedAt := before.updatedAt, status := before.status,
                dailyStartingBalance := before.dailyStartingBalance) == before
  {
    var pnl := SimulatedPnl(side, price.value, ExitPrice(price.value, slippagePct), size);
    var moved := Booked(DailyReset(s, now).challenge, pnl, now);
    assert LossBreached(moved) ==> ChallengeEvaluator.DeriveStatus(moved) == FAILED;
  }

  /** The daily reset of execute_trade, in place. */
  method ResetTradingDate(c: ChallengeRecord, now: Instant)
    modifies c
    ensures c.State() == DailyReset(old(c.State()), now)
  {
    var today := DayOf(now);
    if c.dailyDate != Some(today) {
      c.dailyDate := Some(today);
      c.dailyStartingBalance := c.equity;
    }
  }

  /** The in-place update of equity, balance, high-water mark and update time. */
  method BookPnl(c: ChallengeRecord, pnl: real, now: Instant)
    modifies c
    ensures c.State() == old(c.State()).(challenge := Booked(old(c.State()).challenge, pnl, now))
  {
    c.equity := c.equity + pnl;
    c.currentBalance := c.currentBalance + pnl;
    c.maxEquity := Max(c.maxEquity, c.equity);
    c.updatedAt := now;
  }

  /** execute_trade: early returns guard every write; on success the record is updated in place. */
  method ExecuteTrade(c: ChallengeRecord, symbol: string, side: string, price: Option<real>, size: real,
                      slippagePct: real, now: Instant, tradeId: string) returns (res: TradeResult)
    modifies c
    ensures (res, c.State()) == ExecuteTradeSpec(old(c.State()), symbol, side, price, size, slippagePct, now, tradeId)
  {
    ghost var before := c.State();
    if c.status != ACTIVE {
      return Rejected(NotActive);
    }
    if price.None? || price.value <= 0.0 {
      return Rejected(InvalidPrice);
    }
    var tradeCost := price.value * size;
    var currentEquity := c.equity;
    if tradeCost > currentEquity {
      ghost var r := ExecuteTradeSpec(before, symbol, side, price, size, slippagePct, now, tradeId);
      assert r.0.reason.cost == tradeCost;
      return Rejected(InsufficientEquity(currentEquity, tradeCost));
    }
    ResetTradingDate(c, now);
    var entryPrice := price.value;
    var exitPrice := ExitPrice(entryPrice, slippagePct);
    var simulatedPnl;
    if side == "BUY" {
      simulatedPnl := (exitPrice - entryPrice) * size;
    } else {
      simulatedPnl := (entryPrice - exitPrice) * size;
    }
    assert simulatedPnl == SimulatedPnl(side, entryPrice, exitPrice, size);
    BookPnl(c, simulatedPnl, now);
    var evaluated := ChallengeEvaluator.EvaluateAfterTrade(c);
    var trade := TradeRecord(tradeId, evaluated.id, symbol, side, entryPrice, exitPrice, size,
                             simulatedPnl, "CLOSED", now, now);
    res := Executed(trade);
  }

  /**
   * The server and the client compute the same record: an executed trade leaves exactly what
   * the client's applyTrade gives for the same PnL on the record after the daily reset.
   */
  lemma {:induction false} ServerMatchesClient(s: ServerState, symbol: string, side: string, price: Option<real>,
                                               size: real, slippagePct: real, now: Instant, tradeId: string)
    requires Accepted(s.challenge, price, size)
    ensures var r := ExecuteTradeSpec(s, symbol, side, price, size, slippagePct, now, tradeId);
      r.1.challenge == ChallengeEngine.ApplyTrade(DailyReset(s, now).challenge, r.0.trade.pnl, now)
  {
    var r := ExecuteTradeSpec(s, symbol, side, price, size, slippagePct, now, tradeId);
    var moved := Booked(DailyReset(s, now).challenge, r.0.trade.pnl, now);
    ChallengeEvaluator.StatusRulesAgree(moved);
  }

  /** A record that is not ACTIVE (in particular a FAILED or PASSED one) is never changed by a trade. */
  lemma TerminalRecordIsFrozen(s: ServerState, symbol: string, side: string, price: Option<real>,
                               size: real, slippagePct: real, now: Instant, tradeId: string)
    requires s.challenge.status in {FAILED, PASSED, FUNDED, PENDING_PAYMENT}
    ensures ExecuteTradeSpec(s, symbol, side, price, size, slippagePct, now, tradeId).1 == s
  {
  }
}

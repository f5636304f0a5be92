/** The server-side status rule (backend/challenge_evaluator.py). */
module ChallengeEvaluator {
  import opened Types
  import opened ServerRecord
  import ChallengeEngine

  /**
   * The if/elif chain of evaluate_after_trade: total loss, then daily loss, then profit;
   * the first rule that fires decides, and with none firing the status is kept.
   */
  function DeriveStatus(c: Challenge): (s: ChallengeStatus)
    ensures TotalLossBreached(c) ==> s == FAILED
    ensures DailyLossBreached(c) ==> s == FAILED
    ensures s == PASSED ==> !LossBreached(c) && (ProfitTargetMet(c) || c.status == PASSED)
    ensures !LossBreached(c) && ProfitTargetMet(c) ==> s == PASSED
    ensures !LossBreached(c) && !ProfitTargetMet(c) ==> s == c.status
  {
    var initial := c.initialBalance;
    var currentEquity := c.equity;
    var dailyStart := c.dailyStartingBalance;
    var totalLoss := initial - currentEquity;
    var dailyLoss := dailyStart - currentEquity;
    var totalProfit := currentEquity - initial;
    if totalLoss >= c.maxTotalLossLimit then FAILED
    else if dailyLoss >= c.maxDailyLossLimit then FAILED
    else if totalProfit >= c.profitTarget then PASSED
    else c.status
  }

  /** Writes the derived status into the record; nothing else is touched. Returns the same record. */
  method EvaluateAfterTrade(c: ChallengeRecord) returns (r: ChallengeRecord)
    modifies c
    ensures r == c
    ensures c.State() == old(c.State()).(challenge := old(c.State()).challenge.(status := DeriveStatus(old(c.State()).challenge)))
  {
    var newStatus := DeriveStatus(c.State().challenge);
    c.status := newStatus;
    r := c;
  }

  /**
   * The two evaluators agree: the status the client's applyTrade derives equals the status
   * evaluate_after_trade derives from the same post-trade record.
   */
  lemma {:induction false} EvaluatorsAgree(c: Challenge, pnl: real, now: Instant)
    ensures var r := ChallengeEngine.ApplyTrade(c, pnl, now);
      r.status == DeriveStatus(r.(status := c.status))
  {
    var r := ChallengeEngine.ApplyTrade(c, pnl, now);
    var u := r.(status := c.status);
    assert LossBreached(u) == LossBreached(r) && ProfitTargetMet(u) == ProfitTargetMet(r);
  }

  /** Both status functions agree on every record. */
  lemma StatusRulesAgree(c: Challenge)
    ensures ChallengeEngine.NextStatus(c) == DeriveStatus(c)
  {
  }
}

/**
 * The client-side challenge engine (frontend/services/challengeService.ts):
 * the tier table, challenge creation, activation and the pure trade transition.
 */
module ChallengeEngine {
  import opened Types

  /** One row of the client tier table. */
  datatype TierConfig = TierConfig(balance: real, target: real, dailyLoss: real, totalLoss: real)

  /** INITIAL_CONFIGS: every tier's target and total-loss limit are 10% of its balance, the daily limit 5%. */
  function InitialConfig(kind: ChallengeType): (cfg: TierConfig)
    ensures cfg.balance > 0.0
    ensures cfg.target == cfg.totalLoss == cfg.balance / 10.0
    ensures cfg.dailyLoss == cfg.balance / 20.0
    ensures kind == STARTER ==> cfg.balance == 10000.0
  {
    match kind
    case STARTER => TierConfig(10000.0, 1000.0, 500.0, 1000.0)
    case PRO => TierConfig(50000.0, 5000.0, 2500.0, 5000.0)
    case ELITE => TierConfig(100000.0, 10000.0, 5000.0, 10000.0)
  }

  /** A draft challenge awaiting payment; `id` and `now` stand for the generated id and the clock. */
  function CreateChallenge(kind: ChallengeType, userId: string, id: string, now: Instant): (c: Challenge)
    ensures c.status == PENDING_PAYMENT
    ensures c.id == id && c.userId == userId && c.kind == kind
    ensures var cfg := InitialConfig(kind);
      c.initialBalance == c.currentBalance == c.equity == c.maxEquity == c.dailyStartingBalance == cfg.balance
      && c.profitTarget == cfg.target && c.maxDailyLossLimit == cfg.dailyLoss && c.maxTotalLossLimit == cfg.totalLoss
    ensures c.createdAt == c.updatedAt == now
    ensures !LossBreached(c) && !ProfitTargetMet(c)
  {
    var cfg := InitialConfig(kind);
    Challenge(id, userId, kind, PENDING_PAYMENT,
              cfg.balance, cfg.balance, cfg.balance, cfg.balance, cfg.balance,
              cfg.target, cfg.dailyLoss, cfg.totalLoss, now, now)
  }

  /** Payment confirmed: the status becomes ACTIVE and only status and updatedAt change. */
  function ActivateChallenge(c: Challenge, now: Instant): (r: Challenge)
    ensures r.status == ACTIVE && r.updatedAt == now
    ensures r.(status := c.status, updatedAt := c.updatedAt) == c
  {
    c.(status := ACTIVE, updatedAt := now)
  }

  /**
   * The status the client derives from a post-trade record: a loss breach wins over the
   * profit target, and with no rule firing the status is kept.
   */
  function NextStatus(updated: Challenge): (s: ChallengeStatus)
    ensures LossBreached(updated) ==> s == FAILED
    ensures !LossBreached(updated) && ProfitTargetMet(updated) ==> s == PASSED
    ensures !LossBreached(updated) && !ProfitTargetMet(updated) ==> s == updated.status
  {
    var totalLoss := updated.initialBalance - updated.equity;
    var dailyLoss := updated.dailyStartingBalance - updated.equity;
    if totalLoss >= updated.maxTotalLossLimit || dailyLoss >= updated.maxDailyLossLimit then FAILED
    else if updated.equity - updated.initialBalance >= updated.profitTarget then PASSED
    else updated.status
  }

  /**
   * applyTrade: equity and the cash balance both move by `pnl`, the high-water mark is raised,
   * and the status is re-derived from the post-trade values.
   */
  function ApplyTrade(c: Challenge, pnl: real, now: Instant): (r: Challenge)
    ensures r.equity == c.equity + pnl && r.currentBalance == c.currentBalance + pnl
    ensures r.equity - r.currentBalance == c.equity - c.currentBalance
    ensures r.maxEquity >= c.maxEquity && r.maxEquity >= r.equity
    ensures r.maxEquity == c.maxEquity || r.maxEquity == r.equity
    ensures r.updatedAt == now
    ensures LossBreached(r) ==> r.status == FAILED
    ensures !LossBreached(r) && ProfitTargetMet(r) ==> r.status == PASSED
    ensures !LossBreached(r) && !ProfitTargetMet(r) ==> r.status == c.status
    ensures r.status == PASSED ==> !LossBreached(r)
    ensures r.(equity := c.equity, currentBalance := c.currentBalance, maxEquity := c.maxEquity,
               updatedAt := c.updatedAt, status := c.status) == c
  {
    var newEquity := c.equity + pnl;
    var updated := c.(equity := newEquity, currentBalance := c.currentBalance + pnl,
                      maxEquity := Max(c.maxEquity, newEquity), updatedAt := now);
    updated.(status := NextStatus(updated))
  }

  /** A trade applied by the client: its realised PnL and the clock reading at that moment. */
  datatype Fill = Fill(pnl: real, at: Instant)

  function TotalPnl(fills: seq<Fill>): real
  {
    if fills == [] then 0.0 else TotalPnl(fills[..|fills| - 1]) + fills[|fills| - 1].pnl
  }

  /** Applying a sequence of trades one after another, oldest first. */
  function ApplyAll(c: Challenge, fills: seq<Fill>): Challenge
  {
    if fills == [] then c
    else
      var last := fills[|fills| - 1];
      ApplyTrade(ApplyAll(c, fills[..|fills| - 1]), last.pnl, last.at)
  }

  /**
   * Over any sequence of trades: equity moves by the total PnL, `equity - currentBalance` never
   * changes, the high-water mark never falls and (from a record where it is at least the equity)
   * stays at least the equity; the anchors and limits are never touched.
   */
  lemma {:induction false} ApplyAllInvariants(c: Challenge, fills: seq<Fill>)
    ensures var r := ApplyAll(c, fills);
      r.equity == c.equity + TotalPnl(fills)
      && r.currentBalance == c.currentBalance + TotalPnl(fills)
      && r.equity - r.currentBalance == c.equity - c.currentBalance
      && r.maxEquity >= c.maxEquity
      && (c.maxEquity >= c.equity ==> r.maxEquity >= r.equity)
      && r.initialBalance == c.initialBalance && r.dailyStartingBalance == c.dailyStartingBalance
      && r.profitTarget == c.profitTarget && r.maxDailyLossLimit == c.maxDailyLossLimit
      && r.maxTotalLossLimit == c.maxTotalLossLimit
  {
    if fills != [] {
      ApplyAllInvariants(c, fills[..|fills| - 1]);
    }
  }

  /** The high-water mark is the largest of the starting mark and every intermediate equity. */
  lemma {:induction false} MaxEquityIsHighWaterMark(c: Challenge, fills: seq<Fill>, k: nat)
    requires k <= |fills|
    ensures ApplyAll(c, fills).maxEquity >= ApplyAll(c, fills[..k]).maxEquity
    ensures ApplyAll(c, fills).maxEquity >= ApplyAll(c, fills[..k]).equity || k == 0
  {
    if k < |fills| {
      assert fills[..|fills| - 1][..k] == fills[..k];
      MaxEquityIsHighWaterMark(c, fills[..|fills| - 1], k);
    } else {
      assert fills[..k] == fills;
      if k > 0 {
        assert ApplyAll(c, fills).maxEquity >= ApplyAll(c, fills).equity;
      }
    }
  }

  /** Creating twice for the same tier and user gives records that differ only in id and timestamps. */
  lemma CreationIsDeterministic(kind: ChallengeType, userId: string, id1: string, id2: string, t1: Instant, t2: Instant)
    ensures CreateChallenge(kind, userId, id1, t1).(id := id2, createdAt := t2, updatedAt := t2)
            == CreateChallenge(kind, userId, id2, t2)
  {
  }

  /**
   * applyTrade has no status guard: a FAILED challenge that books enough profit without a
   * breach comes out PASSED.
   */
  lemma FailedChallengeCanStillPass()
    ensures var c := CreateChallenge(STARTER, "u1", "c1", 0).(status := FAILED);
      ApplyTrade(c, 1000.0, 1).status == PASSED
  {
  }

  /** STARTER, pnl -500: the daily loss is exactly the 500 limit, so the challenge fails. */
  lemma ScenarioDailyLossAtLimitFails()
    ensures var c := ActivateChallenge(CreateChallenge(STARTER, "u1", "c1", 0), 1);
      var r := ApplyTrade(c, -500.0, 2);
      r.equity == 9500.0 && r.status == FAILED
  {
  }

  /** STARTER, pnl +300 then +750: profit 1050 reaches the 1000 target without a breach. */
  lemma ScenarioProfitTargetPasses()
    ensures var c := ActivateChallenge(CreateChallenge(STARTER, "u1", "c1", 0), 1);
      var r := ApplyTrade(ApplyTrade(c, 300.0, 2), 750.0, 3);
      r.equity == 11050.0 && r.status == PASSED
  {
  }

  /** STARTER, pnl +200 then -150: the high-water mark stays at 10200. */
  lemma ScenarioHighWaterMarkHolds()
    ensures var c := ActivateChallenge(CreateChallenge(STARTER, "u1", "c1", 0), 1);
      var r := ApplyTrade(ApplyTrade(c, 200.0, 2), -150.0, 3);
      r.equity == 10050.0 && r.maxEquity == 10200.0 && r.status == ACTIVE
  {
  }
}

/**
 * The server-side challenge record: the dictionary that backend/trade_service.py,
 * backend/challenge_evaluator.py and backend/trading_day_service.py update in place.
 */
module ServerRecord {
  import opened Types
  import opened Wrappers

  /** The abstract value of a record: the shared fields plus the server's `dailyDate` key. */
  datatype ServerState = ServerState(challenge: Challenge, dailyDate: Option<int>)

  /** One mutable field per key of the dictionary; `dailyDate` is absent until the first trade. */
  class ChallengeRecord {
    var id: string
    var userId: string
    var kind: ChallengeType
    var status: ChallengeStatus
    var initialBalance: real
    var currentBalance: real
    var equity: real
    var maxEquity: real
    var dailyStartingBalance: real
    var profitTarget: real
    var maxDailyLossLimit: real
    var maxTotalLossLimit: real
    var createdAt: Instant
    var updatedAt: Instant
    var dailyDate: Option<int>

    /** The record's current value. */
    function State(): ServerState
      reads this
    {
      ServerState(
        Challenge(id, userId, kind, status, initialBalance, currentBalance, equity, maxEquity,
                  dailyStartingBalance, profitTarget, maxDailyLossLimit, maxTotalLossLimit,
                  createdAt, updatedAt),
        dailyDate)
    }

    /** Loads a record from a stored value. */
    constructor (s: ServerState)
      ensures State() == s
    {
      var c := s.challenge;
      id, userId, kind, status := c.id, c.userId, c.kind, c.status;
      initialBalance, currentBalance, equity, maxEquity := c.initialBalance, c.currentBalance, c.equity, c.maxEquity;
      dailyStartingBalance, profitTarget := c.dailyStartingBalance, c.profitTarget;
      maxDailyLossLimit, maxTotalLossLimit := c.maxDailyLossLimit, c.maxTotalLossLimit;
      createdAt, updatedAt := c.createdAt, c.updatedAt;
      dailyDate := s.dailyDate;
    }
  }
}

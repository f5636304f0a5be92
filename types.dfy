/**
 * The shared data model of the challenge engine (frontend/types.ts).
 * Both evaluators, the TypeScript one and the Python one, work on this record.
 */
module Types {

  /** Lifecycle of a challenge; the constructor names are the wire strings. */
  datatype ChallengeStatus = PENDING_PAYMENT | ACTIVE | PASSED | FAILED | FUNDED

  /** Plan tier; the constructor names are the wire strings. */
  datatype ChallengeType = STARTER | PRO | ELITE

  /** A clock reading: whole seconds since the Unix epoch, UTC. */
  type Instant = int

  const SecondsPerDay: int := 86400

  /** The UTC calendar day an instant falls on, counted from the epoch (floor division). */
  function DayOf(t: Instant): int
  {
    t / SecondsPerDay
  }

  /** Larger of two amounts (Math.max in TypeScript, max in Python). */
  function Max(a: real, b: real): (m: real)
    ensures m >= a && m >= b
    ensures m == a || m == b
  {
    if a >= b then a else b
  }

  /** A challenge record: one field per key of the persisted object. */
  datatype Challenge = Challenge(
    id: string,
    userId: string,
    kind: ChallengeType,
    status: ChallengeStatus,
    initialBalance: real,
    currentBalance: real,
    equity: real,
    maxEquity: real,
    dailyStartingBalance: real,
    profitTarget: real,
    maxDailyLossLimit: real,
    maxTotalLossLimit: real,
    createdAt: Instant,
    updatedAt: Instant)

  // The three evaluation rules, stated once. Every comparison is inclusive.

  /** Drawdown from the initial balance has reached the total-loss limit. */
  predicate TotalLossBreached(c: Challenge)
  {
    c.initialBalance - c.equity >= c.maxTotalLossLimit
  }

  /** Drawdown from the start-of-day balance has reached the daily-loss limit. */
  predicate DailyLossBreached(c: Challenge)
  {
    c.dailyStartingBalance - c.equity >= c.maxDailyLossLimit
  }

  /** Gain over the initial balance has reached the profit target. */
  predicate ProfitTargetMet(c: Challenge)
  {
    c.equity - c.initialBalance >= c.profitTarget
  }

  /** Either loss rule fires. */
  predicate LossBreached(c: Challenge)
  {
    TotalLossBreached(c) || DailyLossBreached(c)
  }
}

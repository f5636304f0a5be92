/** The day roll of backend/trading_day_service.py, with the clock reading as a parameter. */
module TradingDay {
  import opened Types
  import opened ServerRecord

  /**
   * When today's UTC date is strictly after the date of the last update, the start-of-day
   * balance becomes the equity and the update time becomes now; otherwise nothing changes.
   */
  function DayRoll(c: Challenge, now: Instant): (r: (bool, Challenge))
    ensures r.0 <==> DayOf(now) > DayOf(c.updatedAt)
    ensures r.0 ==> r.1.dailyStartingBalance == c.equity && r.1.updatedAt == now
    ensures !r.0 ==> r.1 == c
    ensures r.1.(dailyStartingBalance := c.dailyStartingBalance, updatedAt := c.updatedAt) == c
  {
    if DayOf(now) > DayOf(c.updatedAt) then
      (true, c.(dailyStartingBalance := c.equity, updatedAt := now))
    else
      (false, c)
  }

  /** check_and_reset_trading_day: overwrites two keys of the record when a new day has begun. */
  method CheckAndResetTradingDay(c: ChallengeRecord, now: Instant) returns (reset: bool, r: ChallengeRecord)
    modifies c
    ensures r == c
    ensures reset == DayRoll(old(c.State()).challenge, now).0
    ensures c.State() == old(c.State()).(challenge := DayRoll(old(c.State()).challenge, now).1)
  {
    if DayOf(now) > DayOf(c.updatedAt) {
      c.dailyStartingBalance := c.equity;
      c.updatedAt := now;
      return true, c;
    }
    return false, c;
  }

  /** A second call with the same clock reading never resets again. */
  lemma ResetsAtMostOncePerDay(c: Challenge, now: Instant)
    ensures !DayRoll(DayRoll(c, now).1, now).0
    ensures DayRoll(DayRoll(c, now).1, now).1 == DayRoll(c, now).1
  {
  }

  /** Right after a reset the daily drawdown is zero, so a positive daily limit cannot be breached. */
  lemma ResetClearsDailyLoss(c: Challenge, now: Instant)
    requires DayRoll(c, now).0 && c.maxDailyLossLimit > 0.0
    ensures !DailyLossBreached(DayRoll(c, now).1)
  {
  }
}

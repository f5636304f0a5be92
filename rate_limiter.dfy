/**
 * The per-user sliding-window trade limiter and the market-hours rule (backend/rate_limiter.py).
 * The clock reading (`time.time()`, `datetime.now()`) is a parameter.
 */
module RateLimiter {
  import opened Wrappers
  import opened Strings

  const MaxTradesPerMinute: nat := 10
  const WindowSeconds: real := 60.0

  /** The timestamps younger than one minute at `now`, in their stored order. */
  function Recent(ts: seq<real>, now: real): (r: seq<real>)
    ensures |r| <= |ts|
    ensures forall i :: 0 <= i < |r| ==> now - r[i] < WindowSeconds
    ensures multiset(r) <= multiset(ts)
  {
    if ts == [] then []
    else
      var last := ts[|ts| - 1];
      assert ts == ts[..|ts| - 1] + [last];
      Recent(ts[..|ts| - 1], now) + (if now - last < WindowSeconds then [last] else [])
  }

  /**
   * The filter keeps each timestamp younger than one minute as often as it is stored and drops
   * every older one, so |Recent(ts, now)| is the number of trades within the last minute.
   */
  lemma {:induction false} RecentCounts(ts: seq<real>, now: real, x: real)
    ensures multiset(Recent(ts, now))[x] == if now - x < WindowSeconds then multiset(ts)[x] else 0
  {
    if ts != [] {
      var init := ts[..|ts| - 1];
      var last := ts[|ts| - 1];
      RecentCounts(init, now, x);
      SplitLast(ts);
      assert multiset(ts)[x] == multiset(init)[x] + (if x == last then 1 else 0);
      var r := Recent(ts, now);
      var r0 := Recent(init, now);
      if now - last < WindowSeconds {
        assert r == r0 + [last];
        assert multiset(r)[x] == multiset(r0)[x] + (if x == last then 1 else 0);
      } else {
        assert r == r0;
        assert x == last ==> !(now - x < WindowSeconds);
      }
    }
  }

  /** A non-empty list is its prefix followed by its last element. */
  lemma SplitLast(ts: seq<real>)
    requires ts != []
    ensures ts == ts[..|ts| - 1] + [ts[|ts| - 1]]
  {
  }

  /** Every timestamp still inside the window is kept. */
  lemma {:induction false} RecentKeepsFresh(ts: seq<real>, now: real, i: nat)
    requires i < |ts| && now - ts[i] < WindowSeconds
    ensures ts[i] in Recent(ts, now)
  {
    if i < |ts| - 1 {
      RecentKeepsFresh(ts[..|ts| - 1], now, i);
    }
  }

  /** Filtering again later removes what has aged out meanwhile and nothing else. */
  lemma {:induction false} RecentLater(ts: seq<real>, earlier: real, later: real)
    requires earlier <= later
    ensures Recent(Recent(ts, earlier), later) == Recent(ts, later)
  {
    if ts != [] {
      var init := ts[..|ts| - 1];
      var last := ts[|ts| - 1];
      RecentLater(init, earlier, later);
      var kept := if earlier - last < WindowSeconds then [last] else [];
      RecentConcat(Recent(init, earlier), kept, later);
    }
  }

  lemma {:induction false} RecentConcat(a: seq<real>, b: seq<real>, now: real)
    ensures Recent(a + b, now) == Recent(a, now) + Recent(b, now)
    decreases |b|
  {
    if b == [] {
      assert a + b == a;
    } else {
      assert (a + b)[..|a + b| - 1] == a + b[..|b| - 1];
      RecentConcat(a, b[..|b| - 1], now);
    }
  }

  /**
   * can_execute_trade as a function of the stored map: the answer and the map afterwards.
   * A user with ten or more trades inside the minute is refused and nothing is stored;
   * otherwise the user's list becomes the recent trades followed by `now`.
   */
  function CanExecuteTradeSpec(m: map<string, seq<real>>, userId: string, now: real)
    : (r: (bool, Option<string>, map<string, seq<real>>))
    ensures r.0 <==> !(userId in m && |Recent(m[userId], now)| >= MaxTradesPerMinute)
    ensures !r.0 ==> r == (false, Some("RATE_LIMIT_EXCEEDED"), m)
    ensures r.0 ==> r.1 == None && userId in r.2
    ensures r.0 ==> r.2[userId] == (if userId in m then Recent(m[userId], now) else []) + [now]
    ensures r.0 ==> |r.2[userId]| <= MaxTradesPerMinute
    ensures r.0 && userId !in m ==> r.2[userId] == [now]
    ensures forall u :: u != userId ==> (u in r.2 <==> u in m) && (u in m ==> r.2[u] == m[u])
  {
    if userId in m then
      var recent := Recent(m[userId], now);
      if |recent| >= MaxTradesPerMinute then (false, Some("RATE_LIMIT_EXCEEDED"), m)
      else (true, None, m[userId := recent + [now]])
    else (true, None, m[userId := [now]])
  }

  /** The module-level `user_last_trade` store. */
  class RateLimiter {
    var userLastTrade: map<string, seq<real>>

    constructor ()
      ensures userLastTrade == map[]
    {
      userLastTrade := map[];
    }

    method CanExecuteTrade(userId: string, now: real) returns (ok: bool, err: Option<string>)
      modifies this
      ensures (ok, err, userLastTrade) == CanExecuteTradeSpec(old(userLastTrade), userId, now)
    {
      if userId in userLastTrade {
        var recent := Recent(userLastTrade[userId], now);
        if |recent| >= MaxTradesPerMinute {
          return false, Some("RATE_LIMIT_EXCEEDED");
        }
        userLastTrade := userLastTrade[userId := recent];
      } else {
        userLastTrade := userLastTrade[userId := []];
      }
      userLastTrade := userLastTrade[userId := userLastTrade[userId] + [now]];
      assert userLastTrade == CanExecuteTradeSpec(old(userLastTrade), userId, now).2;
      return true, None;
    }
  }

  /**
   * After an accepted call, the stored list holds at most ten timestamps, all inside the
   * window at `now`, the last being `now`.
   */
  lemma AcceptedListIsWindow(m: map<string, seq<real>>, userId: string, now: real)
    requires CanExecuteTradeSpec(m, userId, now).0
    ensures var ts := CanExecuteTradeSpec(m, userId, now).2[userId];
      0 < |ts| <= MaxTradesPerMinute && ts[|ts| - 1] == now
      && forall i :: 0 <= i < |ts| ==> now - ts[i] < WindowSeconds
  {
  }

  /**
   * is_market_open with the clock split into its fields: BTC symbols trade around the clock;
   * the rest trade Monday to Friday (weekday 0-4) from 9:30 until before 16:00.
   */
  function IsMarketOpen(symbol: string, weekday: int, hour: int, minute: int): (open: bool)
    requires 0 <= weekday < 7 && 0 <= hour < 24 && 0 <= minute < 60
    ensures Contains(symbol, "BTC") ==> open
    ensures !Contains(symbol, "BTC") ==> (open <==> weekday < 5 && 9 * 60 + 30 <= hour * 60 + minute < 16 * 60)
  {
    if Contains(symbol, "BTC") then true
    else if weekday >= 5 then false
    else if hour < 9 || (hour == 9 && minute < 30) || hour >= 16 then false
    else true
  }
}

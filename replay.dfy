/** Equity reconstruction from the trade log (backend/replay_service.py). */
module Replay {
  import opened Types
  import opened Wrappers
  import opened ServerRecord
  import opened TradeService

  /** Contribution of one logged trade: its PnL when CLOSED, nothing otherwise. */
  function Contribution(t: TradeRecord): real
  {
    if t.status == "CLOSED" then t.pnl else 0.0
  }

  /** sum(t['pnl'] for t in trades if t['status'] == 'CLOSED'). */
  function ClosedPnl(trades: seq<TradeRecord>): real
  {
    if trades == [] then 0.0
    else ClosedPnl(trades[..|trades| - 1]) + Contribution(trades[|trades| - 1])
  }

  /** reconstruct_equity: the initial balance plus the PnL of every closed trade. */
  function ReconstructEquity(challengeId: string, trades: seq<TradeRecord>, initialBalance: real): (e: real)
    ensures trades == [] ==> e == initialBalance
  {
    initialBalance + ClosedPnl(trades)
  }

  /** Appending a trade adds its PnL when it is CLOSED and nothing otherwise. */
  lemma {:induction false} ReconstructAppend(id: string, trades: seq<TradeRecord>, t: TradeRecord, initialBalance: real)
    ensures ReconstructEquity(id, trades + [t], initialBalance)
            == ReconstructEquity(id, trades, initialBalance) + (if t.status == "CLOSED" then t.pnl else 0.0)
  {
    assert (trades + [t])[..|trades + [t]| - 1] == trades;
  }

  lemma {:induction false} ClosedPnlConcat(a: seq<TradeRecord>, b: seq<TradeRecord>)
    ensures ClosedPnl(a + b) == ClosedPnl(a) + ClosedPnl(b)
    decreases |b|
  {
    if b == [] {
      assert a + b == a;
    } else {
      var b' := b[..|b| - 1];
      assert (a + b)[..|a + b| - 1] == a + b';
      ClosedPnlConcat(a, b');
    }
  }

  /** The trades that are CLOSED, in log order. */
  function ClosedOnly(trades: seq<TradeRecord>): (r: seq<TradeRecord>)
    ensures forall i :: 0 <= i < |r| ==> r[i].status == "CLOSED"
  {
    if trades == [] then []
    else
      var last := trades[|trades| - 1];
      ClosedOnly(trades[..|trades| - 1]) + (if last.status == "CLOSED" then [last] else [])
  }

  /** Each CLOSED trade is kept as often as it is logged, and every other trade is dropped. */
  lemma {:induction false} ClosedOnlyCounts(trades: seq<TradeRecord>, t: TradeRecord)
    ensures multiset(ClosedOnly(trades))[t] == if t.status == "CLOSED" then multiset(trades)[t] else 0
  {
    if trades != [] {
      ClosedOnlyCounts(trades[..|trades| - 1], t);
      assert trades == trades[..|trades| - 1] + [trades[|trades| - 1]];
    }
  }

  /** Filtering two logs one after the other keeps their order: CLOSED trades stay in log order. */
  lemma {:induction false} ClosedOnlyConcat(a: seq<TradeRecord>, b: seq<TradeRecord>)
    ensures ClosedOnly(a + b) == ClosedOnly(a) + ClosedOnly(b)
    decreases |b|
  {
    if b == [] {
      assert a + b == a;
    } else {
      assert (a + b)[..|a + b| - 1] == a + b[..|b| - 1];
      assert (a + b)[|a + b| - 1] == b[|b| - 1];
      ClosedOnlyConcat(a, b[..|b| - 1]);
    }
  }

  /** Trades that are not CLOSED do not affect the result. */
  lemma {:induction false} OpenTradesIgnored(id: string, trades: seq<TradeRecord>, initialBalance: real)
    ensures ReconstructEquity(id, ClosedOnly(trades), initialBalance) == ReconstructEquity(id, trades, initialBalance)
  {
    if trades != [] {
      var init := trades[..|trades| - 1];
      var last := trades[|trades| - 1];
      OpenTradesIgnored(id, init, initialBalance);
      ClosedPnlConcat(ClosedOnly(init), if last.status == "CLOSED" then [last] else []);
      assert ClosedPnl([last]) == Contribution(last) by {
        assert [last][..0] == [];
      }
    }
  }

  /** The result does not depend on the order of the trades. */
  lemma {:induction false} ReconstructOrderIndependent(id: string, a: seq<TradeRecord>, b: seq<TradeRecord>, initialBalance: real)
    requires multiset(a) == multiset(b)
    ensures ReconstructEquity(id, a, initialBalance) == ReconstructEquity(id, b, initialBalance)
  {
    ClosedPnlPermutation(a, b);
  }

  lemma {:induction false} ClosedPnlPermutation(a: seq<TradeRecord>, b: seq<TradeRecord>)
    requires multiset(a) == multiset(b)
    ensures ClosedPnl(a) == ClosedPnl(b)
    decreases |a|
  {
    if a == [] {
      assert |b| == |multiset(b)| == 0;
    } else {
      var a' := a[..|a| - 1];
      var x := a[|a| - 1];
      assert a == a' + [x];
      assert multiset(a') == multiset(a) - multiset{x};
      assert x in multiset(b);
      var i :| 0 <= i < |b| && b[i] == x;
      RemoveOne(b, i);
      ClosedPnlPermutation(a', b[..i] + b[i + 1..]);
      ClosedPnlRemove(b, i);
    }
  }

  /** Taking one entry out of a log takes exactly it out of the multiset. */
  lemma RemoveOne(b: seq<TradeRecord>, i: nat)
    requires i < |b|
    ensures multiset(b[..i] + b[i + 1..]) == multiset(b) - multiset{b[i]}
  {
    assert b == b[..i] + [b[i]] + b[i + 1..];
  }

  /** Taking one entry out of a log takes exactly its contribution out of the sum. */
  lemma {:induction false} ClosedPnlRemove(b: seq<TradeRecord>, i: nat)
    requires i < |b|
    ensures ClosedPnl(b) == ClosedPnl(b[..i] + b[i + 1..]) + Contribution(b[i])
  {
    var x := b[i];
    assert b == b[..i] + [x] + b[i + 1..];
    ClosedPnlConcat(b[..i] + [x], b[i + 1..]);
    ClosedPnlConcat(b[..i], [x]);
    ClosedPnlConcat(b[..i], b[i + 1..]);
    assert ClosedPnl([x]) == Contribution(x) by {
      assert [x][..0] == [];
    }
  }

  /**
   * verify_challenge_integrity as written: its comparison with the replayed equity is commented
   * out, so it accepts every record. The contract records that behaviour; it is not an
   * integrity property. The replay fact that does hold is ExecutionKeepsReplayInvariant.
   */
  function VerifyChallengeIntegrity(c: Challenge): (ok: bool)
    ensures ok
  {
    true
  }

  /**
   * "Equity = initial + sum of PnL" is kept by the trade service: if the log replays to the
   * record's equity before a trade, the log with the executed trade appended replays to the
   * equity after it.
   */
  lemma {:induction false} ExecutionKeepsReplayInvariant(s: ServerState, log: seq<TradeRecord>, symbol: string, side: string,
                                                         price: Option<real>, size: real, slippagePct: real,
                                                         now: Instant, tradeId: string)
    requires ReconstructEquity(s.challenge.id, log, s.challenge.initialBalance) == s.challenge.equity
    requires Accepted(s.challenge, price, size)
    ensures var r := ExecuteTradeSpec(s, symbol, side, price, size, slippagePct, now, tradeId);
      ReconstructEquity(s.challenge.id, log + [r.0.trade], r.1.challenge.initialBalance) == r.1.challenge.equity
  {
    var r := ExecuteTradeSpec(s, symbol, side, price, size, slippagePct, now, tradeId);
    ExecutedTradeEffect(s, symbol, side, price, size, slippagePct, now, tradeId);
    ReconstructAppend(s.challenge.id, log, r.0.trade, s.challenge.initialBalance);
  }
}

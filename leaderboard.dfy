/**
 * The merge, sort and re-rank block of get_top_traders (backend/leaderboard_routes.py):
 * real traders first, padded with reference traders up to ten entries, sorted by profit
 * (highest first, stable) and ranked 1..n. The reference list is a parameter.
 */
module Leaderboard {

  /** The fields of a leaderboard entry that the merge reads or writes. */
  datatype Trader = Trader(rank: int, user: string, profitPct: real, isReal: bool, status: string)

  const BoardSize: nat := 10

  function Min(a: nat, b: nat): nat
  {
    if a <= b then a else b
  }

  predicate SortedByProfit(s: seq<Trader>)
  {
    forall i, j :: 0 <= i < j < |s| ==> s[i].profitPct >= s[j].profitPct
  }

  /** Entries are ranked 1, 2, ... in list order. */
  predicate RankedInOrder(s: seq<Trader>)
  {
    forall k :: 0 <= k < |s| ==> s[k].rank == k + 1
  }

  /** An entry with its rank blanked, to compare entries whatever their rank. */
  function Unranked(t: Trader): Trader
  {
    t.(rank := 0)
  }

  function UnrankAll(s: seq<Trader>): (r: seq<Trader>)
    ensures |r| == |s|
    ensures forall k :: 0 <= k < |s| ==> r[k] == Unranked(s[k])
  {
    seq(|s|, k requires 0 <= k < |s| => Unranked(s[k]))
  }

  /** Reference traders as appended: ranked after `base` entries and flagged as not realTraders. */
  function Tagged(refs: seq<Trader>, base: nat): (r: seq<Trader>)
    ensures |r| == |refs|
    ensures forall j :: 0 <= j < |refs| ==> r[j] == refs[j].(rank := base + j + 1, isReal := false)
  {
    seq(|refs|, j requires 0 <= j < |refs| => refs[j].(rank := base + j + 1, isReal := false))
  }

  /** The combined list after the padding loop. */
  function Padded(realTraders: seq<Trader>, refs: seq<Trader>): (r: seq<Trader>)
    requires |realTraders| < BoardSize
    ensures |r| == Min(BoardSize, |realTraders| + |refs|)
    ensures r[..|realTraders|] == realTraders
    ensures forall j :: |realTraders| <= j < |r| ==> r[j] == refs[j - |realTraders|].(rank := j + 1, isReal := false)
  {
    realTraders + Tagged(refs[..Min(|refs|, BoardSize - |realTraders|)], |realTraders|)
  }

  /** A head no lower than the first entry of a sorted list keeps it sorted. */
  lemma SortedCons(h: Trader, t: seq<Trader>)
    requires SortedByProfit(t)
    requires t != [] ==> h.profitPct >= t[0].profitPct
    ensures SortedByProfit([h] + t)
  {
    var r := [h] + t;
    forall i, j | 0 <= i < j < |r|
      ensures r[i].profitPct >= r[j].profitPct
    {
      if i > 0 {
        assert r[i] == t[i - 1] && r[j] == t[j - 1];
      } else {
        assert r[j] == t[j - 1];
      }
    }
  }

  /** Places `x` before the first entry whose profit does not exceed its own. */
  function Insert(x: Trader, s: seq<Trader>): (r: seq<Trader>)
    ensures |r| == |s| + 1
    ensures r[0] == x || (s != [] && r[0] == s[0])
  {
    if s == [] then [x]
    else if s[0].profitPct <= x.profitPct then [x] + s
    else [s[0]] + Insert(x, s[1..])
  }

  /** Inserting into a list sorted by profit keeps it sorted. */
  lemma {:induction false} InsertSorted(x: Trader, s: seq<Trader>)
    requires SortedByProfit(s)
    ensures SortedByProfit(Insert(x, s))
  {
    if s != [] && s[0].profitPct > x.profitPct {
      var tail := Insert(x, s[1..]);
      InsertSorted(x, s[1..]);
      assert s[0].profitPct >= tail[0].profitPct;
      SortedCons(s[0], tail);
    } else if s != [] {
      SortedCons(x, s);
    }
  }

  /** Inserting adds exactly the one entry. */
  lemma {:induction false} InsertPermutation(x: Trader, s: seq<Trader>)
    ensures multiset(Insert(x, s)) == multiset(s) + multiset{x}
  {
    if s != [] && s[0].profitPct > x.profitPct {
      InsertPermutation(x, s[1..]);
      assert s == [s[0]] + s[1..];
      assert multiset([s[0]] + Insert(x, s[1..])) == multiset{s[0]} + multiset(Insert(x, s[1..]));
    }
  }

  /**
   * `combined.sort(key=profit_pct, reverse=True)`: highest profit first; among equal profits
   * the earlier entry stays first.
   */
  function SortByProfit(s: seq<Trader>): (r: seq<Trader>)
    ensures SortedByProfit(r)
    ensures multiset(r) == multiset(s)
  {
    if s == [] then []
    else
      var rest := SortByProfit(s[1..]);
      InsertSorted(s[0], rest);
      InsertPermutation(s[0], rest);
      assert s == [s[0]] + s[1..];
      Insert(s[0], rest)
  }

  /** The list after the renumbering loop. */
  function Reranked(s: seq<Trader>): (r: seq<Trader>)
    ensures |r| == |s|
    ensures forall k :: 0 <= k < |s| ==> r[k] == s[k].(rank := k + 1)
  {
    seq(|s|, k requires 0 <= k < |s| => s[k].(rank := k + 1))
  }

  /** What the route returns for a given list of real traders and reference traders. */
  function TopTraders(realTraders: seq<Trader>, refs: seq<Trader>): seq<Trader>
  {
    if |realTraders| < BoardSize then
      var board := Reranked(SortByProfit(Padded(realTraders, refs)));
      board[..Min(BoardSize, |board|)]
    else realTraders
  }

  /** The merge, sort and renumbering as the route performs them, step by step. */
  method GetTopTraders(realTraders: seq<Trader>, refs: seq<Trader>) returns (board: seq<Trader>)
    ensures board == TopTraders(realTraders, refs)
  {
    if |realTraders| >= BoardSize {
      return realTraders;
    }
    var combined := realTraders;
    var i := 0;
    while i < |refs|
      invariant 0 <= i <= |refs|
      invariant |combined| == |realTraders| + i <= BoardSize
      invariant combined == realTraders + Tagged(refs[..i], |realTraders|)
    {
      if |combined| >= BoardSize {
        break;
      }
      combined := combined + [refs[i].(rank := |combined| + 1, isReal := false)];
      assert Tagged(refs[..i + 1], |realTraders|) == Tagged(refs[..i], |realTraders|) + [refs[i].(rank := |realTraders| + i + 1, isReal := false)];
      i := i + 1;
    }
    assert i == Min(|refs|, BoardSize - |realTraders|);
    var sorted := SortByProfit(combined);
    combined := sorted;
    var idx := 0;
    while idx < |combined|
      invariant 0 <= idx <= |combined| == |sorted|
      invariant forall k :: 0 <= k < idx ==> combined[k] == sorted[k].(rank := k + 1)
      invariant forall k :: idx <= k < |combined| ==> combined[k] == sorted[k]
    {
      combined := combined[idx := combined[idx].(rank := idx + 1)];
      idx := idx + 1;
    }
    assert combined == Reranked(sorted);
    board := combined[..Min(BoardSize, |combined|)];
  }

  /** Blanking ranks keeps a permutation a permutation. */
  lemma {:induction false} UnrankPermutation(a: seq<Trader>, b: seq<Trader>)
    requires multiset(a) == multiset(b)
    ensures multiset(UnrankAll(a)) == multiset(UnrankAll(b))
    decreases |a|
  {
    if a != [] {
      var x := a[0];
      assert x in multiset(b);
      var j :| 0 <= j < |b| && b[j] == x;
      var rest := b[..j] + b[j + 1..];
      assert b == b[..j] + [x] + b[j + 1..];
      assert a == [x] + a[1..];
      assert multiset(a[1..]) == multiset(a) - multiset{x};
      assert multiset(rest) == multiset(b) - multiset{x};
      UnrankPermutation(a[1..], rest);
      UnrankConcat([x], a[1..]);
      UnrankConcat(b[..j] + [x], b[j + 1..]);
      UnrankConcat(b[..j], [x]);
      UnrankConcat(b[..j], b[j + 1..]);
    }
  }

  lemma UnrankConcat(a: seq<Trader>, b: seq<Trader>)
    ensures UnrankAll(a + b) == UnrankAll(a) + UnrankAll(b)
  {
  }

  /**
   * With fewer than ten real traders, the board is the real traders plus the first
   * reference traders (flagged not realTraders), at most ten in all, with nothing lost or added
   * but the ranks; it is sorted by profit, highest first, and ranked 1..n in that order.
   */
  lemma {:induction false} PaddedBoard(realTraders: seq<Trader>, refs: seq<Trader>)
    requires |realTraders| < BoardSize
    ensures var board := TopTraders(realTraders, refs);
      |board| == Min(BoardSize, |realTraders| + |refs|) <= BoardSize
      && SortedByProfit(board)
      && RankedInOrder(board)
      && multiset(UnrankAll(board)) == multiset(UnrankAll(Padded(realTraders, refs)))
  {
    var sorted := SortByProfit(Padded(realTraders, refs));
    var board := TopTraders(realTraders, refs);
    assert board == Reranked(sorted);
    assert UnrankAll(board) == UnrankAll(sorted);
    UnrankPermutation(sorted, Padded(realTraders, refs));
  }

  /** Every real trader is on the padded board, with only its rank changed. */
  lemma {:induction false} RealTradersKept(realTraders: seq<Trader>, refs: seq<Trader>, i: nat)
    requires |realTraders| < BoardSize && i < |realTraders|
    ensures Unranked(realTraders[i]) in UnrankAll(TopTraders(realTraders, refs))
  {
    PaddedBoard(realTraders, refs);
    var p := Padded(realTraders, refs);
    assert p[i] == realTraders[i];
    assert UnrankAll(p)[i] == Unranked(realTraders[i]);
    assert Unranked(realTraders[i]) in multiset(UnrankAll(p));
  }

  /** With ten or more real traders the list is returned as the query produced it. */
  lemma FullBoardUnchanged(realTraders: seq<Trader>, refs: seq<Trader>)
    requires |realTraders| >= BoardSize
    ensures TopTraders(realTraders, refs) == realTraders
  {
  }
}

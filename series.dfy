/**
 * Price series and their simple moving averages, shared by the two signal engines
 * (frontend/services/marketService.ts and backend/signal_service.py).
 */
module Series {

  /** The three signal kinds both engines answer. */
  datatype Signal = BUY | SELL | HOLD

  /** Left-to-right sum, as `reduce((a, b) => a + b, 0)`. */
  function Sum(xs: seq<real>): real
  {
    if xs == [] then 0.0 else Sum(xs[..|xs| - 1]) + xs[|xs| - 1]
  }

  /** The last `n` entries of a series (`slice(-n)`, `prices[-n:]`). */
  function Last(xs: seq<real>, n: nat): (r: seq<real>)
    requires n <= |xs|
    ensures |r| == n
    ensures forall i :: 0 <= i < n ==> r[i] == xs[|xs| - n + i]
  {
    xs[|xs| - n..]
  }

  /** Mean of the last `n` prices. */
  function Sma(xs: seq<real>, n: nat): real
    requires 0 < n <= |xs|
  {
    Sum(Last(xs, n)) / n as real
  }

  /** A series holding one value throughout. */
  predicate Constant(xs: seq<real>, x: real)
  {
    forall i :: 0 <= i < |xs| ==> xs[i] == x
  }

  lemma {:induction false} SumOfConstant(xs: seq<real>, x: real)
    requires Constant(xs, x)
    ensures Sum(xs) == |xs| as real * x
  {
    if xs != [] {
      SumOfConstant(xs[..|xs| - 1], x);
    }
  }

  lemma {:induction false} SumOfPositive(xs: seq<real>)
    requires |xs| > 0
    requires forall i :: 0 <= i < |xs| ==> xs[i] > 0.0
    ensures Sum(xs) > 0.0
  {
    if |xs| > 1 {
      SumOfPositive(xs[..|xs| - 1]);
    }
  }

  /** Sums split over concatenation. */
  lemma {:induction false} SumConcat(a: seq<real>, b: seq<real>)
    ensures Sum(a + b) == Sum(a) + Sum(b)
    decreases |b|
  {
    if b == [] {
      assert a + b == a;
    } else {
      assert (a + b)[..|a + b| - 1] == a + b[..|b| - 1];
      SumConcat(a, b[..|b| - 1]);
    }
  }

  /** The moving average of a constant series is that constant. */
  lemma SmaOfConstant(xs: seq<real>, n: nat, x: real)
    requires 0 < n <= |xs| && Constant(xs, x)
    ensures Sma(xs, n) == x
  {
    SumOfConstant(Last(xs, n), x);
  }

  /** The moving average of positive prices is positive. */
  lemma SmaOfPositive(xs: seq<real>, n: nat)
    requires 0 < n <= |xs|
    requires forall i :: 0 <= i < |xs| ==> xs[i] > 0.0
    ensures Sma(xs, n) > 0.0
  {
    SumOfPositive(Last(xs, n));
  }

  /** Averages over the last `n <= m` prices see only the last `m` prices. */
  lemma SmaOfSuffix(xs: seq<real>, ys: seq<real>, m: nat, n: nat)
    requires 0 < n <= m <= |xs| && m <= |ys| && Last(xs, m) == Last(ys, m)
    ensures Sma(xs, n) == Sma(ys, n)
  {
    assert Last(xs, n) == Last(xs, m)[m - n..];
    assert Last(ys, n) == Last(ys, m)[m - n..];
  }
}

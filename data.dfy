/**
  `calculate_returns` (portfolio/data.py): daily returns of a price table.
  It runs the same `pct_change().dropna()` as `compute_returns`, so it is
  that function; what is stated here is its ratio form.
 */
module Data {
  import opened Linalg
  import Metrics

  /** `prices.pct_change().dropna()`: entry (t, j) is price t+1 over price t, less one. */
  function CalculateReturns(prices: seq<seq<real>>, n: nat): (r: seq<seq<real>>)
    requires IsTable(prices, n) && Metrics.DivisorsNonZero(prices, n)
    ensures IsTable(r, n) && r == Metrics.ComputeReturns(prices, n)
    ensures n > 0 ==> |r| == if |prices| < 2 then 0 else |prices| - 1
    ensures n > 0 ==> forall t, j :: 0 <= t < |r| && 0 <= j < n ==>
      r[t][j] == prices[t + 1][j] / prices[t][j] - 1.0
  {
    var r := Metrics.ComputeReturns(prices, n);
    assert n > 0 ==> forall t, j :: 0 <= t < |r| && 0 <= j < n ==>
      r[t][j] == prices[t + 1][j] / prices[t][j] - 1.0 by {
      if n > 0 {
        forall t, j | 0 <= t < |r| && 0 <= j < n
          ensures r[t][j] == prices[t + 1][j] / prices[t][j] - 1.0
        {
          Metrics.ReturnEntry(prices, n, t, j);
          RatioForm(prices[t][j], prices[t + 1][j]);
        }
      }
    }
    r
  }

  lemma RatioForm(p: real, q: real)
    requires p != 0.0
    ensures (q - p) / p == q / p - 1.0
  {
    assert (q - p) / p == q / p - p / p;
  }
}

/**
  `compute_returns` and `portfolio_stats` (portfolio/metrics.py): percent-change
  returns of a price table, the annualised mean vector and sample covariance
  matrix of a returns table, and the return, volatility and Sharpe ratio of a
  weighted portfolio.  A table is a sequence of rows with `n` columns, one
  column per ticker.
 */
module Metrics {
  import opened Linalg

  /** Trading days per year, the annualisation factor. */
  const TradingDays: real := 252.0

  // ---------------------------------------------------------------------
  // Percent-change returns

  /** Every price that serves as a divisor (every row but the last) is non-zero. */
  predicate DivisorsNonZero(prices: seq<seq<real>>, n: nat)
    requires IsTable(prices, n)
  {
    forall t, j :: 0 <= t < |prices| - 1 && 0 <= j < n ==> prices[t][j] != 0.0
  }

  /** The change from row `p` to row `q`, relative to `p`, per column. */
  function PctChange(p: seq<real>, q: seq<real>): (r: seq<real>)
    requires |p| == |q|
    requires forall j :: 0 <= j < |p| ==> p[j] != 0.0
    ensures |r| == |p|
  {
    seq(|p|, j requires 0 <= j < |p| => (q[j] - p[j]) / p[j])
  }

  /**
    `price_df.pct_change().dropna()`.  The first row has no predecessor and
    is dropped; with no columns there is nothing to be missing, so no row is
    dropped.
   */
  function ComputeReturns(prices: seq<seq<real>>, n: nat): (r: seq<seq<real>>)
    requires IsTable(prices, n) && DivisorsNonZero(prices, n)
    ensures IsTable(r, n)
    ensures |r| == if n == 0 then |prices| else if |prices| == 0 then 0 else |prices| - 1
  {
    if n == 0 then seq(|prices|, t requires 0 <= t < |prices| => [])
    else if |prices| < 2 then []
    else seq(|prices| - 1, t requires 0 <= t < |prices| - 1 => PctChange(prices[t], prices[t + 1]))
  }

  /** Grows each price of row `p` by its return in `r`. */
  function Grow(p: seq<real>, r: seq<real>): (q: seq<real>)
    requires |p| == |r|
    ensures |q| == |p|
  {
    seq(|p|, j requires 0 <= j < |p| => p[j] * (1.0 + r[j]))
  }

  /** The price path that starts at `p0` and compounds the rows of `rets`. */
  function Compound(p0: seq<real>, rets: seq<seq<real>>): (path: seq<seq<real>>)
    requires IsTable(rets, |p0|)
    ensures |path| == |rets| + 1 && IsTable(path, |p0|)
    decreases |rets|
  {
    if |rets| == 0 then [p0] else [p0] + Compound(Grow(p0, rets[0]), rets[1..])
  }

  lemma GrowByChange(p: real, q: real)
    requires p != 0.0
    ensures p * (1.0 + (q - p) / p) == q
  {
  }

  /** Compounding a row's percent change from that row gives the next row back. */
  lemma GrowInvertsPctChange(p: seq<real>, q: seq<real>)
    requires |p| == |q| && forall j :: 0 <= j < |p| ==> p[j] != 0.0
    ensures Grow(p, PctChange(p, q)) == q
  {
    forall j | 0 <= j < |p|
      ensures Grow(p, PctChange(p, q))[j] == q[j]
    {
      GrowByChange(p[j], q[j]);
    }
  }

  lemma ReturnsTail(prices: seq<seq<real>>, n: nat)
    requires n > 0 && |prices| >= 2
    requires IsTable(prices, n) && DivisorsNonZero(prices, n)
    ensures IsTable(prices[1..], n) && DivisorsNonZero(prices[1..], n)
    ensures ComputeReturns(prices, n)[1..] == ComputeReturns(prices[1..], n)
  {
  }

  /**
    The returns lose no information: compounding them from the first price
    row rebuilds the whole price table.
   */
  lemma {:induction false} CompoundInvertsReturns(prices: seq<seq<real>>, n: nat)
    requires n > 0 && |prices| > 0
    requires IsTable(prices, n) && DivisorsNonZero(prices, n)
    ensures Compound(prices[0], ComputeReturns(prices, n)) == prices
  {
    if |prices| >= 2 {
      var r := ComputeReturns(prices, n);
      ReturnsTail(prices, n);
      GrowInvertsPctChange(prices[0], prices[1]);
      CompoundInvertsReturns(prices[1..], n);
      assert prices == [prices[0]] + prices[1..];
    }
  }

  /** Each return entry is the change of that ticker's price over one row, relative to the earlier price. */
  lemma ReturnEntry(prices: seq<seq<real>>, n: nat, t: nat, j: nat)
    requires IsTable(prices, n) && DivisorsNonZero(prices, n)
    requires n > 0 && t + 1 < |prices| && j < n
    ensures ComputeReturns(prices, n)[t][j] == (prices[t + 1][j] - prices[t][j]) / prices[t][j]
  {
  }

  /** The example at the foot of metrics.py: prices A = 100, 110, 105 and B = 200, 210, 220. */
  lemma ExampleReturns()
    ensures var prices := [[100.0, 200.0], [110.0, 210.0], [105.0, 220.0]];
      IsTable(prices, 2) && DivisorsNonZero(prices, 2) &&
      ComputeReturns(prices, 2) == [[1.0 / 10.0, 1.0 / 20.0], [-1.0 / 22.0, 1.0 / 21.0]]
  {
    var prices := [[100.0, 200.0], [110.0, 210.0], [105.0, 220.0]];
    var r := ComputeReturns(prices, 2);
    assert r[0] == PctChange(prices[0], prices[1]);
    assert r[1] == PctChange(prices[1], prices[2]);
    assert r[0] == [1.0 / 10.0, 1.0 / 20.0];
    assert r[1] == [-1.0 / 22.0, 1.0 / 21.0];
  }

  // ---------------------------------------------------------------------
  // Mean and sample covariance of a returns table

  /** `returns_df.mean()`: the column means. */
  function Mean(rows: seq<seq<real>>, n: nat): (mu: seq<real>)
    requires IsTable(rows, n) && |rows| > 0
    ensures |mu| == n
  {
    Divide(VecSum(rows, n), |rows| as real)
  }

  /** The rows less the column means. */
  function Deviations(rows: seq<seq<real>>, n: nat): (d: seq<seq<real>>)
    requires IsTable(rows, n) && |rows| > 0
    ensures |d| == |rows| && IsTable(d, n)
  {
    var mu := Mean(rows, n);
    seq(|rows|, t requires 0 <= t < |rows| => Sub(rows[t], mu))
  }

  /** `returns_df.cov()`: the sample covariance, with divisor m − 1. */
  function Cov(rows: seq<seq<real>>, n: nat): (c: seq<seq<real>>)
    requires IsTable(rows, n) && |rows| >= 2
    ensures IsSquare(c, n)
  {
    MatDivide(OuterSum(Deviations(rows, n), n), (|rows| - 1) as real, n)
  }

  /** `mean() * 252`. */
  function AnnualMean(rows: seq<seq<real>>, n: nat): (mu: seq<real>)
    requires IsTable(rows, n) && |rows| > 0
    ensures |mu| == n
  {
    Scale(TradingDays, Mean(rows, n))
  }

  /** `cov() * 252`. */
  function AnnualCov(rows: seq<seq<real>>, n: nat): (c: seq<seq<real>>)
    requires IsTable(rows, n) && |rows| >= 2
    ensures IsSquare(c, n)
  {
    MatScale(TradingDays, Cov(rows, n), n)
  }

  // ---------------------------------------------------------------------
  // The same statistics for one series, written out directly

  function SeriesMean(s: seq<real>): real
    requires |s| > 0
  {
    Sum(s) / |s| as real
  }

  function Centered(s: seq<real>): (c: seq<real>)
    requires |s| > 0
    ensures |c| == |s|
  {
    seq(|s|, t requires 0 <= t < |s| => s[t] - SeriesMean(s))
  }

  /** The sample variance of a series, with divisor m − 1. */
  function SampleVariance(s: seq<real>): real
    requires |s| >= 2
  {
    Sum(Squares(Centered(s))) / (|s| - 1) as real
  }

  /** The mean vector, dotted with w, is the mean of the series x_t · w. */
  lemma MeanDot(rows: seq<seq<real>>, w: seq<real>)
    requires IsTable(rows, |w|) && |rows| > 0
    ensures Dot(Mean(rows, |w|), w) == SeriesMean(RowDots(w, rows))
  {
    DotVecSum(w, rows);
    DotDivideLeft(VecSum(rows, |w|), w, |rows| as real);
  }

  /** Dotting the deviations with w centres the series x_t · w. */
  lemma DeviationDots(rows: seq<seq<real>>, w: seq<real>)
    requires IsTable(rows, |w|) && |rows| > 0
    ensures RowDots(w, Deviations(rows, |w|)) == Centered(RowDots(w, rows))
  {
    var mu := Mean(rows, |w|);
    var d := Deviations(rows, |w|);
    MeanDot(rows, w);
    forall t | 0 <= t < |rows|
      ensures RowDots(w, d)[t] == Centered(RowDots(w, rows))[t]
    {
      DotSubLeft(rows[t], mu, w);
    }
  }

  // ---------------------------------------------------------------------
  // portfolio_stats

  /** `weights @ Sigma @ weights` with `Sigma = cov() * 252`. */
  function PortfolioVariance(w: seq<real>, rets: seq<seq<real>>): real
    requires IsTable(rets, |w|) && |rets| >= 2
  {
    Quad(AnnualCov(rets, |w|), w)
  }

  /**
    The annual portfolio variance is 252 times the sample variance of the
    portfolio's own daily returns x_t · w, and so is never negative.
   */
  lemma PortfolioVarianceIsSeriesVariance(w: seq<real>, rets: seq<seq<real>>)
    requires IsTable(rets, |w|) && |rets| >= 2
    ensures PortfolioVariance(w, rets) == TradingDays * SampleVariance(RowDots(w, rets))
    ensures PortfolioVariance(w, rets) >= 0.0
  {
    var n := |w|;
    var d := Deviations(rets, n);
    QuadScale(TradingDays, Cov(rets, n), w);
    QuadDivide(OuterSum(d, n), (|rets| - 1) as real, w);
    QuadOuterSum(d, w);
    DeviationDots(rets, w);
    SumSquaresNonNegative(Centered(RowDots(w, rets)));
  }

  /** The annual portfolio return `np.dot(weights, mu)` is 252 times the mean daily portfolio return. */
  lemma PortfolioReturnIsSeriesMean(w: seq<real>, rets: seq<seq<real>>)
    requires IsTable(rets, |w|) && |rets| > 0
    ensures Dot(w, AnnualMean(rets, |w|)) == TradingDays * SeriesMean(RowDots(w, rets))
  {
    MeanDot(rets, w);
    DotTimesTradingDays(w, Mean(rets, |w|));
  }

  lemma DotTimesTradingDays(w: seq<real>, mu: seq<real>)
    requires |w| == |mu|
    ensures Dot(w, Scale(TradingDays, mu)) == TradingDays * Dot(mu, w)
  {
    DotScaleRight(w, TradingDays, mu);
    DotComm(w, mu);
  }

  /** What `portfolio_stats` returns. */
  datatype Stats = Stats(portReturn: real, portVol: real, sharpe: real)

  /**
    `portfolio_stats`.  The square root is taken by the caller: `vol` is the
    non-negative root of the portfolio variance, and must be positive, since
    the Sharpe ratio divides by it.
   */
  function PortfolioStats(w: seq<real>, rets: seq<seq<real>>, vol: real): (s: Stats)
    requires IsTable(rets, |w|) && |rets| >= 2
    requires vol > 0.0 && vol * vol == PortfolioVariance(w, rets)
    ensures s.portReturn == TradingDays * SeriesMean(RowDots(w, rets))
    ensures s.portVol * s.portVol == TradingDays * SampleVariance(RowDots(w, rets))
    ensures s.portVol > 0.0 && s.sharpe * s.portVol == s.portReturn
  {
    PortfolioReturnIsSeriesMean(w, rets);
    PortfolioVarianceIsSeriesVariance(w, rets);
    var ret := Dot(w, AnnualMean(rets, |w|));
    Stats(ret, vol, ret / vol)
  }

  lemma DotPair(a: seq<real>, b: seq<real>)
    requires |a| == |b| == 2
    ensures Dot(a, b) == a[0] * b[0] + a[1] * b[1]
  {
    assert Dot(a[1..][1..], b[1..][1..]) == 0.0;
  }

  lemma SumPair(s: seq<real>)
    requires |s| == 2
    ensures Sum(s) == s[0] + s[1]
  {
    assert Sum(s[1..][1..]) == 0.0;
  }

  /**
    The example at the foot of metrics.py, equal weights on the two tickers:
    the daily portfolio returns are 3/40 and 1/924, the annual return is
    14763/1540 and the annual variance 504 · (683/18480)².
   */
  lemma ExampleStats()
    ensures var rets := [[1.0 / 10.0, 1.0 / 20.0], [-1.0 / 22.0, 1.0 / 21.0]];
      var w := [0.5, 0.5];
      Dot(w, AnnualMean(rets, 2)) == 14763.0 / 1540.0 &&
      PortfolioVariance(w, rets) == 504.0 * (683.0 / 18480.0) * (683.0 / 18480.0)
  {
    var rets := [[1.0 / 10.0, 1.0 / 20.0], [-1.0 / 22.0, 1.0 / 21.0]];
    var w := [0.5, 0.5];
    var s := RowDots(w, rets);
    DotPair(rets[0], w);
    DotPair(rets[1], w);
    assert s == [3.0 / 40.0, 1.0 / 924.0];
    SumPair(s);
    PortfolioReturnIsSeriesMean(w, rets);
    var c := Centered(s);
    assert c == [683.0 / 18480.0, -683.0 / 18480.0];
    SumPair(Squares(c));
    PortfolioVarianceIsSeriesVariance(w, rets);
  }
}

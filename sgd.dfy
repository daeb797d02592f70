/**
  `sgd_optimize` (portfolio/optimize_sgd.py): projected mini-batch gradient
  ascent of the mean-variance objective w·μ − λ/2·wᵀΣw over the probability
  simplex.  Each epoch cuts a permutation of the return rows into
  consecutive slices of `batch_size` rows; for each slice the weights take a
  step along the batch gradient and are projected back onto the simplex;
  after each epoch the full-sample loss is recorded.

  The random permutation drawn at the start of each epoch is a parameter:
  `perms[e]` is the permutation used in epoch `e`.
 */
module OptimizeSgd {
  import opened Results
  import opened Linalg
  import opened Simplex
  import Metrics

  // ---------------------------------------------------------------------
  // Integer division facts used to count and size the slices

  lemma MulAtLeast(k: int, b: int)
    requires k >= 1 && b > 0
    ensures k * b >= b
  {
  }

  /** Euclidean division is unique: y = q·b + r with 0 ≤ r < b fixes y / b and y % b. */
  lemma DivModUnique(y: int, q: int, r: int, b: int)
    requires b > 0 && 0 <= r < b && y == q * b + r
    ensures y / b == q && y % b == r
  {
    var q2, r2 := y / b, y % b;
    assert y == q2 * b + r2;
    assert (q - q2) * b == r2 - r;
    if q > q2 {
      MulAtLeast(q - q2, b);
    } else if q < q2 {
      MulAtLeast(q2 - q, b);
    }
  }

  lemma ModStep(x: int, b: int)
    requires x >= b > 0
    ensures (x - b) % b == x % b
  {
    var q, r := x / b, x % b;
    assert x == q * b + r;
    assert x - b == (q - 1) * b + r;
    DivModUnique(x - b, q - 1, r, b);
  }

  lemma CeilStep(x: int, b: int)
    requires x > b > 0
    ensures (x + b - 1) / b == 1 + (x - 1) / b
  {
    var q, r := (x - 1) / b, (x - 1) % b;
    assert x - 1 == q * b + r;
    assert x + b - 1 == (q + 1) * b + r;
    DivModUnique(x + b - 1, q + 1, r, b);
  }

  lemma CeilOne(x: int, b: int)
    requires 0 < x <= b
    ensures (x + b - 1) / b == 1
  {
    DivModUnique(x + b - 1, 1, x - 1, b);
  }

  // ---------------------------------------------------------------------
  // Row permutations and their slices

  /** The row indices 0 .. m-1 in order. */
  function Range(m: nat): (r: seq<nat>)
    ensures |r| == m
  {
    seq(m, i requires 0 <= i < m => i)
  }

  /** `idx` holds every row index below m exactly once, as `np.random.permutation(m)` does. */
  predicate IsPermutation(idx: seq<nat>, m: nat)
  {
    multiset(idx) == multiset(Range(m))
  }

  lemma PermutationBounds(idx: seq<nat>, m: nat)
    requires IsPermutation(idx, m)
    ensures |idx| == m
    ensures forall k :: 0 <= k < |idx| ==> idx[k] < m
  {
    assert |multiset(idx)| == |idx|;
    assert |multiset(Range(m))| == m;
    forall k | 0 <= k < |idx|
      ensures idx[k] < m
    {
      assert idx[k] in multiset(idx);
      assert idx[k] in Range(m);
    }
  }

  /** The end of the slice `idx[start:start+b]`: Python clamps it to the length. */
  function SliceEnd(start: nat, b: nat, m: nat): nat
  {
    if start + b <= m then start + b else m
  }

  /** The slices `idx[start:start+b]` for start, start+b, start+2b, … below |idx|. */
  function ChunksFrom(idx: seq<nat>, b: nat, start: nat): (cs: seq<seq<nat>>)
    requires b > 0
    decreases |idx| - start
  {
    if start >= |idx| then []
    else [idx[start..SliceEnd(start, b, |idx|)]] + ChunksFrom(idx, b, start + b)
  }

  /** `for start in range(0, m, batch_size): idx[start:start+batch_size]`. */
  function Chunks(idx: seq<nat>, b: nat): seq<seq<nat>>
    requires b > 0
  {
    ChunksFrom(idx, b, 0)
  }

  /** The slices laid end to end. */
  function Flatten(cs: seq<seq<nat>>): seq<nat>
  {
    if |cs| == 0 then [] else cs[0] + Flatten(cs[1..])
  }

  lemma {:induction false} FlattenChunksFrom(idx: seq<nat>, b: nat, start: nat)
    requires b > 0 && start <= |idx|
    ensures Flatten(ChunksFrom(idx, b, start)) == idx[start..]
    decreases |idx| - start
  {
    var cs := ChunksFrom(idx, b, start);
    if start < |idx| {
      var end := SliceEnd(start, b, |idx|);
      assert cs[1..] == ChunksFrom(idx, b, start + b);
      if start + b <= |idx| {
        FlattenChunksFrom(idx, b, start + b);
      } else {
        assert ChunksFrom(idx, b, start + b) == [];
      }
      assert idx[start..] == idx[start..end] + idx[end..];
    }
  }

  lemma {:induction false} CountChunksFrom(idx: seq<nat>, b: nat, start: nat)
    requires b > 0 && start <= |idx|
    ensures |ChunksFrom(idx, b, start)| == (|idx| - start + b - 1) / b
    decreases |idx| - start
  {
    var x := |idx| - start;
    if x == 0 {
      DivModUnique(b - 1, 0, b - 1, b);
    } else if x <= b {
      CeilOne(x, b);
      assert ChunksFrom(idx, b, start + b) == [];
    } else {
      CountChunksFrom(idx, b, start + b);
      CeilStep(x, b);
    }
  }

  lemma {:induction false} SizeChunksFrom(idx: seq<nat>, b: nat, start: nat)
    requires b > 0 && start <= |idx|
    ensures var cs := ChunksFrom(idx, b, start);
      (forall i :: 0 <= i < |cs| - 1 ==> |cs[i]| == b) &&
      (|cs| > 0 ==> |cs[|cs| - 1]| == if (|idx| - start) % b == 0 then b else (|idx| - start) % b)
    decreases |idx| - start
  {
    var cs := ChunksFrom(idx, b, start);
    var x := |idx| - start;
    if 0 < x <= b {
      assert ChunksFrom(idx, b, start + b) == [];
      if x < b {
        DivModUnique(x, 0, x, b);
      } else {
        DivModUnique(x, 1, 0, b);
      }
    } else if x > b {
      var rest := ChunksFrom(idx, b, start + b);
      assert cs == [idx[start..start + b]] + rest;
      SizeChunksFrom(idx, b, start + b);
      ModStep(x, b);
      assert |rest| > 0;
      assert cs[|cs| - 1] == rest[|rest| - 1];
      forall i | 0 <= i < |cs| - 1
        ensures |cs[i]| == b
      {
        if i > 0 {
          assert cs[i] == rest[i - 1];
        }
      }
    }
  }

  /**
    The slices of one epoch: laid end to end they give back the permutation,
    so each row index is used exactly once.
   */
  lemma ChunksPartitionRows(idx: seq<nat>, b: nat, m: nat)
    requires b > 0
    ensures Flatten(Chunks(idx, b)) == idx
    ensures IsPermutation(idx, m) ==> multiset(Flatten(Chunks(idx, b))) == multiset(Range(m))
  {
    FlattenChunksFrom(idx, b, 0);
  }

  /**
    There are ceil(m / b) slices; all have b rows except the last, which
    has the m % b rows left over when b does not divide m.
   */
  lemma ChunkCountAndSizes(idx: seq<nat>, b: nat)
    requires b > 0
    ensures var cs := Chunks(idx, b);
      |cs| == (|idx| + b - 1) / b &&
      (forall i :: 0 <= i < |cs| - 1 ==> |cs[i]| == b) &&
      (|cs| > 0 ==> |cs[|cs| - 1]| == if |idx| % b == 0 then b else |idx| % b)
  {
    CountChunksFrom(idx, b, 0);
    SizeChunksFrom(idx, b, 0);
  }

  /** A batch size of at least the number of rows gives one slice holding the whole permutation. */
  lemma SingleChunk(idx: seq<nat>, b: nat)
    requires 0 < |idx| <= b
    ensures Chunks(idx, b) == [idx]
  {
    assert ChunksFrom(idx, b, b) == [];
    assert idx[0..|idx|] == idx;
  }

  /**
    numpy's sample covariance needs at least two rows, so every slice must
    have two: the batch size is at least 2 and does not leave a single row
    over at the end.
   */
  predicate BatchesValid(m: nat, b: nat)
  {
    b >= 2 && m % b != 1
  }

  /** Every slice can be used for a covariance, and every index names a row. */
  predicate ChunksUsable(cs: seq<seq<nat>>, m: nat)
  {
    forall i :: 0 <= i < |cs| ==> |cs[i]| >= 2 && forall k :: 0 <= k < |cs[i]| ==> cs[i][k] < m
  }

  lemma BatchesValidChunks(idx: seq<nat>, b: nat, m: nat)
    requires IsPermutation(idx, m) && BatchesValid(m, b)
    ensures ChunksUsable(Chunks(idx, b), m)
  {
    PermutationBounds(idx, m);
    ChunksAtLeastTwo(idx, b);
    ChunksIndexRows(idx, b, m);
  }

  lemma {:induction false} ChunksAtLeastTwo(idx: seq<nat>, b: nat)
    requires BatchesValid(|idx|, b)
    ensures forall i :: 0 <= i < |Chunks(idx, b)| ==> |Chunks(idx, b)[i]| >= 2
  {
    SizeChunksFrom(idx, b, 0);
  }

  lemma {:induction false} ChunksIndexRows(idx: seq<nat>, b: nat, m: nat)
    requires b > 0 && forall k :: 0 <= k < |idx| ==> idx[k] < m
    ensures forall i, k :: 0 <= i < |Chunks(idx, b)| && 0 <= k < |Chunks(idx, b)[i]| ==> Chunks(idx, b)[i][k] < m
  {
    FlattenChunksFrom(idx, b, 0);
    var cs := Chunks(idx, b);
    forall i, k | 0 <= i < |cs| && 0 <= k < |cs[i]|
      ensures cs[i][k] < m
    {
      FlattenMember(cs, i);
      assert cs[i][k] in idx;
    }
  }

  lemma {:induction false} FlattenMember(cs: seq<seq<nat>>, i: nat)
    requires i < |cs|
    ensures forall k :: 0 <= k < |cs[i]| ==> cs[i][k] in Flatten(cs)
  {
    if i > 0 {
      FlattenMember(cs[1..], i - 1);
      assert cs[1..][i - 1] == cs[i];
    }
  }

  lemma BatchesValidRows(m: nat, b: nat)
    requires m > 0 && BatchesValid(m, b)
    ensures m >= 2
  {
    if m == 1 {
      DivModUnique(1, 0, 1, b);
    }
  }

  // ---------------------------------------------------------------------
  // One gradient step, one epoch, the loss

  /** Learning rate, risk aversion λ and batch size: the tuning arguments of `sgd_optimize`. */
  datatype Config = Config(lr: real, lambda: real, batchSize: nat)

  /** `rets[idx]`: the rows a slice names, in the slice's order. */
  function SelectRows(rets: seq<seq<real>>, idx: seq<nat>): (batch: seq<seq<real>>)
    requires forall k :: 0 <= k < |idx| ==> idx[k] < |rets|
    ensures |batch| == |idx|
  {
    seq(|idx|, k requires 0 <= k < |idx| => rets[idx[k]])
  }

  /** `-(mu_b - λ * (Sigma_b @ w))` with the batch moments annualised by 252. */
  function Gradient(batch: seq<seq<real>>, w: seq<real>, lambda: real): (g: seq<real>)
    requires IsTable(batch, |w|) && |batch| >= 2
    ensures |g| == |w|
  {
    var muB := Metrics.AnnualMean(batch, |w|);
    var sigmaB := Metrics.AnnualCov(batch, |w|);
    Scale(-1.0, Sub(muB, Scale(lambda, MatVec(sigmaB, w))))
  }

  /** `w -= lr * grad` followed by `w = project_to_simplex(w)`. */
  function Step(batch: seq<seq<real>>, w: seq<real>, cfg: Config): (r: Result<seq<real>, ProjError>)
    requires IsTable(batch, |w|) && |batch| >= 2
    ensures |w| == 0 ==> r == Err(EmptyInput)
    ensures r.Ok? ==> |r.value| == |w|
  {
    var moved := Sub(w, Scale(cfg.lr, Gradient(batch, w, cfg.lambda)));
    ProjectToSimplex(moved)
  }

  /** With at least one asset the projection never raises, and every step lands on the simplex. */
  lemma StepOnSimplex(batch: seq<seq<real>>, w: seq<real>, cfg: Config)
    requires IsTable(batch, |w|) && |batch| >= 2 && |w| > 0
    ensures var r := Step(batch, w, cfg); r.Ok? && OnSimplex(r.value)
  {
    ProjectionOnSimplex(Sub(w, Scale(cfg.lr, Gradient(batch, w, cfg.lambda))));
  }

  /** The steps for the slices `cs` in order, stopping at the first projection that raises. */
  function RunChunks(rets: seq<seq<real>>, w: seq<real>, cs: seq<seq<nat>>, cfg: Config): (r: Result<seq<real>, ProjError>)
    requires IsTable(rets, |w|) && ChunksUsable(cs, |rets|)
    ensures r.Ok? ==> |r.value| == |w|
    decreases |cs|
  {
    if |cs| == 0 then Ok(w)
    else
      match Step(SelectRows(rets, cs[0]), w, cfg)
      case Err(e) => Err(e)
      case Ok(w1) => RunChunks(rets, w1, cs[1..], cfg)
  }

  /** One pass of the inner loop over the slices of the permutation `idx`. */
  function Epoch(rets: seq<seq<real>>, w: seq<real>, idx: seq<nat>, cfg: Config): (r: Result<seq<real>, ProjError>)
    requires IsTable(rets, |w|) && IsPermutation(idx, |rets|) && BatchesValid(|rets|, cfg.batchSize)
    ensures r.Ok? ==> |r.value| == |w|
  {
    BatchesValidChunks(idx, cfg.batchSize, |rets|);
    RunChunks(rets, w, Chunks(idx, cfg.batchSize), cfg)
  }

  /** The mean-variance objective `w.dot(mu_full) - λ/2 * w.dot(Sigma_full @ w)`; its negation is the recorded loss. */
  function Objective(w: seq<real>, muFull: seq<real>, sigmaFull: seq<seq<real>>, lambda: real): real
    requires |muFull| == |w| && IsSquare(sigmaFull, |w|)
  {
    Dot(w, muFull) - lambda / 2.0 * Dot(w, MatVec(sigmaFull, w))
  }

  /** The loss recorded after each epoch: the negated objective. */
  function Loss(w: seq<real>, muFull: seq<real>, sigmaFull: seq<seq<real>>, lambda: real): real
    requires |muFull| == |w| && IsSquare(sigmaFull, |w|)
  {
    -Objective(w, muFull, sigmaFull, lambda)
  }

  // ---------------------------------------------------------------------
  // The whole run

  /** The weights and the loss list that `sgd_optimize` returns. */
  datatype Trained = Trained(weights: seq<real>, losses: seq<real>)

  datatype SgdError =
    | NotEnoughData                   // no return rows
    | ProjectionFailed(cause: ProjError)  // project_to_simplex raised inside the loop

  /**
    What the loop needs: the returns table, usable batches for every
    permutation, and full-sample moments of the right shapes (the
    covariance is read only once an epoch has run).
   */
  predicate TrainingInput(rets: seq<seq<real>>, n: nat, cfg: Config, perms: seq<seq<nat>>,
                          muFull: seq<real>, sigmaFull: seq<seq<real>>)
  {
    IsTable(rets, n) && |rets| > 0 && cfg.batchSize >= 1 &&
    (|perms| > 0 ==> BatchesValid(|rets|, cfg.batchSize)) &&
    (forall e :: 0 <= e < |perms| ==> IsPermutation(perms[e], |rets|)) &&
    |muFull| == n && (|perms| > 0 ==> IsSquare(sigmaFull, n))
  }

  /**
    The state after the first `e` epochs, starting from the uniform
    weights; after each epoch the loss of the new weights against the
    full-sample moments is appended.
   */
  function Train(rets: seq<seq<real>>, n: nat, cfg: Config, perms: seq<seq<nat>>,
                 muFull: seq<real>, sigmaFull: seq<seq<real>>, e: nat): (r: Result<Trained, SgdError>)
    requires TrainingInput(rets, n, cfg, perms, muFull, sigmaFull) && e <= |perms|
    ensures r.Ok? ==> |r.value.weights| == n && |r.value.losses| == e
  {
    if e == 0 then Ok(Trained(Uniform(n), []))
    else
      match Train(rets, n, cfg, perms, muFull, sigmaFull, e - 1)
      case Err(err) => Err(err)
      case Ok(t) => EpochStep(rets, t, perms[e - 1], cfg, muFull, sigmaFull)
  }

  /** One epoch from the state `t`: the slices of `idx` in order, then the loss of the new weights. */
  function EpochStep(rets: seq<seq<real>>, t: Trained, idx: seq<nat>, cfg: Config,
                     muFull: seq<real>, sigmaFull: seq<seq<real>>): (r: Result<Trained, SgdError>)
    requires IsTable(rets, |t.weights|) && IsPermutation(idx, |rets|) && BatchesValid(|rets|, cfg.batchSize)
    requires |muFull| == |t.weights| && IsSquare(sigmaFull, |t.weights|)
    ensures r.Ok? ==> |r.value.weights| == |t.weights| && |r.value.losses| == |t.losses| + 1
  {
    match Epoch(rets, t.weights, idx, cfg)
    case Err(cause) => Err(ProjectionFailed(cause))
    case Ok(w) => Ok(Trained(w, t.losses + [Loss(w, muFull, sigmaFull, cfg.lambda)]))
  }

  /** The annualised covariance of the whole table, which numpy leaves undefined for a single row. */
  function FullCov(rets: seq<seq<real>>, n: nat): (r: seq<seq<real>>)
    requires IsTable(rets, n) && |rets| > 0
    ensures |rets| >= 2 ==> IsSquare(r, n)
  {
    if |rets| >= 2 then Metrics.AnnualCov(rets, n) else []
  }

  /** What `sgd_optimize` demands: gap-free prices, one permutation per epoch, usable batches. */
  predicate SgdInput(prices: seq<seq<real>>, n: nat, cfg: Config, epochs: int, perms: seq<seq<nat>>)
  {
    IsTable(prices, n) && Metrics.DivisorsNonZero(prices, n) && cfg.batchSize >= 1 &&
    |perms| == (if epochs > 0 then epochs else 0) &&
    var m := |Metrics.ComputeReturns(prices, n)|;
    (m > 0 && epochs > 0 ==> BatchesValid(m, cfg.batchSize)) &&
    forall e :: 0 <= e < |perms| ==> IsPermutation(perms[e], m)
  }

  /** The result of `sgd_optimize(price_df, lr, epochs, λ, batch_size)`. */
  function Sgd(prices: seq<seq<real>>, n: nat, cfg: Config, epochs: int, perms: seq<seq<nat>>): (r: Result<Trained, SgdError>)
    requires SgdInput(prices, n, cfg, epochs, perms)
    ensures r.Ok? ==> |r.value.weights| == n && |r.value.losses| == (if epochs > 0 then epochs else 0)
  {
    var rets := Metrics.ComputeReturns(prices, n);
    if |rets| == 0 then Err(NotEnoughData)
    else
      SgdTrainingInput(prices, n, cfg, epochs, perms);
      Train(rets, n, cfg, perms, Metrics.AnnualMean(rets, n), FullCov(rets, n), |perms|)
  }

  lemma SgdTrainingInput(prices: seq<seq<real>>, n: nat, cfg: Config, epochs: int, perms: seq<seq<nat>>)
    requires SgdInput(prices, n, cfg, epochs, perms) && |Metrics.ComputeReturns(prices, n)| > 0
    ensures var rets := Metrics.ComputeReturns(prices, n);
      TrainingInput(rets, n, cfg, perms, Metrics.AnnualMean(rets, n), FullCov(rets, n))
  {
    var rets := Metrics.ComputeReturns(prices, n);
    if |perms| > 0 {
      BatchesValidRows(|rets|, cfg.batchSize);
    }
  }

  /**
    The inner loop of `sgd_optimize` for one epoch: for each slice of the
    permutation `idx`, a gradient step on that batch followed by the
    projection.
   */
  method RunEpoch(rets: seq<seq<real>>, w0: seq<real>, idx: seq<nat>, cfg: Config)
    returns (r: Result<seq<real>, ProjError>)
    requires IsTable(rets, |w0|) && IsPermutation(idx, |rets|) && BatchesValid(|rets|, cfg.batchSize)
    ensures r == Epoch(rets, w0, idx, cfg)
  {
    var n, m, b := |w0|, |rets|, cfg.batchSize;
    BatchesValidChunks(idx, b, m);
    PermutationBounds(idx, m);
    var w := w0;
    var start: nat := 0;
    while start < m
      invariant |w| == n
      invariant ChunksUsable(ChunksFrom(idx, b, start), m)
      invariant Epoch(rets, w0, idx, cfg) == RunChunks(rets, w, ChunksFrom(idx, b, start), cfg)
      decreases m - start
    {
      var projected, next := AdvanceSlice(rets, w, idx, cfg, start);
      if projected.Err? {
        return Err(projected.error);
      }
      w := projected.value;
      start := next;
    }
    return Ok(w);
  }

  /** One turn of RunEpoch's loop: the step on the slice at `start`, which advances RunChunks by one slice. */
  method AdvanceSlice(rets: seq<seq<real>>, w: seq<real>, idx: seq<nat>, cfg: Config, start: nat)
    returns (r: Result<seq<real>, ProjError>, next: nat)
    requires IsTable(rets, |w|) && cfg.batchSize > 0 && start < |idx|
    requires ChunksUsable(ChunksFrom(idx, cfg.batchSize, start), |rets|)
    ensures next == start + cfg.batchSize && ChunksUsable(ChunksFrom(idx, cfg.batchSize, next), |rets|)
    ensures r.Err? ==> RunChunks(rets, w, ChunksFrom(idx, cfg.batchSize, start), cfg) == Err(r.error)
    ensures r.Ok? ==> |r.value| == |w|
    ensures r.Ok? ==> RunChunks(rets, w, ChunksFrom(idx, cfg.batchSize, start), cfg) == RunChunks(rets, r.value, ChunksFrom(idx, cfg.batchSize, next), cfg)
  {
    next := start + cfg.batchSize;
    ChunkAt(idx, cfg.batchSize, start, next, |rets|);
    RunChunksHead(rets, w, ChunksFrom(idx, cfg.batchSize, start), cfg);
    r := BatchStep(SelectRows(rets, idx[start..SliceEnd(start, cfg.batchSize, |idx|)]), w, cfg);
  }

  /** One batch: `grad` from the batch moments, then `w -= lr * grad` and the projection. */
  method BatchStep(batch: seq<seq<real>>, w0: seq<real>, cfg: Config) returns (r: Result<seq<real>, ProjError>)
    requires IsTable(batch, |w0|) && |batch| >= 2
    ensures r == Step(batch, w0, cfg)
  {
    var grad := Gradient(batch, w0, cfg.lambda);
    var w := Sub(w0, Scale(cfg.lr, grad));
    r := ProjectToSimplex(w);
  }

  lemma {:induction false} ChunkAt(idx: seq<nat>, b: nat, start: nat, next: nat, m: nat)
    requires b > 0 && start < |idx| && next == start + b && ChunksUsable(ChunksFrom(idx, b, start), m)
    ensures var cs := ChunksFrom(idx, b, start);
      var slice := idx[start..SliceEnd(start, b, |idx|)];
      |cs| > 0 && cs[0] == slice && cs[1..] == ChunksFrom(idx, b, next) &&
      |slice| >= 2 && (forall k :: 0 <= k < |slice| ==> slice[k] < m) &&
      ChunksUsable(ChunksFrom(idx, b, next), m)
  {
    var cs := ChunksFrom(idx, b, start);
    assert cs[1..] == ChunksFrom(idx, b, next);
    assert |cs[0]| >= 2 && forall k :: 0 <= k < |cs[0]| ==> cs[0][k] < m;
  }

  /** The first slice's step, then the rest: one unfolding of RunChunks. */
  lemma {:induction false} RunChunksHead(rets: seq<seq<real>>, w: seq<real>, cs: seq<seq<nat>>, cfg: Config)
    requires IsTable(rets, |w|) && ChunksUsable(cs, |rets|) && |cs| > 0
    ensures ChunksUsable(cs[1..], |rets|)
    ensures var s := Step(SelectRows(rets, cs[0]), w, cfg);
      (s.Err? ==> RunChunks(rets, w, cs, cfg) == Err(s.error)) &&
      (s.Ok? ==> |s.value| == |w| && RunChunks(rets, w, cs, cfg) == RunChunks(rets, s.value, cs[1..], cfg))
  {
    assert forall i :: 0 <= i < |cs| - 1 ==> cs[1..][i] == cs[i + 1];
  }

  /**
    `sgd_optimize`: the returns table, the full-sample moments, then the
    epoch loop.
   */
  method SgdOptimize(prices: seq<seq<real>>, n: nat, cfg: Config, epochs: int, perms: seq<seq<nat>>)
    returns (r: Result<Trained, SgdError>)
    requires SgdInput(prices, n, cfg, epochs, perms)
    ensures r == Sgd(prices, n, cfg, epochs, perms)
  {
    var rets := Metrics.ComputeReturns(prices, n);
    if |rets| == 0 {
      return Err(NotEnoughData);
    }
    var muFull := Metrics.AnnualMean(rets, n);
    // One return row gives numpy a NaN covariance; no loss reads it then,
    // since a single row cannot be cut into usable batches.
    var sigmaFull: seq<seq<real>> := [];
    if |rets| >= 2 {
      sigmaFull := Metrics.AnnualCov(rets, n);
    }
    SgdTrainingInput(prices, n, cfg, epochs, perms);
    r := TrainEpochs(rets, n, cfg, perms, muFull, sigmaFull);
  }

  /** The epoch loop of `sgd_optimize`, stopping at the first epoch whose projection raises. */
  method TrainEpochs(rets: seq<seq<real>>, n: nat, cfg: Config, perms: seq<seq<nat>>,
                     muFull: seq<real>, sigmaFull: seq<seq<real>>)
    returns (r: Result<Trained, SgdError>)
    requires TrainingInput(rets, n, cfg, perms, muFull, sigmaFull)
    ensures r == Train(rets, n, cfg, perms, muFull, sigmaFull, |perms|)
  {
    var w := Uniform(n);
    var losses: seq<real> := [];
    var epoch := 0;
    while epoch < |perms|
      invariant 0 <= epoch <= |perms|
      invariant Train(rets, n, cfg, perms, muFull, sigmaFull, epoch) == Ok(Trained(w, losses))
    {
      var following := epoch + 1;
      TrainNext(rets, n, cfg, perms, muFull, sigmaFull, epoch, following, Trained(w, losses));
      var step := AdvanceEpoch(rets, Trained(w, losses), perms[epoch], cfg, muFull, sigmaFull);
      if step.Err? {
        TrainStopsAtError(rets, n, cfg, perms, muFull, sigmaFull, following, step.error);
        return step;
      }
      w, losses, epoch := step.value.weights, step.value.losses, following;
    }
    return Ok(Trained(w, losses));
  }

  /**
    The body of the epoch loop: the inner loop over the slices of this
    epoch's permutation, then `obj` for the new weights and `-obj`
    appended to the losses.
   */
  method AdvanceEpoch(rets: seq<seq<real>>, t: Trained, idx: seq<nat>, cfg: Config,
                      muFull: seq<real>, sigmaFull: seq<seq<real>>)
    returns (r: Result<Trained, SgdError>)
    requires IsTable(rets, |t.weights|) && IsPermutation(idx, |rets|) && BatchesValid(|rets|, cfg.batchSize)
    requires |muFull| == |t.weights| && IsSquare(sigmaFull, |t.weights|)
    ensures r == EpochStep(rets, t, idx, cfg, muFull, sigmaFull)
  {
    var moved := RunEpoch(rets, t.weights, idx, cfg);
    if moved.Err? {
      return Err(ProjectionFailed(moved.error));
    }
    var w := moved.value;
    var obj := Objective(w, muFull, sigmaFull, cfg.lambda);
    LossIsNegatedObjective(w, muFull, sigmaFull, cfg.lambda);
    return Ok(Trained(w, t.losses + [-obj]));
  }

  /** One more epoch of training is one EpochStep from the state reached so far. */
  lemma {:induction false} TrainNext(rets: seq<seq<real>>, n: nat, cfg: Config, perms: seq<seq<nat>>,
                                     muFull: seq<real>, sigmaFull: seq<seq<real>>, e: nat, next: nat, t: Trained)
    requires TrainingInput(rets, n, cfg, perms, muFull, sigmaFull) && e < |perms| && next == e + 1
    requires Train(rets, n, cfg, perms, muFull, sigmaFull, e) == Ok(t)
    ensures |t.weights| == n && IsSquare(sigmaFull, n) && IsPermutation(perms[e], |rets|) && BatchesValid(|rets|, cfg.batchSize)
    ensures Train(rets, n, cfg, perms, muFull, sigmaFull, next) == EpochStep(rets, t, perms[e], cfg, muFull, sigmaFull)
  {
    TrainUnfold(rets, n, cfg, perms, muFull, sigmaFull, e, t);
  }

  lemma {:induction false} TrainUnfold(rets: seq<seq<real>>, n: nat, cfg: Config, perms: seq<seq<nat>>,
                                       muFull: seq<real>, sigmaFull: seq<seq<real>>, e: nat, t: Trained)
    requires TrainingInput(rets, n, cfg, perms, muFull, sigmaFull) && e < |perms|
    requires Train(rets, n, cfg, perms, muFull, sigmaFull, e) == Ok(t)
    ensures |t.weights| == n && IsSquare(sigmaFull, n)
    ensures Train(rets, n, cfg, perms, muFull, sigmaFull, e + 1) == EpochStep(rets, t, perms[e], cfg, muFull, sigmaFull)
  {
  }

  /** Unfolding hint for AdvanceEpoch: the recorded loss is the negated objective. */
  lemma {:induction false} LossIsNegatedObjective(w: seq<real>, muFull: seq<real>, sigmaFull: seq<seq<real>>, lambda: real)
    requires |muFull| == |w| && IsSquare(sigmaFull, |w|)
    ensures Loss(w, muFull, sigmaFull, lambda) == -Objective(w, muFull, sigmaFull, lambda)
  {
  }

  // ---------------------------------------------------------------------
  // Properties of the run

  /** Once an epoch raises, the run ends with that error. */
  lemma {:induction false} TrainStopsAtError(rets: seq<seq<real>>, n: nat, cfg: Config, perms: seq<seq<nat>>,
                                             muFull: seq<real>, sigmaFull: seq<seq<real>>, e: nat, err: SgdError)
    requires TrainingInput(rets, n, cfg, perms, muFull, sigmaFull) && e <= |perms|
    requires Train(rets, n, cfg, perms, muFull, sigmaFull, e) == Err(err)
    ensures Train(rets, n, cfg, perms, muFull, sigmaFull, |perms|) == Err(err)
    decreases |perms| - e
  {
    if e < |perms| {
      TrainErrorStep(rets, n, cfg, perms, muFull, sigmaFull, e, e + 1);
      TrainStopsAtError(rets, n, cfg, perms, muFull, sigmaFull, e + 1, err);
    }
  }

  lemma {:induction false} TrainErrorStep(rets: seq<seq<real>>, n: nat, cfg: Config, perms: seq<seq<nat>>,
                                          muFull: seq<real>, sigmaFull: seq<seq<real>>, e: nat, next: nat)
    requires TrainingInput(rets, n, cfg, perms, muFull, sigmaFull) && e < |perms| && next == e + 1
    requires Train(rets, n, cfg, perms, muFull, sigmaFull, e).Err?
    ensures Train(rets, n, cfg, perms, muFull, sigmaFull, next) == Train(rets, n, cfg, perms, muFull, sigmaFull, e)
  {
  }

  /** With at least one asset no slice's projection raises, and after any slice the weights lie on the simplex. */
  lemma {:induction false} RunChunksOnSimplex(rets: seq<seq<real>>, w: seq<real>, cs: seq<seq<nat>>, cfg: Config)
    requires IsTable(rets, |w|) && ChunksUsable(cs, |rets|) && |w| > 0
    ensures var r := RunChunks(rets, w, cs, cfg); r.Ok? && (|cs| > 0 ==> OnSimplex(r.value))
    decreases |cs|
  {
    if |cs| > 0 {
      var batch := SelectRows(rets, cs[0]);
      StepOnSimplex(batch, w, cfg);
      var w1 := Step(batch, w, cfg).value;
      var rest := cs[1..];
      assert ChunksUsable(rest, |rets|) by {
        forall i | 0 <= i < |rest|
          ensures |rest[i]| >= 2 && forall k :: 0 <= k < |rest[i]| ==> rest[i][k] < |rets|
        {
          assert rest[i] == cs[i + 1];
        }
      }
      RunChunksOnSimplex(rets, w1, rest, cfg);
    }
  }

  /**
    An epoch with at least one asset ends on the simplex; with none, the
    first projection raises on its empty input.
   */
  lemma EpochOutcome(rets: seq<seq<real>>, w: seq<real>, idx: seq<nat>, cfg: Config)
    requires IsTable(rets, |w|) && IsPermutation(idx, |rets|) && BatchesValid(|rets|, cfg.batchSize) && |rets| > 0
    ensures var r := Epoch(rets, w, idx, cfg);
      (|w| > 0 ==> r.Ok? && OnSimplex(r.value)) && (|w| == 0 ==> r == Err(EmptyInput))
  {
    PermutationBounds(idx, |rets|);
    BatchesValidChunks(idx, cfg.batchSize, |rets|);
    var cs := Chunks(idx, cfg.batchSize);
    assert |cs| > 0;
    if |w| > 0 {
      RunChunksOnSimplex(rets, w, cs, cfg);
    }
  }

  /**
    Training from the uniform weights: with at least one asset every epoch
    succeeds and leaves the weights on the simplex; with none, the first
    epoch's projection raises and the run ends with that error.
   */
  lemma {:induction false} TrainOutcome(rets: seq<seq<real>>, n: nat, cfg: Config, perms: seq<seq<nat>>,
                                        muFull: seq<real>, sigmaFull: seq<seq<real>>, e: nat)
    requires TrainingInput(rets, n, cfg, perms, muFull, sigmaFull) && e <= |perms|
    ensures var r := Train(rets, n, cfg, perms, muFull, sigmaFull, e);
      (n > 0 ==> r.Ok? && (e > 0 ==> OnSimplex(r.value.weights))) &&
      (n == 0 && e > 0 ==> r == Err(ProjectionFailed(EmptyInput)))
  {
    if e > 0 {
      var before := e - 1;
      TrainOutcome(rets, n, cfg, perms, muFull, sigmaFull, before);
      OutcomeStep(rets, n, cfg, perms, muFull, sigmaFull, before, e);
    }
  }

  lemma {:induction false} OutcomeStep(rets: seq<seq<real>>, n: nat, cfg: Config, perms: seq<seq<nat>>,
                                       muFull: seq<real>, sigmaFull: seq<seq<real>>, e: nat, next: nat)
    requires TrainingInput(rets, n, cfg, perms, muFull, sigmaFull) && e < |perms| && next == e + 1
    requires var r := Train(rets, n, cfg, perms, muFull, sigmaFull, e);
      (n > 0 ==> r.Ok?) && (n == 0 && e > 0 ==> r == Err(ProjectionFailed(EmptyInput)))
    ensures var r := Train(rets, n, cfg, perms, muFull, sigmaFull, next);
      (n > 0 ==> r.Ok? && OnSimplex(r.value.weights)) &&
      (n == 0 ==> r == Err(ProjectionFailed(EmptyInput)))
  {
    var prev := Train(rets, n, cfg, perms, muFull, sigmaFull, e);
    if prev.Ok? {
      TrainNext(rets, n, cfg, perms, muFull, sigmaFull, e, next, prev.value);
      EpochOutcome(rets, prev.value.weights, perms[e], cfg);
    } else {
      TrainErrorStep(rets, n, cfg, perms, muFull, sigmaFull, e, next);
    }
  }

  /**
    The run stops before training exactly when the price table yields no
    return rows: fewer than two dates, or no dates at all for a table with
    no columns.
   */
  lemma SgdFailsFast(prices: seq<seq<real>>, n: nat, cfg: Config, epochs: int, perms: seq<seq<nat>>)
    requires SgdInput(prices, n, cfg, epochs, perms)
    ensures Sgd(prices, n, cfg, epochs, perms) == Err(NotEnoughData) <==>
      if n > 0 then |prices| < 2 else |prices| == 0
  {
    var rets := Metrics.ComputeReturns(prices, n);
    if |rets| > 0 {
      SgdTrainingInput(prices, n, cfg, epochs, perms);
      TrainOutcome(rets, n, cfg, perms, Metrics.AnnualMean(rets, n), FullCov(rets, n), |perms|);
    }
  }

  /**
    With return rows to learn from: no epochs leave the uniform weights and
    an empty loss list; with at least one asset the run succeeds with one
    loss per epoch and ends on the simplex; with no assets the first
    projection raises.
   */
  lemma SgdOutcome(prices: seq<seq<real>>, n: nat, cfg: Config, epochs: int, perms: seq<seq<nat>>)
    requires SgdInput(prices, n, cfg, epochs, perms) && |Metrics.ComputeReturns(prices, n)| > 0
    ensures var r := Sgd(prices, n, cfg, epochs, perms);
      (epochs <= 0 ==> r == Ok(Trained(Uniform(n), []))) &&
      (n == 0 && epochs > 0 ==> r == Err(ProjectionFailed(EmptyInput))) &&
      (n > 0 ==> r.Ok? && |r.value.weights| == n && |r.value.losses| == (if epochs > 0 then epochs else 0) &&
                 (epochs > 0 ==> OnSimplex(r.value.weights)))
  {
    var rets := Metrics.ComputeReturns(prices, n);
    SgdTrainingInput(prices, n, cfg, epochs, perms);
    TrainOutcome(rets, n, cfg, perms, Metrics.AnnualMean(rets, n), FullCov(rets, n), |perms|);
  }

  /**
    The loss recorded by epoch j (entry j - 1 of the list) is the loss of
    the weights at the end of that epoch, measured against the full-sample
    moments.
   */
  lemma {:induction false} LossesRecordEachEpoch(rets: seq<seq<real>>, n: nat, cfg: Config, perms: seq<seq<nat>>,
                                                 muFull: seq<real>, sigmaFull: seq<seq<real>>, e: nat, j: nat)
    requires TrainingInput(rets, n, cfg, perms, muFull, sigmaFull) && e <= |perms| && 0 < j <= e
    requires Train(rets, n, cfg, perms, muFull, sigmaFull, e).Ok?
    ensures IsSquare(sigmaFull, n)
    ensures var after := Train(rets, n, cfg, perms, muFull, sigmaFull, j);
      after.Ok? &&
      Train(rets, n, cfg, perms, muFull, sigmaFull, e).value.losses[j - 1] == Loss(after.value.weights, muFull, sigmaFull, cfg.lambda)
    decreases e
  {
    var before := e - 1;
    LastLossAt(rets, n, cfg, perms, muFull, sigmaFull, before, e);
    if j < e {
      LossesRecordEachEpoch(rets, n, cfg, perms, muFull, sigmaFull, before, j);
    }
  }

  /** A successful epoch appends exactly one loss, that of the weights it ends with. */
  lemma LastLoss(rets: seq<seq<real>>, n: nat, cfg: Config, perms: seq<seq<nat>>,
                 muFull: seq<real>, sigmaFull: seq<seq<real>>, e: nat)
    requires TrainingInput(rets, n, cfg, perms, muFull, sigmaFull) && e < |perms|
    requires Train(rets, n, cfg, perms, muFull, sigmaFull, e + 1).Ok?
    ensures IsSquare(sigmaFull, n)
    ensures var before := Train(rets, n, cfg, perms, muFull, sigmaFull, e);
      var after := Train(rets, n, cfg, perms, muFull, sigmaFull, e + 1);
      before.Ok? &&
      after.value.losses == before.value.losses + [Loss(after.value.weights, muFull, sigmaFull, cfg.lambda)]
  {
    LastLossAt(rets, n, cfg, perms, muFull, sigmaFull, e, e + 1);
  }

  /** LastLoss with the following epoch passed as `next`. */
  lemma {:induction false} LastLossAt(rets: seq<seq<real>>, n: nat, cfg: Config, perms: seq<seq<nat>>,
                                      muFull: seq<real>, sigmaFull: seq<seq<real>>, e: nat, next: nat)
    requires TrainingInput(rets, n, cfg, perms, muFull, sigmaFull) && e < |perms| && next == e + 1
    requires Train(rets, n, cfg, perms, muFull, sigmaFull, next).Ok?
    ensures IsSquare(sigmaFull, n)
    ensures var before := Train(rets, n, cfg, perms, muFull, sigmaFull, e);
      var after := Train(rets, n, cfg, perms, muFull, sigmaFull, next);
      before.Ok? &&
      after.value.losses == before.value.losses + [Loss(after.value.weights, muFull, sigmaFull, cfg.lambda)]
  {
    var before := Train(rets, n, cfg, perms, muFull, sigmaFull, e);
    if before.Err? {
      TrainErrorStep(rets, n, cfg, perms, muFull, sigmaFull, e, next);
      assert false;
    }
    TrainNext(rets, n, cfg, perms, muFull, sigmaFull, e, next, before.value);
  }

  /**
    Against the moments of the whole table, the loss is the negated
    mean-variance utility of the portfolio's own daily returns x_t · w:
    252 times their mean, less λ/2 times 252 times their sample variance.
   */
  lemma LossIsMeanVariance(w: seq<real>, rets: seq<seq<real>>, lambda: real)
    requires IsTable(rets, |w|) && |rets| >= 2
    ensures var x := RowDots(w, rets);
      Loss(w, Metrics.AnnualMean(rets, |w|), Metrics.AnnualCov(rets, |w|), lambda) ==
      -(Metrics.TradingDays * Metrics.SeriesMean(x) - lambda / 2.0 * (Metrics.TradingDays * Metrics.SampleVariance(x)))
  {
    var sigma := Metrics.AnnualCov(rets, |w|);
    Metrics.PortfolioReturnIsSeriesMean(w, rets);
    Metrics.PortfolioVarianceIsSeriesVariance(w, rets);
    DotComm(w, MatVec(sigma, w));
  }
}

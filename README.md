# smart-portfolio: the numeric core in Dafny

This project models the numeric pipeline of smart-portfolio. The pipeline turns a table of daily prices into returns, and returns into long-only portfolio weights. All arithmetic is exact, over `real`. A vector is a `seq<real>`. A table is a `seq<seq<real>>` of rows with an explicit column count `n`, one column per ticker.

- `Results` holds the `Result` datatype, which models the `ValueError`s the Python code raises.
- `Linalg` holds sums, dot products, matrix-vector products and quadratic forms. These are helpers for the other modules.
- `Simplex` models `project_to_simplex`. This is the sort / prefix-sum / threshold projection onto the probability simplex of Duchi, Shalev-Shwartz, Singer and Chandra (2008).
- `Metrics` models `compute_returns` (percent-change returns, with the first row dropped) and `portfolio_stats` (annualised return, volatility and Sharpe ratio, with 252 trading days and the sample covariance). It also models the example call at the foot of `metrics.py`.
- `Data` models `calculate_returns`, which is the same computation as `compute_returns`.
- `OptimizeSgd` models `sgd_optimize`, the projected mini-batch gradient loop:
  - Each epoch cuts a permutation of the return rows into consecutive slices of `batch_size` rows.
  - For each slice it takes a gradient step on the batch's annualised mean and covariance, then projects onto the simplex.
  - After each epoch it appends the negated full-sample mean-variance objective to the loss list.
  - The loops are methods: `SgdOptimize` → `TrainEpochs` (epoch loop) → `AdvanceEpoch` (loop body) → `RunEpoch` (slice loop) → `AdvanceSlice` (loop body) → `BatchStep` (one slice).
  - Each method is proved equal to a specification function: `Sgd`, `Train`, `EpochStep`, `Epoch` and `Step`. The properties are proved about those functions.

The random permutation drawn in each epoch is a parameter: `perms[e]` is the permutation of epoch `e`. It must be a permutation of the row indices.

### Behaviour of the code worth noting

- `sgd_optimize` accepts a `batch_size` larger than the number of return rows and uses one slice of all rows; see `OptimizeSgd.SingleChunk`.
- `sgd_optimize` checks neither the learning rate nor the epoch count. With `epochs <= 0` it returns the uniform weights and an empty loss list; see `OptimizeSgd.SgdOutcome`.
- `compute_returns` and `calculate_returns` raise nothing. A price table with fewer than two rows gives an empty table. A table with no columns keeps all its rows, since `dropna` finds nothing to drop. Of the three, only `sgd_optimize` raises. For lack of data it raises only when there are no return rows (`OptimizeSgd.SgdFailsFast`). It also raises, through `project_to_simplex`, for a table with no columns once an epoch runs (`OptimizeSgd.SgdOutcome`), and for a one-row batch (below).
- A one-row batch does not complete. `np.cov` of a single row is NaN, and a NaN weight vector makes every comparison in `project_to_simplex` false, so the code raises "No valid projection". The model excludes one-row batches by a precondition; see "## Left out".

## Model

| member | source | states |
|---|---|---|
| Simplex.ProjectToSimplex | portfolio/optimize_sgd.py:3-14 | an empty vector raises the empty-input error; a successful projection has one non-negative entry per input entry |
| Simplex.ProjectionSucceeds | portfolio/optimize_sgd.py:5-11 | the projection succeeds exactly when the vector is non-empty; the only error it can raise is the empty-input one, so "no valid projection" is unreachable |
| Simplex.Threshold | portfolio/optimize_sgd.py:5-13 | `theta` of an empty vector is the empty-input error |
| Simplex.SortDesc | portfolio/optimize_sgd.py:7 | `np.sort(w)[::-1]` has one entry per input entry; its order and its entries are stated by `SortDescSorted` and `SortDescPermutes` |
| Simplex.SortDescPermutes | portfolio/optimize_sgd.py:7 | the descending sort holds the same entries, as a multiset, as its input |
| Simplex.SortDescSorted | portfolio/optimize_sgd.py:7 | the sort's output is in descending order |
| Simplex.CumSum | portfolio/optimize_sgd.py:8 | `np.cumsum(u)` has one running total per entry; the recurrence is `CumSumStep` |
| Simplex.CumSumStep | portfolio/optimize_sgd.py:8 | each prefix sum is the previous one plus the next sorted entry |
| Simplex.Passes | portfolio/optimize_sgd.py:9 | the test `u * (k + 1) > cssv - 1` gives one truth value per sorted entry |
| Simplex.Nonzero | portfolio/optimize_sgd.py:9 | `np.nonzero` lists exactly the indices whose test holds, in increasing order |
| Simplex.ZeroPasses | portfolio/optimize_sgd.py:9-11 | for a non-empty vector, index 0 always passes the test, so some index passes |
| Simplex.LastNonzero | portfolio/optimize_sgd.py:12 | `rho`, the last passing index, passes and no later index does |
| Simplex.Clip | portfolio/optimize_sgd.py:14 | `max(w - theta, 0)` is entrywise non-negative and at least `w[i] - theta` |
| Simplex.TopEntriesExceedTheta | portfolio/optimize_sgd.py:9-13 | exactly the top `rho + 1` sorted entries exceed `theta`, and they exceed it by a total of 1 |
| Simplex.ClipSumSort | portfolio/optimize_sgd.py:7-14 | clipping the sorted vector and clipping the original have the same total, so sorting only serves to find `theta` |
| Simplex.ProjectionOnSimplex | portfolio/optimize_sgd.py:7-14 | for a non-empty vector the result is `max(w[i] - theta, 0)` in the original order, non-negative and summing to 1 |
| Simplex.ProjectionIdempotent | portfolio/optimize_sgd.py:12-14 | a vector already on the simplex is returned unchanged |
| Simplex.AllEqualToUniform | portfolio/optimize_sgd.py:12-14 | a vector whose entries are all equal projects to the uniform vector `1/n` |
| Simplex.ConstantOnSimplexIsUniform | portfolio/optimize_sgd.py:24 | the uniform vector is the only constant vector on the simplex |
| Simplex.Uniform | portfolio/optimize_sgd.py:24 | `np.ones(n) / n` has n entries; `UniformOnSimplex` shows it is on the simplex |
| Simplex.UniformOnSimplex | portfolio/optimize_sgd.py:24 | the starting weights `np.ones(n) / n` are on the simplex |
| Simplex.ProjectionKeepsOrder | portfolio/optimize_sgd.py:14 | a larger input weight never receives a smaller projected weight |
| Metrics.PctChange | portfolio/metrics.py:6 | the change from one price row to the next has one entry per column; `GrowInvertsPctChange` shows growing by it gives back the next row |
| Metrics.ComputeReturns | portfolio/metrics.py:4-6 | the returns have the price table's columns and one row fewer (none for fewer than two rows; all rows when there are no columns) |
| Metrics.ReturnEntry | portfolio/metrics.py:6 | each return is `(p[t+1][j] - p[t][j]) / p[t][j]`, column by column |
| Metrics.GrowInvertsPctChange | portfolio/metrics.py:6 | growing a price row by its percent change gives back the next row |
| Metrics.ReturnsTail | portfolio/metrics.py:6 | dropping the first price row drops exactly the first return row |
| Metrics.CompoundInvertsReturns | portfolio/metrics.py:4-6 | compounding the returns from the first price row rebuilds the whole price table |
| Metrics.ExampleReturns | portfolio/metrics.py:22-23 | the example prices give returns A = [1/10, -1/22] and B = [1/20, 1/21] |
| Metrics.Mean | portfolio/metrics.py:15 | the column means of a non-empty table, one per column; `MeanDot` relates them to the mean portfolio return |
| Metrics.AnnualMean | portfolio/optimize_sgd.py:21 | the column means times 252, one per column (also line 32, and metrics.py:15) |
| Metrics.Cov | portfolio/metrics.py:16 | the sample covariance (divisor m - 1) of a table of at least two rows is an n × n matrix |
| Metrics.AnnualCov | portfolio/optimize_sgd.py:22 | the sample covariance times 252 is an n × n matrix (also line 33, and metrics.py:16) |
| Metrics.PortfolioVariance | portfolio/metrics.py:18 | `w @ Sigma @ w`, the squared volatility; `PortfolioVarianceIsSeriesVariance` shows it is 252 times the sample variance of the daily portfolio returns |
| Metrics.MeanDot | portfolio/metrics.py:15-17 | the weighted per-asset mean is the mean of the portfolio's daily returns |
| Metrics.DeviationDots | portfolio/metrics.py:16 | weighting the deviations from the column means centres the portfolio's daily returns |
| Metrics.PortfolioReturnIsSeriesMean | portfolio/metrics.py:15-17 | `weights · (252 · mean)` is 252 times the mean daily portfolio return |
| Metrics.PortfolioVarianceIsSeriesVariance | portfolio/metrics.py:16-18 | `wᵀ(252 · Cov)w` is 252 times the sample variance (divisor m - 1) of the daily portfolio returns, and so is never negative |
| Metrics.DotTimesTradingDays | portfolio/metrics.py:15-17 | scaling the means by 252 scales the portfolio return by 252 |
| Metrics.PortfolioStats | portfolio/metrics.py:8-20 | the return is 252 times the mean daily portfolio return; the squared volatility is 252 times their sample variance; the Sharpe ratio times the volatility is the return |
| Metrics.ExampleStats | portfolio/metrics.py:22-24 | equal weights on the example give annual return 14763/1540 and annual variance 504 · (683/18480)² |
| Data.CalculateReturns | portfolio/data.py:35-40 | the same table as `compute_returns`, with one row fewer than the prices and entries `p[t+1][j] / p[t][j] - 1` |
| OptimizeSgd.PermutationBounds | portfolio/optimize_sgd.py:29 | a permutation of the rows has one entry per row, and every entry names a row |
| OptimizeSgd.ChunksPartitionRows | portfolio/optimize_sgd.py:29-31 | the slices laid end to end give back the permutation, so every row is used exactly once per epoch |
| OptimizeSgd.ChunksFrom | portfolio/optimize_sgd.py:30-31 | the slices `idx[start:start+b]` for `start` stepping by `b` below `len(idx)`, with the end clamped as Python does |
| OptimizeSgd.Chunks | portfolio/optimize_sgd.py:30-31 | the slices of one epoch, starting at 0; `ChunksPartitionRows` and `ChunkCountAndSizes` state their partition, count and sizes |
| OptimizeSgd.ChunkCountAndSizes | portfolio/optimize_sgd.py:30-31 | there are `ceil(m / b)` slices, all of `b` rows except the last, which holds the `m % b` rows left over |
| OptimizeSgd.SingleChunk | portfolio/optimize_sgd.py:30-31 | a batch size of at least the row count gives a single slice of all rows |
| OptimizeSgd.BatchesValidChunks | portfolio/optimize_sgd.py:30-33 | with a usable batch size every slice has at least two rows, and every index names a row |
| OptimizeSgd.BatchesValidRows | portfolio/optimize_sgd.py:27-33 | a usable batch size on a non-empty table implies at least two return rows |
| OptimizeSgd.SelectRows | portfolio/optimize_sgd.py:31 | `rets[idx[...]]` has one row per index |
| OptimizeSgd.Gradient | portfolio/optimize_sgd.py:32-34 | the gradient has one entry per asset |
| OptimizeSgd.Step | portfolio/optimize_sgd.py:31-36 | a step on an empty weight vector raises the projection's empty-input error; a successful step keeps the number of assets |
| OptimizeSgd.StepOnSimplex | portfolio/optimize_sgd.py:34-36 | with at least one asset the step's projection succeeds and the weights are on the simplex |
| OptimizeSgd.RunChunks | portfolio/optimize_sgd.py:30-36 | running the slices in order keeps the number of assets |
| OptimizeSgd.RunChunksOnSimplex | portfolio/optimize_sgd.py:30-36 | with at least one asset no slice raises, and the weights are on the simplex after every slice |
| OptimizeSgd.Epoch | portfolio/optimize_sgd.py:29-36 | an epoch keeps the number of assets |
| OptimizeSgd.EpochOutcome | portfolio/optimize_sgd.py:29-36 | with at least one asset an epoch ends on the simplex; with none, its first projection raises the empty-input error |
| OptimizeSgd.BatchStep | portfolio/optimize_sgd.py:31-36 | the method computing `grad`, the update and the projection returns `Step` |
| OptimizeSgd.RunEpoch | portfolio/optimize_sgd.py:29-36 | the slice loop returns `Epoch`, stopping at the first projection that raises |
| OptimizeSgd.AdvanceSlice | portfolio/optimize_sgd.py:30-36 | one turn of the slice loop. The next start is `start + batch_size`. If the step raises, running the slices from `start` raises the same error. Otherwise it equals running the slices from the next start on the new weights |
| OptimizeSgd.EpochStep | portfolio/optimize_sgd.py:28-39 | a successful epoch keeps the number of assets and appends exactly one loss |
| OptimizeSgd.AdvanceEpoch | portfolio/optimize_sgd.py:28-39 | the body of the epoch loop (inner loop, `obj`, `losses.append(-obj)`) returns `EpochStep` |
| OptimizeSgd.Train | portfolio/optimize_sgd.py:24-39 | after `e` successful epochs there is one weight per asset and exactly `e` losses |
| OptimizeSgd.TrainEpochs | portfolio/optimize_sgd.py:24-43 | the epoch loop from the uniform weights returns `Train` over all epochs |
| OptimizeSgd.FullCov | portfolio/optimize_sgd.py:22 | with at least two return rows the full-sample covariance is an n × n matrix |
| OptimizeSgd.SgdTrainingInput | portfolio/optimize_sgd.py:18-27 | the prepared returns and full-sample moments meet what the epoch loop needs |
| OptimizeSgd.Sgd | portfolio/optimize_sgd.py:16-43 | the whole run: a successful run has one weight per asset and `max(epochs, 0)` losses; `SgdFailsFast` and `SgdOutcome` state when it fails and what it returns |
| OptimizeSgd.SgdOptimize | portfolio/optimize_sgd.py:16-43 | the method returns `Sgd`: the not-enough-data error or the result of the epoch loop |
| OptimizeSgd.SgdFailsFast | portfolio/optimize_sgd.py:18-20 | the run raises for lack of data exactly when the prices give no return rows: fewer than two rows, or none at all when there are no columns |
| OptimizeSgd.SgdOutcome | portfolio/optimize_sgd.py:24-43 | with no epochs the result is the uniform weights and no losses; with at least one asset the run succeeds with `max(epochs, 0)` losses and ends on the simplex; with no assets the first projection raises |
| OptimizeSgd.TrainOutcome | portfolio/optimize_sgd.py:24-39 | with at least one asset every epoch succeeds and leaves the weights on the simplex; with none, the first epoch raises and the run ends with that error |
| OptimizeSgd.TrainStopsAtError | portfolio/optimize_sgd.py:28-36 | an error raised in some epoch is the result of the whole run |
| OptimizeSgd.Objective | portfolio/optimize_sgd.py:38 | `w.dot(mu_full) - λ/2 * w.dot(Sigma_full @ w)`; `LossIsMeanVariance` shows what it measures |
| OptimizeSgd.Loss | portfolio/optimize_sgd.py:39 | the recorded loss `-obj` |
| OptimizeSgd.LastLoss | portfolio/optimize_sgd.py:38-39 | a successful epoch appends exactly one loss, that of the weights it ends with |
| OptimizeSgd.LossesRecordEachEpoch | portfolio/optimize_sgd.py:38-39 | the loss recorded by epoch j (entry j - 1) is the loss of the weights reached at the end of epoch j |
| OptimizeSgd.LossIsMeanVariance | portfolio/optimize_sgd.py:38-39 | against the full-sample moments, the loss is minus (252 × mean daily portfolio return − λ/2 × 252 × their sample variance) |

## Left out

- Network and file I/O (`fetch_prices`, `get_sample_data` and the `__main__` block in `portfolio/data.py`), the Streamlit interface (`portfolio/ui.py`) and the PyPortfolioOpt wrapper (`portfolio/optimizer.py`). These are glue around code that is not visible here.
- Floating point, NaN and infinity. All arithmetic is exact. Prices used as divisors must be non-zero (`Metrics.DivisorsNonZero`).
- Metrics.PortfolioStats: `np.sqrt` is not modelled. The volatility is a parameter: a positive number whose square is the portfolio variance. It must be positive, because the source divides by it without a guard.
- OptimizeSgd.SgdOptimize: requires every slice to have at least two rows (`OptimizeSgd.BatchesValid`: `batch_size >= 2`, and the rows do not leave a single row over). numpy's sample covariance of a single row is NaN. The code lets that NaN into the weights, and the next projection then raises "No valid projection".
- OptimizeSgd.SgdOptimize: requires `batch_size >= 1` (`Config.batchSize` is a `nat`, and `SgdInput` asks for at least 1). Python's `range` raises for a step of 0. For a negative `batch_size`, `range(0, m, b)` is empty, so each epoch takes no step and appends the loss of the unchanged uniform weights; the model does not cover that case.
- Randomness: `np.random.permutation` is replaced by the parameter `perms`, one permutation per epoch.
- The `verbose` progress printing (`portfolio/optimize_sgd.py:40-41`).
- pandas index alignment and `pct_change` filling of interior gaps. Tables are assumed gap-free.
- A single asset. `np.cov` of one column is a 0-d array, and `Sigma_b @ w` then raises in the source. The model computes with a 1 × 1 matrix, so for one asset it returns weights where the source raises.
- The full-sample covariance of a single return row (NaN in numpy). The precondition `OptimizeSgd.BatchesValid` excludes epochs on a single return row, so the model never reads that covariance, and `SgdOptimize` leaves it empty. In the source the first projection raises before line 38 would read it.
- `w -= lr * grad` updates the numpy array in place. The model reassigns a `seq` local instead. No other reference to that array exists, so nothing else observes the difference.
- The two nested loops of `sgd_optimize` are split into methods (`TrainEpochs`, `AdvanceEpoch`, `RunEpoch`, `AdvanceSlice`, `BatchStep`). Each method is proved equal to its specification function.
- That the projection is the Euclidean nearest point on the simplex. The model proves what the algorithm computes (non-negative, sums to 1, order-preserving, idempotent), not its optimality.
- No claim is made that the loss decreases or that the iteration converges.

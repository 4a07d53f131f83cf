# Robust gossip: ranking and trimmed averaging, modelled in Dafny

This project models the core of *robust-gossip*. That code simulates decentralised
estimators on a network. At each step one edge `(i, j)` is sampled and the two nodes
it joins exchange information.

- Three **rank estimators** (`src/rank.py`) let every node estimate the rank of its
  own value among all values:
  - GoRank, a running average of pairwise comparisons against a travelling shadow
    copy of the data;
  - Baseline++, with auxiliary ranks and values that travel along the edges and are
    repaired when they contradict each other;
  - Baseline (Chiuso et al.), where an auxiliary identity also travels and a node
    adopts the auxiliary rank when its own token comes home.
- Two **averaging estimators** (`src/trim.py`):
  - GoTrim, which gossips `z` while re-weighting every node by the trimmed-mean weight
    `wn` of its estimated rank;
  - ClippedGossip, which moves the contacted pair toward each other by half of a
    clipped difference.
- The **weight function** `wn` (`src/utils.py`), the **grid side** computation
  `best_side_from_surface` (`src/graph.py`), and the **experiment driver**
  (`run_experiments.py`). The driver replays a trial on fresh estimators, measures the
  final and per-step errors against the true ranks / trimmed mean, and averages
  them over the trials.

The model has two levels.

- **Values.** Each estimator's state is a datatype (`RankModel.RankState`,
  `MeanModel.MeanState`, a history `seq<seq<real>>` for ClippedGossip). One
  `update(t, i, j)` is a step function, and a trial is a run function folding the
  steps over an edge sequence. The properties of the source (bounds, permutation
  invariants, pair consistency, mass conservation, the Cesàro-average reading of
  GoRank) are proved about these as lemmas and run invariants.
- **Objects.** Each estimator is also a class that owns its history arrays, as the
  Python objects do. An update replaces each history row it writes as a whole
  value, and the rows stored equal the ones numpy writes. GoRank's shadow copy `y`
  is an array swapped entry by entry, as in the source. Every `Update`/`UpdateMean` method is
  proved to move its abstract state by one step (`Model() == Step(old(Model()), …)`).
  The driver methods are proved to compute the errors the value-level functions
  define. The three rank estimators are reached through the datatype
  `RankEstimators.RankEstimator`, which stands for the `rank_class` argument.

Modules, in dependency order:
- `Sequences`: sums, swaps, ranges, multiset facts.
- `TrimWeight`: `wn`.
- `Grid`: `best_side_from_surface`.
- `GroundTruth`: `argsort(argsort(data))` and the true weights.
- `RankModel`, `RankProperties` and `RankEstimators`: the rank estimators.
- `MeanModel` and `MeanEstimators`: the averaging estimators.
- `Experiment`: one trial.
- `Aggregate`: all trials and the averaged errors.

## Model

| member | source | states |
|---|---|---|
| `TrimWeight.Trunc` | src/utils.py:8 | `int(alpha * n)` truncates toward zero: the result is the integer at or below a non-negative argument and at or above a negative one, within distance 1 |
| `TrimWeight.Wn` | src/utils.py:5-12 | one weight per entry of `r`, every weight in `[0, 1]` |
| `TrimWeight.WnValues` | src/utils.py:7-11 | every weight is 0 or `1/(n-2m)` with `m = int(alpha*n)`, and the latter only when `n-2m > 0` |
| `TrimWeight.WnSupport` | src/utils.py:8-11 | a weight is nonzero if and only if `n-2m > 0` and `m+0.5 <= r[k] < n-m+0.5` (lower bound inclusive) |
| `TrimWeight.WnDegenerate` | src/utils.py:10-11 | when `n-2m <= 0` every weight is 0 (no division happens) |
| `TrimWeight.WnUntrimmed` | src/utils.py:8-11 | with `alpha = 0` every rank in `[0.5, n+0.5)` gets weight exactly `1/n` |
| `TrimWeight.WnSumsToOne` | src/utils.py:8-11 | for `r` a permutation of `1..n` and `n-2m > 0` the weights sum to 1 and exactly `n-2m` of them are nonzero |
| `TrimWeight.WnTenRanks` | src/utils.py:8-11 | `n = 10`, `alpha = 0.2`, `r = 1..10` gives 0 for ranks 1, 2, 9, 10 and `1/6` for the other six |
| `Grid.FloorSqrt` | src/graph.py:34 | `int(S**0.5)` as the exact integer square root: `r*r <= S < (r+1)*(r+1)` |
| `Grid.FloorSqrtUnique` | src/graph.py:34 | any `r` with `r*r <= S < (r+1)*(r+1)` is that root |
| `Grid.BestSideFromSurface` | src/graph.py:33-38 | a result exists if and only if `S >= 1`; it is `(i, S // i)` with `i` the largest divisor of `S` in `1..floor(sqrt S)`, the first one the count-down loop meets |
| `Grid.BestSideIsFactorPair` | src/graph.py:35-38 | the result `(i, j)` has `i*j == S` and `i <= j` |
| `Grid.BestSideUnique` | src/graph.py:35-36 | the characterisation of the result determines it: two results for the same `S` are equal |
| `Grid.BestSideOfSquare` | src/graph.py:34-38 | a perfect square `k*k` gives `(k, k)` |
| `Grid.BestSideOfPrime` | src/graph.py:34-38 | a prime `p` gives `(1, p)` |
| `GroundTruth.TrueRanks` | run_experiments.py:89 | one true rank per node (its meaning is the next three rows) |
| `GroundTruth.TrueRanksOrder` | run_experiments.py:89 | a strictly smaller value gets a strictly smaller true rank; a smaller true rank means a value no larger; distinct nodes get distinct ranks |
| `GroundTruth.TrueRanksPermutation` | run_experiments.py:89 | the true ranks are a permutation of `0..n-1` |
| `GroundTruth.TrueRanksCountSmaller` | run_experiments.py:118 | for distinct data the true rank of node `k` is the number of values smaller than `data[k]` |
| `GroundTruth.TrueWeightsSum` | run_experiments.py:156 | `n * wn(n, true_ranks + 1, alpha)` sums to `n` whenever the trimming window is non-empty |
| `GroundTruth.ExactRanksGiveTrueWeights` | run_experiments.py:156 | GoTrim's weight formula applied to exact rescaled ranks `true_ranks / n` gives exactly `true_weight` |
| `RankModel.CesaroRowInUnit` | src/rank.py:37-39 | averaging the indicator `data > y` into a row of fractions in `[0, 1]` keeps every entry in `[0, 1]` |
| `RankModel.RepairConsistent` | src/rank.py:66-72 | after the conditional swap the pair's auxiliary ranks and auxiliary values agree in order: `(x[i]-x[j])*(r[i]-r[j]) >= 0` |
| `RankModel.RepairMultiset` | src/rank.py:66-72 | the conditional swap keeps the multiset of auxiliary ranks |
| `RankProperties.GoRankStepProperties` | src/rank.py:35-41 | a GoRank step writes only row `t`, keeps every estimate in `[0, 1]`, and exchanges only `y[i]` and `y[j]`, so `y` keeps its multiset |
| `RankProperties.GoRankStepKeeps` | src/rank.py:35-41 | the GoRank invariant (all estimates in `[0, 1]`, `y` a permutation of `data`) passes through a step |
| `RankProperties.GoRankRunInvariant` | src/rank.py:27-41 | along any trial every GoRank estimate stays in `[0, 1]` and `y` stays a permutation of `data` |
| `RankProperties.GoRankUnreached` | src/rank.py:14 | rows a GoRank trial has not reached yet are still 0 |
| `RankProperties.CesaroEntry` | src/rank.py:37-39 | `t * row[t][k] == (t-1) * row[t-1][k] + [data[k] > y[k]]`, with `y` read before the swap |
| `RankProperties.GoRankIsCesaroAverage` | src/rank.py:35-41 | after `s` steps `y` is the data swapped along the first `s` edges, and for every `s' <= s`, `s' * ranking[s'][k]` counts the steps `1..s'` at which node `k` saw a shadow value below its own |
| `RankProperties.ImprovedStepConsistent` | src/rank.py:66-93 | after a Baseline++ step `(aux_x[t][i]-aux_x[t][j])*(aux_r[t][i]-aux_r[t][j]) >= 0` |
| `RankProperties.ImprovedStepAdoption` | src/rank.py:75-83 | a contacted node takes the repaired auxiliary rank as its main rank exactly when `(data-aux_x)*(rank-aux_r) < 0` or `data == aux_x`, evaluated before the final swap; other nodes keep their rank |
| `RankProperties.ImprovedStepFrame` | src/rank.py:61-93 | a Baseline++ step writes only row `t` of each history; row `t` equals row `t-1` except at `i` and `j`; the auxiliary rows keep their multisets |
| `RankProperties.ImprovedStepInvariant` | src/rank.py:60-93 | if the auxiliary ranks are a permutation of `0..n-1` and every main rank is a whole number in `[0, n-1]`, that stays so after the step |
| `RankProperties.ImprovedStepKeeps` | src/rank.py:60-93 | the Baseline++ invariant on rows `0..t-1` extends to rows `0..t` |
| `RankProperties.ImprovedRunInvariant` | src/rank.py:49-93 | along any Baseline++ trial, in every row reached: auxiliary ranks are a permutation of `0..n-1`, main ranks are whole numbers in `[0, n-1]`, and the auxiliary values are a permutation of `data` |
| `RankProperties.BaselineStepTracks` | src/rank.py:139-150 | value and identity travel together: `aux_x[t][k] == data[aux_i[t][k]]` and `aux_i[t]` a permutation of `0..n-1` pass from row `t-1` to row `t` |
| `RankProperties.BaselineStepAdoption` | src/rank.py:153-155 | a contacted node `p` takes `aux_r[t][p]` exactly when `aux_i[t][p] == p` after the swap, and then `aux_x[t][p] == data[p]`; otherwise it keeps its repaired main rank; other nodes keep their repaired rank |
| `RankProperties.BaselineStepFrame` | src/rank.py:114-150 | a Baseline step writes only row `t` of each history; row `t` equals row `t-1` except at `i` and `j`; all three auxiliary rows keep their multisets |
| `RankProperties.BaselineStepInvariant` | src/rank.py:114-155 | auxiliary ranks a permutation of `0..n-1` and main ranks whole numbers in `[0, n-1]` pass from row `t-1` to row `t` |
| `RankProperties.BaselineStepKeeps` | src/rank.py:114-155 | the Baseline invariant on rows `0..t-1` extends to rows `0..t` |
| `RankProperties.BaselineRunInvariant` | src/rank.py:101-155 | along any Baseline trial, in every row reached, the rank invariant and the identity-tracking invariant hold |
| `RankEstimators.GoRank.constructor` | src/rank.py:27-33 | a fresh GoRank: zero history, `y` a copy of `data`, weight 1 |
| `RankEstimators.GoRank.Update` | src/rank.py:35-41 | the arrays move by exactly one GoRank step: row `t` becomes the Cesàro row, `y[i]` and `y[j]` are exchanged, nothing else changes |
| `RankEstimators.ImprovedBaseline.constructor` | src/rank.py:49-58 | row 0 of ranks and auxiliary ranks is `0..n-1`, of auxiliary values is `data`, weight `1/n`; needs `n >= 1` and `horizon >= 1` as the source does |
| `RankEstimators.ImprovedRows` | src/rank.py:65-93 | row `t` is the repair, then adoption for `i` then `j`, then the joint swap, all applied to row `t-1` |
| `RankEstimators.ImprovedBaseline.Update` | src/rank.py:60-93 | the arrays move by exactly one Baseline++ step; only row `t` is written |
| `RankEstimators.Baseline.constructor` | src/rank.py:101-112 | row 0 of ranks and auxiliary ranks is `0..n-1`, of auxiliary values `data`, of identities `0..n-1`, weight `1/n` |
| `RankEstimators.Baseline.Update` | src/rank.py:114-155 | the arrays move by exactly one Baseline step (main repair, auxiliary repair, joint swap, home adoption) |
| `RankEstimators.RankEstimator.Update` | src/rank.py:17-19 | `update(t, i, j)` of whichever estimator is wrapped, as one `RankStep` of its state |
| `RankEstimators.NewRankEstimator` | run_experiments.py:123 | `class_estimate(horizon, n, data)`: a fresh, valid estimator of the requested kind in its initial state |
| `MeanModel.GoTrimWeightsBound` | src/trim.py:21-23 | every GoTrim weight `n * wn(…)` lies in `[0, n]` |
| `MeanModel.GoTrimWeightsSum` | src/trim.py:21-23 | when the shifted estimated ranks are a permutation of `1..n` and the window is non-empty, the GoTrim weights sum to `n` |
| `MeanModel.ReweightedSum` | src/trim.py:26-27 | re-weighting row `t-1` in place changes its sum by exactly `sum(w[t]*data) - sum(w[t-1]*data)` |
| `MeanModel.PairAverageSum` | src/trim.py:30-36 | replacing both contacted entries by their average keeps the row sum |
| `MeanModel.GoTrimStepShape` | src/trim.py:19-36 | `w[t] = n * wn(n, weight*rank[t] + 1, alpha)`; `z[t-1]` becomes `z[t-1] + (w[t]-w[t-1])*data`; `z[t][i] == z[t][j]` is the average of the adjusted pair; every other entry is copied; no other row changes |
| `MeanModel.GoTrimStepMass` | src/trim.py:26-36 | if `sum(z[t-1]) == sum(w[t-1]*data)`, then after the step both `z[t]` and the rewritten `z[t-1]` sum to `sum(w[t]*data)` |
| `MeanModel.GoTrimStepKeeps` | src/trim.py:26-36 | the mass balance of row `t-1` passes to row `t` |
| `MeanModel.MeanInitBalanced` | src/trim.py:12-14 | the zero histories are mass balanced at row 0 |
| `MeanModel.GoTrimRunMass` | src/trim.py:12-36 | along any trial with steps `t = 1, 2, …` in order, `sum(z[t]) == sum(w[t]*data)` |
| `MeanModel.ClipMagnitude` | src/trim.py:49-52 | for `tau >= 0` the clipped value has magnitude `min(abs(z), tau)` and the sign of `z` |
| `MeanModel.ClipIdentity` | src/trim.py:49-52 | a value within the threshold (including 0) is returned unchanged |
| `MeanModel.ClippedStepMass` | src/trim.py:54-63 | `z[t][i] + z[t][j] == z[t-1][i] + z[t-1][j]`; every other entry is copied; only row `t` is written; the row sum is kept |
| `MeanModel.ClippedStepMoves` | src/trim.py:58-63 | within the threshold both nodes end at the exact average; beyond it each moves `tau/2` toward the other |
| `MeanModel.ClippedStepGap` | src/trim.py:58-63 | for `tau >= 0` the gap between the contacted nodes never grows |
| `MeanModel.ClippedStepKeeps` | src/trim.py:54-63 | rows `0..t-1` summing to a total extends to rows `0..t` |
| `MeanModel.ClippedRunMass` | src/trim.py:46-63 | along any trial every row reached sums to `sum(data)` |
| `MeanEstimators.GoTrim.constructor` | src/trim.py:7-17 | zero histories around a given rank estimator; `weight == rank.weight * n` |
| `MeanEstimators.NewGoTrim` | src/trim.py:15-16 | `MeanEstimate(…, rank_class)`: a fresh rank estimator of that kind in its initial state, zero histories, `weight == Weight(kind, n) * n` |
| `MeanEstimators.GoTrim.UpdateMean` | src/trim.py:19-36 | the histories move by exactly one GoTrim step, using row `t` of the wrapped estimator; the wrapped estimator is not changed |
| `MeanEstimators.ClippedGossip.constructor` | src/trim.py:40-47 | row 0 is `data`, every other row 0 |
| `MeanEstimators.ClippedGossip.UpdateMean` | src/trim.py:54-63 | the history moves by exactly one ClippedGossip step on row `t` |
| `Experiment.AbsErrors` | run_experiments.py:147 | every absolute error is non-negative and is 0 exactly when the estimate equals the truth |
| `Experiment.AverageBounds` | run_experiments.py:151-153 | the node-average of errors in `[0, b]` lies in `[0, b]` |
| `Experiment.AverageZero` | run_experiments.py:151-153 | the node-average of non-negative errors is 0 if and only if every error is 0 |
| `Experiment.RankErrorZero` | run_experiments.py:149-153 | the ranking error at a step is 0 if and only if every rescaled estimate equals `true_ranks / n` |
| `Experiment.RankErrorAtMostOne` | run_experiments.py:146-147 | a rescaled estimate in `[0, 1]` is off by at most 1 from its true rank over `n` |
| `Experiment.TrialEstimatesInUnit` | run_experiments.py:150 | for all three estimators every rescaled estimate `historical_ranking[t] * weight` lies in `[0, 1]` |
| `Experiment.FinalRankErrorsInUnit` | run_experiments.py:146-147 | every node's final ranking error lies in `[0, 1]` |
| `Experiment.TrialRankRelativeInUnit` | run_experiments.py:149-153 | the ranking error at every step lies in `[0, 1]` |
| `Experiment.NewEstimators` | run_experiments.py:122-124 | fresh estimators, one per requested kind, sharing no object, each in its initial state |
| `Experiment.StepOne` | run_experiments.py:136 | `estimate.update(t, i, j)` advances that estimator by one step and leaves every other estimator unchanged |
| `Experiment.StepAll` | run_experiments.py:133-136 | every estimator takes step `t` with the same edge `(i, j)` |
| `Experiment.Replay` | run_experiments.py:131-142 | after the loop every estimator has applied steps `1..horizon-1` in order, on the given edges |
| `Experiment.RankStepErrors` | run_experiments.py:149-153 | the per-step ranking errors are the node-averages of `abs(historical_ranking[t] * weight - true_ranks / n)` |
| `Experiment.MeasureOne` | run_experiments.py:146-153 | an estimator at the end of a trial yields the trial's final and per-step ranking errors |
| `Experiment.MeasureAll` | run_experiments.py:144-154 | the same for every estimator of the trial |
| `Experiment.RankingTrial` | run_experiments.py:121-154 | one ranking trial returns, for every estimator kind, the final errors and per-step errors of the run over the given edges |
| `Experiment.StartGoTrim` | run_experiments.py:126-129 | a fresh GoTrim estimator over the requested rank estimator, at step 0 |
| `Experiment.StartClipped` | run_experiments.py:130 | a fresh ClippedGossip estimator at step 0 |
| `Experiment.AdvanceRankOf` | run_experiments.py:140 | `estimate.rank.update(t, i, j)` moves only the wrapped estimator, to step `t` |
| `Experiment.AdvanceMeanOf` | run_experiments.py:141 | `estimate.update_mean(t, i, j)`, once the wrapped estimator is at step `t`, moves GoTrim to step `t` |
| `Experiment.AdvanceGoTrim` | run_experiments.py:139-141 | the rank update and then the mean update take a GoTrim estimator from step `t-1` to step `t` |
| `Experiment.AdvanceClipped` | run_experiments.py:141 | ClippedGossip receives only `update_mean` and moves from step `t-1` to `t` |
| `Experiment.AveragingStep` | run_experiments.py:133-141 | the three averaging estimators take step `t` with the same edge |
| `Experiment.ReplayAveraging` | run_experiments.py:131-142 | after the loop all three averaging estimators have applied steps `1..horizon-1` in order |
| `Experiment.MeasureGoTrim` | run_experiments.py:156-164 | a GoTrim estimator at the end of a trial yields `abs(historical_w[-1] - true_weight)` and its per-step averaging errors |
| `Experiment.StepErrors` | run_experiments.py:160-163 | the per-step averaging errors are the node-averages of `abs(historical_z[t] - true_value)` |
| `Experiment.MeasureClipped` | run_experiments.py:160-164 | ClippedGossip yields only its per-step averaging errors |
| `Experiment.AveragingTrial` | run_experiments.py:125-164 | one averaging trial returns the final weight errors of both GoTrim estimators and the per-step errors of all three |
| `Aggregate.ColumnMeansBounds` | run_experiments.py:167-171 | averaging over the trials keeps entries of `[0, b]` in `[0, b]` |
| `Aggregate.ColumnMeansConstant` | run_experiments.py:167-171 | averaging identical trials gives back that trial's row |
| `Aggregate.RankTrials` | run_experiments.py:115-154 | after the loop each estimator's summed final errors and list of per-step errors cover every trial, each trial on fresh estimators |
| `Aggregate.FinalsExtend` | run_experiments.py:148 | `error_mean += absolute_error` adds exactly the new trial's final errors to the sum |
| `Aggregate.RankListedAppend` | run_experiments.py:154 | appending the new trial's per-step errors extends the list by that trial |
| `Aggregate.RankingExperiment` | run_experiments.py:110-171 | for every estimator of a list naming each kind at most once, `error_mean` is the mean over the trials of the final errors and `mean_relative_error` the mean of the per-step errors |
| `Aggregate.RankingMeansInUnit` | run_experiments.py:166-171 | every averaged ranking error, final or per step, lies in `[0, 1]` |
| `Aggregate.RankingMeansOfRepeatedTrial` | run_experiments.py:166-171 | `n_trials` copies of one trial average to that trial's errors |
| `Aggregate.WeightSumsExtend` | run_experiments.py:159 | `error_mean += absolute_error` adds exactly the new trial's weight errors |
| `Aggregate.GoTrimListedAppend` | run_experiments.py:164 | appending the new trial's GoTrim per-step errors extends the list by that trial |
| `Aggregate.ClippedListedAppend` | run_experiments.py:164 | the same for ClippedGossip |
| `Aggregate.MeanTrials` | run_experiments.py:115-164 | after the loop the weight-error sums and per-step error lists of the three averaging estimators cover every trial |
| `Aggregate.AveragingExperiment` | run_experiments.py:166-171 | `error_mean` is the trial mean of the GoTrim weight errors (zeros for ClippedGossip, which never adds to it); `mean_relative_error` is the trial mean of each estimator's per-step errors |
| `Aggregate.WeightErrorNonnegative` | run_experiments.py:158 | every final weight error is non-negative |
| `Aggregate.WeightMeansNonnegative` | run_experiments.py:166-167 | every averaged weight error is non-negative |
| `Aggregate.AveragingMeansOfRepeatedTrial` | run_experiments.py:166-171 | `n_trials` copies of one trial average to that trial's weight errors and ClippedGossip per-step errors |

## Left out

- Floating point: every value is a Dafny `real`, so rounding, overflow, `inf` and `nan` are not modelled.
- `int(S**0.5)` in `best_side_from_surface` is modelled as the exact integer square root (`Grid.FloorSqrt`). A float square root that rounds across an integer is not modelled.
- `GroundTruth.TrueRanks`: ties are broken by node index (a stable `argsort`). numpy's default `argsort` is not stable, so for repeated values the model fixes one of the orders numpy may return. For distinct data the two agree (`GroundTruth.TrueRanksCountSmaller`).
- `Experiment.Average`: the average of an empty vector is taken as 0, where numpy returns `nan`. It is only reached with `n = 0`.
- Randomness:
  - `random.choice(edges)` is replaced by an explicit sequence of edges, one per step. Any sequence whose endpoints are nodes is allowed.
  - `np.random.shuffle` is replaced by the data of each trial, given as input (`Aggregate.Trial`).
  - The random outlier injection and noise are not modelled.
  - Trial data are not required to be permutations of one data set. The shuffle-free run is the case where all trials carry the same data.
- `trim_mean` (scipy) is not modelled: the robust mean `true_value` is a parameter.
- `np.std` over the per-step errors is not modelled (it needs a square root).
- `n_trials = 0` is excluded (`|trials| >= 1`). The source then divides by zero.
- `horizon >= 1` and a sequence with at least `horizon - 1` edges are required of a trial. The source fails on an empty history at `historical_ranking[-1]`.
- `compute_connectivity` and `generate_graph` are foreign linear algebra and networkx calls. The edges are an input instead.
- Not modelled:
  - configuration parsing, data loading, pickling, plots, timing and the progress prints;
  - `GoRankEstimateAsync` (imported but not defined in `src/rank.py`);
  - the display attributes `color` and `marker`.
- Estimator `name`s key the result dictionaries `error_mean` and `all_relative_errors` and pick out ClippedGossip (run_experiments.py:110-111, 139, 157). The model keys the results by position in the list of estimator kinds and requires each kind at most once (`Aggregate.Distinct`). Every configured list has distinct kinds, so names and positions agree. A list with a repeated kind, which the source would merge into one dictionary entry, is not modelled.
- `TrimWeight.Trimmed`: `m = int(alpha * n)` is taken of the exact real product. Python takes it of the float product, which can fall just below a whole number. For example, `0.29 * 100` is `28.999999999999996` in floating point, so the source trims 28 values from each end where the model trims 29. That shifts the whole weight window, not just a last digit.
- `historical_avg` (src/trim.py:13) is allocated but never read, so it is not modelled.
- The Baseline identity history `historical_aux_i` holds whole numbers in float storage. It is modelled as `int`, so the comparison `aux_i[t][p] == p` is exact.
- Aliasing: the Python estimators copy `data`, and the model keeps `data` as an immutable value. The classes own their history arrays exclusively, and no two estimators of a trial share an object (proved, not assumed).

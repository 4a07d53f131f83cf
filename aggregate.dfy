/** The outer loop of run_experiments.py: `n_trials` trials, each on its own
    shuffled data and its own random edges (both inputs here), whose final
    errors are added up per estimator (`error_mean[name] += absolute_error`)
    and whose per-step errors are collected (`all_relative_errors[name]`);
    at the end the sums are divided by `n_trials` and the collected rows are
    averaged column by column (`np.mean(..., axis=0)`). */
module Aggregate {
  import opened Sequences
  import opened RankModel
  import opened MeanModel
  import opened Experiment

  /** What one trial draws: the data after `np.random.shuffle` and the edge
      `random.choice(edges)` picked at each step `1 .. horizon - 1`. */
  datatype Trial = Trial(data: seq<real>, edges: seq<Edge>)

  // ------------------------------------------------------ column means

  /** Every row has `m` entries. */
  predicate Rows(rows: seq<seq<real>>, m: nat)
  {
    forall r :: 0 <= r < |rows| ==> |rows[r]| == m
  }

  /** The first `count` rows added up entry by entry, starting from `np.zeros(m)`. */
  function ColumnSums(rows: seq<seq<real>>, m: nat, count: nat): (s: seq<real>)
    requires Rows(rows, m) && count <= |rows|
    ensures |s| == m
  {
    if count == 0 then Zeros(m) else Plus(ColumnSums(rows, m, count - 1), rows[count - 1])
  }

  /** `v / c` entry by entry. */
  function Divide(v: seq<real>, c: nat): (r: seq<real>)
    requires c >= 1
    ensures |r| == |v| && forall k :: 0 <= k < |v| ==> r[k] == v[k] / c as real
  {
    seq(|v|, k requires 0 <= k < |v| => v[k] / c as real)
  }

  /** `np.mean(rows, axis=0)`: the mean of every column. */
  function ColumnMeans(rows: seq<seq<real>>, m: nat): (v: seq<real>)
    requires Rows(rows, m) && |rows| >= 1
    ensures |v| == m
  {
    Divide(ColumnSums(rows, m, |rows|), |rows|)
  }

  /** Entries in `[0, b]` add up to at most `count * b` in every column. */
  lemma {:induction false} ColumnSumsBounds(rows: seq<seq<real>>, m: nat, count: nat, b: real)
    requires Rows(rows, m) && count <= |rows|
    requires forall r, k :: 0 <= r < |rows| && 0 <= k < m ==> 0.0 <= rows[r][k] <= b
    ensures forall k :: 0 <= k < m ==> 0.0 <= ColumnSums(rows, m, count)[k] <= count as real * b
  {
    if count > 0 {
      ColumnSumsBounds(rows, m, count - 1, b);
      forall k | 0 <= k < m ensures 0.0 <= ColumnSums(rows, m, count)[k] <= count as real * b {
        assert ColumnSums(rows, m, count)[k] == ColumnSums(rows, m, count - 1)[k] + rows[count - 1][k];
      }
    }
  }

  /** The column means of entries in `[0, b]` lie in `[0, b]`. */
  lemma ColumnMeansBounds(rows: seq<seq<real>>, m: nat, b: real)
    requires Rows(rows, m) && |rows| >= 1
    requires forall r, k :: 0 <= r < |rows| && 0 <= k < m ==> 0.0 <= rows[r][k] <= b
    ensures forall k :: 0 <= k < m ==> 0.0 <= ColumnMeans(rows, m)[k] <= b
  {
    ColumnSumsBounds(rows, m, |rows|, b);
    forall k | 0 <= k < m ensures 0.0 <= ColumnMeans(rows, m)[k] <= b {
      DivideBound(ColumnSums(rows, m, |rows|)[k], |rows| as real, b);
    }
  }

  /** `count` copies of the same row add up to `count` times it. */
  lemma {:induction false} ColumnSumsConstant(rows: seq<seq<real>>, m: nat, count: nat, row: seq<real>)
    requires Rows(rows, m) && count <= |rows| && |row| == m
    requires forall r :: 0 <= r < |rows| ==> rows[r] == row
    ensures forall k :: 0 <= k < m ==> ColumnSums(rows, m, count)[k] == count as real * row[k]
  {
    if count > 0 {
      ColumnSumsConstant(rows, m, count - 1, row);
      forall k | 0 <= k < m ensures ColumnSums(rows, m, count)[k] == count as real * row[k] {
        assert ColumnSums(rows, m, count)[k] == ColumnSums(rows, m, count - 1)[k] + row[k];
      }
    }
  }

  /** Averaging identical trials gives back the errors of that trial. */
  lemma ColumnMeansConstant(rows: seq<seq<real>>, m: nat, row: seq<real>)
    requires Rows(rows, m) && |rows| >= 1 && |row| == m
    requires forall r :: 0 <= r < |rows| ==> rows[r] == row
    ensures ColumnMeans(rows, m) == row
  {
    ColumnSumsConstant(rows, m, |rows|, row);
    forall k | 0 <= k < m ensures ColumnMeans(rows, m)[k] == row[k] {
      CancelCount(|rows| as real, row[k]);
    }
  }

  lemma CancelCount(c: real, x: real)
    requires c > 0.0
    ensures c * x / c == x
  {
  }

  /** Adds row `a` of `rows` to `sums[a]`, for every `a`. */
  function AddRows(sums: seq<seq<real>>, rows: seq<seq<real>>): (r: seq<seq<real>>)
    requires |rows| == |sums| && forall a :: 0 <= a < |sums| ==> |rows[a]| == |sums[a]|
    ensures |r| == |sums| && forall a :: 0 <= a < |sums| ==> r[a] == Plus(sums[a], rows[a])
  {
    seq(|sums|, a requires 0 <= a < |sums| => Plus(sums[a], rows[a]))
  }

  /** Appends item `a` to list `a`, for every `a`. */
  function AppendEach(lists: seq<seq<seq<real>>>, items: seq<seq<real>>): (r: seq<seq<seq<real>>>)
    requires |items| == |lists|
    ensures |r| == |lists| && forall a :: 0 <= a < |lists| ==> r[a] == lists[a] + [items[a]]
  {
    seq(|lists|, a requires 0 <= a < |lists| => lists[a] + [items[a]])
  }

  // ----------------------------------------------------------- trials

  /** Every trial has `n` values and edges between them for every step. */
  predicate Drawn(horizon: nat, n: nat, trials: seq<Trial>)
  {
    forall r :: 0 <= r < |trials| ==> |trials[r].data| == n && Replayable(horizon, trials[r].data, trials[r].edges)
  }

  /** The Baseline estimators divide by `n`. */
  predicate SizeFits(kind: RankKind, n: nat)
  {
    kind != GoRankKind ==> n >= 1
  }

  /** No estimator kind is listed twice. The results are keyed by the
      estimator's `name`, which is one per kind, so a repeated kind would share
      one `error_mean` entry with its twin. */
  predicate Distinct(kinds: seq<RankKind>)
  {
    forall a, b :: 0 <= a < b < |kinds| ==> kinds[a] != kinds[b]
  }

  /** What the ranking experiment needs of its trials and estimator kinds. */
  predicate RankTrialsFit(kinds: seq<RankKind>, horizon: nat, n: nat, trials: seq<Trial>)
  {
    Drawn(horizon, n, trials) && Distinct(kinds) && forall a :: 0 <= a < |kinds| ==> SizeFits(kinds[a], n)
  }

  lemma TrialAllFit(kinds: seq<RankKind>, horizon: nat, n: nat, trials: seq<Trial>, r: nat)
    requires RankTrialsFit(kinds, horizon, n, trials) && r < |trials|
    ensures Replayable(horizon, trials[r].data, trials[r].edges)
    ensures AllFit(kinds, horizon, trials[r].data, trials[r].edges)
  {
  }

  /** The final ranking errors of one estimator kind in every trial. */
  function Finals(kind: RankKind, horizon: nat, n: nat, trials: seq<Trial>): (rows: seq<seq<real>>)
    requires Drawn(horizon, n, trials) && SizeFits(kind, n)
    ensures |rows| == |trials| && Rows(rows, n)
  {
    seq(|trials|, r requires 0 <= r < |trials| => FinalRankErrors(kind, horizon, trials[r].data, trials[r].edges))
  }

  /** The per-step ranking errors of one estimator kind in every trial. */
  function RankRelatives(kind: RankKind, horizon: nat, n: nat, trials: seq<Trial>): (rows: seq<seq<real>>)
    requires Drawn(horizon, n, trials) && SizeFits(kind, n)
    ensures |rows| == |trials| && Rows(rows, horizon)
  {
    seq(|trials|, r requires 0 <= r < |trials| => TrialRankRelative(kind, horizon, trials[r].data, trials[r].edges))
  }

  /** `list` holds the per-step ranking errors of `kind` in the first `count` trials. */
  predicate RankListed(list: seq<seq<real>>, kind: RankKind, horizon: nat, n: nat, trials: seq<Trial>, count: nat)
    requires Drawn(horizon, n, trials) && SizeFits(kind, n) && count <= |trials|
  {
    |list| == count &&
    forall r :: 0 <= r < count ==> list[r] == TrialRankRelative(kind, horizon, trials[r].data, trials[r].edges)
  }

  /** After `count` trials, `sums[a]` adds up the final errors and `lists[a]`
      holds the per-step errors of estimator `a` in those trials. */
  predicate RankAccumulated(sums: seq<seq<real>>, lists: seq<seq<seq<real>>>, kinds: seq<RankKind>,
                            horizon: nat, n: nat, trials: seq<Trial>, count: nat)
    requires RankTrialsFit(kinds, horizon, n, trials) && count <= |trials|
  {
    |sums| == |kinds| && |lists| == |kinds| &&
    forall a :: 0 <= a < |kinds| ==>
      sums[a] == ColumnSums(Finals(kinds[a], horizon, n, trials), n, count) &&
      RankListed(lists[a], kinds[a], horizon, n, trials, count)
  }

  /** Adding trial `count`'s results extends the accumulation by one trial. */
  lemma RankAccumulateStep(sums: seq<seq<real>>, lists: seq<seq<seq<real>>>, kinds: seq<RankKind>,
                           horizon: nat, n: nat, trials: seq<Trial>, count: nat,
                           final: seq<seq<real>>, relative: seq<seq<real>>)
    requires RankTrialsFit(kinds, horizon, n, trials) && count < |trials|
    requires RankAccumulated(sums, lists, kinds, horizon, n, trials, count)
    requires AllFit(kinds, horizon, trials[count].data, trials[count].edges)
    requires RankResults(final, relative, kinds, horizon, trials[count].data, trials[count].edges, |kinds|)
    ensures forall a :: 0 <= a < |kinds| ==> |final[a]| == |sums[a]|
    ensures RankAccumulated(AddRows(sums, final), AppendEach(lists, relative), kinds, horizon, n, trials, count + 1)
  {
    forall a | 0 <= a < |kinds|
      ensures ColumnSums(Finals(kinds[a], horizon, n, trials), n, count + 1) == Plus(sums[a], final[a])
      ensures RankListed(lists[a] + [relative[a]], kinds[a], horizon, n, trials, count + 1)
    {
      FinalsExtend(kinds[a], horizon, n, trials, count);
      RankListedAppend(lists[a], kinds[a], horizon, n, trials, count, relative[a]);
    }
  }

  /** One more trial adds its final errors to the sum. */
  lemma FinalsExtend(kind: RankKind, horizon: nat, n: nat, trials: seq<Trial>, count: nat)
    requires Drawn(horizon, n, trials) && SizeFits(kind, n) && count < |trials|
    ensures TrialFits(kind, horizon, trials[count].data, trials[count].edges)
    ensures ColumnSums(Finals(kind, horizon, n, trials), n, count + 1)
         == Plus(ColumnSums(Finals(kind, horizon, n, trials), n, count),
                 FinalRankErrors(kind, horizon, trials[count].data, trials[count].edges))
  {
  }

  /** One more trial appends its per-step ranking errors. */
  lemma RankListedAppend(list: seq<seq<real>>, kind: RankKind, horizon: nat, n: nat, trials: seq<Trial>,
                         count: nat, row: seq<real>)
    requires Drawn(horizon, n, trials) && SizeFits(kind, n) && count < |trials|
    requires RankListed(list, kind, horizon, n, trials, count)
    requires row == TrialRankRelative(kind, horizon, trials[count].data, trials[count].edges)
    ensures RankListed(list + [row], kind, horizon, n, trials, count + 1)
  {
    var after := list + [row];
    forall r | 0 <= r < count + 1 ensures after[r] == TrialRankRelative(kind, horizon, trials[r].data, trials[r].edges) {
      if r < count {
        assert after[r] == list[r];
      }
    }
  }

  /** A list of every trial's per-step ranking errors is `RankRelatives`. */
  lemma RankListedAll(list: seq<seq<real>>, kind: RankKind, horizon: nat, n: nat, trials: seq<Trial>)
    requires Drawn(horizon, n, trials) && SizeFits(kind, n)
    requires RankListed(list, kind, horizon, n, trials, |trials|)
    ensures list == RankRelatives(kind, horizon, n, trials)
  {
  }

  /** `error_mean` and `mean_relative_error` of every estimator: its final
      and per-step errors averaged over the trials. */
  predicate RankMeans(errorMean: seq<seq<real>>, meanRelative: seq<seq<real>>, kinds: seq<RankKind>,
                      horizon: nat, n: nat, trials: seq<Trial>)
    requires RankTrialsFit(kinds, horizon, n, trials) && |trials| >= 1
  {
    |errorMean| == |kinds| && |meanRelative| == |kinds| &&
    forall a :: 0 <= a < |kinds| ==>
      errorMean[a] == ColumnMeans(Finals(kinds[a], horizon, n, trials), n) &&
      meanRelative[a] == ColumnMeans(RankRelatives(kinds[a], horizon, n, trials), horizon)
  }

  /** The ranking task over `n_trials = |trials|` trials: per estimator, the
      final errors averaged over the trials (`error_mean`) and the per-step
      errors averaged over the trials (`mean_relative_error`). */
  method RankingExperiment(kinds: seq<RankKind>, horizon: nat, n: nat, trials: seq<Trial>)
    returns (errorMean: seq<seq<real>>, meanRelative: seq<seq<real>>)
    requires RankTrialsFit(kinds, horizon, n, trials) && |trials| >= 1
    ensures RankMeans(errorMean, meanRelative, kinds, horizon, n, trials)
  {
    var sums, lists := RankTrials(kinds, horizon, n, trials);
    forall a | 0 <= a < |kinds| ensures lists[a] == RankRelatives(kinds[a], horizon, n, trials) {
      RankListedAll(lists[a], kinds[a], horizon, n, trials);
    }
    errorMean := seq(|kinds|, a requires 0 <= a < |kinds| => Divide(sums[a], |trials|));
    meanRelative := seq(|kinds|, a requires 0 <= a < |kinds| => ColumnMeans(lists[a], horizon));
  }

  /** The loop over trials: a fresh ranking trial each time, its final errors
      added to `error_mean` and its per-step errors appended to
      `all_relative_errors`. */
  method RankTrials(kinds: seq<RankKind>, horizon: nat, n: nat, trials: seq<Trial>)
    returns (sums: seq<seq<real>>, lists: seq<seq<seq<real>>>)
    requires RankTrialsFit(kinds, horizon, n, trials)
    ensures RankAccumulated(sums, lists, kinds, horizon, n, trials, |trials|)
  {
    sums := seq(|kinds|, _ => Zeros(n));
    lists := seq(|kinds|, _ => []);
    for r := 0 to |trials|
      invariant RankAccumulated(sums, lists, kinds, horizon, n, trials, r)
    {
      TrialAllFit(kinds, horizon, n, trials, r);
      var final, relative := RankingTrial(kinds, horizon, trials[r].data, trials[r].edges);
      RankAccumulateStep(sums, lists, kinds, horizon, n, trials, r, final, relative);
      sums := AddRows(sums, final);
      lists := AppendEach(lists, relative);
    }
  }

  /** Every averaged ranking error, final or per step, lies in `[0, 1]`. */
  lemma RankingMeansInUnit(kind: RankKind, horizon: nat, n: nat, trials: seq<Trial>)
    requires Drawn(horizon, n, trials) && SizeFits(kind, n) && |trials| >= 1
    ensures forall k :: 0 <= k < n ==> 0.0 <= ColumnMeans(Finals(kind, horizon, n, trials), n)[k] <= 1.0
    ensures forall t :: 0 <= t < horizon ==>
      0.0 <= ColumnMeans(RankRelatives(kind, horizon, n, trials), horizon)[t] <= 1.0
  {
    var finals, relatives := Finals(kind, horizon, n, trials), RankRelatives(kind, horizon, n, trials);
    forall r | 0 <= r < |trials|
      ensures forall k :: 0 <= k < n ==> 0.0 <= finals[r][k] <= 1.0
      ensures forall t :: 0 <= t < horizon ==> 0.0 <= relatives[r][t] <= 1.0
    {
      FinalRankErrorsInUnit(kind, horizon, trials[r].data, trials[r].edges);
      TrialRankRelativeInUnit(kind, horizon, trials[r].data, trials[r].edges);
    }
    ColumnMeansBounds(finals, n, 1.0);
    ColumnMeansBounds(relatives, horizon, 1.0);
  }

  /** Repeating one trial `n_trials` times averages to that trial's errors. */
  lemma RankingMeansOfRepeatedTrial(kind: RankKind, horizon: nat, n: nat, trials: seq<Trial>, trial: Trial)
    requires Drawn(horizon, n, trials) && SizeFits(kind, n) && |trials| >= 1
    requires forall r :: 0 <= r < |trials| ==> trials[r] == trial
    ensures TrialFits(kind, horizon, trial.data, trial.edges)
    ensures ColumnMeans(Finals(kind, horizon, n, trials), n) == FinalRankErrors(kind, horizon, trial.data, trial.edges)
    ensures ColumnMeans(RankRelatives(kind, horizon, n, trials), horizon)
         == TrialRankRelative(kind, horizon, trial.data, trial.edges)
  {
    assert trials[0] == trial;
    ColumnMeansConstant(Finals(kind, horizon, n, trials), n, FinalRankErrors(kind, horizon, trial.data, trial.edges));
    ColumnMeansConstant(RankRelatives(kind, horizon, n, trials), horizon,
                        TrialRankRelative(kind, horizon, trial.data, trial.edges));
  }

  // ------------------------------------------------ averaging experiment

  /** Every trial has `n >= 1` values (the weights divide by `n`) and edges
      between them for every step. */
  predicate MeanTrialsFit(horizon: nat, n: nat, trials: seq<Trial>)
  {
    Drawn(horizon, n, trials) && n >= 1
  }

  /** The final weight errors of GoTrim over `kind` in every trial. */
  function WeightFinals(kind: RankKind, horizon: nat, n: nat, alpha: real, trials: seq<Trial>): (rows: seq<seq<real>>)
    requires MeanTrialsFit(horizon, n, trials)
    ensures |rows| == |trials| && Rows(rows, n)
  {
    seq(|trials|, r requires 0 <= r < |trials| => FinalWeightErrors(kind, horizon, trials[r].data, alpha, trials[r].edges))
  }

  /** The per-step averaging errors of GoTrim over `kind` in every trial. */
  function GoTrimRelatives(kind: RankKind, horizon: nat, n: nat, alpha: real, trueValue: real,
                           trials: seq<Trial>): (rows: seq<seq<real>>)
    requires MeanTrialsFit(horizon, n, trials)
    ensures |rows| == |trials| && Rows(rows, horizon)
  {
    seq(|trials|, r requires 0 <= r < |trials| => GoTrimRelative(kind, horizon, trials[r].data, alpha, trueValue, trials[r].edges))
  }

  /** The per-step averaging errors of ClippedGossip in every trial. */
  function ClippedRelatives(horizon: nat, n: nat, tau: real, trueValue: real, trials: seq<Trial>): (rows: seq<seq<real>>)
    requires MeanTrialsFit(horizon, n, trials)
    ensures |rows| == |trials| && Rows(rows, horizon)
  {
    seq(|trials|, r requires 0 <= r < |trials| => ClippedRelative(horizon, trials[r].data, tau, trueValue, trials[r].edges))
  }

  /** `list` holds the per-step errors of GoTrim over `kind` in the first `count` trials. */
  predicate GoTrimListed(list: seq<seq<real>>, kind: RankKind, horizon: nat, n: nat, alpha: real, trueValue: real,
                         trials: seq<Trial>, count: nat)
    requires MeanTrialsFit(horizon, n, trials) && count <= |trials|
  {
    |list| == count &&
    forall r :: 0 <= r < count ==> list[r] == GoTrimRelative(kind, horizon, trials[r].data, alpha, trueValue, trials[r].edges)
  }

  /** `list` holds the per-step errors of ClippedGossip in the first `count` trials. */
  predicate ClippedListed(list: seq<seq<real>>, horizon: nat, n: nat, tau: real, trueValue: real,
                          trials: seq<Trial>, count: nat)
    requires MeanTrialsFit(horizon, n, trials) && count <= |trials|
  {
    |list| == count &&
    forall r :: 0 <= r < count ==> list[r] == ClippedRelative(horizon, trials[r].data, tau, trueValue, trials[r].edges)
  }

  /** After `count` trials: `sumGoRank` and `sumImproved` hold the summed
      weight errors of GoTrim over GoRank and over Baseline++ (ClippedGossip's
      entry of `error_mean` stays zero), and the three lists the per-step
      errors of the three estimators in those trials. */
  predicate MeanAccumulated(sumGoRank: seq<real>, sumImproved: seq<real>, listGoRank: seq<seq<real>>,
                            listImproved: seq<seq<real>>, listClipped: seq<seq<real>>, horizon: nat, n: nat,
                            alpha: real, tau: real, trueValue: real, trials: seq<Trial>, count: nat)
    requires MeanTrialsFit(horizon, n, trials) && count <= |trials|
  {
    sumGoRank == ColumnSums(WeightFinals(GoRankKind, horizon, n, alpha, trials), n, count) &&
    sumImproved == ColumnSums(WeightFinals(ImprovedKind, horizon, n, alpha, trials), n, count) &&
    GoTrimListed(listGoRank, GoRankKind, horizon, n, alpha, trueValue, trials, count) &&
    GoTrimListed(listImproved, ImprovedKind, horizon, n, alpha, trueValue, trials, count) &&
    ClippedListed(listClipped, horizon, n, tau, trueValue, trials, count)
  }

  /** One more trial adds its final weight errors to the sum. */
  lemma WeightSumsExtend(sum: seq<real>, kind: RankKind, horizon: nat, n: nat, alpha: real, trials: seq<Trial>,
                         count: nat, row: seq<real>)
    requires MeanTrialsFit(horizon, n, trials) && count < |trials|
    requires sum == ColumnSums(WeightFinals(kind, horizon, n, alpha, trials), n, count)
    requires row == FinalWeightErrors(kind, horizon, trials[count].data, alpha, trials[count].edges)
    ensures |row| == n
    ensures Plus(sum, row) == ColumnSums(WeightFinals(kind, horizon, n, alpha, trials), n, count + 1)
  {
  }

  /** One more trial appends its GoTrim per-step errors. */
  lemma GoTrimListedAppend(list: seq<seq<real>>, kind: RankKind, horizon: nat, n: nat, alpha: real, trueValue: real,
                           trials: seq<Trial>, count: nat, row: seq<real>)
    requires MeanTrialsFit(horizon, n, trials) && count < |trials|
    requires GoTrimListed(list, kind, horizon, n, alpha, trueValue, trials, count)
    requires row == GoTrimRelative(kind, horizon, trials[count].data, alpha, trueValue, trials[count].edges)
    ensures GoTrimListed(list + [row], kind, horizon, n, alpha, trueValue, trials, count + 1)
  {
    var after := list + [row];
    forall r | 0 <= r < count + 1
      ensures after[r] == GoTrimRelative(kind, horizon, trials[r].data, alpha, trueValue, trials[r].edges)
    {
      if r < count {
        assert after[r] == list[r];
      }
    }
  }

  /** One more trial appends its ClippedGossip per-step errors. */
  lemma ClippedListedAppend(list: seq<seq<real>>, horizon: nat, n: nat, tau: real, trueValue: real,
                            trials: seq<Trial>, count: nat, row: seq<real>)
    requires MeanTrialsFit(horizon, n, trials) && count < |trials|
    requires ClippedListed(list, horizon, n, tau, trueValue, trials, count)
    requires row == ClippedRelative(horizon, trials[count].data, tau, trueValue, trials[count].edges)
    ensures ClippedListed(list + [row], horizon, n, tau, trueValue, trials, count + 1)
  {
    var after := list + [row];
    forall r | 0 <= r < count + 1 ensures after[r] == ClippedRelative(horizon, trials[r].data, tau, trueValue, trials[r].edges) {
      if r < count {
        assert after[r] == list[r];
      }
    }
  }

  /** A list of every trial's GoTrim per-step errors is `GoTrimRelatives`. */
  lemma GoTrimListedAll(list: seq<seq<real>>, kind: RankKind, horizon: nat, n: nat, alpha: real, trueValue: real,
                        trials: seq<Trial>)
    requires MeanTrialsFit(horizon, n, trials)
    requires GoTrimListed(list, kind, horizon, n, alpha, trueValue, trials, |trials|)
    ensures list == GoTrimRelatives(kind, horizon, n, alpha, trueValue, trials)
  {
  }

  /** A list of every trial's ClippedGossip per-step errors is `ClippedRelatives`. */
  lemma ClippedListedAll(list: seq<seq<real>>, horizon: nat, n: nat, tau: real, trueValue: real, trials: seq<Trial>)
    requires MeanTrialsFit(horizon, n, trials)
    requires ClippedListed(list, horizon, n, tau, trueValue, trials, |trials|)
    ensures list == ClippedRelatives(horizon, n, tau, trueValue, trials)
  {
  }

  /** The loop over trials: a fresh averaging trial each time, the weight
      errors of the two GoTrim estimators added to `error_mean` (ClippedGossip
      has none) and all per-step errors appended to `all_relative_errors`. */
  method MeanTrials(horizon: nat, n: nat, alpha: real, tau: real, trueValue: real, trials: seq<Trial>)
    returns (sumGoRank: seq<real>, sumImproved: seq<real>, listGoRank: seq<seq<real>>,
             listImproved: seq<seq<real>>, listClipped: seq<seq<real>>)
    requires MeanTrialsFit(horizon, n, trials)
    ensures MeanAccumulated(sumGoRank, sumImproved, listGoRank, listImproved, listClipped,
                            horizon, n, alpha, tau, trueValue, trials, |trials|)
  {
    sumGoRank, sumImproved := Zeros(n), Zeros(n);
    listGoRank, listImproved, listClipped := [], [], [];
    for r := 0 to |trials|
      invariant MeanAccumulated(sumGoRank, sumImproved, listGoRank, listImproved, listClipped,
                                horizon, n, alpha, tau, trueValue, trials, r)
    {
      var weightErrors, relative := AveragingTrial(horizon, trials[r].data, alpha, tau, trueValue, trials[r].edges);
      WeightSumsExtend(sumGoRank, GoRankKind, horizon, n, alpha, trials, r, weightErrors[0]);
      WeightSumsExtend(sumImproved, ImprovedKind, horizon, n, alpha, trials, r, weightErrors[1]);
      GoTrimListedAppend(listGoRank, GoRankKind, horizon, n, alpha, trueValue, trials, r, relative[0]);
      GoTrimListedAppend(listImproved, ImprovedKind, horizon, n, alpha, trueValue, trials, r, relative[1]);
      ClippedListedAppend(listClipped, horizon, n, tau, trueValue, trials, r, relative[2]);
      sumGoRank, sumImproved := Plus(sumGoRank, weightErrors[0]), Plus(sumImproved, weightErrors[1]);
      listGoRank, listImproved, listClipped := listGoRank + [relative[0]], listImproved + [relative[1]], listClipped + [relative[2]];
    }
  }

  /** `error_mean` and `mean_relative_error` of the averaging task: GoTrim over
      GoRank, GoTrim over Baseline++, ClippedGossip, in that order. */
  predicate AveragingMeans(errorMean: seq<seq<real>>, meanRelative: seq<seq<real>>, horizon: nat, n: nat,
                           alpha: real, tau: real, trueValue: real, trials: seq<Trial>)
    requires MeanTrialsFit(horizon, n, trials) && |trials| >= 1
  {
    |errorMean| == 3 && |meanRelative| == 3 &&
    errorMean[0] == ColumnMeans(WeightFinals(GoRankKind, horizon, n, alpha, trials), n) &&
    errorMean[1] == ColumnMeans(WeightFinals(ImprovedKind, horizon, n, alpha, trials), n) &&
    errorMean[2] == Zeros(n) &&
    meanRelative[0] == ColumnMeans(GoTrimRelatives(GoRankKind, horizon, n, alpha, trueValue, trials), horizon) &&
    meanRelative[1] == ColumnMeans(GoTrimRelatives(ImprovedKind, horizon, n, alpha, trueValue, trials), horizon) &&
    meanRelative[2] == ColumnMeans(ClippedRelatives(horizon, n, tau, trueValue, trials), horizon)
  }

  /** The averaging task over `n_trials = |trials|` trials, against the
      robust mean `true_value`. */
  method AveragingExperiment(horizon: nat, n: nat, alpha: real, tau: real, trueValue: real, trials: seq<Trial>)
    returns (errorMean: seq<seq<real>>, meanRelative: seq<seq<real>>)
    requires MeanTrialsFit(horizon, n, trials) && |trials| >= 1
    ensures AveragingMeans(errorMean, meanRelative, horizon, n, alpha, tau, trueValue, trials)
  {
    var sumGoRank, sumImproved, listGoRank, listImproved, listClipped := MeanTrials(horizon, n, alpha, tau, trueValue, trials);
    GoTrimListedAll(listGoRank, GoRankKind, horizon, n, alpha, trueValue, trials);
    GoTrimListedAll(listImproved, ImprovedKind, horizon, n, alpha, trueValue, trials);
    ClippedListedAll(listClipped, horizon, n, tau, trueValue, trials);
    DivideZeros(n, |trials|);
    errorMean := [Divide(sumGoRank, |trials|), Divide(sumImproved, |trials|), Divide(Zeros(n), |trials|)];
    meanRelative := [ColumnMeans(listGoRank, horizon), ColumnMeans(listImproved, horizon), ColumnMeans(listClipped, horizon)];
  }

  /** Zeros divided by `n_trials` stay zeros. */
  lemma DivideZeros(n: nat, c: nat)
    requires c >= 1
    ensures Divide(Zeros(n), c) == Zeros(n)
  {
    assert forall k :: 0 <= k < n ==> Divide(Zeros(n), c)[k] == Zeros(n)[k];
  }

  /** Entries that are never negative have column sums that are never negative. */
  lemma {:induction false} ColumnSumsNonnegative(rows: seq<seq<real>>, m: nat, count: nat)
    requires Rows(rows, m) && count <= |rows|
    requires forall r, k :: 0 <= r < |rows| && 0 <= k < m ==> 0.0 <= rows[r][k]
    ensures forall k :: 0 <= k < m ==> 0.0 <= ColumnSums(rows, m, count)[k]
  {
    if count > 0 {
      ColumnSumsNonnegative(rows, m, count - 1);
      forall k | 0 <= k < m ensures 0.0 <= ColumnSums(rows, m, count)[k] {
        assert ColumnSums(rows, m, count)[k] == ColumnSums(rows, m, count - 1)[k] + rows[count - 1][k];
      }
    }
  }

  /** Entries that are never negative have column means that are never negative. */
  lemma ColumnMeansNonnegative(rows: seq<seq<real>>, m: nat)
    requires Rows(rows, m) && |rows| >= 1
    requires forall r, k :: 0 <= r < |rows| && 0 <= k < m ==> 0.0 <= rows[r][k]
    ensures forall k :: 0 <= k < m ==> 0.0 <= ColumnMeans(rows, m)[k]
  {
    var sums := ColumnSums(rows, m, |rows|);
    ColumnSumsNonnegative(rows, m, |rows|);
    forall k | 0 <= k < m ensures 0.0 <= ColumnMeans(rows, m)[k] {
      assert ColumnMeans(rows, m)[k] == sums[k] / |rows| as real;
    }
  }

  /** The averaged weight errors are never negative. */
  lemma WeightMeansNonnegative(kind: RankKind, horizon: nat, n: nat, alpha: real, trials: seq<Trial>)
    requires MeanTrialsFit(horizon, n, trials) && |trials| >= 1
    ensures forall k :: 0 <= k < n ==> 0.0 <= ColumnMeans(WeightFinals(kind, horizon, n, alpha, trials), n)[k]
  {
    var rows := WeightFinals(kind, horizon, n, alpha, trials);
    forall r, k | 0 <= r < |rows| && 0 <= k < n ensures 0.0 <= rows[r][k] {
      WeightErrorNonnegative(kind, horizon, trials[r], alpha, k);
    }
    ColumnMeansNonnegative(rows, n);
  }

  lemma WeightErrorNonnegative(kind: RankKind, horizon: nat, trial: Trial, alpha: real, k: nat)
    requires Replayable(horizon, trial.data, trial.edges) && |trial.data| >= 1 && k < |trial.data|
    ensures 0.0 <= FinalWeightErrors(kind, horizon, trial.data, alpha, trial.edges)[k]
  {
  }

  /** Repeating one trial `n_trials` times averages to that trial's errors. */
  lemma AveragingMeansOfRepeatedTrial(horizon: nat, n: nat, alpha: real, tau: real, trueValue: real,
                                      trials: seq<Trial>, trial: Trial)
    requires MeanTrialsFit(horizon, n, trials) && |trials| >= 1
    requires forall r :: 0 <= r < |trials| ==> trials[r] == trial
    ensures Replayable(horizon, trial.data, trial.edges) && |trial.data| == n
    ensures ColumnMeans(WeightFinals(GoRankKind, horizon, n, alpha, trials), n)
         == FinalWeightErrors(GoRankKind, horizon, trial.data, alpha, trial.edges)
    ensures ColumnMeans(ClippedRelatives(horizon, n, tau, trueValue, trials), horizon)
         == ClippedRelative(horizon, trial.data, tau, trueValue, trial.edges)
  {
    assert trials[0] == trial;
    ColumnMeansConstant(WeightFinals(GoRankKind, horizon, n, alpha, trials), n,
                        FinalWeightErrors(GoRankKind, horizon, trial.data, alpha, trial.edges));
    ColumnMeansConstant(ClippedRelatives(horizon, n, tau, trueValue, trials), horizon,
                        ClippedRelative(horizon, trial.data, tau, trueValue, trial.edges));
  }
}

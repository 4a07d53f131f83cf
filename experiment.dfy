/** The experiment driver of run_experiments.py: one trial replays a given
    edge sequence through fresh estimators (the random edge choice and the
    data shuffle become inputs), then measures the errors against the ground
    truth; the experiment adds the final errors up over the trials and
    averages them. */
module Experiment {
  import opened Sequences
  import opened TrimWeight
  import opened RankModel
  import opened RankProperties
  import opened RankEstimators
  import opened MeanModel
  import opened MeanEstimators
  import opened GroundTruth

  // ------------------------------------------------------------ errors

  /** `np.abs(estimate - truth)`, node by node. */
  function AbsErrors(estimate: seq<real>, truth: seq<real>): (e: seq<real>)
    requires |estimate| == |truth|
    ensures |e| == |truth|
    ensures forall k :: 0 <= k < |truth| ==> e[k] >= 0.0 && (e[k] == 0.0 <==> estimate[k] == truth[k])
  {
    seq(|truth|, k requires 0 <= k < |truth| => Abs(estimate[k] - truth[k]))
  }

  /** `np.average`: the mean of the entries. An empty vector averages to 0. */
  function Average(s: seq<real>): real
  {
    if |s| == 0 then 0.0 else Sum(s) / |s| as real
  }

  /** `true_ranks / n`: the true ranks rescaled into `[0, 1)`. */
  function ScaledTruth(tr: seq<int>): (v: seq<real>)
    ensures |v| == |tr|
  {
    seq(|tr|, k requires 0 <= k < |tr| => tr[k] as real / |tr| as real)
  }

  /** `np.abs(historical_ranking[t] * weight - true_ranks / n)`. */
  function RankErrors(row: seq<real>, weight: real, tr: seq<int>): (e: seq<real>)
    requires |row| == |tr|
    ensures |e| == |tr|
  {
    AbsErrors(Scale(weight, row), ScaledTruth(tr))
  }

  /** `np.full(n, value)`. */
  function Full(n: nat, value: real): (v: seq<real>)
    ensures |v| == n && forall k :: 0 <= k < n ==> v[k] == value
  {
    seq(n, _ => value)
  }

  /** The ranking error at every step `t` of a history. */
  function RankRelativeErrors(ranking: seq<seq<real>>, weight: real, tr: seq<int>): (e: seq<real>)
    requires forall t :: 0 <= t < |ranking| ==> |ranking[t]| == |tr|
    ensures |e| == |ranking|
  {
    seq(|ranking|, t requires 0 <= t < |ranking| => Average(RankErrors(ranking[t], weight, tr)))
  }

  /** A vector holding the ranking error of every row is the error history. */
  lemma RankRelativeErrorsFrom(ranking: seq<seq<real>>, weight: real, tr: seq<int>, e: seq<real>)
    requires forall t :: 0 <= t < |ranking| ==> |ranking[t]| == |tr|
    requires |e| == |ranking| && forall t :: 0 <= t < |e| ==> e[t] == Average(RankErrors(ranking[t], weight, tr))
    ensures e == RankRelativeErrors(ranking, weight, tr)
  {
  }

  /** `np.average(np.abs(z - true_value))` for one row `z`. */
  function MeanError(z: seq<real>, trueValue: real, n: nat): real
    requires |z| == n
  {
    Average(AbsErrors(z, Full(n, trueValue)))
  }

  /** The averaging error at every step `t` of a history of `z`. */
  function MeanRelativeErrors(z: seq<seq<real>>, trueValue: real, n: nat): (e: seq<real>)
    requires forall t :: 0 <= t < |z| ==> |z[t]| == n
    ensures |e| == |z|
  {
    seq(|z|, t requires 0 <= t < |z| => MeanError(z[t], trueValue, n))
  }

  /** A vector holding the error of every row is the error history. */
  lemma MeanRelativeErrorsFrom(z: seq<seq<real>>, trueValue: real, n: nat, e: seq<real>)
    requires forall t :: 0 <= t < |z| ==> |z[t]| == n
    requires |e| == |z| && forall t :: 0 <= t < |z| ==> e[t] == MeanError(z[t], trueValue, n)
    ensures e == MeanRelativeErrors(z, trueValue, n)
  {
  }

  // ------------------------------------------------- facts about errors

  lemma {:induction false} SumNonnegative(s: seq<real>, b: real)
    requires forall k :: 0 <= k < |s| ==> 0.0 <= s[k] <= b
    ensures 0.0 <= Sum(s) <= |s| as real * b
  {
    if |s| > 0 {
      SumNonnegative(s[..|s| - 1], b);
    }
  }

  lemma {:induction false} SumAtLeastZero(s: seq<real>)
    requires forall k :: 0 <= k < |s| ==> 0.0 <= s[k]
    ensures 0.0 <= Sum(s)
  {
    if |s| > 0 {
      SumAtLeastZero(s[..|s| - 1]);
    }
  }

  /** A sum of nonnegative entries is 0 exactly when every entry is. */
  lemma {:induction false} SumZero(s: seq<real>)
    requires forall k :: 0 <= k < |s| ==> 0.0 <= s[k]
    ensures Sum(s) == 0.0 <==> forall k :: 0 <= k < |s| ==> s[k] == 0.0
  {
    if |s| > 0 {
      var front := s[..|s| - 1];
      SumZero(front);
      SumAtLeastZero(front);
      if Sum(s) == 0.0 {
        forall k | 0 <= k < |s| ensures s[k] == 0.0 {
          if k < |s| - 1 {
            assert s[k] == front[k];
          }
        }
      }
    }
  }

  /** The average of entries in `[0, b]` lies in `[0, b]`. */
  lemma AverageBounds(s: seq<real>, b: real)
    requires forall k :: 0 <= k < |s| ==> 0.0 <= s[k] <= b
    ensures 0.0 <= Average(s)
    ensures |s| > 0 ==> Average(s) <= b
  {
    if |s| > 0 {
      SumNonnegative(s, b);
      DivideBound(Sum(s), |s| as real, b);
    }
  }

  lemma DivideBound(x: real, m: real, b: real)
    requires m > 0.0 && 0.0 <= x <= m * b
    ensures 0.0 <= x / m <= b
  {
    assert x / m * m == x;
    assert (x / m - b) * m == x - m * b;
  }

  /** The average error is 0 exactly when every node's error is. */
  lemma AverageZero(s: seq<real>)
    requires forall k :: 0 <= k < |s| ==> 0.0 <= s[k]
    ensures Average(s) == 0.0 <==> forall k :: 0 <= k < |s| ==> s[k] == 0.0
  {
    SumZero(s);
    if |s| > 0 {
      assert Sum(s) / |s| as real * |s| as real == Sum(s);
    }
  }

  /** The ranking error at a step is 0 exactly when every rescaled estimate
      is its node's true rank over `n`. */
  lemma RankErrorZero(row: seq<real>, weight: real, tr: seq<int>)
    requires |row| == |tr|
    ensures Average(RankErrors(row, weight, tr)) == 0.0 <==> Scale(weight, row) == ScaledTruth(tr)
  {
    var e := RankErrors(row, weight, tr);
    AverageZero(e);
    if forall k :: 0 <= k < |e| ==> e[k] == 0.0 {
      forall k | 0 <= k < |tr| ensures Scale(weight, row)[k] == ScaledTruth(tr)[k] {
        assert e[k] == 0.0;
      }
    }
  }

  /** A rescaled estimate in `[0, 1]` is off by at most 1 from a true rank over `n`. */
  lemma RankErrorAtMostOne(row: seq<real>, weight: real, tr: seq<int>, k: nat)
    requires |row| == |tr| && k < |tr|
    requires ScaledInUnit(weight, row[k]) && 0 <= tr[k] < |tr|
    ensures 0.0 <= RankErrors(row, weight, tr)[k] <= 1.0
  {
    DivBound(tr[k] as real, |tr| as real);
  }

  /** A whole-number rank in `[0, n-1]` times `1 / n` lies in `[0, 1]`. */
  lemma RankValueScaled(x: real, n: nat)
    requires IsRankValue(x, n)
    ensures 0.0 <= 1.0 / n as real * x <= 1.0
  {
    assert 1.0 / n as real * x == x / n as real;
    DivBound(x, n as real);
  }

  /** A rescaled estimate `w * x` lies in `[0, 1]`. */
  predicate ScaledInUnit(w: real, x: real)
  {
    0.0 <= w * x <= 1.0
  }

  lemma ImprovedInvScaled(st: RankState, data: seq<real>, upto: nat, s: nat, k: nat)
    requires ImprovedInv(st, data, upto) && s <= upto && k < |data|
    ensures ScaledInUnit(1.0 / |data| as real, st.ranking[s][k])
  {
    assert RankRowInvariant(st.ranking[s], st.auxR[s]);
    RankValueScaled(st.ranking[s][k], |data|);
  }

  lemma BaselineInvScaled(st: RankState, data: seq<real>, upto: nat, s: nat, k: nat)
    requires BaselineInv(st, data, upto) && s <= upto && k < |data|
    ensures ScaledInUnit(1.0 / |data| as real, st.ranking[s][k])
  {
    assert RankRowInvariant(st.ranking[s], st.auxR[s]);
    RankValueScaled(st.ranking[s][k], |data|);
  }

  // ------------------------------------------------------ ranking trial

  /** What a ranking trial needs: the source divides by `n` for the
      Baseline estimators, reads row `horizon - 1`, and takes edge `t - 1`
      at step `t`. */
  predicate TrialFits(kind: RankKind, horizon: nat, data: seq<real>, edges: seq<Edge>)
  {
    Replayable(horizon, data, edges) && (kind != GoRankKind ==> |data| >= 1)
  }

  /** Row `horizon - 1` exists, and an edge between two nodes is there for every step. */
  predicate Replayable(horizon: nat, data: seq<real>, edges: seq<Edge>)
  {
    horizon >= 1 && ValidEdges(edges, |data|) && horizon - 1 <= |edges|
  }

  /** The trial's rank history: every step `t = 1 .. horizon - 1` applied. */
  function TrialRanks(kind: RankKind, horizon: nat, data: seq<real>, edges: seq<Edge>): (st: RankState)
    requires TrialFits(kind, horizon, data, edges)
    ensures Shaped(st, horizon, |data|)
  {
    RankRun(kind, horizon, data, edges, horizon - 1)
  }

  /** The final-step ranking error of every node (`absolute_error`). */
  function FinalRankErrors(kind: RankKind, horizon: nat, data: seq<real>, edges: seq<Edge>): (e: seq<real>)
    requires TrialFits(kind, horizon, data, edges)
    ensures |e| == |data|
  {
    RankErrors(TrialRanks(kind, horizon, data, edges).ranking[horizon - 1], Weight(kind, |data|), TrueRanks(data))
  }

  /** The ranking error at every step (`relative_error`). */
  function TrialRankRelative(kind: RankKind, horizon: nat, data: seq<real>, edges: seq<Edge>): (e: seq<real>)
    requires TrialFits(kind, horizon, data, edges)
    ensures |e| == horizon
  {
    RankRelativeErrors(TrialRanks(kind, horizon, data, edges).ranking, Weight(kind, |data|), TrueRanks(data))
  }

  /** Every rescaled estimate of every row of a trial lies in `[0, 1]`: GoRank
      averages indicators, the Baseline estimators hold whole ranks `0..n-1`
      scaled by `1 / n`. */
  lemma TrialEstimatesInUnit(kind: RankKind, horizon: nat, data: seq<real>, edges: seq<Edge>, s: nat, k: nat)
    requires TrialFits(kind, horizon, data, edges) && s < horizon && k < |data|
    ensures ScaledInUnit(Weight(kind, |data|), TrialRanks(kind, horizon, data, edges).ranking[s][k])
  {
    match kind
    case GoRankKind => GoRankEstimateInUnit(horizon, data, edges, s, k);
    case ImprovedKind => ImprovedEstimateInUnit(horizon, data, edges, s, k);
    case BaselineKind => BaselineEstimateInUnit(horizon, data, edges, s, k);
  }

  lemma GoRankEstimateInUnit(horizon: nat, data: seq<real>, edges: seq<Edge>, s: nat, k: nat)
    requires TrialFits(GoRankKind, horizon, data, edges) && s < horizon && k < |data|
    ensures ScaledInUnit(1.0, TrialRanks(GoRankKind, horizon, data, edges).ranking[s][k])
  {
    var st := RankRun(GoRankKind, horizon, data, edges, horizon - 1);
    GoRankRunInvariant(horizon, data, edges, horizon - 1);
    assert InUnit(st.ranking[s]);
  }

  lemma ImprovedEstimateInUnit(horizon: nat, data: seq<real>, edges: seq<Edge>, s: nat, k: nat)
    requires TrialFits(ImprovedKind, horizon, data, edges) && s < horizon && k < |data|
    ensures ScaledInUnit(1.0 / |data| as real, TrialRanks(ImprovedKind, horizon, data, edges).ranking[s][k])
  {
    ImprovedRunInvariant(horizon, data, edges, horizon - 1);
    ImprovedInvScaled(RankRun(ImprovedKind, horizon, data, edges, horizon - 1), data, horizon - 1, s, k);
  }

  lemma BaselineEstimateInUnit(horizon: nat, data: seq<real>, edges: seq<Edge>, s: nat, k: nat)
    requires TrialFits(BaselineKind, horizon, data, edges) && s < horizon && k < |data|
    ensures ScaledInUnit(1.0 / |data| as real, TrialRanks(BaselineKind, horizon, data, edges).ranking[s][k])
  {
    var st := TrialRanks(BaselineKind, horizon, data, edges);
    BaselineRunInvariant(horizon, data, edges, horizon - 1);
    assert BaselineInv(st, data, horizon - 1);
    BaselineInvScaled(st, data, horizon - 1, s, k);
  }

  /** Every node's final ranking error lies in `[0, 1]`. */
  lemma FinalRankErrorsInUnit(kind: RankKind, horizon: nat, data: seq<real>, edges: seq<Edge>)
    requires TrialFits(kind, horizon, data, edges)
    ensures forall k :: 0 <= k < |data| ==> 0.0 <= FinalRankErrors(kind, horizon, data, edges)[k] <= 1.0
  {
    var st := TrialRanks(kind, horizon, data, edges);
    TrueRanksPermutation(data);
    forall k | 0 <= k < |data| ensures 0.0 <= FinalRankErrors(kind, horizon, data, edges)[k] <= 1.0 {
      TrialEstimatesInUnit(kind, horizon, data, edges, horizon - 1, k);
      RankErrorAtMostOne(st.ranking[horizon - 1], Weight(kind, |data|), TrueRanks(data), k);
    }
  }

  /** The ranking error of a trial lies in `[0, 1]` at every step. */
  lemma TrialRankRelativeInUnit(kind: RankKind, horizon: nat, data: seq<real>, edges: seq<Edge>)
    requires TrialFits(kind, horizon, data, edges)
    ensures forall t :: 0 <= t < horizon ==> 0.0 <= TrialRankRelative(kind, horizon, data, edges)[t] <= 1.0
  {
    forall t | 0 <= t < horizon ensures 0.0 <= TrialRankRelative(kind, horizon, data, edges)[t] <= 1.0 {
      StepErrorInUnit(kind, horizon, data, edges, t);
    }
  }

  lemma StepErrorInUnit(kind: RankKind, horizon: nat, data: seq<real>, edges: seq<Edge>, t: nat)
    requires TrialFits(kind, horizon, data, edges) && t < horizon
    ensures 0.0 <= Average(RankErrors(TrialRanks(kind, horizon, data, edges).ranking[t], Weight(kind, |data|), TrueRanks(data))) <= 1.0
  {
    var row := TrialRanks(kind, horizon, data, edges).ranking[t];
    var w, tr := Weight(kind, |data|), TrueRanks(data);
    var e := RankErrors(row, w, tr);
    TrueRanksPermutation(data);
    forall k | 0 <= k < |data| ensures 0.0 <= e[k] <= 1.0 {
      TrialEstimatesInUnit(kind, horizon, data, edges, t, k);
      RankErrorAtMostOne(row, w, tr, k);
    }
    AverageBounds(e, 1.0);
  }

  /** The estimators of a trial, each valid and of the requested kind. */
  ghost predicate Fits(r: RankEstimator, kind: RankKind, horizon: nat, data: seq<real>)
    reads r.Repr()
  {
    r.Valid() && r.Kind() == kind && r.Horizon() == horizon && r.N() == |data| && r.Data() == data
  }

  /** Every object of the estimators. */
  ghost function Footprint(ests: seq<RankEstimator>): set<object>
  {
    set b, o | 0 <= b < |ests| && o in ests[b].Repr() :: o
  }

  /** No two estimators share an object. */
  ghost predicate Separate(ests: seq<RankEstimator>)
  {
    forall b, c :: 0 <= b < |ests| && 0 <= c < |ests| && b != c ==> ests[b].Repr() !! ests[c].Repr()
  }

  lemma FootprintAppend(ests: seq<RankEstimator>, r: RankEstimator)
    ensures Footprint(ests + [r]) == Footprint(ests) + r.Repr()
  {
    var e := ests + [r];
    forall o | o in Footprint(e) ensures o in Footprint(ests) + r.Repr() {
      var b :| 0 <= b < |e| && o in e[b].Repr();
      if b < |ests| {
        assert e[b] == ests[b];
      }
    }
    forall o | o in Footprint(ests) + r.Repr() ensures o in Footprint(e) {
      if o in r.Repr() {
        assert e[|ests|] == r;
      } else {
        var b :| 0 <= b < |ests| && o in ests[b].Repr();
        assert e[b] == ests[b];
      }
    }
  }

  lemma SeparateAppend(ests: seq<RankEstimator>, r: RankEstimator)
    requires Separate(ests) && Footprint(ests) !! r.Repr()
    ensures Separate(ests + [r])
  {
    var e := ests + [r];
    forall b, c | 0 <= b < |e| && 0 <= c < |e| && b != c ensures e[b].Repr() !! e[c].Repr() {
      if b < |ests| {
        ReprInFootprint(ests, b);
      }
      if c < |ests| {
        ReprInFootprint(ests, c);
      }
    }
  }

  lemma ReprInFootprint(ests: seq<RankEstimator>, a: nat)
    requires a < |ests|
    ensures ests[a].Repr() <= Footprint(ests)
  {
  }

  /** Estimator `r` is valid, of kind `kind`, and has applied steps `1 .. s` exactly. */
  ghost predicate Stepped(r: RankEstimator, kind: RankKind, horizon: nat, data: seq<real>, edges: seq<Edge>, s: nat)
    reads r.Repr()
  {
    Fits(r, kind, horizon, data) && TrialFits(kind, horizon, data, edges) &&
    s < horizon && s <= |edges| && r.Model() == RankRun(kind, horizon, data, edges, s)
  }

  /** Every estimator is valid and has applied steps `1 .. s` exactly. */
  ghost predicate AllAtStep(ests: seq<RankEstimator>, kinds: seq<RankKind>, horizon: nat, data: seq<real>,
                            edges: seq<Edge>, s: nat)
    reads Footprint(ests)
  {
    |ests| == |kinds| &&
    forall b :: 0 <= b < |ests| ==> Stepped(ests[b], kinds[b], horizon, data, edges, s)
  }

  /** `[class_estimate(horizon, n, data) for class_estimate in class_estimates]`. */
  method NewEstimators(kinds: seq<RankKind>, horizon: nat, data: seq<real>, edges: seq<Edge>)
    returns (ests: seq<RankEstimator>)
    requires AllFit(kinds, horizon, data, edges)
    ensures AllAtStep(ests, kinds, horizon, data, edges, 0) && Separate(ests) && fresh(Footprint(ests))
  {
    ests := [];
    for a := 0 to |kinds|
      invariant |ests| == a
      invariant forall b :: 0 <= b < a ==> Stepped(ests[b], kinds[b], horizon, data, edges, 0)
      invariant Separate(ests) && fresh(Footprint(ests))
    {
      ghost var fp := Footprint(ests);
      ghost var prev := ests;
      label prior:
      var r := NewStepped(kinds[a], horizon, data, edges);
      forall b | 0 <= b < a ensures Stepped(prev[b], kinds[b], horizon, data, edges, 0) {
        match prev[b] {
          case GoRankEst(g) => assert unchanged@prior(g, g.ranking, g.y);
          case ImprovedEst(c) => assert unchanged@prior(c, c.ranking, c.auxR, c.auxX);
          case BaselineEst(c) => assert unchanged@prior(c, c.ranking, c.auxR, c.auxX, c.auxI);
        }
      }
      assert fp !! r.Repr();
      SeparateAppend(ests, r);
      FootprintAppend(ests, r);
      ests := ests + [r];
      assert fresh(Footprint(ests));
      assert forall b :: 0 <= b < a ==> ests[b] == prev[b];
    }
  }

  /** `class_estimate(horizon, n, data)`: a fresh estimator that has applied no step. */
  method NewStepped(kind: RankKind, horizon: nat, data: seq<real>, ghost edges: seq<Edge>) returns (r: RankEstimator)
    requires TrialFits(kind, horizon, data, edges)
    ensures Stepped(r, kind, horizon, data, edges, 0) && fresh(r.Repr())
  {
    r := NewRankEstimator(kind, horizon, |data|, data);
  }

  /** One step `t` of the trial: every estimator updated with the same `(t, i, j)`. */
  method StepAll(ests: seq<RankEstimator>, ghost kinds: seq<RankKind>, horizon: nat, data: seq<real>,
                 edges: seq<Edge>, t: nat)
    requires Separate(ests) && Replayable(horizon, data, edges) && 1 <= t < horizon
    requires AllAtStep(ests, kinds, horizon, data, edges, t - 1)
    modifies Footprint(ests)
    ensures AllAtStep(ests, kinds, horizon, data, edges, t)
  {
    assert edges[t - 1] in edges;
    var (i, j) := edges[t - 1];
    ghost var prev := t - 1;
    for a := 0 to |ests|
      invariant forall b :: 0 <= b < a ==> Stepped(ests[b], kinds[b], horizon, data, edges, t)
      invariant forall b :: a <= b < |ests| ==> Stepped(ests[b], kinds[b], horizon, data, edges, prev)
    {
      ReprInFootprint(ests, a);
      StepOne(ests, kinds, horizon, data, edges, t, i, j, a);
      RankRunUnfold(kinds[a], horizon, data, edges, t);
    }
  }

  /** `estimate.update(t, i, j)` for estimator `a`; the others are untouched. */
  method StepOne(ests: seq<RankEstimator>, ghost kinds: seq<RankKind>, ghost horizon: nat, ghost data: seq<real>,
                 ghost edges: seq<Edge>, t: nat, i: nat, j: nat, a: nat)
    requires Separate(ests) && a < |ests| && a < |kinds| && 1 <= t
    requires Stepped(ests[a], kinds[a], horizon, data, edges, t - 1)
    requires t < horizon && i < |data| && j < |data|
    modifies ests[a].Repr()
    ensures Fits(ests[a], kinds[a], horizon, data)
    ensures ests[a].Model() == RankStep(old(ests[a].Model()), data, t, i, j)
    ensures forall b :: 0 <= b < |ests| && b != a && old(ests[b].Valid()) ==>
              ests[b].Valid() && ests[b].Model() == old(ests[b].Model())
  {
    var e := ests[a];
    e.Update(t, i, j);
    forall b | 0 <= b < |ests| && b != a && old(ests[b].Valid())
      ensures ests[b].Valid() && ests[b].Model() == old(ests[b].Model())
    {
      assert e.Repr() !! ests[b].Repr();
      match ests[b] {
        case GoRankEst(g) => assert unchanged(g, g.ranking, g.y);
        case ImprovedEst(c) => assert unchanged(c, c.ranking, c.auxR, c.auxX);
        case BaselineEst(c) => assert unchanged(c, c.ranking, c.auxR, c.auxX, c.auxI);
      }
    }
  }

  /** The errors of one estimator at the end of a trial. */
  method MeasureOne(e: RankEstimator, ghost kind: RankKind, horizon: nat, data: seq<real>, ghost edges: seq<Edge>)
    returns (final: seq<real>, relative: seq<real>)
    requires horizon >= 1 && Stepped(e, kind, horizon, data, edges, horizon - 1)
    ensures final == FinalRankErrors(kind, horizon, data, edges)
    ensures relative == TrialRankRelative(kind, horizon, data, edges)
  {
    ghost var st := TrialRanks(kind, horizon, data, edges);
    assert e.Model() == st;
    var tr := TrueRanks(data);
    relative := RankStepErrors(e, tr);
    final := RankErrors(e.Ranking(horizon - 1), e.Weight(), tr);
  }

  /** `for t in range(horizon): relative_error[t] = np.average(np.abs(historical_ranking[t] * weight - true_ranks / n))`. */
  method RankStepErrors(e: RankEstimator, tr: seq<int>) returns (relative: seq<real>)
    requires e.Valid() && |tr| == e.N()
    ensures relative == RankRelativeErrors(e.Model().ranking, e.Weight(), tr)
  {
    ghost var ranking := e.Model().ranking;
    var errors := new real[e.Horizon()];
    for s := 0 to e.Horizon()
      invariant forall r :: 0 <= r < s ==> errors[r] == Average(RankErrors(ranking[r], e.Weight(), tr))
    {
      errors[s] := Average(RankErrors(e.Ranking(s), e.Weight(), tr));
    }
    relative := errors[..];
    RankRelativeErrorsFrom(ranking, e.Weight(), tr, relative);
  }

  /** Every estimator kind of the list fits the trial. */
  predicate AllFit(kinds: seq<RankKind>, horizon: nat, data: seq<real>, edges: seq<Edge>)
  {
    forall a :: 0 <= a < |kinds| ==> TrialFits(kinds[a], horizon, data, edges)
  }

  /** `final` and `relative` hold the errors of the first `upto` estimators of the trial. */
  predicate RankResults(final: seq<seq<real>>, relative: seq<seq<real>>, kinds: seq<RankKind>, horizon: nat,
                        data: seq<real>, edges: seq<Edge>, upto: nat)
    requires AllFit(kinds, horizon, data, edges) && upto <= |kinds|
  {
    |final| == upto && |relative| == upto &&
    forall a :: 0 <= a < upto ==>
      final[a] == FinalRankErrors(kinds[a], horizon, data, edges) &&
      relative[a] == TrialRankRelative(kinds[a], horizon, data, edges)
  }

  lemma RankResultsAppend(final: seq<seq<real>>, relative: seq<seq<real>>, kinds: seq<RankKind>, horizon: nat,
                          data: seq<real>, edges: seq<Edge>, upto: nat, fin: seq<real>, rel: seq<real>)
    requires AllFit(kinds, horizon, data, edges) && upto < |kinds|
    requires RankResults(final, relative, kinds, horizon, data, edges, upto)
    requires fin == FinalRankErrors(kinds[upto], horizon, data, edges)
    requires rel == TrialRankRelative(kinds[upto], horizon, data, edges)
    ensures RankResults(final + [fin], relative + [rel], kinds, horizon, data, edges, upto + 1)
  {
    var f, r := final + [fin], relative + [rel];
    forall a | 0 <= a < upto + 1
      ensures f[a] == FinalRankErrors(kinds[a], horizon, data, edges)
      ensures r[a] == TrialRankRelative(kinds[a], horizon, data, edges)
    {
      if a < upto {
        assert f[a] == final[a] && r[a] == relative[a];
      }
    }
  }

  /** The errors of every estimator at the end of a trial. */
  method MeasureAll(ests: seq<RankEstimator>, ghost kinds: seq<RankKind>, horizon: nat, data: seq<real>, ghost edges: seq<Edge>)
    returns (final: seq<seq<real>>, relative: seq<seq<real>>)
    requires horizon >= 1 && AllAtStep(ests, kinds, horizon, data, edges, horizon - 1)
    requires AllFit(kinds, horizon, data, edges)
    ensures RankResults(final, relative, kinds, horizon, data, edges, |kinds|)
  {
    final, relative := [], [];
    for a := 0 to |ests|
      invariant RankResults(final, relative, kinds, horizon, data, edges, a)
    {
      var fin, rel := MeasureOne(ests[a], kinds[a], horizon, data, edges);
      RankResultsAppend(final, relative, kinds, horizon, data, edges, a, fin, rel);
      final := final + [fin];
      relative := relative + [rel];
    }
  }

  /** One ranking trial: fresh estimators of the given kinds, steps
      `t = 1 .. horizon - 1` with edge `t - 1` given to every estimator in
      turn, then the final and per-step errors of each. */
  method RankingTrial(kinds: seq<RankKind>, horizon: nat, data: seq<real>, edges: seq<Edge>)
    returns (final: seq<seq<real>>, relative: seq<seq<real>>)
    requires Replayable(horizon, data, edges)
    requires AllFit(kinds, horizon, data, edges)
    ensures RankResults(final, relative, kinds, horizon, data, edges, |kinds|)
  {
    var ests := NewEstimators(kinds, horizon, data, edges);
    Replay(ests, kinds, horizon, data, edges);
    final, relative := MeasureAll(ests, kinds, horizon, data, edges);
  }

  /** `t = 1; while t < horizon: …; t += 1`, with `(i, j)` the edge of step `t`. */
  method Replay(ests: seq<RankEstimator>, ghost kinds: seq<RankKind>, horizon: nat, data: seq<real>, edges: seq<Edge>)
    requires Separate(ests) && Replayable(horizon, data, edges)
    requires AllAtStep(ests, kinds, horizon, data, edges, 0)
    modifies Footprint(ests)
    ensures AllAtStep(ests, kinds, horizon, data, edges, horizon - 1)
  {
    var t := 1;
    while t < horizon
      invariant 1 <= t <= horizon && Separate(ests)
      invariant AllAtStep(ests, kinds, horizon, data, edges, t - 1)
    {
      StepAll(ests, kinds, horizon, data, edges, t);
      t := t + 1;
    }
    assert t - 1 == horizon - 1;
  }

  // ---------------------------------------------------- averaging trial

  /** `true_weight - historical_w[-1]` in absolute value, node by node, for a
      GoTrim estimator wrapping a rank estimator of kind `kind`. */
  function FinalWeightErrors(kind: RankKind, horizon: nat, data: seq<real>, alpha: real, edges: seq<Edge>): (e: seq<real>)
    requires Replayable(horizon, data, edges) && |data| >= 1
    ensures |e| == |data|
  {
    AbsErrors(GoTrimRun(kind, horizon, data, alpha, edges, horizon - 1).w[horizon - 1],
              TrueWeights(|data|, TrueRanks(data), alpha))
  }

  /** The averaging error at every step of a GoTrim estimator. */
  function GoTrimRelative(kind: RankKind, horizon: nat, data: seq<real>, alpha: real, trueValue: real, edges: seq<Edge>): (e: seq<real>)
    requires Replayable(horizon, data, edges) && |data| >= 1
    ensures |e| == horizon
  {
    MeanRelativeErrors(GoTrimRun(kind, horizon, data, alpha, edges, horizon - 1).z, trueValue, |data|)
  }

  /** The averaging error at every step of ClippedGossip. */
  function ClippedRelative(horizon: nat, data: seq<real>, tau: real, trueValue: real, edges: seq<Edge>): (e: seq<real>)
    requires Replayable(horizon, data, edges)
    ensures |e| == horizon
  {
    MeanRelativeErrors(ClippedRun(horizon, data, tau, edges, horizon - 1), trueValue, |data|)
  }

  /** The objects a ClippedGossip step may write. */
  ghost function ClippedObjects(c: ClippedGossip): set<object>
  {
    {c, c.z}
  }

  /** GoTrim estimator `g` is valid and has applied steps `1 .. s` exactly,
      both in its wrapped rank estimator and in its own histories. */
  ghost predicate GoTrimAt(g: GoTrim, kind: RankKind, horizon: nat, data: seq<real>, alpha: real, edges: seq<Edge>, s: nat)
    reads g, g.Repr
  {
    g.Valid() && g.rank.Kind() == kind && g.horizon == horizon && g.data == data && g.alpha == alpha &&
    g.weight == Weight(kind, |data|) * |data| as real && Replayable(horizon, data, edges) && |data| >= 1 && s < horizon && s <= |edges| &&
    g.rank.Model() == RankRun(kind, horizon, data, edges, s) &&
    g.Model() == GoTrimRun(kind, horizon, data, alpha, edges, s)
  }

  /** ClippedGossip estimator `c` is valid and has applied steps `1 .. s` exactly. */
  ghost predicate ClippedAt(c: ClippedGossip, horizon: nat, data: seq<real>, tau: real, edges: seq<Edge>, s: nat)
    reads ClippedObjects(c)
  {
    c.Valid() && c.horizon == horizon && c.data == data && c.tau == tau &&
    Replayable(horizon, data, edges) && s < horizon && s <= |edges| &&
    c.Model() == ClippedRun(horizon, data, tau, edges, s)
  }

  /** `MeanEstimate(horizon, n, data, alpha, rank_class)`. */
  method StartGoTrim(kind: RankKind, horizon: nat, data: seq<real>, alpha: real, ghost edges: seq<Edge>) returns (g: GoTrim)
    requires Replayable(horizon, data, edges) && |data| >= 1
    ensures GoTrimAt(g, kind, horizon, data, alpha, edges, 0) && fresh(g.Repr)
  {
    g := NewGoTrim(horizon, |data|, data, alpha, kind);
  }

  /** `ClippedGossip(horizon, n, data, tau)`. */
  method StartClipped(horizon: nat, data: seq<real>, tau: real, ghost edges: seq<Edge>) returns (c: ClippedGossip)
    requires Replayable(horizon, data, edges)
    ensures ClippedAt(c, horizon, data, tau, edges, 0) && fresh(ClippedObjects(c))
  {
    c := new ClippedGossip(horizon, |data|, data, tau);
  }

  /** `estimate.rank.update(t, i, j)` inside a GoTrim estimator: the rank
      estimator takes step `t` of its run and the estimator's own histories
      stay as they were. */
  method AdvanceRankOf(g: GoTrim, ghost kind: RankKind, ghost horizon: nat, ghost data: seq<real>, ghost alpha: real,
                       ghost edges: seq<Edge>, t: nat, i: nat, j: nat)
    requires g.Valid() && g.horizon == horizon && g.data == data && Replayable(horizon, data, edges) && |data| >= 1
    requires 1 <= t < horizon && edges[t - 1] == (i, j)
    requires g.rank.Model() == RankRun(kind, horizon, data, edges, t - 1)
    requires g.Model() == GoTrimRun(kind, horizon, data, alpha, edges, t - 1)
    modifies g.rank.Repr()
    ensures g.Valid() && g.Model() == GoTrimRun(kind, horizon, data, alpha, edges, t - 1)
    ensures g.rank.Model() == RankRun(kind, horizon, data, edges, t)
  {
    RankRunUnfold(kind, horizon, data, edges, t);
    g.rank.Update(t, i, j);
  }

  /** `estimate.update_mean(t, i, j)` of a GoTrim estimator whose rank
      estimator has already taken step `t`. */
  method AdvanceMeanOf(g: GoTrim, ghost kind: RankKind, ghost horizon: nat, ghost data: seq<real>, ghost alpha: real,
                       ghost edges: seq<Edge>, t: nat, i: nat, j: nat)
    requires g.Valid() && g.horizon == horizon && g.data == data && g.alpha == alpha && |data| >= 1
    requires g.weight == Weight(kind, |data|) * |data| as real && Replayable(horizon, data, edges)
    requires 1 <= t < horizon && edges[t - 1] == (i, j)
    requires g.rank.Model() == RankRun(kind, horizon, data, edges, t)
    requires g.Model() == GoTrimRun(kind, horizon, data, alpha, edges, t - 1)
    modifies g.z, g.w
    ensures g.Valid() && g.rank.Model() == RankRun(kind, horizon, data, edges, t)
    ensures g.Model() == GoTrimRun(kind, horizon, data, alpha, edges, t)
  {
    GoTrimRunUnfold(kind, horizon, data, alpha, edges, t);
    g.UpdateMean(t, i, j);
  }

  /** `estimate.rank.update(t, i, j)` followed by `estimate.update_mean(t, i, j)`
      at step `t`. */
  method AdvanceGoTrim(g: GoTrim, ghost kind: RankKind, ghost horizon: nat, ghost data: seq<real>, ghost alpha: real,
                       ghost edges: seq<Edge>, t: nat, i: nat, j: nat)
    requires 1 <= t < horizon && GoTrimAt(g, kind, horizon, data, alpha, edges, t - 1)
    requires t <= |edges| && edges[t - 1] == (i, j)
    modifies g.Repr
    ensures GoTrimAt(g, kind, horizon, data, alpha, edges, t)
  {
    AdvanceRankOf(g, kind, horizon, data, alpha, edges, t, i, j);
    AdvanceMeanOf(g, kind, horizon, data, alpha, edges, t, i, j);
  }

  /** `estimate.update_mean(t, i, j)` for ClippedGossip at step `t`. */
  method AdvanceClipped(c: ClippedGossip, ghost horizon: nat, ghost data: seq<real>, ghost tau: real,
                        ghost edges: seq<Edge>, t: nat, i: nat, j: nat)
    requires 1 <= t < horizon && ClippedAt(c, horizon, data, tau, edges, t - 1)
    requires t <= |edges| && edges[t - 1] == (i, j)
    modifies ClippedObjects(c)
    ensures ClippedAt(c, horizon, data, tau, edges, t)
  {
    assert edges[t - 1] in edges;
    c.UpdateMean(t, i, j);
  }

  /** The three estimators share no object. */
  ghost predicate ApartAll(g1: GoTrim, g2: GoTrim, c: ClippedGossip)
  {
    g1.Repr !! g2.Repr && ClippedObjects(c) !! g1.Repr &&
    ClippedObjects(c) !! g2.Repr
  }

  /** One step of an averaging trial: both GoTrim estimators update their
      rank estimator and then their mean, and ClippedGossip updates its mean. */
  method AveragingStep(g1: GoTrim, g2: GoTrim, c: ClippedGossip, ghost horizon: nat, ghost data: seq<real>,
                       ghost alpha: real, ghost tau: real, ghost edges: seq<Edge>, t: nat, i: nat, j: nat)
    requires ApartAll(g1, g2, c) && 1 <= t < horizon && t <= |edges| && edges[t - 1] == (i, j)
    requires GoTrimAt(g1, GoRankKind, horizon, data, alpha, edges, t - 1)
    requires GoTrimAt(g2, ImprovedKind, horizon, data, alpha, edges, t - 1)
    requires ClippedAt(c, horizon, data, tau, edges, t - 1)
    modifies g1.Repr, g2.Repr, ClippedObjects(c)
    ensures GoTrimAt(g1, GoRankKind, horizon, data, alpha, edges, t)
    ensures GoTrimAt(g2, ImprovedKind, horizon, data, alpha, edges, t)
    ensures ClippedAt(c, horizon, data, tau, edges, t)
  {
    AdvanceGoTrim(g1, GoRankKind, horizon, data, alpha, edges, t, i, j);
    AdvanceGoTrim(g2, ImprovedKind, horizon, data, alpha, edges, t, i, j);
    AdvanceClipped(c, horizon, data, tau, edges, t, i, j);
  }

  /** The step loop of an averaging trial, `for t in range(1, horizon)`. */
  method ReplayAveraging(g1: GoTrim, g2: GoTrim, c: ClippedGossip, horizon: nat, data: seq<real>, alpha: real,
                         tau: real, edges: seq<Edge>)
    requires ApartAll(g1, g2, c) && Replayable(horizon, data, edges)
    requires GoTrimAt(g1, GoRankKind, horizon, data, alpha, edges, 0)
    requires GoTrimAt(g2, ImprovedKind, horizon, data, alpha, edges, 0)
    requires ClippedAt(c, horizon, data, tau, edges, 0)
    modifies g1.Repr, g2.Repr, ClippedObjects(c)
    ensures GoTrimAt(g1, GoRankKind, horizon, data, alpha, edges, horizon - 1)
    ensures GoTrimAt(g2, ImprovedKind, horizon, data, alpha, edges, horizon - 1)
    ensures ClippedAt(c, horizon, data, tau, edges, horizon - 1)
  {
    ghost var done := 0;
    var t := 1;
    while t < horizon
      invariant t == done + 1 && t <= horizon && ApartAll(g1, g2, c)
      invariant GoTrimAt(g1, GoRankKind, horizon, data, alpha, edges, done)
      invariant GoTrimAt(g2, ImprovedKind, horizon, data, alpha, edges, done)
      invariant ClippedAt(c, horizon, data, tau, edges, done)
    {
      var (i, j) := edges[t - 1];
      assert t - 1 == done;
      AveragingStep(g1, g2, c, horizon, data, alpha, tau, edges, t, i, j);
      done := done + 1;
      t := t + 1;
    }
    assert done == horizon - 1;
  }

  /** The errors of a GoTrim estimator at the end of a trial. */
  method MeasureGoTrim(g: GoTrim, ghost kind: RankKind, horizon: nat, data: seq<real>, alpha: real, trueValue: real,
                       ghost edges: seq<Edge>)
    returns (weightErrors: seq<real>, relative: seq<real>)
    requires horizon >= 1 && GoTrimAt(g, kind, horizon, data, alpha, edges, horizon - 1)
    ensures weightErrors == FinalWeightErrors(kind, horizon, data, alpha, edges)
    ensures relative == GoTrimRelative(kind, horizon, data, alpha, trueValue, edges)
  {
    var n := |data|;
    var trueWeight := TrueWeights(n, TrueRanks(data), alpha);
    weightErrors := AbsErrors(g.w[horizon - 1], trueWeight);
    relative := StepErrors(g.z, trueValue, n);
  }

  /** `for t in range(horizon): relative_error[t] = np.average(np.abs(z[t] - true_value))`. */
  method StepErrors(z: array<seq<real>>, trueValue: real, n: nat) returns (relative: seq<real>)
    requires forall t :: 0 <= t < z.Length ==> |z[t]| == n
    ensures relative == MeanRelativeErrors(z[..], trueValue, n)
  {
    var errors := new real[z.Length];
    for s := 0 to z.Length
      invariant forall r :: 0 <= r < s ==> errors[r] == MeanError(z[r], trueValue, n)
    {
      errors[s] := MeanError(z[s], trueValue, n);
    }
    relative := errors[..];
    MeanRelativeErrorsFrom(z[..], trueValue, n, relative);
  }

  /** The errors of ClippedGossip at the end of a trial. */
  method MeasureClipped(c: ClippedGossip, horizon: nat, data: seq<real>, tau: real, trueValue: real,
                        ghost edges: seq<Edge>)
    returns (relative: seq<real>)
    requires horizon >= 1 && ClippedAt(c, horizon, data, tau, edges, horizon - 1)
    ensures relative == ClippedRelative(horizon, data, tau, trueValue, edges)
  {
    relative := StepErrors(c.z, trueValue, |data|);
  }

  /** One averaging trial: GoTrim over GoRank, GoTrim over Baseline++ and
      ClippedGossip, all fresh, replay the edges; then the final weight
      errors of the two GoTrim estimators (ClippedGossip has no weights) and
      the per-step averaging errors of all three, against `true_value`. */
  method AveragingTrial(horizon: nat, data: seq<real>, alpha: real, tau: real, trueValue: real, edges: seq<Edge>)
    returns (weightErrors: seq<seq<real>>, relative: seq<seq<real>>)
    requires Replayable(horizon, data, edges) && |data| >= 1
    ensures |weightErrors| == 2 && |relative| == 3
    ensures weightErrors[0] == FinalWeightErrors(GoRankKind, horizon, data, alpha, edges)
    ensures weightErrors[1] == FinalWeightErrors(ImprovedKind, horizon, data, alpha, edges)
    ensures relative[0] == GoTrimRelative(GoRankKind, horizon, data, alpha, trueValue, edges)
    ensures relative[1] == GoTrimRelative(ImprovedKind, horizon, data, alpha, trueValue, edges)
    ensures relative[2] == ClippedRelative(horizon, data, tau, trueValue, edges)
  {
    var g1 := StartGoTrim(GoRankKind, horizon, data, alpha, edges);
    ghost var objects1 := g1.Repr;
    var g2 := StartGoTrim(ImprovedKind, horizon, data, alpha, edges);
    assert objects1 !! g2.Repr;
    ghost var objects2 := g2.Repr;
    var c := StartClipped(horizon, data, tau, edges);
    assert ClippedObjects(c) !! objects1 && ClippedObjects(c) !! objects2;
    ReplayAveraging(g1, g2, c, horizon, data, alpha, tau, edges);
    var w1, r1 := MeasureGoTrim(g1, GoRankKind, horizon, data, alpha, trueValue, edges);
    var w2, r2 := MeasureGoTrim(g2, ImprovedKind, horizon, data, alpha, trueValue, edges);
    var r3 := MeasureClipped(c, horizon, data, tau, trueValue, edges);
    weightErrors := [w1, w2];
    relative := [r1, r2, r3];
  }
}

/** The state of the three rank estimators of src/rank.py as values, and the
    step each `update(t, i, j)` takes. A history is a sequence of `horizon`
    rows of `n` entries; step `t` writes row `t` from row `t - 1`. The classes
    in module RankEstimators are proved to perform exactly these steps. */
module RankModel {
  import opened Sequences

  /** An edge of the network: the pair of nodes contacted in one step. */
  type Edge = (nat, nat)

  predicate ValidEdges(edges: seq<Edge>, n: nat)
  {
    forall e :: e in edges ==> e.0 < n && e.1 < n
  }

  datatype RankKind = GoRankKind | ImprovedKind | BaselineKind

  datatype RankState =
    | GoRankState(ranking: seq<seq<real>>, y: seq<real>)
    | ImprovedState(ranking: seq<seq<real>>, auxR: seq<seq<real>>, auxX: seq<seq<real>>)
    | BaselineState(ranking: seq<seq<real>>, auxR: seq<seq<real>>, auxX: seq<seq<real>>, auxI: seq<seq<int>>)

  function KindOf(st: RankState): RankKind
  {
    match st
    case GoRankState(_, _) => GoRankKind
    case ImprovedState(_, _, _) => ImprovedKind
    case BaselineState(_, _, _, _) => BaselineKind
  }

  /** `horizon` rows of `n` entries each. */
  predicate IsHistory<T>(h: seq<seq<T>>, horizon: nat, n: nat)
  {
    |h| == horizon && forall s :: 0 <= s < horizon ==> |h[s]| == n
  }

  predicate Shaped(st: RankState, horizon: nat, n: nat)
  {
    IsHistory(st.ranking, horizon, n) &&
    match st
    case GoRankState(_, y) => |y| == n
    case ImprovedState(_, auxR, auxX) => IsHistory(auxR, horizon, n) && IsHistory(auxX, horizon, n)
    case BaselineState(_, auxR, auxX, auxI) =>
      IsHistory(auxR, horizon, n) && IsHistory(auxX, horizon, n) && IsHistory(auxI, horizon, n)
  }

  /** The factor that rescales an estimator's raw ranks into `[0, 1]`. */
  function Weight(kind: RankKind, n: nat): real
    requires kind != GoRankKind ==> n > 0
  {
    if kind == GoRankKind then 1.0 else 1.0 / n as real
  }

  function Fill<T>(horizon: nat, row: seq<T>): (h: seq<seq<T>>)
    ensures |h| == horizon && forall s :: 0 <= s < horizon ==> h[s] == row
  {
    seq(horizon, s => row)
  }

  function IntZeros(n: nat): (r: seq<int>)
    ensures |r| == n && forall k :: 0 <= k < n ==> r[k] == 0
  {
    seq(n, k => 0)
  }

  /** The state a fresh estimator starts in (the constructors of src/rank.py). */
  function RankInit(kind: RankKind, horizon: nat, data: seq<real>): (st: RankState)
    requires kind != GoRankKind ==> horizon >= 1
    ensures Shaped(st, horizon, |data|) && KindOf(st) == kind
  {
    var n := |data|;
    var zeros := Fill(horizon, Zeros(n));
    match kind
    case GoRankKind => GoRankState(zeros, data)
    case ImprovedKind => ImprovedState(zeros[0 := RealRange(n)], zeros[0 := RealRange(n)], zeros[0 := data])
    case BaselineKind =>
      BaselineState(zeros[0 := RealRange(n)], zeros[0 := RealRange(n)], zeros[0 := data],
                    Fill(horizon, IntZeros(n))[0 := Range(n)])
  }

  // ---------------------------------------------------------------- GoRank

  function Indicator(b: bool): real { if b then 1.0 else 0.0 }

  /** Row `t` of GoRank: the running average of `data > y` after `t` samples. */
  function CesaroRow(prev: seq<real>, data: seq<real>, y: seq<real>, t: nat): (row: seq<real>)
    requires |prev| == |data| == |y| && t >= 1
    ensures |row| == |prev|
  {
    seq(|prev|, k requires 0 <= k < |prev| => ((t - 1) as real * prev[k] + Indicator(data[k] > y[k])) / t as real)
  }

  predicate InUnit(row: seq<real>)
  {
    forall k :: 0 <= k < |row| ==> 0.0 <= row[k] <= 1.0
  }

  /** Averaging an indicator into a row of fractions keeps it a row of fractions. */
  lemma CesaroRowInUnit(prev: seq<real>, data: seq<real>, y: seq<real>, t: nat)
    requires |prev| == |data| == |y| && t >= 1
    requires InUnit(prev)
    ensures InUnit(CesaroRow(prev, data, y, t))
  {
    var row := CesaroRow(prev, data, y, t);
    forall k | 0 <= k < |row| ensures 0.0 <= row[k] <= 1.0 {
      AverageInUnit(prev[k], Indicator(data[k] > y[k]), t);
    }
  }

  /** One entry of the running average stays in `[0, 1]`. */
  lemma AverageInUnit(p: real, ind: real, t: nat)
    requires 0.0 <= p <= 1.0 && 0.0 <= ind <= 1.0 && t >= 1
    ensures 0.0 <= ((t - 1) as real * p + ind) / t as real <= 1.0
  {
    ScaleBound((t - 1) as real, p);
    assert (t - 1) as real + 1.0 == t as real;
    DivBound((t - 1) as real * p + ind, t as real);
  }

  lemma ScaleBound(b: real, a: real)
    requires 0.0 <= b && 0.0 <= a <= 1.0
    ensures 0.0 <= b * a <= b
  {
    assert b * a + b * (1.0 - a) == b;
    assert 0.0 <= b * (1.0 - a);
  }

  lemma DivBound(b: real, t: real)
    requires 0.0 < t && 0.0 <= b <= t
    ensures 0.0 <= b / t <= 1.0
  {
    assert b / t * t == b;
  }

  function GoRankStep(st: RankState, data: seq<real>, t: nat, i: nat, j: nat): (st': RankState)
    requires st.GoRankState? && Shaped(st, |st.ranking|, |data|)
    requires 1 <= t < |st.ranking| && i < |data| && j < |data|
    ensures st'.GoRankState? && Shaped(st', |st.ranking|, |data|)
  {
    GoRankState(st.ranking[t := CesaroRow(st.ranking[t - 1], data, st.y, t)], Swap(st.y, i, j))
  }

  // ------------------------------------------------------ Baseline(++) parts

  /** The pair `(i, j)` is ordered one way by `x` and the other way by `r`. */
  predicate Inverted(x: seq<real>, r: seq<real>, i: nat, j: nat)
    requires i < |x| && j < |x| && |r| == |x|
  {
    (x[i] - x[j]) * (r[i] - r[j]) < 0.0
  }

  /** Exchange `r[i]` and `r[j]` when they contradict the order of `x`. */
  function Repair(r: seq<real>, x: seq<real>, i: nat, j: nat): (r': seq<real>)
    requires i < |x| && j < |x| && |r| == |x|
    ensures |r'| == |r|
  {
    if Inverted(x, r, i, j) then Swap(r, i, j) else r
  }

  /** After the repair, `r` and `x` agree on the order of the pair. */
  lemma RepairConsistent(r: seq<real>, x: seq<real>, i: nat, j: nat)
    requires i < |x| && j < |x| && |r| == |x|
    ensures var r' := Repair(r, x, i, j); (x[i] - x[j]) * (r'[i] - r'[j]) >= 0.0
  {
    if Inverted(x, r, i, j) {
      var r' := Swap(r, i, j);
      assert r'[i] - r'[j] == -(r[i] - r[j]);
      assert (x[i] - x[j]) * (r'[i] - r'[j]) == -((x[i] - x[j]) * (r[i] - r[j]));
    }
  }

  lemma RepairMultiset(r: seq<real>, x: seq<real>, i: nat, j: nat)
    requires i < |x| && j < |x| && |r| == |x|
    ensures multiset(Repair(r, x, i, j)) == multiset(r)
  {
    SwapMultiset(r, i, j);
  }

  /** Baseline++ adoption test for node `p` (src/rank.py:75-83). */
  predicate ImprovedAdopts(rank: seq<real>, auxR: seq<real>, auxX: seq<real>, data: seq<real>, p: nat)
    requires p < |data| && |rank| == |auxR| == |auxX| == |data|
  {
    (data[p] - auxX[p]) * (rank[p] - auxR[p]) < 0.0 || data[p] - auxX[p] == 0.0
  }

  function ImprovedAdopt(rank: seq<real>, auxR: seq<real>, auxX: seq<real>, data: seq<real>, p: nat): (r: seq<real>)
    requires p < |data| && |rank| == |auxR| == |auxX| == |data|
    ensures |r| == |rank|
  {
    if ImprovedAdopts(rank, auxR, auxX, data, p) then rank[p := auxR[p]] else rank
  }

  /** Baseline adoption for node `p`: take the auxiliary rank once its own token is home. */
  function HomeAdopt(rank: seq<real>, auxR: seq<real>, auxI: seq<int>, p: nat): (r: seq<real>)
    requires p < |rank| && |auxR| == |auxI| == |rank|
    ensures |r| == |rank|
  {
    if auxI[p] == p then rank[p := auxR[p]] else rank
  }

  // ------------------------------------------------------------ Baseline++

  function ImprovedStep(st: RankState, data: seq<real>, t: nat, i: nat, j: nat): (st': RankState)
    requires st.ImprovedState? && Shaped(st, |st.ranking|, |data|)
    requires 1 <= t < |st.ranking| && i < |data| && j < |data|
    ensures st'.ImprovedState? && Shaped(st', |st.ranking|, |data|)
  {
    var rank, auxR, auxX := st.ranking[t - 1], st.auxR[t - 1], st.auxX[t - 1];
    var auxR1 := Repair(auxR, auxX, i, j);
    var rank1 := ImprovedAdopt(ImprovedAdopt(rank, auxR1, auxX, data, i), auxR1, auxX, data, j);
    ImprovedState(st.ranking[t := rank1], st.auxR[t := Swap(auxR1, i, j)], st.auxX[t := Swap(auxX, i, j)])
  }

  // -------------------------------------------------------------- Baseline

  function BaselineStep(st: RankState, data: seq<real>, t: nat, i: nat, j: nat): (st': RankState)
    requires st.BaselineState? && Shaped(st, |st.ranking|, |data|)
    requires 1 <= t < |st.ranking| && i < |data| && j < |data|
    ensures st'.BaselineState? && Shaped(st', |st.ranking|, |data|)
  {
    var rank, auxR, auxX, auxI := st.ranking[t - 1], st.auxR[t - 1], st.auxX[t - 1], st.auxI[t - 1];
    var rank1 := Repair(rank, data, i, j);
    var auxR1 := Repair(auxR, auxX, i, j);
    var auxI2, auxR2, auxX2 := Swap(auxI, i, j), Swap(auxR1, i, j), Swap(auxX, i, j);
    var rank2 := HomeAdopt(HomeAdopt(rank1, auxR2, auxI2, i), auxR2, auxI2, j);
    BaselineState(st.ranking[t := rank2], st.auxR[t := auxR2], st.auxX[t := auxX2], st.auxI[t := auxI2])
  }

  // ------------------------------------------------------------- dispatch

  /** `update(t, i, j)` of whichever estimator `st` belongs to. */
  function RankStep(st: RankState, data: seq<real>, t: nat, i: nat, j: nat): (st': RankState)
    requires Shaped(st, |st.ranking|, |data|)
    requires 1 <= t < |st.ranking| && i < |data| && j < |data|
    ensures Shaped(st', |st.ranking|, |data|) && KindOf(st') == KindOf(st)
  {
    match st
    case GoRankState(_, _) => GoRankStep(st, data, t, i, j)
    case ImprovedState(_, _, _) => ImprovedStep(st, data, t, i, j)
    case BaselineState(_, _, _, _) => BaselineStep(st, data, t, i, j)
  }

  /** The state after steps `1..steps` of a trial, step `t` contacting `edges[t - 1]`. */
  function RankRun(kind: RankKind, horizon: nat, data: seq<real>, edges: seq<Edge>, steps: nat): (st: RankState)
    requires kind != GoRankKind ==> horizon >= 1
    requires steps < horizon && steps <= |edges| && ValidEdges(edges, |data|)
    ensures Shaped(st, horizon, |data|) && KindOf(st) == kind
    decreases steps
  {
    if steps == 0 then RankInit(kind, horizon, data)
    else
      var e := edges[steps - 1];
      RankStep(RankRun(kind, horizon, data, edges, steps - 1), data, steps, e.0, e.1)
  }

  /** One more step of a run is one more `RankStep` on the edge of that step. */
  lemma RankRunUnfold(kind: RankKind, horizon: nat, data: seq<real>, edges: seq<Edge>, steps: nat)
    requires kind != GoRankKind ==> horizon >= 1
    requires 1 <= steps < horizon && steps <= |edges| && ValidEdges(edges, |data|)
    ensures edges[steps - 1].0 < |data| && edges[steps - 1].1 < |data|
    ensures var prev := RankRun(kind, horizon, data, edges, steps - 1);
            var e := edges[steps - 1];
            RankRun(kind, horizon, data, edges, steps) == RankStep(prev, data, steps, e.0, e.1)
  {
    assert edges[steps - 1] in edges;
  }
}

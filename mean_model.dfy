/** The two robust averaging schemes of src/trim.py as values: GoTrim, which
    gossips `z` while re-weighting every node by a trimmed-mean weight computed
    from an estimated rank, and ClippedGossip, which moves the two contacted
    values toward each other by half of a clipped difference. Both keep the
    mass of the pair they touch; the invariants built on that are proved here. */
module MeanModel {
  import opened Sequences
  import opened TrimWeight
  import opened RankModel

  // ------------------------------------------------------------ vectors

  /** Entrywise sum of two vectors (numpy `a + b`). */
  function Plus(a: seq<real>, b: seq<real>): (r: seq<real>)
    requires |a| == |b|
    ensures |r| == |a| && forall k :: 0 <= k < |a| ==> r[k] == a[k] + b[k]
  {
    seq(|a|, k requires 0 <= k < |a| => a[k] + b[k])
  }

  /** Entrywise difference (numpy `a - b`). */
  function Minus(a: seq<real>, b: seq<real>): (r: seq<real>)
    requires |a| == |b|
    ensures |r| == |a| && forall k :: 0 <= k < |a| ==> r[k] == a[k] - b[k]
  {
    seq(|a|, k requires 0 <= k < |a| => a[k] - b[k])
  }

  /** Entrywise product (numpy `a * b`). */
  function Times(a: seq<real>, b: seq<real>): (r: seq<real>)
    requires |a| == |b|
    ensures |r| == |a| && forall k :: 0 <= k < |a| ==> r[k] == a[k] * b[k]
  {
    seq(|a|, k requires 0 <= k < |a| => a[k] * b[k])
  }

  /** A vector times a scalar (numpy `c * a`). */
  function Scale(c: real, a: seq<real>): (r: seq<real>)
    ensures |r| == |a| && forall k :: 0 <= k < |a| ==> r[k] == c * a[k]
  {
    seq(|a|, k requires 0 <= k < |a| => c * a[k])
  }

  /** `c * a + 1` entrywise: an estimated rank turned into a 1-indexed rank. */
  function ShiftedRanks(c: real, a: seq<real>): (r: seq<real>)
    ensures |r| == |a| && forall k :: 0 <= k < |a| ==> r[k] == c * a[k] + 1.0
  {
    seq(|a|, k requires 0 <= k < |a| => c * a[k] + 1.0)
  }

  lemma {:induction false} SumScale(c: real, a: seq<real>)
    ensures Sum(Scale(c, a)) == c * Sum(a)
  {
    if |a| > 0 {
      var n := |a|;
      var front := a[..n - 1];
      assert forall k :: 0 <= k < n - 1 ==> Scale(c, a)[..n - 1][k] == Scale(c, front)[k];
      assert Scale(c, a)[..n - 1] == Scale(c, front);
      SumScale(c, front);
      assert Sum(a) == Sum(front) + a[n - 1];
      assert c * (Sum(front) + a[n - 1]) == c * Sum(front) + c * a[n - 1];
    }
  }

  // ------------------------------------------------------------- GoTrim

  /** The GoTrim histories: `historical_z` and `historical_w`. */
  datatype MeanState = MeanState(z: seq<seq<real>>, w: seq<seq<real>>)

  predicate MeanShaped(st: MeanState, horizon: nat, n: nat)
  {
    IsHistory(st.z, horizon, n) && IsHistory(st.w, horizon, n)
  }

  /** A fresh GoTrim estimator: all rows of `z` and `w` are 0. */
  function MeanInit(horizon: nat, n: nat): (st: MeanState)
    ensures MeanShaped(st, horizon, n)
  {
    MeanState(Fill(horizon, Zeros(n)), Fill(horizon, Zeros(n)))
  }

  /** `n * wn(n, weight * rank + 1, alpha)`: the per-node weights of GoTrim. */
  function GoTrimWeights(n: nat, rankRow: seq<real>, weight: real, alpha: real): (w: seq<real>)
    ensures |w| == |rankRow|
  {
    Scale(n as real, Wn(n, ShiftedRanks(weight, rankRow), alpha))
  }

  /** Every GoTrim weight lies in `[0, n]`. */
  lemma GoTrimWeightsBound(n: nat, rankRow: seq<real>, weight: real, alpha: real, k: nat)
    requires k < |rankRow|
    ensures 0.0 <= GoTrimWeights(n, rankRow, weight, alpha)[k] <= n as real
  {
    var v := Wn(n, ShiftedRanks(weight, rankRow), alpha);
    var x := v[k];
    RankModel.ScaleBound(n as real, x);
    assert GoTrimWeights(n, rankRow, weight, alpha)[k] == n as real * x;
  }

  /** Row `t - 1` of `z` after every node adds its weight change times its value. */
  function Reweighted(zPrev: seq<real>, wNew: seq<real>, wPrev: seq<real>, data: seq<real>): (r: seq<real>)
    requires |zPrev| == |wNew| == |wPrev| == |data|
    ensures |r| == |zPrev|
  {
    Plus(zPrev, Times(Minus(wNew, wPrev), data))
  }

  /** Both contacted entries replaced by their average. */
  function PairAverage(v: seq<real>, i: nat, j: nat): (r: seq<real>)
    requires i < |v| && j < |v|
    ensures |r| == |v|
  {
    var a := (v[i] + v[j]) / 2.0;
    v[i := a][j := a]
  }

  /** `update_mean(t, i, j)` of GoTrim, given row `t` of the wrapped rank
      estimator (already updated at `t`): new weights in `w[t]`, row `z[t - 1]`
      rewritten with the weight change, and row `z[t]` the pair average of it. */
  function GoTrimStep(st: MeanState, rankRow: seq<real>, weight: real, alpha: real, data: seq<real>,
                      t: nat, i: nat, j: nat): (st': MeanState)
    requires MeanShaped(st, |st.z|, |data|) && |rankRow| == |data|
    requires 1 <= t < |st.z| && i < |data| && j < |data|
    ensures MeanShaped(st', |st.z|, |data|)
  {
    var n := |data|;
    var wNew := GoTrimWeights(n, rankRow, weight, alpha);
    var zAdj := Reweighted(st.z[t - 1], wNew, st.w[t - 1], data);
    MeanState(st.z[t - 1 := zAdj][t := PairAverage(zAdj, i, j)], st.w[t := wNew])
  }

  /** Averaging a pair keeps the sum of the vector. */
  lemma PairAverageSum(v: seq<real>, i: nat, j: nat)
    requires i < |v| && j < |v|
    ensures Sum(PairAverage(v, i, j)) == Sum(v)
  {
    var a := (v[i] + v[j]) / 2.0;
    var u := v[i := a];
    SumUpdate(v, i, a);
    SumUpdate(u, j, a);
    HalfAndHalf(Sum(v), v[i], v[j], u[j], a, i == j);
  }

  /** The arithmetic of `PairAverageSum`: removing `x` and `uj` and adding
      their average twice changes nothing, where `uj` is `y` for two distinct
      entries and the average itself for one entry. */
  lemma HalfAndHalf(total: real, x: real, y: real, uj: real, a: real, same: bool)
    requires a == (x + y) / 2.0
    requires same ==> x == y && uj == a
    requires !same ==> uj == y
    ensures total - x + a - uj + a == total
  {
  }

  /** Reweighting moves the mass by exactly the weight change times the data. */
  lemma ReweightedSum(zPrev: seq<real>, wNew: seq<real>, wPrev: seq<real>, data: seq<real>)
    requires |zPrev| == |wNew| == |wPrev| == |data|
    ensures Sum(Reweighted(zPrev, wNew, wPrev, data))
         == Sum(zPrev) + Sum(Times(wNew, data)) - Sum(Times(wPrev, data))
  {
    var d := Times(Minus(wNew, wPrev), data);
    SumPointwise(zPrev, d, Reweighted(zPrev, wNew, wPrev, data));
    SumPointwise(d, Times(wPrev, data), Times(wNew, data));
  }

  /** One GoTrim step: only rows `t - 1` and `t` of `z` and row `t` of `w` are
      written; the contacted nodes end equal to the average of their
      reweighted values, every other node keeps its reweighted value. */
  lemma GoTrimStepShape(st: MeanState, rankRow: seq<real>, weight: real, alpha: real, data: seq<real>,
                        t: nat, i: nat, j: nat)
    requires MeanShaped(st, |st.z|, |data|) && |rankRow| == |data|
    requires 1 <= t < |st.z| && i < |data| && j < |data|
    ensures var st' := GoTrimStep(st, rankRow, weight, alpha, data, t, i, j);
            var zAdj := st'.z[t - 1];
            zAdj == Reweighted(st.z[t - 1], st'.w[t], st.w[t - 1], data) &&
            st'.w[t] == Scale(|data| as real, Wn(|data|, ShiftedRanks(weight, rankRow), alpha)) &&
            st'.z[t][i] == st'.z[t][j] == (zAdj[i] + zAdj[j]) / 2.0 &&
            (forall k :: 0 <= k < |data| && k != i && k != j ==> st'.z[t][k] == zAdj[k]) &&
            (forall s :: 0 <= s < |st.z| && s != t - 1 && s != t ==> st'.z[s] == st.z[s]) &&
            (forall s :: 0 <= s < |st.w| && s != t ==> st'.w[s] == st.w[s])
  {
  }

  /** The GoTrim mass invariant passes from step `t - 1` to step `t`: if the
      mass of `z[t - 1]` is the weighted data mass `sum(w[t - 1] * data)`,
      then after the step both the rewritten `z[t - 1]` and the new `z[t]`
      carry the new weighted mass `sum(w[t] * data)`. */
  lemma GoTrimStepMass(st: MeanState, rankRow: seq<real>, weight: real, alpha: real, data: seq<real>,
                       t: nat, i: nat, j: nat)
    requires MeanShaped(st, |st.z|, |data|) && |rankRow| == |data|
    requires 1 <= t < |st.z| && i < |data| && j < |data|
    requires Sum(st.z[t - 1]) == Sum(Times(st.w[t - 1], data))
    ensures var st' := GoTrimStep(st, rankRow, weight, alpha, data, t, i, j);
            Sum(st'.z[t]) == Sum(Times(st'.w[t], data)) &&
            Sum(st'.z[t - 1]) == Sum(Times(st'.w[t], data))
  {
    var st' := GoTrimStep(st, rankRow, weight, alpha, data, t, i, j);
    var zAdj := Reweighted(st.z[t - 1], st'.w[t], st.w[t - 1], data);
    ReweightedSum(st.z[t - 1], st'.w[t], st.w[t - 1], data);
    PairAverageSum(zAdj, i, j);
  }

  /** The GoTrim weights sum to `n` whenever the shifted estimated ranks are a
      permutation of `1..n` and the trimming window is not empty. */
  lemma GoTrimWeightsSum(n: nat, rankRow: seq<real>, weight: real, alpha: real)
    requires multiset(ShiftedRanks(weight, rankRow)) == multiset(OneToN(n))
    requires Trimmed(n, alpha) >= 0 && n - 2 * Trimmed(n, alpha) > 0
    ensures Sum(GoTrimWeights(n, rankRow, weight, alpha)) == n as real
  {
    WnSumsToOne(n, ShiftedRanks(weight, rankRow), alpha);
    SumScale(n as real, Wn(n, ShiftedRanks(weight, rankRow), alpha));
  }

  /** GoTrim in a trial: at step `t` the wrapped estimator of kind `kind` is
      updated first, then `update_mean` reads its row `t`. The weight is the
      rank estimator's weight times `n`. */
  function GoTrimRun(kind: RankKind, horizon: nat, data: seq<real>, alpha: real, edges: seq<Edge>, steps: nat): (st: MeanState)
    requires kind != GoRankKind ==> horizon >= 1 && |data| >= 1
    requires steps < horizon && steps <= |edges| && ValidEdges(edges, |data|)
    ensures MeanShaped(st, horizon, |data|)
    decreases steps
  {
    if steps == 0 then MeanInit(horizon, |data|)
    else
      var e := edges[steps - 1];
      assert e in edges;
      var rankRow := RankRun(kind, horizon, data, edges, steps).ranking[steps];
      GoTrimStep(GoTrimRun(kind, horizon, data, alpha, edges, steps - 1), rankRow,
                 Weight(kind, |data|) * |data| as real, alpha, data, steps, e.0, e.1)
  }

  /** The GoTrim mass invariant at row `t`: the mass of `z[t]` is the
      weighted data mass `sum(w[t] * data)`. */
  predicate MassBalanced(st: MeanState, data: seq<real>, t: nat)
  {
    MeanShaped(st, |st.z|, |data|) && t < |st.z| && Sum(st.z[t]) == Sum(Times(st.w[t], data))
  }

  lemma GoTrimStepKeeps(st: MeanState, rankRow: seq<real>, weight: real, alpha: real, data: seq<real>,
                        t: nat, i: nat, j: nat)
    requires 1 <= t && MassBalanced(st, data, t - 1) && |rankRow| == |data|
    requires t < |st.z| && i < |data| && j < |data|
    ensures MassBalanced(GoTrimStep(st, rankRow, weight, alpha, data, t, i, j), data, t)
  {
    GoTrimStepMass(st, rankRow, weight, alpha, data, t, i, j);
  }

  /** Both histories start at 0, so row 0 is balanced. */
  lemma MeanInitBalanced(horizon: nat, data: seq<real>)
    requires horizon >= 1
    ensures MassBalanced(MeanInit(horizon, |data|), data, 0)
  {
    var st := MeanInit(horizon, |data|);
    SumScale(0.0, data);
    assert Times(st.w[0], data) == Scale(0.0, data);
    assert st.z[0] == Scale(0.0, data);
  }

  lemma GoTrimRunUnfold(kind: RankKind, horizon: nat, data: seq<real>, alpha: real, edges: seq<Edge>, steps: nat)
    requires kind != GoRankKind ==> horizon >= 1 && |data| >= 1
    requires 1 <= steps < horizon && steps <= |edges| && ValidEdges(edges, |data|)
    ensures edges[steps - 1].0 < |data| && edges[steps - 1].1 < |data|
    ensures var e := edges[steps - 1];
            GoTrimRun(kind, horizon, data, alpha, edges, steps)
            == GoTrimStep(GoTrimRun(kind, horizon, data, alpha, edges, steps - 1),
                          RankRun(kind, horizon, data, edges, steps).ranking[steps],
                          Weight(kind, |data|) * |data| as real, alpha, data, steps, e.0, e.1)
  {
    assert edges[steps - 1] in edges;
  }

  /** Along a GoTrim trial the current row of `z` always carries the weighted
      data mass of the current weights (`z[0]` and `w[0]` start at 0). */
  lemma {:induction false} GoTrimRunMass(kind: RankKind, horizon: nat, data: seq<real>, alpha: real, edges: seq<Edge>, steps: nat)
    requires kind != GoRankKind ==> horizon >= 1 && |data| >= 1
    requires steps < horizon && steps <= |edges| && ValidEdges(edges, |data|)
    ensures MassBalanced(GoTrimRun(kind, horizon, data, alpha, edges, steps), data, steps)
  {
    if steps == 0 {
      MeanInitBalanced(horizon, data);
    } else {
      GoTrimRunMass(kind, horizon, data, alpha, edges, steps - 1);
      GoTrimRunKeeps(kind, horizon, data, alpha, edges, steps);
    }
  }

  lemma GoTrimRunKeeps(kind: RankKind, horizon: nat, data: seq<real>, alpha: real, edges: seq<Edge>, steps: nat)
    requires kind != GoRankKind ==> horizon >= 1 && |data| >= 1
    requires 1 <= steps < horizon && steps <= |edges| && ValidEdges(edges, |data|)
    requires MassBalanced(GoTrimRun(kind, horizon, data, alpha, edges, steps - 1), data, steps - 1)
    ensures MassBalanced(GoTrimRun(kind, horizon, data, alpha, edges, steps), data, steps)
  {
    GoTrimRunUnfold(kind, horizon, data, alpha, edges, steps);
    var e := edges[steps - 1];
    GoTrimStepKeeps(GoTrimRun(kind, horizon, data, alpha, edges, steps - 1),
                    RankRun(kind, horizon, data, edges, steps).ranking[steps],
                    Weight(kind, |data|) * |data| as real, alpha, data, steps, e.0, e.1);
  }

  // ------------------------------------------------------ ClippedGossip

  /** `clip(z, tau)` on a scalar: `z` scaled by `min(1, tau / |z|)`, or `z`
      itself when `z` is 0 (the norm of a scalar is its absolute value). */
  function Clip(z: real, tau: real): real
  {
    var norm := Abs(z);
    var factor := if norm > 0.0 then Min(1.0, tau / norm) else 1.0;
    factor * z
  }

  /** With a non-negative threshold the clipped value keeps the sign of `z`
      and has magnitude `min(|z|, tau)`. */
  lemma ClipMagnitude(z: real, tau: real)
    requires tau >= 0.0
    ensures Abs(Clip(z, tau)) == Min(Abs(z), tau)
    ensures (z >= 0.0 ==> Clip(z, tau) >= 0.0) && (z <= 0.0 ==> Clip(z, tau) <= 0.0)
  {
    if z != 0.0 {
      var norm := Abs(z);
      if tau < norm {
        DivBelowOne(tau, norm);
        if z > 0.0 {
          assert Clip(z, tau) == tau / norm * z;
        } else {
          assert Clip(z, tau) == tau / norm * z;
          assert tau / norm * z == -(tau / norm * norm);
        }
      }
    }
  }

  lemma DivBelowOne(a: real, b: real)
    requires 0.0 <= a < b
    ensures 0.0 <= a / b < 1.0 && a / b * b == a
  {
    var q := a / b;
    assert q * b == a;
  }

  /** Differences within the threshold are not clipped, and 0 stays 0. */
  lemma ClipIdentity(z: real, tau: real)
    requires Abs(z) <= tau
    ensures Clip(z, tau) == z
  {
    if z != 0.0 {
      assert tau / Abs(z) >= 1.0 by {
        assert tau / Abs(z) * Abs(z) == tau;
      }
    }
  }

  /** One ClippedGossip step on row `t`: node `i` moves by half the clipped
      difference toward `j`, and `j` by the same amount toward `i`. */
  function ClippedStep(z: seq<seq<real>>, tau: real, t: nat, i: nat, j: nat): (z': seq<seq<real>>)
    requires 1 <= t < |z| && i < |z[t - 1]| && j < |z[t - 1]|
    ensures |z'| == |z| && |z'[t]| == |z[t - 1]|
  {
    var xi, xj := z[t - 1][i], z[t - 1][j];
    var c := Clip(xj - xi, tau);
    z[t := z[t - 1][i := xi + 0.5 * c][j := xj - 0.5 * c]]
  }

  /** A ClippedGossip step writes only row `t`, copies every entry but the
      pair, and keeps the pair's sum, hence the row's sum. */
  lemma ClippedStepMass(z: seq<seq<real>>, tau: real, t: nat, i: nat, j: nat)
    requires 1 <= t < |z| && i < |z[t - 1]| && j < |z[t - 1]|
    ensures var z' := ClippedStep(z, tau, t, i, j);
            z'[t][i] + z'[t][j] == z[t - 1][i] + z[t - 1][j] &&
            (forall k :: 0 <= k < |z[t - 1]| && k != i && k != j ==> z'[t][k] == z[t - 1][k]) &&
            (forall s :: 0 <= s < |z| && s != t ==> z'[s] == z[s]) &&
            Sum(z'[t]) == Sum(z[t - 1])
  {
    var xi, xj := z[t - 1][i], z[t - 1][j];
    var c := Clip(xj - xi, tau);
    if i == j {
      assert c == 0.0;
      assert ClippedStep(z, tau, t, i, j)[t] == z[t - 1];
    } else {
      SumUpdate(z[t - 1], i, xi + 0.5 * c);
      SumUpdate(z[t - 1][i := xi + 0.5 * c], j, xj - 0.5 * c);
    }
  }

  /** A pair whose difference is within the threshold ends at its exact
      average; otherwise each node moves by exactly `tau / 2` toward the other. */
  lemma ClippedStepMoves(z: seq<seq<real>>, tau: real, t: nat, i: nat, j: nat)
    requires 1 <= t < |z| && i < |z[t - 1]| && j < |z[t - 1]| && i != j && tau >= 0.0
    ensures var z', xi, xj := ClippedStep(z, tau, t, i, j), z[t - 1][i], z[t - 1][j];
            (Abs(xj - xi) <= tau ==> z'[t][i] == z'[t][j] == (xi + xj) / 2.0) &&
            (Abs(xj - xi) > tau && xi < xj ==> z'[t][i] == xi + tau / 2.0 && z'[t][j] == xj - tau / 2.0) &&
            (Abs(xj - xi) > tau && xi > xj ==> z'[t][i] == xi - tau / 2.0 && z'[t][j] == xj + tau / 2.0)
  {
    var xi, xj := z[t - 1][i], z[t - 1][j];
    var d := xj - xi;
    if Abs(d) <= tau {
      ClipIdentity(d, tau);
    } else {
      ClipMagnitude(d, tau);
    }
  }

  /** The gap between the contacted nodes never grows (for `tau >= 0`). */
  lemma ClippedStepGap(z: seq<seq<real>>, tau: real, t: nat, i: nat, j: nat)
    requires 1 <= t < |z| && i < |z[t - 1]| && j < |z[t - 1]| && tau >= 0.0
    ensures var z' := ClippedStep(z, tau, t, i, j);
            Abs(z'[t][i] - z'[t][j]) <= Abs(z[t - 1][i] - z[t - 1][j])
  {
    var xi, xj := z[t - 1][i], z[t - 1][j];
    ClipMagnitude(xj - xi, tau);
  }

  /** A fresh ClippedGossip estimator: row 0 is the data, the rest 0. */
  function ClippedInit(horizon: nat, data: seq<real>): (z: seq<seq<real>>)
    requires horizon >= 1
    ensures IsHistory(z, horizon, |data|)
  {
    Fill(horizon, Zeros(|data|))[0 := data]
  }

  function ClippedRun(horizon: nat, data: seq<real>, tau: real, edges: seq<Edge>, steps: nat): (z: seq<seq<real>>)
    requires horizon >= 1 && steps < horizon && steps <= |edges| && ValidEdges(edges, |data|)
    ensures IsHistory(z, horizon, |data|)
    decreases steps
  {
    if steps == 0 then ClippedInit(horizon, data)
    else
      var e := edges[steps - 1];
      assert e in edges;
      ClippedStep(ClippedRun(horizon, data, tau, edges, steps - 1), tau, steps, e.0, e.1)
  }

  /** Every row `0..upto` of `z` sums to `total`. */
  predicate RowsSumTo(z: seq<seq<real>>, total: real, upto: nat)
  {
    upto < |z| && forall s :: 0 <= s <= upto ==> Sum(z[s]) == total
  }

  lemma ClippedStepKeeps(z: seq<seq<real>>, total: real, tau: real, t: nat, i: nat, j: nat)
    requires 1 <= t && RowsSumTo(z, total, t - 1)
    requires t < |z| && i < |z[t - 1]| && j < |z[t - 1]|
    ensures RowsSumTo(ClippedStep(z, tau, t, i, j), total, t)
  {
    ClippedStepMass(z, tau, t, i, j);
  }

  /** Along a ClippedGossip trial every row reached so far sums to `sum(data)`. */
  lemma {:induction false} ClippedRunMass(horizon: nat, data: seq<real>, tau: real, edges: seq<Edge>, steps: nat)
    requires horizon >= 1 && steps < horizon && steps <= |edges| && ValidEdges(edges, |data|)
    ensures RowsSumTo(ClippedRun(horizon, data, tau, edges, steps), Sum(data), steps)
  {
    if steps > 0 {
      ClippedRunMass(horizon, data, tau, edges, steps - 1);
      var e := edges[steps - 1];
      assert e in edges;
      ClippedStepKeeps(ClippedRun(horizon, data, tau, edges, steps - 1), Sum(data), tau, steps, e.0, e.1);
    }
  }
}

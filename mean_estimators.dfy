/** The averaging estimators of src/trim.py as classes over history arrays.
    Each `UpdateMean` is proved to perform exactly the step of module
    MeanModel, so the mass invariants proved there hold of the objects. */
module MeanEstimators {
  import opened Sequences
  import opened TrimWeight
  import opened RankModel
  import opened MeanModel
  import opened RankEstimators

  /** GoTrim (`MeanEstimate`): gossip averaging of `z` in which every node's
      weight comes from the rank estimated by a wrapped rank estimator. */
  class GoTrim {
    const horizon: nat
    const n: nat
    const alpha: real
    const data: seq<real>
    /** `historical_z` and `historical_w`. */
    const z: array<seq<real>>
    const w: array<seq<real>>
    /** The wrapped rank estimator (`self.rank`). */
    const rank: RankEstimator
    const weight: real
    /** Every object the estimator owns: itself, its histories and the wrapped
        rank estimator's objects. */
    ghost const Repr: set<object>

    ghost predicate Valid()
      reads this, Repr
    {
      this in Repr && z in Repr && w in Repr && rank.Repr() <= Repr &&
      rank.Valid() && rank.Horizon() == horizon && rank.N() == n && rank.Data() == data &&
      |data| == n && weight == rank.Weight() * n as real &&
      z != w && z !in rank.Repr() && w !in rank.Repr() &&
      z.Length == horizon && w.Length == horizon &&
      IsHistory(z[..], horizon, n) && IsHistory(w[..], horizon, n)
    }

    ghost function Model(): (st: MeanState)
      reads this, Repr
      requires Valid()
      ensures MeanShaped(st, horizon, n)
    {
      MeanState(z[..], w[..])
    }

    /** The body of `MeanEstimate(horizon, n, data, alpha, rank_class)` once
        `rank_class(horizon, n, data)` has been built: zero histories. */
    constructor (horizon: nat, n: nat, data: seq<real>, alpha: real, r: RankEstimator)
      requires r.Valid() && r.Horizon() == horizon && r.N() == n && r.Data() == data && |data| == n
      ensures Valid() && this.horizon == horizon && this.n == n && this.data == data && this.alpha == alpha
      ensures Model() == MeanInit(horizon, n) && rank == r && weight == r.Weight() * n as real
      ensures fresh(Repr - r.Repr())
    {
      this.horizon, this.n, this.alpha, this.data := horizon, n, alpha, data;
      rank := r;
      weight := r.Weight() * n as real;
      z := new seq<real>[horizon](_ => Zeros(n));
      w := new seq<real>[horizon](_ => Zeros(n));
      Repr := {this, z, w} + r.Repr();
      new;
      assert z[..] == Fill(horizon, Zeros(n));
      assert w[..] == Fill(horizon, Zeros(n));
    }

    /** `update_mean(t, i, j)`: new weights from row `t` of the wrapped
        estimator, row `z[t - 1]` rewritten in place with the weight change,
        then `z[t]` is that row with the contacted pair averaged. */
    method UpdateMean(t: nat, i: nat, j: nat)
      requires Valid() && 1 <= t < horizon && i < n && j < n
      modifies z, w
      ensures Valid() && rank.Model() == old(rank.Model())
      ensures Model() == GoTrimStep(old(Model()), rank.Model().ranking[t], weight, alpha, data, t, i, j)
    {
      ghost var st := Model();
      var row := rank.Ranking(t);
      var wNew := Scale(n as real, Wn(n, ShiftedRanks(weight, row), alpha));
      var delta := Minus(wNew, w[t - 1]);
      var zAdj := Plus(z[t - 1], Times(delta, data));
      var average := (zAdj[i] + zAdj[j]) / 2.0;
      assert GoTrimStep(st, row, weight, alpha, data, t, i, j)
          == MeanState(st.z[t - 1 := zAdj][t := zAdj[i := average][j := average]], st.w[t := wNew]);
      w[t] := wNew;
      z[t - 1] := zAdj;
      z[t] := zAdj[i := average][j := average];
    }
  }

  /** `MeanEstimate(horizon, n, data, alpha, rank_class)`: the wrapped rank
      estimator, then the zero histories. */
  method NewGoTrim(horizon: nat, n: nat, data: seq<real>, alpha: real, kind: RankKind) returns (g: GoTrim)
    requires |data| == n && (kind != GoRankKind ==> n >= 1 && horizon >= 1)
    ensures g.Valid() && g.horizon == horizon && g.n == n && g.data == data && g.alpha == alpha
    ensures g.Model() == MeanInit(horizon, n)
    ensures g.rank.Kind() == kind && g.rank.Model() == RankInit(kind, horizon, data)
    ensures g.weight == Weight(kind, n) * n as real
    ensures fresh(g.Repr)
  {
    var r := NewRankEstimator(kind, horizon, n, data);
    ghost var init := r.Model();
    g := new GoTrim(horizon, n, data, alpha, r);
    assert g.rank.Model() == init;
  }

  /** ClippedGossip (He et al.): the contacted pair moves toward each other by
      half of the clipped difference. */
  class ClippedGossip {
    const horizon: nat
    const n: nat
    const tau: real
    const data: seq<real>
    /** `historical_z`. */
    const z: array<seq<real>>

    ghost predicate Valid()
      reads this, z
    {
      |data| == n && horizon >= 1 && z.Length == horizon && IsHistory(z[..], horizon, n)
    }

    ghost function Model(): (h: seq<seq<real>>)
      reads this, z
      requires Valid()
      ensures IsHistory(h, horizon, n)
    {
      z[..]
    }

    /** Requires `horizon >= 1` because row 0 is written. */
    constructor (horizon: nat, n: nat, data: seq<real>, tau: real)
      requires |data| == n && horizon >= 1
      ensures Valid() && this.horizon == horizon && this.n == n && this.data == data && this.tau == tau
      ensures Model() == ClippedInit(horizon, data)
      ensures fresh(z)
    {
      this.horizon, this.n, this.tau, this.data := horizon, n, tau, data;
      z := new seq<real>[horizon](_ => Zeros(n));
      new;
      z[0] := data;
      assert z[..] == Fill(horizon, Zeros(n))[0 := data];
    }

    /** `update_mean(t, i, j)`: row `t` is row `t - 1` with `i` moved up and
        `j` moved down by half of the clipped difference `z[j] - z[i]`. */
    method UpdateMean(t: nat, i: nat, j: nat)
      requires Valid() && 1 <= t < horizon && i < n && j < n
      modifies z
      ensures Valid() && Model() == ClippedStep(old(Model()), tau, t, i, j)
    {
      var xiPrev := z[t - 1][i];
      var xjPrev := z[t - 1][j];
      var delta := xjPrev - xiPrev;
      var clippedDelta := Clip(delta, tau);
      z[t] := z[t - 1];
      z[t] := z[t][i := xiPrev + 0.5 * clippedDelta];
      z[t] := z[t][j := xjPrev - 0.5 * clippedDelta];
    }
  }
}

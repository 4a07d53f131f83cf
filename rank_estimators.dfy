/** The three rank estimators of src/rank.py as classes that keep their
    histories in arrays (one row per time step) and update row `t` in place.
    Each `Update` is proved to perform exactly the step of module RankModel, so
    every fact proved there about a step or a whole trial holds of the objects. */
module RankEstimators {
  import opened Sequences
  import opened RankModel

  /** GoRank: the running average of `data > y` against a shadow copy `y` of the
      data that travels along the edges. */
  class GoRank {
    const horizon: nat
    const n: nat
    const data: seq<real>
    /** `historical_ranking`: row `t` holds the estimates after step `t`. */
    const ranking: array<seq<real>>
    /** `y_data`: the shadow copy of the data. */
    const y: array<real>
    const weight: real

    ghost predicate Valid()
      reads this, ranking, y
    {
      |data| == n && y.Length == n && weight == 1.0 &&
      ranking.Length == horizon && IsHistory(ranking[..], horizon, n)
    }

    ghost function Model(): (st: RankState)
      reads this, ranking, y
      requires Valid()
      ensures st.GoRankState? && Shaped(st, horizon, n)
    {
      GoRankState(ranking[..], y[..])
    }

    constructor (horizon: nat, n: nat, data: seq<real>)
      requires |data| == n
      ensures Valid() && this.horizon == horizon && this.n == n && this.data == data
      ensures Model() == RankInit(GoRankKind, horizon, data)
      ensures fresh(ranking) && fresh(y)
    {
      this.horizon, this.n, this.data := horizon, n, data;
      ranking := new seq<real>[horizon](_ => Zeros(n));
      y := new real[n](k requires 0 <= k < |data| => data[k]);
      weight := 1.0;
      new;
      assert ranking[..] == Fill(horizon, Zeros(n));
      assert y[..] == data;
    }

    /** `update(t, i, j)`: row `t` becomes `((t - 1) * row[t - 1] + [data > y]) / t`,
        written in the three stages numpy performs, then `y[i]` and `y[j]` swap. */
    method Update(t: nat, i: nat, j: nat)
      requires Valid() && 1 <= t < horizon && i < n && j < n
      modifies ranking, y
      ensures Valid() && Model() == RankStep(old(Model()), data, t, i, j)
    {
      ghost var st := Model();
      var prev := ranking[t - 1];
      var ys := y[..];
      ranking[t] := seq(n, k requires 0 <= k < n => (t - 1) as real * prev[k]);
      var row := ranking[t];
      ranking[t] := seq(n, k requires 0 <= k < n => row[k] + Indicator(data[k] > ys[k]));
      row := ranking[t];
      ranking[t] := seq(n, k requires 0 <= k < n => row[k] / t as real);
      y[i], y[j] := y[j], y[i];
      assert ranking[t] == CesaroRow(prev, data, ys, t);
      assert ranking[..] == st.ranking[t := CesaroRow(prev, data, ys, t)];
      assert y[..] == Swap(ys, i, j);
    }
  }

  /** The adoption loop of Baseline++ over the contacted nodes, one node after the other. */
  function ImprovedAdoptAll(rank: seq<real>, auxR: seq<real>, auxX: seq<real>, data: seq<real>, nodes: seq<nat>): (r: seq<real>)
    requires |rank| == |auxR| == |auxX| == |data|
    requires forall q :: 0 <= q < |nodes| ==> nodes[q] < |data|
    ensures |r| == |rank|
  {
    if |nodes| == 0 then rank
    else ImprovedAdopt(ImprovedAdoptAll(rank, auxR, auxX, data, nodes[..|nodes| - 1]), auxR, auxX, data, nodes[|nodes| - 1])
  }

  lemma ImprovedAdoptPair(rank: seq<real>, auxR: seq<real>, auxX: seq<real>, data: seq<real>, i: nat, j: nat)
    requires |rank| == |auxR| == |auxX| == |data| && i < |data| && j < |data|
    ensures ImprovedAdoptAll(rank, auxR, auxX, data, [i, j])
         == ImprovedAdopt(ImprovedAdopt(rank, auxR, auxX, data, i), auxR, auxX, data, j)
  {
    var one := [i];
    assert [i, j][..1] == one;
    assert one[..0] == [];
    assert ImprovedAdoptAll(rank, auxR, auxX, data, one) == ImprovedAdopt(rank, auxR, auxX, data, i);
  }

  /** Baseline++: auxiliary ranks and values travel along the edges; a contacted
      node adopts the auxiliary rank when its own value and rank contradict the
      auxiliary pair. */
  class ImprovedBaseline {
    const horizon: nat
    const n: nat
    const data: seq<real>
    const ranking: array<seq<real>>
    /** `historical_aux_r` and `historical_aux_x`. */
    const auxR: array<seq<real>>
    const auxX: array<seq<real>>
    const weight: real

    ghost predicate Valid()
      reads this, ranking, auxR, auxX
    {
      |data| == n && horizon >= 1 && n >= 1 && weight == 1.0 / n as real &&
      ranking != auxR && ranking != auxX && auxR != auxX &&
      ranking.Length == horizon && auxR.Length == horizon && auxX.Length == horizon &&
      IsHistory(ranking[..], horizon, n) && IsHistory(auxR[..], horizon, n) && IsHistory(auxX[..], horizon, n)
    }

    ghost function Model(): (st: RankState)
      reads this, ranking, auxR, auxX
      requires Valid()
      ensures st.ImprovedState? && Shaped(st, horizon, n)
    {
      ImprovedState(ranking[..], auxR[..], auxX[..])
    }

    /** Requires `n >= 1` because the weight is `1 / n`, and `horizon >= 1`
        because row 0 is written. */
    constructor (horizon: nat, n: nat, data: seq<real>)
      requires |data| == n && n >= 1 && horizon >= 1
      ensures Valid() && this.horizon == horizon && this.n == n && this.data == data
      ensures Model() == RankInit(ImprovedKind, horizon, data)
      ensures fresh(ranking) && fresh(auxR) && fresh(auxX)
    {
      this.horizon, this.n, this.data := horizon, n, data;
      ranking := new seq<real>[horizon](_ => Zeros(n));
      auxR := new seq<real>[horizon](_ => Zeros(n));
      auxX := new seq<real>[horizon](_ => Zeros(n));
      weight := 1.0 / n as real;
      new;
      ranking[0] := RealRange(n);
      auxR[0] := RealRange(n);
      auxX[0] := data;
      assert ranking[..] == Fill(horizon, Zeros(n))[0 := RealRange(n)];
      assert auxR[..] == Fill(horizon, Zeros(n))[0 := RealRange(n)];
      assert auxX[..] == Fill(horizon, Zeros(n))[0 := data];
    }

    /** `update(t, i, j)`: copy row `t - 1` into row `t`, repair the auxiliary
        ranks of the pair, let each contacted node adopt, then swap the pair's
        auxiliary ranks and values. */
    method Update(t: nat, i: nat, j: nat)
      requires Valid() && 1 <= t < horizon && i < n && j < n
      modifies ranking, auxR, auxX
      ensures Valid() && Model() == RankStep(old(Model()), data, t, i, j)
    {
      ghost var st := Model();
      var rank, aR, aX := ImprovedRows(ranking[t - 1], auxR[t - 1], auxX[t - 1], data, i, j);
      assert RankStep(st, data, t, i, j) == ImprovedState(st.ranking[t := rank], st.auxR[t := aR], st.auxX[t := aX]);
      ranking[t], auxR[t], auxX[t] := rank, aR, aX;
    }
  }

  /** The body of Baseline++'s `update` on the copies of row `t - 1` that become
      row `t`: repair, adoption loop over `[i, j]`, joint swap. */
  method ImprovedRows(rank0: seq<real>, auxR0: seq<real>, auxX0: seq<real>, data: seq<real>, i: nat, j: nat)
    returns (rank: seq<real>, aR: seq<real>, aX: seq<real>)
    requires |rank0| == |auxR0| == |auxX0| == |data| && i < |data| && j < |data|
    ensures var auxR1 := Repair(auxR0, auxX0, i, j);
            rank == ImprovedAdopt(ImprovedAdopt(rank0, auxR1, auxX0, data, i), auxR1, auxX0, data, j) &&
            aR == Swap(auxR1, i, j) && aX == Swap(auxX0, i, j)
  {
    rank, aR, aX := rank0, auxR0, auxX0;
    // the pair's auxiliary ranks contradict its auxiliary values
    if Inverted(aX, aR, i, j) {
      aR := aR[i := auxR0[j]][j := auxR0[i]];
    }
    var nodes := [i, j];
    for q := 0 to 2
      invariant rank == ImprovedAdoptAll(rank0, aR, aX, data, nodes[..q])
    {
      var node := nodes[q];
      if ImprovedAdopts(rank, aR, aX, data, node) {
        rank := rank[node := aR[node]];
      }
      assert nodes[..q + 1][..q] == nodes[..q];
    }
    assert nodes[..2] == [i, j];
    ImprovedAdoptPair(rank0, aR, aX, data, i, j);
    aR := aR[i := aR[j]][j := aR[i]];
    aX := aX[i := aX[j]][j := aX[i]];
  }

  /** The adoption loop of Baseline over the contacted nodes. */
  function HomeAdoptAll(rank: seq<real>, auxR: seq<real>, auxI: seq<int>, nodes: seq<nat>): (r: seq<real>)
    requires |auxR| == |auxI| == |rank|
    requires forall q :: 0 <= q < |nodes| ==> nodes[q] < |rank|
    ensures |r| == |rank|
  {
    if |nodes| == 0 then rank
    else HomeAdopt(HomeAdoptAll(rank, auxR, auxI, nodes[..|nodes| - 1]), auxR, auxI, nodes[|nodes| - 1])
  }

  lemma HomeAdoptPair(rank: seq<real>, auxR: seq<real>, auxI: seq<int>, i: nat, j: nat)
    requires |auxR| == |auxI| == |rank| && i < |rank| && j < |rank|
    ensures HomeAdoptAll(rank, auxR, auxI, [i, j]) == HomeAdopt(HomeAdopt(rank, auxR, auxI, i), auxR, auxI, j)
  {
    var one := [i];
    assert [i, j][..1] == one;
    assert one[..0] == [];
    assert HomeAdoptAll(rank, auxR, auxI, one) == HomeAdopt(rank, auxR, auxI, i);
  }

  /** Baseline (Chiuso et al.): the auxiliary value travels with the identity of
      the node it came from; a node adopts the auxiliary rank once its own
      identity comes home. */
  class Baseline {
    const horizon: nat
    const n: nat
    const data: seq<real>
    const ranking: array<seq<real>>
    const auxR: array<seq<real>>
    const auxX: array<seq<real>>
    /** `historical_aux_i`: the identity of the node whose value is held. */
    const auxI: array<seq<int>>
    const weight: real

    ghost predicate Valid()
      reads this, ranking, auxR, auxX, auxI
    {
      |data| == n && horizon >= 1 && n >= 1 && weight == 1.0 / n as real &&
      ranking != auxR && ranking != auxX && auxR != auxX &&
      ranking.Length == horizon && auxR.Length == horizon && auxX.Length == horizon && auxI.Length == horizon &&
      IsHistory(ranking[..], horizon, n) && IsHistory(auxR[..], horizon, n) &&
      IsHistory(auxX[..], horizon, n) && IsHistory(auxI[..], horizon, n)
    }

    ghost function Model(): (st: RankState)
      reads this, ranking, auxR, auxX, auxI
      requires Valid()
      ensures st.BaselineState? && Shaped(st, horizon, n)
    {
      BaselineState(ranking[..], auxR[..], auxX[..], auxI[..])
    }

    /** Requires `n >= 1` because the weight is `1 / n`, and `horizon >= 1`
        because row 0 is written. */
    constructor (horizon: nat, n: nat, data: seq<real>)
      requires |data| == n && n >= 1 && horizon >= 1
      ensures Valid() && this.horizon == horizon && this.n == n && this.data == data
      ensures Model() == RankInit(BaselineKind, horizon, data)
      ensures fresh(ranking) && fresh(auxR) && fresh(auxX) && fresh(auxI)
    {
      this.horizon, this.n, this.data := horizon, n, data;
      ranking := new seq<real>[horizon](_ => Zeros(n));
      auxR := new seq<real>[horizon](_ => Zeros(n));
      auxX := new seq<real>[horizon](_ => Zeros(n));
      auxI := new seq<int>[horizon](_ => IntZeros(n));
      weight := 1.0 / n as real;
      new;
      ranking[0] := RealRange(n);
      auxR[0] := RealRange(n);
      auxX[0] := data;
      auxI[0] := Range(n);
      assert ranking[..] == Fill(horizon, Zeros(n))[0 := RealRange(n)];
      assert auxR[..] == Fill(horizon, Zeros(n))[0 := RealRange(n)];
      assert auxX[..] == Fill(horizon, Zeros(n))[0 := data];
      assert auxI[..] == Fill(horizon, IntZeros(n))[0 := Range(n)];
    }

    /** `update(t, i, j)`: copy row `t - 1` into row `t`, repair the pair's main
        ranks against the data and its auxiliary ranks against the auxiliary
        values, swap identities, auxiliary ranks and values, then let each
        contacted node whose identity is home adopt. */
    method Update(t: nat, i: nat, j: nat)
      requires Valid() && 1 <= t < horizon && i < n && j < n
      modifies ranking, auxR, auxX, auxI
      ensures Valid() && Model() == RankStep(old(Model()), data, t, i, j)
    {
      // row t starts as a copy of row t - 1 (lines 115-118)
      var rank, aR, aX, aI := ranking[t - 1], auxR[t - 1], auxX[t - 1], auxI[t - 1];
      // the pair's ranks contradict the data
      if Inverted(data, ranking[t - 1], i, j) {
        rank := rank[i := ranking[t - 1][j]][j := ranking[t - 1][i]];
      }
      // the pair's auxiliary ranks contradict its auxiliary values
      if Inverted(auxX[t - 1], auxR[t - 1], i, j) {
        aR := aR[i := auxR[t - 1][j]][j := auxR[t - 1][i]];
      }
      aI := aI[i := aI[j]][j := aI[i]];
      aR := aR[i := aR[j]][j := aR[i]];
      aX := aX[i := aX[j]][j := aX[i]];
      ghost var rank1 := rank;
      var nodes := [i, j];
      for q := 0 to 2
        invariant rank == HomeAdoptAll(rank1, aR, aI, nodes[..q])
      {
        var p := nodes[q];
        if aI[p] == p {
          rank := rank[p := aR[p]];
        }
        assert nodes[..q + 1][..q] == nodes[..q];
      }
      assert nodes[..2] == [i, j];
      HomeAdoptPair(rank1, aR, aI, i, j);
      ranking[t], auxR[t], auxX[t], auxI[t] := rank, aR, aX, aI;
    }
  }

  /** Whichever of the three estimators a run uses (the `rank_class` argument
      of the source). */
  datatype RankEstimator = GoRankEst(g: GoRank) | ImprovedEst(b: ImprovedBaseline) | BaselineEst(c: Baseline)
  {
    function Kind(): RankKind
    {
      match this
      case GoRankEst(_) => GoRankKind
      case ImprovedEst(_) => ImprovedKind
      case BaselineEst(_) => BaselineKind
    }

    function Horizon(): nat
    {
      match this
      case GoRankEst(g) => g.horizon
      case ImprovedEst(b) => b.horizon
      case BaselineEst(c) => c.horizon
    }

    function N(): nat
    {
      match this
      case GoRankEst(g) => g.n
      case ImprovedEst(b) => b.n
      case BaselineEst(c) => c.n
    }

    function Data(): seq<real>
    {
      match this
      case GoRankEst(g) => g.data
      case ImprovedEst(b) => b.data
      case BaselineEst(c) => c.data
    }

    /** The factor that rescales raw ranks into `[0, 1]` (`self.weight`). */
    function Weight(): real
    {
      match this
      case GoRankEst(g) => g.weight
      case ImprovedEst(b) => b.weight
      case BaselineEst(c) => c.weight
    }

    ghost function Repr(): set<object>
    {
      match this
      case GoRankEst(g) => {g, g.ranking, g.y}
      case ImprovedEst(b) => {b, b.ranking, b.auxR, b.auxX}
      case BaselineEst(c) => {c, c.ranking, c.auxR, c.auxX, c.auxI}
    }

    ghost predicate Valid()
      reads Repr()
    {
      match this
      case GoRankEst(g) => g.Valid()
      case ImprovedEst(b) => b.Valid()
      case BaselineEst(c) => c.Valid()
    }

    ghost function Model(): (st: RankState)
      reads Repr()
      requires Valid()
      ensures Shaped(st, Horizon(), N()) && KindOf(st) == Kind() && |Data()| == N()
      ensures Kind() != GoRankKind ==> Horizon() >= 1 && N() >= 1
      ensures Weight() == RankModel.Weight(Kind(), N())
    {
      match this
      case GoRankEst(g) => g.Model()
      case ImprovedEst(b) => b.Model()
      case BaselineEst(c) => c.Model()
    }

    /** Row `t` of `historical_ranking`. */
    function Ranking(t: nat): (row: seq<real>)
      reads Repr()
      requires Valid() && t < Horizon()
      ensures row == Model().ranking[t]
    {
      match this
      case GoRankEst(g) => g.ranking[t]
      case ImprovedEst(b) => b.ranking[t]
      case BaselineEst(c) => c.ranking[t]
    }

    method Update(t: nat, i: nat, j: nat)
      requires Valid() && 1 <= t < Horizon() && i < N() && j < N()
      modifies Repr()
      ensures Valid() && Model() == RankStep(old(Model()), Data(), t, i, j)
    {
      match this
      case GoRankEst(g) => g.Update(t, i, j);
      case ImprovedEst(b) => b.Update(t, i, j);
      case BaselineEst(c) => c.Update(t, i, j);
    }
  }

  /** `rank_class(horizon, n, data)`: a fresh estimator of the given kind. */
  method NewRankEstimator(kind: RankKind, horizon: nat, n: nat, data: seq<real>) returns (r: RankEstimator)
    requires |data| == n && (kind != GoRankKind ==> n >= 1 && horizon >= 1)
    ensures r.Valid() && r.Kind() == kind && r.Horizon() == horizon && r.N() == n && r.Data() == data
    ensures r.Model() == RankInit(kind, horizon, data)
    ensures fresh(r.Repr())
  {
    match kind
    case GoRankKind =>
      var g := new GoRank(horizon, n, data);
      r := GoRankEst(g);
    case ImprovedKind =>
      var b := new ImprovedBaseline(horizon, n, data);
      r := ImprovedEst(b);
    case BaselineKind =>
      var c := new Baseline(horizon, n, data);
      r := BaselineEst(c);
  }
}

/** What the rank estimators of src/rank.py guarantee, stated about the steps
    of module RankModel: bounds, permutations, the pair-consistency and
    adoption rules, and the invariants that hold along a whole trial. */
module RankProperties {
  import opened Sequences
  import opened RankModel

  /** `a` and `b` agree everywhere except possibly at `i` and `j`. */
  predicate SameExcept<T(==)>(a: seq<T>, b: seq<T>, i: nat, j: nat)
  {
    |a| == |b| && forall k :: 0 <= k < |a| && k != i && k != j ==> a[k] == b[k]
  }

  /** Only row `t` of history `h'` differs from `h`. */
  predicate OnlyRowChanged<T(==)>(h: seq<seq<T>>, h': seq<seq<T>>, t: nat)
  {
    |h'| == |h| && forall s :: 0 <= s < |h| && s != t ==> h'[s] == h[s]
  }

  // ---------------------------------------------------------------- GoRank

  predicate AllInUnit(h: seq<seq<real>>)
  {
    forall s :: 0 <= s < |h| ==> InUnit(h[s])
  }

  /** A GoRank step writes only row `t`, keeps every estimate in `[0, 1]`, and
      only exchanges two shadow values, so the shadow stays a permutation. */
  lemma GoRankStepProperties(st: RankState, data: seq<real>, t: nat, i: nat, j: nat)
    requires st.GoRankState? && Shaped(st, |st.ranking|, |data|)
    requires 1 <= t < |st.ranking| && i < |data| && j < |data|
    requires AllInUnit(st.ranking)
    ensures var st' := GoRankStep(st, data, t, i, j);
            AllInUnit(st'.ranking) && OnlyRowChanged(st.ranking, st'.ranking, t) &&
            st'.y == Swap(st.y, i, j) && multiset(st'.y) == multiset(st.y)
  {
    CesaroRowInUnit(st.ranking[t - 1], data, st.y, t);
    SwapMultiset(st.y, i, j);
  }

  /** The GoRank invariant: every estimate is in `[0, 1]` and the shadow copy
      is a permutation of the data. */
  predicate GoRankInv(st: RankState, data: seq<real>)
  {
    st.GoRankState? && Shaped(st, |st.ranking|, |data|) &&
    AllInUnit(st.ranking) && multiset(st.y) == multiset(data)
  }

  lemma GoRankStepKeeps(st: RankState, data: seq<real>, t: nat, i: nat, j: nat)
    requires GoRankInv(st, data)
    requires 1 <= t < |st.ranking| && i < |data| && j < |data|
    ensures GoRankInv(RankStep(st, data, t, i, j), data)
  {
    assert RankStep(st, data, t, i, j) == GoRankStep(st, data, t, i, j);
    GoRankStepProperties(st, data, t, i, j);
  }

  /** Along a GoRank trial every estimate stays in `[0, 1]` and the shadow
      copy stays a permutation of the data. */
  lemma {:induction false} GoRankRunInvariant(horizon: nat, data: seq<real>, edges: seq<Edge>, steps: nat)
    requires steps < horizon && steps <= |edges| && ValidEdges(edges, |data|)
    ensures GoRankInv(RankRun(GoRankKind, horizon, data, edges, steps), data)
  {
    if steps > 0 {
      GoRankRunInvariant(horizon, data, edges, steps - 1);
      RankRunUnfold(GoRankKind, horizon, data, edges, steps);
      var e := edges[steps - 1];
      GoRankStepKeeps(RankRun(GoRankKind, horizon, data, edges, steps - 1), data, steps, e.0, e.1);
    }
  }

  /** The shadow copy after `s` swaps along `edges`. */
  function Shadow(data: seq<real>, edges: seq<Edge>, s: nat): (y: seq<real>)
    requires s <= |edges| && ValidEdges(edges, |data|)
    ensures |y| == |data|
  {
    if s == 0 then data
    else
      var e := edges[s - 1];
      assert e in edges;
      Swap(Shadow(data, edges, s - 1), e.0, e.1)
  }

  /** How many of the first `t` shadow values node `k` saw below its own value. */
  function Hits(data: seq<real>, edges: seq<Edge>, t: nat, k: nat): real
    requires t <= |edges| && ValidEdges(edges, |data|) && k < |data|
  {
    if t == 0 then 0.0 else Hits(data, edges, t - 1, k) + Indicator(data[k] > Shadow(data, edges, t - 1)[k])
  }

  /** Rows GoRank has not reached yet are still 0. */
  lemma {:induction false} GoRankUnreached(horizon: nat, data: seq<real>, edges: seq<Edge>, steps: nat, t: nat, k: nat)
    requires steps < t < horizon && steps <= |edges| && ValidEdges(edges, |data|) && k < |data|
    ensures RankRun(GoRankKind, horizon, data, edges, steps).ranking[t][k] == 0.0
  {
    if steps > 0 {
      GoRankUnreached(horizon, data, edges, steps - 1, t, k);
    }
  }

  /** GoRank's trace up to step `upto`: the shadow copy is the data swapped along
      the first `upto` edges, and each row `s` reached is the Cesàro average of the
      indicators `data[k] > y[k]` over the shadow values seen before steps `1..s`
      (`s` times the estimate is the number of hits). */
  predicate GoRankTrace(st: RankState, data: seq<real>, edges: seq<Edge>, upto: nat)
  {
    st.GoRankState? && Shaped(st, |st.ranking|, |data|) && upto < |st.ranking| &&
    upto <= |edges| && ValidEdges(edges, |data|) &&
    st.y == Shadow(data, edges, upto) && HitCounts(st.ranking, data, edges, upto)
  }

  /** Rows `0 .. upto` of `ranking` times their step are the hit counts. */
  predicate HitCounts(ranking: seq<seq<real>>, data: seq<real>, edges: seq<Edge>, upto: nat)
    requires upto < |ranking| && upto <= |edges| && ValidEdges(edges, |data|)
    requires forall s :: 0 <= s < |ranking| ==> |ranking[s]| == |data|
  {
    forall s, k :: 0 <= s <= upto && 0 <= k < |data| ==> ranking[s][k] * s as real == Hits(data, edges, s, k)
  }

  lemma GoRankStepTrace(st: RankState, data: seq<real>, edges: seq<Edge>, t: nat)
    requires 1 <= t && GoRankTrace(st, data, edges, t - 1)
    requires t < |st.ranking| && t <= |edges|
    ensures edges[t - 1].0 < |data| && edges[t - 1].1 < |data|
    ensures GoRankTrace(RankStep(st, data, t, edges[t - 1].0, edges[t - 1].1), data, edges, t)
  {
    var e := edges[t - 1];
    assert e in edges;
    var st' := GoRankStep(st, data, t, e.0, e.1);
    assert RankStep(st, data, t, e.0, e.1) == st';
    var row := CesaroRow(st.ranking[t - 1], data, st.y, t);
    HitCountsRow(st.ranking, data, edges, t - 1);
    CesaroRowHits(st.ranking[t - 1], data, st.y, edges, t);
    HitCountsStep(st.ranking, row, data, edges, t);
  }

  /** Row `upto` of hit counts, on its own. */
  lemma HitCountsRow(ranking: seq<seq<real>>, data: seq<real>, edges: seq<Edge>, upto: nat)
    requires upto < |ranking| && upto <= |edges| && ValidEdges(edges, |data|)
    requires forall s :: 0 <= s < |ranking| ==> |ranking[s]| == |data|
    requires HitCounts(ranking, data, edges, upto)
    ensures RowHits(ranking[upto], data, edges, upto)
  {
  }

  /** `s` times every entry of `row` is its node's hit count after `s` steps. */
  predicate RowHits(row: seq<real>, data: seq<real>, edges: seq<Edge>, s: nat)
    requires s <= |edges| && ValidEdges(edges, |data|) && |row| == |data|
  {
    forall k :: 0 <= k < |data| ==> row[k] * s as real == Hits(data, edges, s, k)
  }

  /** The Cesàro row after a row of hit counts is a row of hit counts one step further. */
  lemma CesaroRowHits(prev: seq<real>, data: seq<real>, y: seq<real>, edges: seq<Edge>, t: nat)
    requires 1 <= t <= |edges| && ValidEdges(edges, |data|) && |prev| == |data| == |y|
    requires RowHits(prev, data, edges, t - 1) && y == Shadow(data, edges, t - 1)
    ensures RowHits(CesaroRow(prev, data, y, t), data, edges, t)
  {
    forall k | 0 <= k < |data| ensures CesaroRow(prev, data, y, t)[k] * t as real == Hits(data, edges, t, k) {
      CesaroHits(prev, data, y, edges, t, k);
    }
  }

  /** A row of hit counts at step `t` extends hit counts up to `t - 1`. */
  lemma HitCountsStep(ranking: seq<seq<real>>, row: seq<real>, data: seq<real>, edges: seq<Edge>, t: nat)
    requires 1 <= t < |ranking| && t <= |edges| && ValidEdges(edges, |data|) && |row| == |data|
    requires forall s :: 0 <= s < |ranking| ==> |ranking[s]| == |data|
    requires HitCounts(ranking, data, edges, t - 1)
    requires RowHits(row, data, edges, t)
    ensures HitCounts(ranking[t := row], data, edges, t)
  {
    var ranking' := ranking[t := row];
    HitCountsFrame(ranking, ranking', data, edges, t - 1);
    HitCountsExtend(ranking', data, edges, t);
  }

  /** Hit counts up to `upto` only depend on rows `0 .. upto`. */
  lemma HitCountsFrame(ranking: seq<seq<real>>, ranking': seq<seq<real>>, data: seq<real>, edges: seq<Edge>, upto: nat)
    requires upto < |ranking| && upto < |ranking'| && upto <= |edges| && ValidEdges(edges, |data|)
    requires forall s :: 0 <= s < |ranking| ==> |ranking[s]| == |data|
    requires forall s :: 0 <= s < |ranking'| ==> |ranking'[s]| == |data|
    requires forall s :: 0 <= s <= upto ==> ranking'[s] == ranking[s]
    requires HitCounts(ranking, data, edges, upto)
    ensures HitCounts(ranking', data, edges, upto)
  {
  }

  /** Hit counts up to `upto - 1` and a matching row `upto` are hit counts up to `upto`. */
  lemma HitCountsExtend(ranking: seq<seq<real>>, data: seq<real>, edges: seq<Edge>, upto: nat)
    requires 1 <= upto < |ranking| && upto <= |edges| && ValidEdges(edges, |data|)
    requires forall s :: 0 <= s < |ranking| ==> |ranking[s]| == |data|
    requires HitCounts(ranking, data, edges, upto - 1)
    requires RowHits(ranking[upto], data, edges, upto)
    ensures HitCounts(ranking, data, edges, upto)
  {
    forall s, k | 0 <= s <= upto && 0 <= k < |data| ensures ranking[s][k] * s as real == Hits(data, edges, s, k) {
      if s < upto {
        assert ranking[s][k] * s as real == Hits(data, edges, s, k);
      }
    }
  }

  /** One Cesàro entry times its step is the hit count one step further. */
  lemma CesaroHits(prev: seq<real>, data: seq<real>, y: seq<real>, edges: seq<Edge>, t: nat, k: nat)
    requires 1 <= t <= |edges| && ValidEdges(edges, |data|) && |prev| == |data| == |y| && k < |data|
    requires prev[k] * (t - 1) as real == Hits(data, edges, t - 1, k) && y == Shadow(data, edges, t - 1)
    ensures CesaroRow(prev, data, y, t)[k] * t as real == Hits(data, edges, t, k)
  {
    CesaroEntry(prev, data, y, t, k);
  }

  /** Along a GoRank trial the trace property holds at every step. */
  lemma {:induction false} GoRankIsCesaroAverage(horizon: nat, data: seq<real>, edges: seq<Edge>, steps: nat)
    requires steps < horizon && steps <= |edges| && ValidEdges(edges, |data|)
    ensures GoRankTrace(RankRun(GoRankKind, horizon, data, edges, steps), data, edges, steps)
  {
    if steps > 0 {
      GoRankIsCesaroAverage(horizon, data, edges, steps - 1);
      RankRunUnfold(GoRankKind, horizon, data, edges, steps);
      GoRankStepTrace(RankRun(GoRankKind, horizon, data, edges, steps - 1), data, edges, steps);
    }
  }

  /** `t` times a Cesàro entry is `t - 1` times the previous one plus the new indicator. */
  lemma CesaroEntry(prev: seq<real>, data: seq<real>, y: seq<real>, t: nat, k: nat)
    requires |prev| == |data| == |y| && t >= 1 && k < |prev|
    ensures CesaroRow(prev, data, y, t)[k] * t as real == prev[k] * (t - 1) as real + Indicator(data[k] > y[k])
  {
  }

  // ------------------------------------------------------ Baseline(++) shared

  /** The rank invariant of a Baseline row: the auxiliary ranks are a
      permutation of `0..n-1` and every main rank is a whole number in `[0, n-1]`. */
  predicate RankRowInvariant(rank: seq<real>, auxR: seq<real>)
  {
    |rank| == |auxR| &&
    multiset(auxR) == multiset(RealRange(|rank|)) &&
    forall k :: 0 <= k < |rank| ==> IsRankValue(rank[k], |rank|)
  }

  /** Every entry of a permutation of `0..n-1` is a rank value. */
  lemma PermutationEntry(a: seq<real>, n: nat, k: nat)
    requires multiset(a) == multiset(RealRange(n)) && k < |a|
    ensures IsRankValue(a[k], n)
  {
    assert a[k] in multiset(a);
    assert a[k] in RealRange(n);
    var m :| 0 <= m < n && RealRange(n)[m] == a[k];
  }

  // ------------------------------------------------------------ Baseline++

  /** After a Baseline++ step the contacted pair's auxiliary ranks agree with
      the order of its auxiliary values: the repair makes the pair consistent
      and the joint swap keeps it so. */
  lemma ImprovedStepConsistent(st: RankState, data: seq<real>, t: nat, i: nat, j: nat)
    requires st.ImprovedState? && Shaped(st, |st.ranking|, |data|)
    requires 1 <= t < |st.ranking| && i < |data| && j < |data|
    ensures var st' := ImprovedStep(st, data, t, i, j);
            (st'.auxX[t][i] - st'.auxX[t][j]) * (st'.auxR[t][i] - st'.auxR[t][j]) >= 0.0
  {
    var auxR1 := Repair(st.auxR[t - 1], st.auxX[t - 1], i, j);
    RepairConsistent(st.auxR[t - 1], st.auxX[t - 1], i, j);
    var st' := ImprovedStep(st, data, t, i, j);
    var x, r := st.auxX[t - 1], auxR1;
    assert st'.auxX[t][i] - st'.auxX[t][j] == -(x[i] - x[j]);
    assert st'.auxR[t][i] - st'.auxR[t][j] == -(r[i] - r[j]);
  }

  /** A contacted node of Baseline++ takes the (repaired) auxiliary rank exactly
      when its own value and rank are ordered against the auxiliary value and
      rank, or its value equals the auxiliary value; the test is made before
      the final swap. Every other node keeps its rank. */
  lemma ImprovedStepAdoption(st: RankState, data: seq<real>, t: nat, i: nat, j: nat, p: nat)
    requires st.ImprovedState? && Shaped(st, |st.ranking|, |data|)
    requires 1 <= t < |st.ranking| && i < |data| && j < |data| && p < |data|
    ensures var rank, auxX := st.ranking[t - 1], st.auxX[t - 1];
            var auxR1 := Repair(st.auxR[t - 1], auxX, i, j);
            var st' := ImprovedStep(st, data, t, i, j);
            (p == i || p == j ==>
              st'.ranking[t][p] == if ImprovedAdopts(rank, auxR1, auxX, data, p) then auxR1[p] else rank[p]) &&
            (p != i && p != j ==> st'.ranking[t][p] == rank[p])
  {
    var rank, auxX := st.ranking[t - 1], st.auxX[t - 1];
    var auxR1 := Repair(st.auxR[t - 1], auxX, i, j);
    var rank1 := ImprovedAdopt(rank, auxR1, auxX, data, i);
    if p == j && p != i {
      assert rank1[j] == rank[j];
      assert ImprovedAdopts(rank1, auxR1, auxX, data, j) == ImprovedAdopts(rank, auxR1, auxX, data, j);
    }
  }

  /** A Baseline++ step writes only row `t` of each history; in row `t` only
      the contacted pair differs from row `t - 1`, and the auxiliary rows are
      permutations of their predecessors. */
  lemma ImprovedStepFrame(st: RankState, data: seq<real>, t: nat, i: nat, j: nat)
    requires st.ImprovedState? && Shaped(st, |st.ranking|, |data|)
    requires 1 <= t < |st.ranking| && i < |data| && j < |data|
    ensures var st' := ImprovedStep(st, data, t, i, j);
            OnlyRowChanged(st.ranking, st'.ranking, t) && OnlyRowChanged(st.auxR, st'.auxR, t) &&
            OnlyRowChanged(st.auxX, st'.auxX, t) &&
            SameExcept(st'.ranking[t], st.ranking[t - 1], i, j) &&
            SameExcept(st'.auxR[t], st.auxR[t - 1], i, j) &&
            SameExcept(st'.auxX[t], st.auxX[t - 1], i, j) &&
            multiset(st'.auxR[t]) == multiset(st.auxR[t - 1]) &&
            multiset(st'.auxX[t]) == multiset(st.auxX[t - 1])
  {
    var auxR1 := Repair(st.auxR[t - 1], st.auxX[t - 1], i, j);
    RepairMultiset(st.auxR[t - 1], st.auxX[t - 1], i, j);
    SwapMultiset(auxR1, i, j);
    SwapMultiset(st.auxX[t - 1], i, j);
  }

  /** Baseline++ main ranks only ever take auxiliary ranks, which stay a
      permutation of `0..n-1`: the rank invariant passes from row `t - 1` to row `t`. */
  lemma ImprovedStepInvariant(st: RankState, data: seq<real>, t: nat, i: nat, j: nat)
    requires st.ImprovedState? && Shaped(st, |st.ranking|, |data|)
    requires 1 <= t < |st.ranking| && i < |data| && j < |data|
    requires RankRowInvariant(st.ranking[t - 1], st.auxR[t - 1])
    ensures var st' := ImprovedStep(st, data, t, i, j);
            RankRowInvariant(st'.ranking[t], st'.auxR[t])
  {
    var n := |data|;
    var st' := ImprovedStep(st, data, t, i, j);
    var rank, auxX := st.ranking[t - 1], st.auxX[t - 1];
    var auxR1 := Repair(st.auxR[t - 1], auxX, i, j);
    RepairMultiset(st.auxR[t - 1], auxX, i, j);
    SwapMultiset(auxR1, i, j);
    forall k | 0 <= k < n ensures IsRankValue(st'.ranking[t][k], n) {
      ImprovedStepAdoption(st, data, t, i, j, k);
      if (k == i || k == j) && ImprovedAdopts(rank, auxR1, auxX, data, k) {
        PermutationEntry(auxR1, n, k);
      }
    }
  }

  /** The Baseline++ invariant on rows `0..upto`: the rank invariant holds and
      the auxiliary values are a permutation of the data. */
  predicate ImprovedInv(st: RankState, data: seq<real>, upto: nat)
  {
    st.ImprovedState? && Shaped(st, |st.ranking|, |data|) && upto < |st.ranking| &&
    forall s :: 0 <= s <= upto ==>
      RankRowInvariant(st.ranking[s], st.auxR[s]) && multiset(st.auxX[s]) == multiset(data)
  }

  lemma ImprovedStepKeeps(st: RankState, data: seq<real>, t: nat, i: nat, j: nat)
    requires 1 <= t && ImprovedInv(st, data, t - 1)
    requires t < |st.ranking| && i < |data| && j < |data|
    ensures ImprovedInv(RankStep(st, data, t, i, j), data, t)
  {
    var st' := ImprovedStep(st, data, t, i, j);
    assert RankStep(st, data, t, i, j) == st';
    ImprovedStepInvariant(st, data, t, i, j);
    ImprovedStepFrame(st, data, t, i, j);
    forall s | 0 <= s <= t
      ensures RankRowInvariant(st'.ranking[s], st'.auxR[s]) && multiset(st'.auxX[s]) == multiset(data)
    {
      if s < t {
        assert st'.ranking[s] == st.ranking[s] && st'.auxR[s] == st.auxR[s] && st'.auxX[s] == st.auxX[s];
      }
    }
  }

  /** Along a Baseline++ trial every row reached so far satisfies the rank
      invariant and holds a permutation of the data as auxiliary values. */
  lemma {:induction false} ImprovedRunInvariant(horizon: nat, data: seq<real>, edges: seq<Edge>, steps: nat)
    requires steps < horizon && steps <= |edges| && ValidEdges(edges, |data|)
    ensures ImprovedInv(RankRun(ImprovedKind, horizon, data, edges, steps), data, steps)
  {
    if steps == 0 {
      var st := RankRun(ImprovedKind, horizon, data, edges, 0);
      forall k | 0 <= k < |data| ensures IsRankValue(st.ranking[0][k], |data|) {
        assert st.ranking[0][k] == k as real;
      }
    } else {
      ImprovedRunInvariant(horizon, data, edges, steps - 1);
      RankRunUnfold(ImprovedKind, horizon, data, edges, steps);
      var e := edges[steps - 1];
      ImprovedStepKeeps(RankRun(ImprovedKind, horizon, data, edges, steps - 1), data, steps, e.0, e.1);
    }
  }

  // -------------------------------------------------------------- Baseline

  /** Each auxiliary value is the data value of the node whose identity travels
      with it, and the identities are a permutation of `0..n-1`. */
  predicate Tracks(auxX: seq<real>, auxI: seq<int>, data: seq<real>)
  {
    |auxX| == |auxI| == |data| &&
    multiset(auxI) == multiset(Range(|data|)) &&
    forall k :: 0 <= k < |auxI| ==> 0 <= auxI[k] < |data| && auxX[k] == data[auxI[k]]
  }

  /** Value and identity travel together, so a Baseline step passes the
      tracking invariant from row `t - 1` to row `t`. */
  lemma BaselineStepTracks(st: RankState, data: seq<real>, t: nat, i: nat, j: nat)
    requires st.BaselineState? && Shaped(st, |st.ranking|, |data|)
    requires 1 <= t < |st.ranking| && i < |data| && j < |data|
    requires Tracks(st.auxX[t - 1], st.auxI[t - 1], data)
    ensures var st' := BaselineStep(st, data, t, i, j);
            Tracks(st'.auxX[t], st'.auxI[t], data)
  {
    SwapMultiset(st.auxI[t - 1], i, j);
  }

  /** A contacted Baseline node takes the auxiliary rank exactly when its own
      identity token has come home after the swap; its auxiliary value is then
      its own data value. Every other node keeps its (possibly repaired) rank. */
  lemma BaselineStepAdoption(st: RankState, data: seq<real>, t: nat, i: nat, j: nat, p: nat)
    requires st.BaselineState? && Shaped(st, |st.ranking|, |data|)
    requires 1 <= t < |st.ranking| && i < |data| && j < |data| && p < |data|
    requires Tracks(st.auxX[t - 1], st.auxI[t - 1], data)
    ensures var st' := BaselineStep(st, data, t, i, j);
            var rank1 := Repair(st.ranking[t - 1], data, i, j);
            (p == i || p == j ==>
              st'.ranking[t][p] == (if st'.auxI[t][p] == p then st'.auxR[t][p] else rank1[p]) &&
              (st'.auxI[t][p] == p ==> st'.auxX[t][p] == data[p])) &&
            (p != i && p != j ==> st'.ranking[t][p] == rank1[p])
  {
    BaselineStepTracks(st, data, t, i, j);
  }

  /** A Baseline step writes only row `t` of each history; in row `t` only the
      contacted pair differs from row `t - 1`, and the auxiliary rows are
      permutations of their predecessors. */
  lemma BaselineStepFrame(st: RankState, data: seq<real>, t: nat, i: nat, j: nat)
    requires st.BaselineState? && Shaped(st, |st.ranking|, |data|)
    requires 1 <= t < |st.ranking| && i < |data| && j < |data|
    ensures var st' := BaselineStep(st, data, t, i, j);
            OnlyRowChanged(st.ranking, st'.ranking, t) && OnlyRowChanged(st.auxR, st'.auxR, t) &&
            OnlyRowChanged(st.auxX, st'.auxX, t) && OnlyRowChanged(st.auxI, st'.auxI, t) &&
            SameExcept(st'.ranking[t], st.ranking[t - 1], i, j) &&
            SameExcept(st'.auxR[t], st.auxR[t - 1], i, j) &&
            SameExcept(st'.auxX[t], st.auxX[t - 1], i, j) &&
            SameExcept(st'.auxI[t], st.auxI[t - 1], i, j) &&
            multiset(st'.auxR[t]) == multiset(st.auxR[t - 1]) &&
            multiset(st'.auxX[t]) == multiset(st.auxX[t - 1]) &&
            multiset(st'.auxI[t]) == multiset(st.auxI[t - 1])
  {
    var auxR1 := Repair(st.auxR[t - 1], st.auxX[t - 1], i, j);
    RepairMultiset(st.auxR[t - 1], st.auxX[t - 1], i, j);
    SwapMultiset(auxR1, i, j);
    SwapMultiset(st.auxX[t - 1], i, j);
    SwapMultiset(st.auxI[t - 1], i, j);
  }

  /** The rank invariant passes from row `t - 1` to row `t` of a Baseline step. */
  lemma BaselineStepInvariant(st: RankState, data: seq<real>, t: nat, i: nat, j: nat)
    requires st.BaselineState? && Shaped(st, |st.ranking|, |data|)
    requires 1 <= t < |st.ranking| && i < |data| && j < |data|
    requires RankRowInvariant(st.ranking[t - 1], st.auxR[t - 1])
    ensures var st' := BaselineStep(st, data, t, i, j);
            RankRowInvariant(st'.ranking[t], st'.auxR[t])
  {
    var n := |data|;
    var st' := BaselineStep(st, data, t, i, j);
    var rank1 := Repair(st.ranking[t - 1], data, i, j);
    var auxR1 := Repair(st.auxR[t - 1], st.auxX[t - 1], i, j);
    var auxR2 := Swap(auxR1, i, j);
    RepairMultiset(st.auxR[t - 1], st.auxX[t - 1], i, j);
    SwapMultiset(auxR1, i, j);
    forall k | 0 <= k < n ensures IsRankValue(st'.ranking[t][k], n) {
      if (k == i || k == j) && st'.auxI[t][k] == k {
        assert st'.ranking[t][k] == auxR2[k];
        PermutationEntry(auxR2, n, k);
      } else {
        assert st'.ranking[t][k] == rank1[k];
        if k == i { assert rank1[k] in {st.ranking[t - 1][i], st.ranking[t - 1][j]}; }
        if k == j { assert rank1[k] in {st.ranking[t - 1][i], st.ranking[t - 1][j]}; }
      }
    }
  }

  /** The Baseline invariant on rows `0..upto`: the rank and tracking invariants hold. */
  predicate BaselineInv(st: RankState, data: seq<real>, upto: nat)
  {
    st.BaselineState? && Shaped(st, |st.ranking|, |data|) && upto < |st.ranking| &&
    forall s :: 0 <= s <= upto ==>
      RankRowInvariant(st.ranking[s], st.auxR[s]) && Tracks(st.auxX[s], st.auxI[s], data)
  }

  lemma BaselineStepKeeps(st: RankState, data: seq<real>, t: nat, i: nat, j: nat)
    requires 1 <= t && BaselineInv(st, data, t - 1)
    requires t < |st.ranking| && i < |data| && j < |data|
    ensures BaselineInv(RankStep(st, data, t, i, j), data, t)
  {
    var st' := BaselineStep(st, data, t, i, j);
    assert RankStep(st, data, t, i, j) == st';
    BaselineStepInvariant(st, data, t, i, j);
    BaselineStepTracks(st, data, t, i, j);
    BaselineStepFrame(st, data, t, i, j);
    forall s | 0 <= s <= t
      ensures RankRowInvariant(st'.ranking[s], st'.auxR[s]) && Tracks(st'.auxX[s], st'.auxI[s], data)
    {
      if s < t {
        assert st'.ranking[s] == st.ranking[s] && st'.auxR[s] == st.auxR[s];
        assert st'.auxX[s] == st.auxX[s] && st'.auxI[s] == st.auxI[s];
      }
    }
  }

  /** Along a Baseline trial every row reached so far satisfies the rank and
      tracking invariants. */
  lemma {:induction false} BaselineRunInvariant(horizon: nat, data: seq<real>, edges: seq<Edge>, steps: nat)
    requires steps < horizon && steps <= |edges| && ValidEdges(edges, |data|)
    ensures BaselineInv(RankRun(BaselineKind, horizon, data, edges, steps), data, steps)
  {
    if steps == 0 {
      var st := RankRun(BaselineKind, horizon, data, edges, 0);
      forall k | 0 <= k < |data| ensures IsRankValue(st.ranking[0][k], |data|) {
        assert st.ranking[0][k] == k as real;
      }
      assert Tracks(st.auxX[0], st.auxI[0], data);
    } else {
      BaselineRunInvariant(horizon, data, edges, steps - 1);
      RankRunUnfold(BaselineKind, horizon, data, edges, steps);
      var e := edges[steps - 1];
      BaselineStepKeeps(RankRun(BaselineKind, horizon, data, edges, steps - 1), data, steps, e.0, e.1);
    }
  }
}

/** The ground truth of the experiments (run_experiments.py): the true rank
    of every node, `argsort(argsort(data))`, and the trimmed-mean weights
    those ranks induce. */
module GroundTruth {
  import opened Sequences
  import opened TrimWeight
  import opened MeanModel

  /** Node `l` comes before node `k` once the values are sorted; equal values
      keep their index order. */
  predicate Precedes(data: seq<real>, l: nat, k: nat)
    requires l < |data| && k < |data|
  {
    data[l] < data[k] || (data[l] == data[k] && l < k)
  }

  /** How many of the nodes `0..m-1` come before node `k`. */
  function CountPreceding(data: seq<real>, k: nat, m: nat): nat
    requires k < |data| && m <= |data|
  {
    if m == 0 then 0
    else CountPreceding(data, k, m - 1) + (if Precedes(data, m - 1, k) then 1 else 0)
  }

  /** `argsort(argsort(data))`: entry `k` is the position node `k` takes when
      the values are sorted. */
  function TrueRanks(data: seq<real>): (r: seq<int>)
    ensures |r| == |data|
  {
    seq(|data|, k requires 0 <= k < |data| => CountPreceding(data, k, |data|) as int)
  }

  /** How many of the nodes `0..m-1` hold a value strictly below node `k`'s. */
  function CountSmaller(data: seq<real>, k: nat, m: nat): nat
    requires k < |data| && m <= |data|
  {
    if m == 0 then 0
    else CountSmaller(data, k, m - 1) + (if data[m - 1] < data[k] then 1 else 0)
  }

  lemma {:induction false} CountPrecedingBound(data: seq<real>, k: nat, m: nat)
    requires k < |data| && m <= |data|
    ensures CountPreceding(data, k, m) <= if k < m then m - 1 else m
  {
    if m > 0 {
      CountPrecedingBound(data, k, m - 1);
    }
  }

  /** Whatever comes before `l` also comes before `k` when `l` does, and `l` itself is counted too. */
  lemma {:induction false} CountPrecedingMonotone(data: seq<real>, l: nat, k: nat, m: nat)
    requires l < |data| && k < |data| && m <= |data| && Precedes(data, l, k)
    ensures CountPreceding(data, k, m) >= CountPreceding(data, l, m) + (if l < m then 1 else 0)
  {
    if m > 0 {
      CountPrecedingMonotone(data, l, k, m - 1);
    }
  }

  /** The true ranks order the nodes as their values do: a smaller value has a
      smaller rank, a smaller rank never has a larger value, and no two nodes
      share a rank. */
  lemma TrueRanksOrder(data: seq<real>, k: nat, l: nat)
    requires k < |data| && l < |data|
    ensures data[k] < data[l] ==> TrueRanks(data)[k] < TrueRanks(data)[l]
    ensures TrueRanks(data)[k] < TrueRanks(data)[l] ==> data[k] <= data[l]
    ensures k != l ==> TrueRanks(data)[k] != TrueRanks(data)[l]
  {
    if Precedes(data, k, l) {
      CountPrecedingMonotone(data, k, l, |data|);
    } else if Precedes(data, l, k) {
      CountPrecedingMonotone(data, l, k, |data|);
    }
  }

  /** The true ranks are a permutation of `0..n-1`. */
  lemma TrueRanksPermutation(data: seq<real>)
    ensures forall k :: 0 <= k < |data| ==> 0 <= TrueRanks(data)[k] < |data|
    ensures multiset(TrueRanks(data)) == multiset(Range(|data|))
  {
    var r := TrueRanks(data);
    forall k | 0 <= k < |data| ensures 0 <= r[k] < |data| {
      CountPrecedingBound(data, k, |data|);
    }
    forall k, l | 0 <= k < l < |r| ensures r[k] != r[l] {
      TrueRanksOrder(data, k, l);
    }
    DistinctIsPermutation(r);
  }

  lemma {:induction false} CountPrecedingIsSmaller(data: seq<real>, k: nat, m: nat)
    requires k < |data| && m <= |data|
    requires forall p, q :: 0 <= p < |data| && 0 <= q < |data| && p != q ==> data[p] != data[q]
    ensures CountPreceding(data, k, m) == CountSmaller(data, k, m)
  {
    if m > 0 {
      CountPrecedingIsSmaller(data, k, m - 1);
      if m - 1 != k {
        assert data[m - 1] != data[k];
      }
    }
  }

  /** For pairwise distinct values, the true rank of `k` is the number of
      nodes holding a strictly smaller value. */
  lemma TrueRanksCountSmaller(data: seq<real>, k: nat)
    requires k < |data|
    requires forall p, q :: 0 <= p < |data| && 0 <= q < |data| && p != q ==> data[p] != data[q]
    ensures TrueRanks(data)[k] == CountSmaller(data, k, |data|)
  {
    CountPrecedingIsSmaller(data, k, |data|);
  }

  /** `true_ranks + 1` as real numbers: the ranks `1..n` that `wn` expects. */
  function RankValues(tr: seq<int>): (v: seq<real>)
    ensures |v| == |tr|
  {
    seq(|tr|, k requires 0 <= k < |tr| => (tr[k] + 1) as real)
  }

  /** `true_weight = n * wn(n, true_ranks + 1, alpha)`. */
  function TrueWeights(n: nat, tr: seq<int>, alpha: real): (w: seq<real>)
    ensures |w| == |tr|
  {
    Scale(n as real, Wn(n, RankValues(tr), alpha))
  }

  /** The true weights of the untrimmed nodes are `n / (n - 2m)` each, so they add up to `n`. */
  lemma TrueWeightsSum(data: seq<real>, alpha: real)
    requires Trimmed(|data|, alpha) >= 0 && |data| - 2 * Trimmed(|data|, alpha) > 0
    ensures Sum(TrueWeights(|data|, TrueRanks(data), alpha)) == |data| as real
  {
    var n, tr := |data|, TrueRanks(data);
    var g := RankWeight(n, Trimmed(n, alpha));
    TrueRanksPermutation(data);
    SumMapPermutation(g, tr, Range(n));
    WeightsOfRanks(n, tr, alpha);
    WeightsOfRanks(n, Range(n), alpha);
    RankValuesOfRange(n);
    WnSumsToOne(n, OneToN(n), alpha);
    SumScale(n as real, Wn(n, RankValues(tr), alpha));
  }

  /** The weight of an integer rank `x`, which `wn` sees as `x + 1`. */
  function RankWeight(n: nat, m: int): int -> real
  {
    (x: int) => WeightOf(n, m, (x + 1) as real)
  }

  lemma WeightsOfRanks(n: nat, tr: seq<int>, alpha: real)
    ensures Map(RankWeight(n, Trimmed(n, alpha)), tr) == Wn(n, RankValues(tr), alpha)
  {
  }

  lemma RankValuesOfRange(n: nat)
    ensures RankValues(Range(n)) == OneToN(n)
  {
  }

  /** Exact rank estimates give exact weights: when row `t` times the weight
      `1/n` is `true_ranks / n`, the weights GoTrim computes from it are the
      true weights. */
  lemma ExactRanksGiveTrueWeights(data: seq<real>, alpha: real)
    requires |data| >= 1
    ensures var n := |data|;
      GoTrimWeights(n, Scale(1.0 / n as real, RealOf(TrueRanks(data))), n as real, alpha)
        == TrueWeights(n, TrueRanks(data), alpha)
  {
    var n, tr := |data|, TrueRanks(data);
    var row := Scale(1.0 / n as real, RealOf(tr));
    forall k | 0 <= k < n ensures ShiftedRanks(n as real, row)[k] == RankValues(tr)[k] {
      CancelScale(n as real, tr[k] as real);
    }
    assert ShiftedRanks(n as real, row) == RankValues(tr);
  }

  lemma CancelScale(c: real, x: real)
    requires c > 0.0
    ensures c * (1.0 / c * x) + 1.0 == x + 1.0
  {
    assert c * (1.0 / c) == 1.0;
  }

  /** The integer ranks as real numbers. */
  function RealOf(tr: seq<int>): (v: seq<real>)
    ensures |v| == |tr| && forall k :: 0 <= k < |tr| ==> v[k] == tr[k] as real
  {
    seq(|tr|, k requires 0 <= k < |tr| => tr[k] as real)
  }
}

/** The trimmed-mean indicator weights `wn(n, r, alpha)` (src/utils.py).
    With `m = int(alpha * n)` an entry of `r` is weighted `1 / (n - 2m)` when it
    lies in the window `[m + 0.5, n - m + 0.5)` and 0 otherwise; when
    `n - 2m <= 0` no division happens and every weight is 0. */
module TrimWeight {
  import opened Sequences

  /** Python's `int(x)` on a float: truncation toward zero. */
  function Trunc(x: real): (r: int)
    ensures 0.0 <= x ==> r as real <= x < r as real + 1.0
    ensures x < 0.0 ==> r as real - 1.0 < x <= r as real
  {
    if x >= 0.0 then x.Floor else -((-x).Floor)
  }

  /** The number of order statistics trimmed from each end: `int(alpha * n)`. */
  function Trimmed(n: int, alpha: real): int
  {
    Trunc(alpha * n as real)
  }

  /** The rank window kept by the trimmed mean, lower bound inclusive. */
  predicate InWindow(n: int, m: int, x: real)
  {
    m as real + 0.5 <= x && x < (n - m) as real + 0.5
  }

  /** The weight of one rank value. */
  function WeightOf(n: int, m: int, x: real): real
  {
    if n - 2 * m > 0 && InWindow(n, m, x) then 1.0 / (n - 2 * m) as real else 0.0
  }

  /** `wn(n, r, alpha)`: one weight per entry of `r`, each in `[0, 1]`. */
  function Wn(n: int, r: seq<real>, alpha: real): (w: seq<real>)
    ensures |w| == |r|
    ensures forall k :: 0 <= k < |r| ==> 0.0 <= w[k] <= 1.0
  {
    var m := Trimmed(n, alpha);
    Map(x => WeightOf(n, m, x), r)
  }

  /** Every weight is either 0 or `1 / (n - 2m)`. */
  lemma WnValues(n: int, r: seq<real>, alpha: real, k: nat)
    requires k < |r|
    ensures var m := Trimmed(n, alpha);
            Wn(n, r, alpha)[k] == 0.0 || (n - 2 * m > 0 && Wn(n, r, alpha)[k] == 1.0 / (n - 2 * m) as real)
  {
  }

  /** An entry is weighted iff the window is non-empty and the rank falls in it. */
  lemma WnSupport(n: int, r: seq<real>, alpha: real, k: nat)
    requires k < |r|
    ensures var m := Trimmed(n, alpha);
            Wn(n, r, alpha)[k] != 0.0 <==> n - 2 * m > 0 && m as real + 0.5 <= r[k] < (n - m) as real + 0.5
  {
  }

  /** Degenerate trimming: no window, every weight is 0. */
  lemma WnDegenerate(n: int, r: seq<real>, alpha: real)
    requires n - 2 * Trimmed(n, alpha) <= 0
    ensures Wn(n, r, alpha) == Zeros(|r|)
  {
  }

  /** Without trimming every rank in `[0.5, n + 0.5)` gets the plain mean weight `1/n`. */
  lemma WnUntrimmed(n: int, r: seq<real>, k: nat)
    requires k < |r| && 0.5 <= r[k] < n as real + 0.5
    ensures Wn(n, r, 0.0)[k] == 1.0 / n as real
  {
    assert Trimmed(n, 0.0) == 0;
  }

  /** The 1-indexed ranks `[1, 2, ..., n]`. */
  function OneToN(n: nat): (r: seq<real>)
    ensures |r| == n && forall k :: 0 <= k < n ==> r[k] == (k + 1) as real
  {
    seq(n, k => (k + 1) as real)
  }

  /** Value `v` inside the window, 0 outside. */
  function Box(n: int, m: int, v: real, x: real): real
  {
    if InWindow(n, m, x) then v else 0.0
  }

  /** How many of `1..p` lie in the window `m+1..n-m`. */
  function WindowCount(n: int, m: nat, p: nat): int
  {
    if p <= m then 0 else if p <= n - m then p - m else n - 2 * m
  }

  lemma {:induction false} BoxPrefixSum(n: int, m: nat, v: real, p: nat)
    requires n - 2 * m > 0
    ensures Sum(seq(p, k => Box(n, m, v, (k + 1) as real))) == v * WindowCount(n, m, p) as real
  {
    var s := seq(p, k => Box(n, m, v, (k + 1) as real));
    if p > 0 {
      assert s[..p - 1] == seq(p - 1, k => Box(n, m, v, (k + 1) as real));
      BoxPrefixSum(n, m, v, p - 1);
      assert InWindow(n, m, p as real) <==> m + 1 <= p <= n - m;
    }
  }

  /** Weights of the ranks `1..n` in order. */
  lemma WeightsOfOneToN(n: nat, m: nat)
    requires n - 2 * m > 0
    ensures Sum(Map(x => WeightOf(n, m, x), OneToN(n))) == 1.0
    ensures Sum(Map(x => if WeightOf(n, m, x) != 0.0 then 1.0 else 0.0, OneToN(n))) == (n - 2 * m) as real
  {
    var c := 1.0 / (n - 2 * m) as real;
    assert Map(x => WeightOf(n, m, x), OneToN(n)) == seq(n, k => Box(n, m, c, (k + 1) as real));
    assert Map(x => if WeightOf(n, m, x) != 0.0 then 1.0 else 0.0, OneToN(n))
        == seq(n, k => Box(n, m, 1.0, (k + 1) as real));
    BoxPrefixSum(n, m, c, n);
    BoxPrefixSum(n, m, 1.0, n);
  }

  /** On a permutation of the ranks `1..n`, with a non-empty window, exactly
      `n - 2m` entries are weighted and the weights sum to 1. */
  lemma WnSumsToOne(n: nat, r: seq<real>, alpha: real)
    requires multiset(r) == multiset(OneToN(n))
    requires Trimmed(n, alpha) >= 0 && n - 2 * Trimmed(n, alpha) > 0
    ensures Sum(Wn(n, r, alpha)) == 1.0
    ensures Sum(Map(x => if x != 0.0 then 1.0 else 0.0, Wn(n, r, alpha))) == (n - 2 * Trimmed(n, alpha)) as real
  {
    var m: nat := Trimmed(n, alpha);
    var f := x => WeightOf(n, m, x);
    var g := x => if WeightOf(n, m, x) != 0.0 then 1.0 else 0.0;
    SumMapPermutation(f, r, OneToN(n));
    SumMapPermutation(g, r, OneToN(n));
    WeightsOfOneToN(n, m);
    assert Wn(n, r, alpha) == Map(f, r);
    assert Map(x => if x != 0.0 then 1.0 else 0.0, Wn(n, r, alpha)) == Map(g, r);
  }

  /** Ten ranks trimmed by 20%: the two lowest and two highest get 0, the rest 1/6. */
  lemma WnTenRanks()
    ensures Wn(10, OneToN(10), 0.2) == [0.0, 0.0] + seq(6, k => 1.0 / 6.0) + [0.0, 0.0]
  {
    assert Trimmed(10, 0.2) == 2;
  }
}

/** Vector helpers shared by the estimators: sums, swaps, ranges and the
    facts about them that the invariants need. A numpy row of length n is a
    `seq<real>` here. */
module Sequences {

  datatype Option<T> = None | Some(value: T)

  function Abs(x: real): real { if x < 0.0 then -x else x }

  function Min(a: real, b: real): real { if a <= b then a else b }

  /** Sum of the entries, taken from the back. */
  function Sum(s: seq<real>): real
  {
    if |s| == 0 then 0.0 else Sum(s[..|s| - 1]) + s[|s| - 1]
  }

  /** The two entries at `i` and `j` exchanged (the numpy idiom `a[[i, j]] = a[[j, i]]`). */
  function Swap<T>(s: seq<T>, i: nat, j: nat): (r: seq<T>)
    requires i < |s| && j < |s|
    ensures |r| == |s| && r[i] == s[j] && r[j] == s[i]
    ensures forall k :: 0 <= k < |s| && k != i && k != j ==> r[k] == s[k]
  {
    s[i := s[j]][j := s[i]]
  }

  /** `[0, 1, ..., n-1]`, numpy's `arange(n)` on integers. */
  function Range(n: nat): (r: seq<int>)
    ensures |r| == n && forall k :: 0 <= k < n ==> r[k] == k
  {
    seq(n, k => k)
  }

  /** `[0.0, 1.0, ..., n-1]`, numpy's `arange(n)` stored in a float array. */
  function RealRange(n: nat): (r: seq<real>)
    ensures |r| == n && forall k :: 0 <= k < n ==> r[k] == k as real
  {
    seq(n, k => k as real)
  }

  function Zeros(n: nat): (r: seq<real>)
    ensures |r| == n && forall k :: 0 <= k < n ==> r[k] == 0.0
  {
    seq(n, k => 0.0)
  }

  function Map<T, U>(f: T -> U, s: seq<T>): (r: seq<U>)
    ensures |r| == |s| && forall k :: 0 <= k < |s| ==> r[k] == f(s[k])
  {
    seq(|s|, k requires 0 <= k < |s| => f(s[k]))
  }

  /** An entry is a whole number in `[0, n-1]`: what an integer rank stored
      in a float array holds. */
  predicate IsRankValue(x: real, n: nat)
  {
    0.0 <= x < n as real && x.Floor as real == x
  }

  /** Exchanging two entries keeps the multiset of entries. */
  lemma SwapMultiset<T>(s: seq<T>, i: nat, j: nat)
    requires i < |s| && j < |s|
    ensures multiset(Swap(s, i, j)) == multiset(s)
  {
    if i != j {
      var t := s[i := s[j]];
      assert multiset(t) == multiset(s) - multiset{s[i]} + multiset{s[j]};
      assert multiset(t[j := s[i]]) == multiset(t) - multiset{t[j]} + multiset{s[i]};
    } else {
      assert Swap(s, i, j) == s;
    }
  }

  /** Changing one entry changes the sum by the difference. */
  lemma {:induction false} SumUpdate(s: seq<real>, k: nat, v: real)
    requires k < |s|
    ensures Sum(s[k := v]) == Sum(s) - s[k] + v
  {
    var n := |s|;
    if k == n - 1 {
      assert s[k := v][..n - 1] == s[..n - 1];
    } else {
      SumUpdate(s[..n - 1], k, v);
      assert s[k := v][..n - 1] == s[..n - 1][k := v];
    }
  }

  /** Exchanging two entries keeps the sum. */
  lemma SumSwap(s: seq<real>, i: nat, j: nat)
    requires i < |s| && j < |s|
    ensures Sum(Swap(s, i, j)) == Sum(s)
  {
    SumUpdate(s, i, s[j]);
    SumUpdate(s[i := s[j]], j, s[i]);
  }

  /** The sum is additive entry by entry. */
  lemma {:induction false} SumPointwise(a: seq<real>, b: seq<real>, c: seq<real>)
    requires |a| == |b| == |c|
    requires forall k :: 0 <= k < |c| ==> c[k] == a[k] + b[k]
    ensures Sum(c) == Sum(a) + Sum(b)
  {
    var n := |c|;
    if n > 0 {
      SumPointwise(a[..n - 1], b[..n - 1], c[..n - 1]);
    }
  }

  /** The sum of a concatenation. */
  lemma {:induction false} SumConcat(a: seq<real>, b: seq<real>)
    ensures Sum(a + b) == Sum(a) + Sum(b)
  {
    if |b| > 0 {
      var ab := a + b;
      assert ab[..|ab| - 1] == a + b[..|b| - 1];
      SumConcat(a, b[..|b| - 1]);
    } else {
      assert a + b == a;
    }
  }

  /** The entries of `s` with the one at `p` removed. */
  function RemoveAt<T>(s: seq<T>, p: nat): (r: seq<T>)
    requires p < |s|
    ensures |r| == |s| - 1
    ensures forall k :: 0 <= k < |r| ==> r[k] == if k < p then s[k] else s[k + 1]
  {
    s[..p] + s[p + 1..]
  }

  lemma RemoveAtMultiset<T>(s: seq<T>, p: nat)
    requires p < |s|
    ensures multiset(RemoveAt(s, p)) == multiset(s) - multiset{s[p]}
  {
    assert s == s[..p] + [s[p]] + s[p + 1..];
  }

  lemma RemoveAtSumMap<T>(f: T -> real, s: seq<T>, p: nat)
    requires p < |s|
    ensures Sum(Map(f, s)) == Sum(Map(f, RemoveAt(s, p))) + f(s[p])
  {
    var left, right := Map(f, s[..p]), Map(f, s[p + 1..]);
    assert Map(f, s) == left + [f(s[p])] + right;
    assert Map(f, RemoveAt(s, p)) == left + right;
    SumConcat(left + [f(s[p])], right);
    SumConcat(left, [f(s[p])]);
    SumConcat(left, right);
    assert Sum([f(s[p])]) == f(s[p]) by {
      assert [f(s[p])][..0] == [];
    }
  }

  /** Summing `f` over the entries does not depend on their order. */
  lemma {:induction false} SumMapPermutation<T>(f: T -> real, a: seq<T>, b: seq<T>)
    requires multiset(a) == multiset(b)
    ensures Sum(Map(f, a)) == Sum(Map(f, b))
  {
    if |a| > 0 {
      var n := |a|;
      var x := a[n - 1];
      assert x in multiset(b);
      var p :| 0 <= p < |b| && b[p] == x;
      RemoveAtMultiset(a, n - 1);
      RemoveAtMultiset(b, p);
      assert RemoveAt(a, n - 1) == a[..n - 1];
      SumMapPermutation(f, a[..n - 1], RemoveAt(b, p));
      RemoveAtSumMap(f, a, n - 1);
      RemoveAtSumMap(f, b, p);
    }
  }

  /** A sequence of pairwise distinct integers drawn from `[0, m)` has at most `m` entries. */
  lemma {:induction false} DistinctBound(s: seq<int>, m: nat)
    requires forall k :: 0 <= k < |s| ==> 0 <= s[k] < m
    requires forall k, l :: 0 <= k < l < |s| ==> s[k] != s[l]
    ensures |s| <= m
    decreases |s|
  {
    if |s| > 0 {
      var x := s[|s| - 1];
      var s' := Squeeze(s[..|s| - 1], x);
      forall k | 0 <= k < |s'| ensures 0 <= s'[k] < m - 1 {
        assert s[k] != x;
      }
      forall k, l | 0 <= k < l < |s'| ensures s'[k] != s'[l] {
        assert s[k] != s[l];
      }
      DistinctBound(s', m - 1);
    }
  }

  /** Close the gap left by removing the value `x`: every entry above `x` moves down by one. */
  function Squeeze(s: seq<int>, x: int): (r: seq<int>)
    ensures |r| == |s| && forall k :: 0 <= k < |s| ==> r[k] == if s[k] > x then s[k] - 1 else s[k]
  {
    seq(|s|, k requires 0 <= k < |s| => if s[k] > x then s[k] - 1 else s[k])
  }

  /** `n` pairwise distinct integers drawn from `[0, n)` include `n - 1`. */
  lemma TopPresent(s: seq<int>) returns (p: nat)
    requires |s| > 0
    requires forall k :: 0 <= k < |s| ==> 0 <= s[k] < |s|
    requires forall k, l :: 0 <= k < l < |s| ==> s[k] != s[l]
    ensures p < |s| && s[p] == |s| - 1
  {
    if q :| 0 <= q < |s| && s[q] == |s| - 1 {
      p := q;
    } else {
      DistinctBound(s, |s| - 1);
      assert false;
    }
  }

  /** `n` pairwise distinct integers drawn from `[0, n)` are a permutation of `0..n-1`. */
  lemma {:induction false} DistinctIsPermutation(s: seq<int>)
    requires forall k :: 0 <= k < |s| ==> 0 <= s[k] < |s|
    requires forall k, l :: 0 <= k < l < |s| ==> s[k] != s[l]
    ensures multiset(s) == multiset(Range(|s|))
  {
    var n := |s|;
    if n > 0 {
      var p := TopPresent(s);
      var left, right := s[..p], s[p + 1..];
      var s' := left + right;
      forall k | 0 <= k < |s'| ensures 0 <= s'[k] < n - 1 {
        var k' := if k < p then k else k + 1;
        assert s'[k] == s[k'];
      }
      forall k, l | 0 <= k < l < |s'| ensures s'[k] != s'[l] {
        var k' := if k < p then k else k + 1;
        var l' := if l < p then l else l + 1;
        assert s'[k] == s[k'] && s'[l] == s[l'];
      }
      DistinctIsPermutation(s');
      assert s == left + [n - 1] + right;
      assert multiset(s) == multiset(left) + multiset{n - 1} + multiset(right);
      assert multiset(s') == multiset(left) + multiset(right);
      assert Range(n) == Range(n - 1) + [n - 1];
    }
  }
}

/** `best_side_from_surface` (src/graph.py): the sides of the most nearly
    square grid with `S` cells, found by counting down from the integer square
    root to the first divisor. */
module Grid {
  import opened Sequences

  /** The integer square root: the largest `r` with `r * r <= s`. */
  function FloorSqrt(s: nat): (r: nat)
    ensures r * r <= s < (r + 1) * (r + 1)
  {
    if s == 0 then 0
    else
      var q := FloorSqrt(s - 1);
      if (q + 1) * (q + 1) <= s then
        SquareLess(q + 1, q + 2);
        q + 1
      else q
  }

  lemma SquareLess(a: nat, b: nat)
    requires a < b
    ensures a * a < b * b
  {
    assert a * a <= a * b;
    assert a * b < b * b;
  }

  lemma SquareAtMost(a: nat, b: nat)
    requires a <= b
    ensures a * a <= b * b
  {
    if a < b {
      SquareLess(a, b);
    }
  }

  /** The integer square root is the only `r` with `r * r <= s < (r + 1) * (r + 1)`. */
  lemma FloorSqrtUnique(s: nat, r: nat)
    requires r * r <= s < (r + 1) * (r + 1)
    ensures FloorSqrt(s) == r
  {
    var q := FloorSqrt(s);
    if q < r {
      SquareAtMost(q + 1, r);
    } else if r < q {
      SquareAtMost(r + 1, q);
    }
  }

  /** `(i, j)` is what the search returns for `S`: `i` is the largest divisor of
      `S` not above the integer square root, and `j` the matching cofactor. */
  predicate IsBestSide(S: nat, i: nat, j: nat)
  {
    1 <= i <= FloorSqrt(S) && S % i == 0 && j == S / i &&
    forall d :: i < d <= FloorSqrt(S) ==> S % d != 0
  }

  /** `best_side_from_surface(S)`: for `i` from `int(sqrt(S))` down to 1, return
      `(i, S // i)` at the first `i` that divides `S`; `None` when the loop
      never runs (`S == 0`). */
  method BestSideFromSurface(S: nat) returns (r: Option<(nat, nat)>)
    ensures r.Some? <==> S >= 1
    ensures r.Some? ==> IsBestSide(S, r.value.0, r.value.1)
  {
    var root := FloorSqrt(S);
    FloorSqrtPositive(S);
    assert S % 1 == 0;
    var i := root;
    while i > 0
      invariant i <= root
      invariant forall d :: i < d <= root ==> S % d != 0
      decreases i
    {
      if S % i == 0 {
        var j := S / i;
        return Some((i, j));
      }
      i := i - 1;
    }
    return None;
  }

  /** The sides multiply back to `S`, and the first side is the shorter one. */
  lemma BestSideIsFactorPair(S: nat, i: nat, j: nat)
    requires IsBestSide(S, i, j)
    ensures i * j == S && i <= j
  {
    var r := FloorSqrt(S);
    SquareAtMost(i, r);
    MulCancel(i, i, j);
  }

  /** At most one pair qualifies, so the search's answer is determined by `S`. */
  lemma BestSideUnique(S: nat, i: nat, j: nat, i': nat, j': nat)
    requires IsBestSide(S, i, j) && IsBestSide(S, i', j')
    ensures i == i' && j == j'
  {
  }

  /** A perfect square `k * k` gives the square grid `(k, k)`. */
  lemma BestSideOfSquare(k: nat, i: nat, j: nat)
    requires k >= 1 && IsBestSide(k * k, i, j)
    ensures i == k && j == k
  {
    SquareLess(k, k + 1);
    FloorSqrtUnique(k * k, k);
    ProductDivides(k, k);
  }

  lemma ProductDivides(a: nat, b: nat)
    requires a >= 1
    ensures (a * b) % a == 0 && (a * b) / a == b
  {
    var q, r := (a * b) / a, (a * b) % a;
    assert a * b == a * q + r && 0 <= r < a;
    assert a * (b - q) == r;
    MulSign(a, b - q);
  }

  /** Multiplying by a positive `a` keeps an integer at least one away from 0 at least `a` away. */
  lemma MulSign(a: int, c: int)
    requires a >= 1
    ensures c >= 1 ==> a * c >= a
    ensures c <= -1 ==> a * c <= -a
  {
    if c >= 1 {
      assert a * c == a + a * (c - 1);
      assert a * (c - 1) >= 0;
    } else if c <= -1 {
      assert a * c == -a + a * (c + 1);
      assert a * (c + 1) <= 0;
    }
  }

  lemma MulCancel(i: int, a: int, b: int)
    requires i >= 1 && i * a <= i * b
    ensures a <= b
  {
    assert i * (a - b) == i * a - i * b;
    MulSign(i, a - b);
  }

  lemma FloorSqrtPositive(s: nat)
    ensures s >= 1 ==> FloorSqrt(s) >= 1
  {
  }

  /** For `s >= 2` the integer square root is below `s`. */
  lemma FloorSqrtBelow(s: nat)
    requires s >= 2
    ensures FloorSqrt(s) < s
  {
    var r := FloorSqrt(s);
    SquareGrows(r, s);
  }

  lemma SquareGrows(r: nat, s: nat)
    ensures r >= s >= 2 ==> r * r > s
  {
    if r >= s >= 2 {
      MulSign(r, r - 1);
      assert r * (r - 1) == r * r - r;
    }
  }

  predicate IsPrime(p: nat)
  {
    p >= 2 && forall d :: 2 <= d < p ==> p % d != 0
  }

  /** A prime `p` only gives the line `(1, p)`. */
  lemma BestSideOfPrime(p: nat, i: nat, j: nat)
    requires IsPrime(p) && IsBestSide(p, i, j)
    ensures i == 1 && j == p
  {
    FloorSqrtBelow(p);
  }
}

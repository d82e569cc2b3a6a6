/** Products, quotients and wrap-around: the facts about integers that the proofs share. */
module Arithmetic {
  import opened Prelude

  lemma Scale(k: int, a: int, b: int)
    requires k >= 0 && a <= b
    ensures k * a <= k * b
  {
  }

  lemma Distribute(k: int, n: int)
    ensures k * (n + 1) == k * n + k
  {
  }

  /** A quotient is fixed by its bounds. */
  lemma QuotientIs(a: int, n: int, q: int)
    requires n > 0 && n * q <= a < n * (q + 1)
    ensures a / n == q
  {
    var k := a / n;
    assert n * k <= a < n * k + n;
    if k < q {
      Scale(n, k + 1, q);
    } else if k > q {
      Scale(n, q + 1, k);
    }
  }

  lemma {:induction false} SignedTurn(n: int, half: int)
    requires half > 0
    ensures Signed(n + 2 * half, half) == Signed(n, half)
    decreases if n < -half then -n else 0
  {
    if n < -half {
      assert Signed(n, half) == Signed(n + 2 * half, half);
    } else if n < half {
      assert Signed(n + 2 * half, half) == Signed(n, half);
    }
  }

  /** Wrapping at every addition is wrapping once. */
  lemma {:induction false} WrapOnce(n: int, k: int, half: int)
    requires half > 0
    ensures Signed(Signed(n, half) + k, half) == Signed(n + k, half)
    decreases if n >= half then n else if n < -half then -n else 0
  {
    if n >= half {
      WrapOnce(n - 2 * half, k, half);
      SignedTurn(n - 2 * half + k, half);
    } else if n < -half {
      WrapOnce(n + 2 * half, k, half);
      SignedTurn(n + k, half);
    }
  }

  /** Wrapping never makes a number larger, unless it is below the range. */
  lemma {:induction false} SignedBelow(n: int, half: int)
    requires half > 0 && n >= -half
    ensures Signed(n, half) <= n
    decreases if n >= half then n else 0
  {
    if n >= half {
      SignedBelow(n - 2 * half, half);
    }
  }
}

/** Trial division on 64-bit integers, and the numbers the request handler lets through to it. */
module Primes {
  import opened Prelude
  import opened Arithmetic

  const TWO_63 := 0x8000_0000_0000_0000
  const TWO_53 := 0x20_0000_0000_0000

  /** The largest i whose square is an int64. */
  const ROOT := 3037000499

  predicate IsInt64(n: int) {
    -TWO_63 <= n < TWO_63
  }

  ghost predicate IsPrime(n: int) {
    n > 1 && NoDivisorBelow(n, n)
  }

  ghost predicate NoDivisorBelow(n: int, limit: int) {
    forall d :: 1 < d < limit ==> n % d != 0
  }

  lemma WrapOfSquare(i: nat)
    ensures ToInt64(i * i) <= i * i
    ensures i <= ROOT ==> ToInt64(i * i) == i * i
  {
    Scale(i, 0, i);
    SignedBelow(i * i, TWO_63);
    if i <= ROOT {
      SquareMonotone(i, ROOT);
    }
  }

  lemma SquareMonotone(a: nat, b: nat)
    requires a <= b
    ensures a * a <= b * b
  {
  }

  /** A divisor beyond the root has a partner below it. */
  lemma NoLargeDivisor(n: int, i: int)
    requires n > 1 && i > 1 && i * i > n && NoDivisorBelow(n, i)
    ensures IsPrime(n)
  {
    forall d | 1 < d < n
      ensures n % d != 0
    {
      if d >= i {
        CoDivisor(n, d, i);
      }
    }
  }

  lemma CoDivisor(n: int, d: int, i: int)
    requires n > 1 && 1 < i <= d < n && i * i > n && NoDivisorBelow(n, i)
    ensures n % d != 0
  {
    var q := n / d;
    if n == d * q {
      CoDivisorSmall(n, d, q, i);
      Multiple(q, d);
    }
  }

  lemma CoDivisorSmall(n: int, d: int, q: int, i: int)
    requires n == d * q && 1 < i <= d < n && i * i > n
    ensures 1 < q < i
  {
    if q <= 1 {
      Scale(d, q, 1);
    }
    if q >= i {
      Scale(i, i, q);
      Scale(q, i, d);
    }
  }

  lemma Multiple(q: int, d: int)
    requires q > 0
    ensures (d * q) % q == 0
  {
    var n := d * q;
    var k, r := n / q, n % q;
    assert (d - k) * q == r;
    if d - k >= 1 {
      Scale(q, 1, d - k);
    } else if d - k <= -1 {
      Scale(q, d - k, -1);
    }
  }

  /** Numbers for which the loop never squares past int64. */
  predicate Admitted(n: int) {
    n < ROOT * ROOT || n % 2 == 0
  }

  /** The wrapped square of i is beyond n, which ends the loop. */
  predicate Stops(n: int, i: int) {
    ToInt64(i * i) > n
  }

  /** isPrime as written, wrap-around included. A true answer is always right. A prime is recognised exactly
      when the loop finds a stop before it divides n by itself; every admitted prime has one. */
  method TrialDivision(n: int) returns (prime: bool)
    requires IsInt64(n)
    ensures prime <==> IsPrime(n) && exists i :: 2 <= i <= n && Stops(n, i)
    ensures Admitted(n) ==> (prime <==> IsPrime(n))
  {
    if n <= 1 {
      return false;
    }
    var i := 2;
    WrapOfSquare(i);
    while ToInt64(i * i) <= n
      invariant 2 <= i <= n && NoDivisorBelow(n, i) && ToInt64(i * i) <= i * i
      invariant forall j :: 2 <= j < i ==> !Stops(n, j)
      invariant Admitted(n) ==> i <= ROOT && ToInt64(i * i) == i * i
      decreases n - i
    {
      assert !Stops(n, i);
      if n % i == 0 {
        if Admitted(n) {
          SmallerThanSquare(i, n);
          assert 1 < i < n;
        }
        return false;
      }
      assert i != n by { Multiple(n, 1); }
      NextStaysSmall(n, i);
      i := i + 1;
      WrapOfSquare(i);
    }
    assert Stops(n, i);
    NoLargeDivisor(n, i);
    return true;
  }

  lemma SmallerThanSquare(i: int, n: int)
    requires i >= 2 && i * i <= n
    ensures i < n
  {
    Scale(i, 2, i);
  }

  lemma NextStaysSmall(n: int, i: int)
    requires 2 <= i && n % i != 0 && NoDivisorBelow(n, i)
    ensures Admitted(n) && i <= ROOT && i * i <= n ==> i + 1 <= ROOT
  {
    if n % 2 != 0 && n < ROOT * ROOT && i >= ROOT {
      SquareMonotone(ROOT, i);
    }
  }

  // ---- The request handler ----

  function Pow2(e: nat): (p: nat)
    ensures p > 0
  {
    if e == 0 then 1 else 2 * Pow2(e - 1)
  }

  /** A float64: a 53-bit significand times a power of two. */
  datatype Double = Double(significand: int, exponent: int)

  predicate IsDouble(x: Double) {
    -TWO_53 < x.significand < TWO_53
  }

  /** The conversion int(x): towards zero. */
  function Truncated(x: Double): int {
    if x.exponent >= 0 then x.significand * Pow2(x.exponent)
    else if x.significand >= 0 then x.significand / Pow2(-x.exponent)
    else -(-x.significand / Pow2(-x.exponent))
  }

  /** The comparison x == float64(n), for n within the range of int64. */
  predicate Equals(x: Double, n: int) {
    if x.exponent >= 0 then x.significand * Pow2(x.exponent) == n else x.significand == n * Pow2(-x.exponent)
  }

  /** Every integer the test lets through is below 2^53, or even: the loop never overflows on it. */
  lemma WholeNumbersAdmitted(x: Double)
    requires IsDouble(x)
    ensures Admitted(Truncated(x))
  {
    var t := Truncated(x);
    if x.exponent > 0 {
      assert t == 2 * (x.significand * Pow2(x.exponent - 1));
    } else if x.exponent < 0 && x.significand >= 0 {
      QuotientBound(x.significand, Pow2(-x.exponent));
    } else if x.exponent < 0 {
      QuotientBound(-x.significand, Pow2(-x.exponent));
    }
  }

  lemma QuotientBound(a: nat, p: nat)
    requires p > 0
    ensures 0 <= a / p <= a
  {
    var q := a / p;
    if q > a {
      Scale(q, 1, p);
    }
  }

  /** The platform's conversion int(x). Out of range, some processors give the nearest int64 and others
      the smallest. */
  function Converted(x: Double, saturating: bool): (n: int)
    ensures IsInt64(n)
  {
    var t := Truncated(x);
    if IsInt64(t) then t else if saturating && t > 0 then TWO_63 - 1 else -TWO_63
  }

  /** The conversion float64(n) of such a result: only the largest int64 is not itself a float64. */
  function Back(n: int): int {
    if n == TWO_63 - 1 then TWO_63 else n
  }

  /** The answer to a request: prime exactly when the number is an integer and a prime one. */
  method Answer(x: Double, saturating: bool) returns (prime: bool)
    requires IsDouble(x)
    ensures prime <==> exists n :: Equals(x, n) && IsPrime(n)
  {
    var n := Converted(x, saturating);
    if Equals(x, Back(n)) {
      prime := TrialDivision(n);
    } else {
      prime := false;
    }
    ConversionDecides(x, n, saturating);
  }

  /** What the comparison leaves to trial division. */
  lemma ConversionDecides(x: Double, n: int, saturating: bool)
    requires IsDouble(x) && n == Converted(x, saturating)
    ensures Equals(x, Back(n)) ==> Admitted(n) || !IsPrime(n)
    ensures (Equals(x, Back(n)) && IsPrime(n)) <==> exists m :: Equals(x, m) && IsPrime(m)
  {
    WholeNumbersAdmitted(x);
    LargestIsComposite();
    forall m | Equals(x, m)
      ensures m == Truncated(x)
    {
      EqualsTruncated(x, m);
      EqualsOnce(x, m, Truncated(x));
    }
    if !IsInt64(Truncated(x)) {
      BigIsComposite(Truncated(x));
    }
  }

  /** The largest int64 is a multiple of 7. */
  lemma LargestIsComposite()
    ensures !IsPrime(TWO_63 - 1)
  {
    assert (TWO_63 - 1) % 7 == 0;
  }

  lemma BigIsComposite(n: int)
    requires Admitted(n) && !IsInt64(n)
    ensures !IsPrime(n)
  {
    assert n > 2 ==> n % 2 == 0;
  }

  lemma EqualsOnce(x: Double, m: int, n: int)
    requires Equals(x, m) && Equals(x, n)
    ensures m == n
  {
  }

  /** A double that equals some integer equals its own truncation. */
  lemma EqualsTruncated(x: Double, m: int)
    ensures Equals(x, m) ==> Equals(x, Truncated(x))
  {
    if Equals(x, m) && x.exponent < 0 {
      var p := Pow2(-x.exponent);
      if x.significand >= 0 {
        Multiple(p, m);
      } else {
        Multiple(p, -m);
        assert (-m) * p == -(m * p);
      }
    }
  }
}

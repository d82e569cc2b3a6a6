/** One session of the means server: timestamped prices and the mean over a time range. */
module Means {
  import opened Prelude
  import opened Arithmetic

  datatype Price = Price(timestamp: int32, price: int32)

  /** Go's division, towards zero. */
  function Quotient(a: int, b: int): int
    requires b > 0
  {
    if a >= 0 then a / b else -(-a / b)
  }

  predicate InRange(p: Price, minTime: int32, maxTime: int32) {
    minTime <= p.timestamp <= maxTime
  }

  /** The sum and the number of the prices in the range. */
  function Total(data: seq<Price>, minTime: int32, maxTime: int32): int {
    if data == [] then 0
    else
      var last := data[|data| - 1];
      Total(data[..|data| - 1], minTime, maxTime) + (if InRange(last, minTime, maxTime) then last.price else 0)
  }

  function Count(data: seq<Price>, minTime: int32, maxTime: int32): (n: nat)
    ensures n <= |data|
  {
    if data == [] then 0
    else
      Count(data[..|data| - 1], minTime, maxTime) + (if InRange(data[|data| - 1], minTime, maxTime) then 1 else 0)
  }

  /** The toward-zero mean of the selected prices, or 0. */
  function Mean(data: seq<Price>, minTime: int32, maxTime: int32): int {
    var n := Count(data, minTime, maxTime);
    if n == 0 then 0 else Quotient(Total(data, minTime, maxTime), n)
  }

  lemma {:induction false} TotalBounds(data: seq<Price>, minTime: int32, maxTime: int32, lo: int, hi: int)
    requires forall i :: 0 <= i < |data| && InRange(data[i], minTime, maxTime) ==> lo <= data[i].price <= hi
    ensures var n := Count(data, minTime, maxTime); lo * n <= Total(data, minTime, maxTime) <= hi * n
    decreases |data|
  {
    if data != [] {
      var init := data[..|data| - 1];
      TotalBounds(init, minTime, maxTime, lo, hi);
      Distribute(lo, Count(init, minTime, maxTime));
      Distribute(hi, Count(init, minTime, maxTime));
    }
  }

  lemma QuotientBetween(total: int, n: int, lo: int, hi: int)
    requires n > 0 && lo * n <= total <= hi * n
    ensures lo <= Quotient(total, n) <= hi
  {
    var q := Quotient(total, n);
    if q < lo {
      Below(total, n, q, lo);
    }
    if q > hi {
      Below(-total, n, -q, -hi);
    }
  }

  lemma Below(total: int, n: int, q: int, lo: int)
    requires n > 0 && q < lo && q == Quotient(total, n)
    ensures total < lo * n
  {
    var r := total - q * n;
    assert -n < r < n;
    assert lo * n >= (q + 1) * n by { Scale(n, q + 1, lo); }
    assert (q + 1) * n == q * n + n;
  }

  /** The mean lies between any bounds of the selected prices, so it always fits 32 bits. */
  lemma MeanBetween(data: seq<Price>, minTime: int32, maxTime: int32, lo: int, hi: int)
    requires Count(data, minTime, maxTime) > 0
    requires forall i :: 0 <= i < |data| && InRange(data[i], minTime, maxTime) ==> lo <= data[i].price <= hi
    ensures lo <= Mean(data, minTime, maxTime) <= hi
  {
    TotalBounds(data, minTime, maxTime, lo, hi);
    QuotientBetween(Total(data, minTime, maxTime), Count(data, minTime, maxTime), lo, hi);
  }

  /** One price more: it counts exactly when its time lies between the two times, both included. */
  lemma SelectedExactly(data: seq<Price>, p: Price, minTime: int32, maxTime: int32)
    ensures var selected := minTime <= p.timestamp && p.timestamp <= maxTime;
            && Total(data + [p], minTime, maxTime) == Total(data, minTime, maxTime) + (if selected then p.price else 0)
            && Count(data + [p], minTime, maxTime) == Count(data, minTime, maxTime) + (if selected then 1 else 0)
    ensures Total([], minTime, maxTime) == 0 && Count([], minTime, maxTime) == 0
  {
    assert (data + [p])[..|data|] == data;
  }

  /** The mean is 0 of no prices; otherwise it is the one number that, times the count, comes within less than one
      count of the total without going past it, whichever sign the total has. */
  lemma MeanExactly(data: seq<Price>, minTime: int32, maxTime: int32)
    ensures var mean, n := Mean(data, minTime, maxTime), Count(data, minTime, maxTime);
            var total := Total(data, minTime, maxTime);
            if n == 0 then mean == 0
            else if total >= 0 then n * mean <= total < n * (mean + 1) else n * (mean - 1) < total <= n * mean
  {
    var n, total := Count(data, minTime, maxTime), Total(data, minTime, maxTime);
    if n > 0 {
      TowardsZero(total, n);
    }
  }

  lemma TowardsZero(a: int, n: int)
    requires n > 0
    ensures var q := Quotient(a, n); if a >= 0 then n * q <= a < n * (q + 1) else n * (q - 1) < a <= n * q
  {
    var b := if a >= 0 then a else -a;
    var d := b / n;
    assert n * d <= b < n * d + n;
    Distribute(n, d);
    if a < 0 {
      assert n * (-d) == -(n * d);
      Distribute(n, -d - 1);
    }
  }

  // ---- Independence of the insertion order ----

  lemma {:induction false} TotalOfRemoved(data: seq<Price>, i: nat, minTime: int32, maxTime: int32)
    requires i < |data|
    ensures var rest := data[..i] + data[i + 1..];
            var in_ := InRange(data[i], minTime, maxTime);
            && Total(data, minTime, maxTime) == Total(rest, minTime, maxTime) + (if in_ then data[i].price else 0)
            && Count(data, minTime, maxTime) == Count(rest, minTime, maxTime) + (if in_ then 1 else 0)
    decreases |data|
  {
    var rest, init := data[..i] + data[i + 1..], data[..|data| - 1];
    if i == |data| - 1 {
      assert rest == init;
    } else {
      TotalOfRemoved(init, i, minTime, maxTime);
      assert rest[..|rest| - 1] == init[..i] + init[i + 1..];
    }
  }

  lemma RemovedMultiset(s: seq<Price>, i: nat)
    requires i < |s|
    ensures multiset(s) == multiset(s[..i] + s[i + 1..]) + multiset{s[i]}
  {
    assert s == s[..i] + [s[i]] + s[i + 1..];
  }

  /** Where the last element of one list sits in its permutation, and what is left without it. */
  lemma FindLast(a: seq<Price>, b: seq<Price>) returns (i: nat)
    requires multiset(a) == multiset(b) && a != []
    ensures i < |b| && b[i] == a[|a| - 1] && multiset(a[..|a| - 1]) == multiset(b[..i] + b[i + 1..])
  {
    var n := |a| - 1;
    RemovedMultiset(a, n);
    assert a[..n] + a[n + 1..] == a[..n];
    assert a[n] in multiset(b);
    i :| 0 <= i < |b| && b[i] == a[n];
    RemovedMultiset(b, i);
    var last := multiset{a[n]};
    assert multiset(a[..n]) == multiset(a) - last;
    assert multiset(b[..i] + b[i + 1..]) == multiset(b) - last;
  }

  /** The same readings in another order give the same mean. */
  lemma {:induction false} OrderIrrelevant(a: seq<Price>, b: seq<Price>, minTime: int32, maxTime: int32)
    requires multiset(a) == multiset(b)
    ensures Total(a, minTime, maxTime) == Total(b, minTime, maxTime)
    ensures Count(a, minTime, maxTime) == Count(b, minTime, maxTime)
    ensures Mean(a, minTime, maxTime) == Mean(b, minTime, maxTime)
    decreases |a|
  {
    if a == [] {
      assert |multiset(b)| == 0;
    } else {
      var i := FindLast(a, b);
      OrderIrrelevant(a[..|a| - 1], b[..i] + b[i + 1..], minTime, maxTime);
      TotalOfRemoved(b, i, minTime, maxTime);
    }
  }

  lemma WrappedNext(data: seq<Price>, i: nat, minTime: int32, maxTime: int32)
    requires i < |data|
    ensures ToInt64(Total(data[..i + 1], minTime, maxTime))
            == if InRange(data[i], minTime, maxTime)
               then ToInt64(ToInt64(Total(data[..i], minTime, maxTime)) + data[i].price)
               else ToInt64(Total(data[..i], minTime, maxTime))
    ensures ToInt32(Count(data[..i + 1], minTime, maxTime))
            == if InRange(data[i], minTime, maxTime)
               then ToInt32(ToInt32(Count(data[..i], minTime, maxTime)) + 1)
               else ToInt32(Count(data[..i], minTime, maxTime))
  {
    assert data[..i + 1][..i] == data[..i];
    WrapOnce(Total(data[..i], minTime, maxTime), data[i].price, 0x8000_0000_0000_0000);
    WrapOnce(Count(data[..i], minTime, maxTime), 1, 0x8000_0000);
  }

  /** The reply for an exact sum and count. */
  function Reply(total: int, n: nat): int32 {
    if ToInt32(n) > 0 then ToInt32(Quotient(ToInt64(total), ToInt32(n))) else 0
  }

  /** While the session holds fewer than 2^31 prices nothing wraps. */
  lemma ReplyIsMean(data: seq<Price>, minTime: int32, maxTime: int32)
    requires |data| < 0x8000_0000
    ensures Reply(Total(data, minTime, maxTime), Count(data, minTime, maxTime)) == Mean(data, minTime, maxTime)
  {
    NoWrap(data, minTime, maxTime);
    if Count(data, minTime, maxTime) > 0 {
      MeanBetween(data, minTime, maxTime, -0x8000_0000, 0x7fff_ffff);
    }
  }

  lemma NoWrap(data: seq<Price>, minTime: int32, maxTime: int32)
    requires |data| < 0x8000_0000
    ensures ToInt64(Total(data, minTime, maxTime)) == Total(data, minTime, maxTime)
    ensures ToInt32(Count(data, minTime, maxTime)) == Count(data, minTime, maxTime)
  {
    TotalBounds(data, minTime, maxTime, -0x8000_0000, 0x7fff_ffff);
  }

  class Session {
    var data: seq<Price>

    constructor ()
      ensures data == []
    {
      data := [];
    }

    /** An 'I' message. */
    method Insert(timestamp: int32, price: int32)
      modifies this
      ensures data == old(data) + [Price(timestamp, price)]
    {
      data := data + [Price(timestamp, price)];
    }

    /** A 'Q' message, with the 64-bit sum, the 32-bit count and the final conversion as they are. */
    method Query(minTime: int32, maxTime: int32) returns (avg: int32)
      ensures avg == Reply(Total(data, minTime, maxTime), Count(data, minTime, maxTime))
      ensures |data| < 0x8000_0000 ==> avg == Mean(data, minTime, maxTime)
    {
      var sum: int, count: int32 := 0, 0;
      var i := 0;
      while i < |data|
        invariant 0 <= i <= |data|
        invariant sum == ToInt64(Total(data[..i], minTime, maxTime))
        invariant count == ToInt32(Count(data[..i], minTime, maxTime))
      {
        WrappedNext(data, i, minTime, maxTime);
        if InRange(data[i], minTime, maxTime) {
          sum := ToInt64(sum + data[i].price);
          count := ToInt32(count + 1);
        }
        i := i + 1;
      }
      assert data[..i] == data;
      avg := 0;
      if count > 0 {
        avg := ToInt32(Quotient(sum, count));
      }
      if |data| < 0x8000_0000 {
        ReplyIsMean(data, minTime, maxTime);
      }
    }
  }
}

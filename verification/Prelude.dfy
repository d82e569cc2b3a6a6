/** Go's fixed-width integers, and the sequence operations the servers share. */
module Prelude {
  type byte = b: int | 0 <= b < 0x100
  type uint16 = n: int | 0 <= n < 0x1_0000
  type uint32 = n: int | 0 <= n < 0x1_0000_0000

  type int32 = n: int | -0x8000_0000 <= n < 0x8000_0000
  type int64 = n: int | -0x8000_0000_0000_0000 <= n < 0x8000_0000_0000_0000

  /** Go's conversions to these types. */
  function ToUint16(n: int): uint16 {
    n % 0x1_0000
  }

  function ToUint32(n: int): uint32 {
    n % 0x1_0000_0000
  }

  /** To a signed type of 2 * half values: whole turns around them are taken off. */
  function Signed(n: int, half: int): (r: int)
    requires half > 0
    ensures -half <= r < half
    decreases if n >= half then n else if n < -half then -n else 0
  {
    if n >= half then Signed(n - 2 * half, half)
    else if n < -half then Signed(n + 2 * half, half)
    else n
  }

  function ToInt32(n: int): int32 {
    Signed(n, 0x8000_0000)
  }

  function ToInt64(n: int): int64 {
    Signed(n, 0x8000_0000_0000_0000)
  }

  datatype Option<+T> = None | Some(value: T)

  predicate NoDup<T(==)>(s: seq<T>) {
    forall i, j :: 0 <= i < j < |s| ==> s[i] != s[j]
  }

  /** Go's slices.Index: the first position of x, or -1. */
  function IndexOf<T(==)>(s: seq<T>, x: T): (i: int)
    ensures i == -1 <==> x !in s
    ensures i != -1 ==> 0 <= i < |s| && s[i] == x && x !in s[..i]
  {
    if s == [] then -1
    else if s[0] == x then 0
    else
      var rest := IndexOf(s[1..], x);
      if rest == -1 then -1 else rest + 1
  }

  /** The value of append(s[:i], s[i+1:]...). */
  function RemoveAt<T>(s: seq<T>, i: nat): (r: seq<T>)
    requires i < |s|
    ensures |r| == |s| - 1
  {
    s[..i] + s[i + 1..]
  }

  /** A map lookup that yields Go's nil slice for a missing key. */
  function At<K, V>(m: map<K, seq<V>>, key: K): seq<V> {
    if key in m then m[key] else []
  }
}

/** The round-robin balancer of traffic/balancer.go: its state as a value, its fairness, and the mutable class. */
module Balancers {
  import opened Prelude
  import opened Arithmetic

  datatype Ring<T> = Ring(items: seq<T>, index: nat)

  datatype Op<T> = Add(item: T) | Remove(item: T) | Get | ResetIndex | Reset

  ghost predicate Valid<T>(r: Ring<T>) {
    && NoDup(r.items)
    && (if r.items == [] then r.index == 0 else r.index < |r.items|)
  }

  function Included<T(==)>(r: Ring<T>, item: T): Ring<T> {
    if item in r.items then r else r.(items := r.items + [item])
  }

  /** The guard compares the new length with the index the way the source does: len >= index resets. */
  function Excluded<T(==)>(r: Ring<T>, item: T): Ring<T> {
    var pos := IndexOf(r.items, item);
    if pos == -1 then r
    else
      var items := RemoveAt(r.items, pos);
      Ring(items, if |items| >= r.index then 0 else r.index)
  }

  /** The index after a Get: one on, and from the last position back to the front. */
  function Rotated<T>(r: Ring<T>): Ring<T> {
    if r.items == [] then r
    else r.(index := if r.index + 1 == |r.items| then 0 else r.index + 1)
  }

  function Apply<T(==)>(r: Ring<T>, op: Op<T>): Ring<T> {
    match op
    case Add(x) => Included(r, x)
    case Remove(x) => Excluded(r, x)
    case Get => Rotated(r)
    case ResetIndex => r.(index := 0)
    case Reset => Ring([], 0)
  }

  /** How often a run of operations hands out x. */
  ghost function Services<T>(r: Ring<T>, ops: seq<Op<T>>, x: T): nat
    decreases |ops|
  {
    if ops == [] then 0
    else Now(r, ops[0], x) + Services(Apply(r, ops[0]), ops[1..], x)
  }

  ghost predicate Serves<T>(r: Ring<T>, op: Op<T>, x: T) {
    op.Get? && r.index < |r.items| && r.items[r.index] == x
  }

  ghost function Now<T>(r: Ring<T>, op: Op<T>, x: T): nat {
    if Serves(r, op, x) then 1 else 0
  }

  lemma ApplyKeepsValid<T>(r: Ring<T>, op: Op<T>)
    requires Valid(r)
    ensures Valid(Apply(r, op))
  {
    if op.Remove? && op.item in r.items {
      var pos := IndexOf(r.items, op.item);
      assert Apply(r, op).items == r.items[..pos] + r.items[pos + 1..];
    }
  }

  /** Membership after a removal is exactly the others, and the rotation always restarts at the front:
      on a valid balancer the reset guard never fails. */
  lemma RemoveRestarts<T>(r: Ring<T>, x: T)
    requires Valid(r)
    ensures forall y :: y in Excluded(r, x).items <==> y in r.items && y != x
    ensures Excluded(r, x).index == if x in r.items then 0 else r.index
  {
    if x in r.items {
      var pos := IndexOf(r.items, x);
      var items := Excluded(r, x).items;
      assert items == r.items[..pos] + r.items[pos + 1..];
      forall y | y in r.items && y != x
        ensures y in items
      {
        var k :| 0 <= k < |r.items| && r.items[k] == y;
        assert items[if k < pos then k else k - 1] == y;
      }
    }
  }

  function Gets<T>(k: nat): seq<Op<T>> {
    if k == 0 then [] else [Get] + Gets(k - 1)
  }

  /** How many Gets come before the one that serves position p. */
  ghost function Ahead<T>(r: Ring<T>, p: nat): nat
    requires Valid(r) && p < |r.items|
  {
    if r.index <= p then p - r.index else p + |r.items| - r.index
  }

  lemma DivMonotone(a: int, b: int, n: int)
    requires n > 0 && a <= b
    ensures a / n <= b / n
  {
    if b / n + 1 <= a / n {
      Scale(n, b / n + 1, a / n);
    }
  }

  lemma Successor(i: nat, n: nat)
    requires i < n
    ensures (i + 1) % n == if i + 1 == n then 0 else i + 1
  {
  }

  /** The share of the member at position p in k consecutive Gets, as bounds that fix it. */
  lemma {:induction false} ShareBounds<T>(r: Ring<T>, k: nat, p: nat)
    requires Valid(r) && p < |r.items|
    ensures var n, c := |r.items|, Services(r, Gets(k), r.items[p]);
            n * c <= k + n - 1 - Ahead(r, p) < n * (c + 1)
    decreases k
  {
    var n, x := |r.items|, r.items[p];
    if k != 0 {
      var next := Rotated(r);
      ApplyKeepsValid(r, Get);
      ShareBounds(next, k - 1, p);
      assert Gets<T>(k)[1..] == Gets<T>(k - 1);
      var c := Services(next, Gets(k - 1), x);
      Distribute(n, c);
      Distribute(n, c + 1);
      if p == r.index {
        assert Serves(r, Get, x) && Ahead(next, p) == n - 1;
      } else {
        assert !Serves(r, Get, x) && Ahead(next, p) == Ahead(r, p) - 1;
      }
    }
  }

  /** The exact share of the member at position p in k consecutive Gets. */
  lemma ExactShare<T>(r: Ring<T>, k: nat, p: nat)
    requires Valid(r) && p < |r.items|
    ensures Services(r, Gets(k), r.items[p]) == (k + |r.items| - 1 - Ahead(r, p)) / |r.items|
  {
    ShareBounds(r, k, p);
    QuotientIs(k + |r.items| - 1 - Ahead(r, p), |r.items|, Services(r, Gets(k), r.items[p]));
  }

  /** Without Add or Remove, k Gets serve every member floor(k/n) or ceil(k/n) times. */
  lemma FairShare<T>(r: Ring<T>, k: nat, x: T)
    requires Valid(r) && x in r.items
    ensures k / |r.items| <= Services(r, Gets(k), x) <= (k + |r.items| - 1) / |r.items|
  {
    var n := |r.items|;
    var p :| 0 <= p < n && r.items[p] == x;
    ExactShare(r, k, p);
    var a := Ahead(r, p);
    RoundingBounds(k, n, a);
  }

  lemma RoundingBounds(k: nat, n: nat, a: nat)
    requires a < n
    ensures k / n <= (k + n - 1 - a) / n <= (k + n - 1) / n
  {
    DivMonotone(k, k + n - 1 - a, n);
    DivMonotone(k + n - 1 - a, k + n - 1, n);
  }

  ghost function After<T>(r: Ring<T>, ops: seq<Op<T>>): Ring<T>
    decreases |ops|
  {
    if ops == [] then r else After(Apply(r, ops[0]), ops[1..])
  }

  // ---- Removals ----

  /** The guard a removal of a present member has to meet to keep the order of the turn. */
  predicate KeepsTurn<T(==)>(r: Ring<T>, z: T)
    requires r.index < |r.items|
  {
    || r.index == 0
    || (r.index == 1 && r.items[0] == z)
    || (r.index == |r.items| - 1 && r.items[r.index] == z)
  }

  /** Who is due once z is gone: the member at the index or, if that is z, the one after it. */
  function Due<T(==)>(r: Ring<T>, z: T): T
    requires r.index < |r.items|
  {
    if r.items[r.index] != z then r.items[r.index]
    else if r.index + 1 == |r.items| then r.items[0]
    else r.items[r.index + 1]
  }

  lemma FrontAfterRemoval<T>(r: Ring<T>, z: T)
    requires Valid(r) && z in r.items && |r.items| > 1
    ensures var r' := Excluded(r, z);
            r'.index == 0 && r'.items != [] && r'.items[0] == if r.items[0] == z then r.items[1] else r.items[0]
  {
    RemoveRestarts(r, z);
    var pos := IndexOf(r.items, z);
    assert Excluded(r, z).items == r.items[..pos] + r.items[pos + 1..];
  }

  /** A removal, of any member, leaves the right one next in turn exactly when it meets the guard. */
  lemma RemoveKeepsTurn<T>(r: Ring<T>, z: T)
    requires Valid(r) && z in r.items && |r.items| > 1
    ensures var r' := Excluded(r, z);
            r'.index < |r'.items| && (r'.items[r'.index] == Due(r, z) <==> KeepsTurn(r, z))
  {
    FrontAfterRemoval(r, z);
  }

  /** Is position q served before position p when the rotation stands at index i? */
  predicate ComesFirst(i: nat, p: nat, q: nat) {
    if i <= p then i <= q < p else q >= i || q < p
  }

  ghost predicate Precedes<T>(r: Ring<T>, x: T, y: T)
    requires x in r.items && y in r.items
  {
    ComesFirst(r.index, IndexOf(r.items, x), IndexOf(r.items, y))
  }

  lemma PositionIs<T>(items: seq<T>, p: nat)
    requires NoDup(items) && p < |items|
    ensures IndexOf(items, items[p]) == p
  {
  }

  /** Adds, Gets, and Removes of members other than x and y that meet the guard. */
  ghost predicate Gentle<T>(r: Ring<T>, ops: seq<Op<T>>, x: T, y: T)
    decreases |ops|
  {
    ops == [] || (GentleOp(r, ops[0], x, y) && Gentle(Apply(r, ops[0]), ops[1..], x, y))
  }

  ghost predicate GentleOp<T>(r: Ring<T>, op: Op<T>, x: T, y: T) {
    match op
    case Add(_) => true
    case Get => true
    case Remove(z) => z != x && z != y && (z in r.items && r.index < |r.items| ==> KeepsTurn(r, z))
    case _ => false
  }

  /** In particular any run of Adds and Gets is gentle. */
  lemma {:induction false} AddsAreGentle<T>(r: Ring<T>, ops: seq<Op<T>>, x: T, y: T)
    requires forall k :: 0 <= k < |ops| ==> ops[k].Add? || ops[k].Get?
    ensures Gentle(r, ops, x, y)
    decreases |ops|
  {
    if ops != [] {
      AddsAreGentle(Apply(r, ops[0]), ops[1..], x, y);
    }
  }

  /** Where a member stands once another one is cut out. */
  lemma PositionAfterRemoval<T>(r: Ring<T>, z: T, x: T)
    requires Valid(r) && z in r.items && x in r.items && x != z
    ensures x in Excluded(r, z).items
    ensures var p, pos := IndexOf(r.items, x), IndexOf(r.items, z);
            IndexOf(Excluded(r, z).items, x) == if p < pos then p else p - 1
  {
    var p, pos := IndexOf(r.items, x), IndexOf(r.items, z);
    var items := Excluded(r, z).items;
    ApplyKeepsValid(r, Remove(z));
    assert items == r.items[..pos] + r.items[pos + 1..];
    var p' := if p < pos then p else p - 1;
    assert items[p'] == x;
    PositionIs(items, p');
  }

  /** A gentle operation that does not serve them leaves the order of two members as it is. */
  lemma OrderStays<T>(r: Ring<T>, op: Op<T>, x: T, y: T)
    requires Valid(r) && x in r.items && y in r.items && x != y && GentleOp(r, op, x, y) && !op.Get?
    ensures var r' := Apply(r, op); x in r'.items && y in r'.items && (Precedes(r', x, y) <==> Precedes(r, x, y))
  {
    if op.Remove? && op.item in r.items {
      RemoveRestarts(r, op.item);
      PositionAfterRemoval(r, op.item, x);
      PositionAfterRemoval(r, op.item, y);
      PositionIs(r.items, 0);
      PositionIs(r.items, r.index);
    } else if op.Add? {
      var r' := Apply(r, op);
      ApplyKeepsValid(r, op);
      PositionIs(r'.items, IndexOf(r.items, x));
      PositionIs(r'.items, IndexOf(r.items, y));
    }
  }

  lemma {:induction false} ServedBefore<T>(r: Ring<T>, ops: seq<Op<T>>, x: T, y: T)
    requires Valid(r) && x in r.items && y in r.items && x != y
    requires Gentle(r, ops, x, y) && Services(r, ops, x) == 0 && Serves(After(r, ops), Get, x)
    ensures Services(r, ops, y) == if Precedes(r, x, y) then 1 else 0
    decreases |ops|
  {
    if ops == [] {
      PositionIs(r.items, r.index);
    } else {
      var next := Apply(r, ops[0]);
      ApplyKeepsValid(r, ops[0]);
      if ops[0].Get? {
        PositionIs(r.items, r.index);
        assert !Serves(r, ops[0], x);
        assert Serves(r, ops[0], y) <==> r.index == IndexOf(r.items, y);
      } else {
        OrderStays(r, ops[0], x, y);
      }
      ServedBefore(next, ops[1..], x, y);
    }
  }

  /** Adds and guarded Removes of other members interleaved: between two consecutive services of x, every
      other member that stays throughout is served exactly once. */
  lemma OncePerTurn<T>(r: Ring<T>, between: seq<Op<T>>, x: T, y: T)
    requires Valid(r) && Serves(r, Get, x)
    requires Gentle(Rotated(r), between, x, y) && Services(Rotated(r), between, x) == 0
    requires Serves(After(Rotated(r), between), Get, x)
    requires y in r.items && y != x
    ensures Services(Rotated(r), between, y) == 1
  {
    ApplyKeepsValid(r, Get);
    PositionIs(r.items, r.index);
    ServedBefore(Rotated(r), between, x, y);
  }

  lemma {:induction false} ServicesConcat<T>(r: Ring<T>, a: seq<Op<T>>, b: seq<Op<T>>, x: T)
    ensures Services(r, a + b, x) == Services(r, a, x) + Services(After(r, a), b, x)
    ensures After(r, a + b) == After(After(r, a), b)
    decreases |a|
  {
    if a == [] {
      assert a + b == b;
    } else {
      assert (a + b)[1..] == a[1..] + b;
      ServicesConcat(Apply(r, a[0]), a[1..], b, x);
    }
  }

  /** Gets that do not reach the end walk along the members. */
  lemma {:induction false} Walk<T>(items: seq<T>, p: nat, k: nat, q: nat)
    requires NoDup(items) && p + k < |items| && q < |items|
    ensures After(Ring(items, p), Gets(k)) == Ring(items, p + k)
    ensures Services(Ring(items, p), Gets(k), items[q]) == if p <= q < p + k then 1 else 0
    decreases k
  {
    if k > 0 {
      assert Gets<T>(k)[1..] == Gets<T>(k - 1);
      Walk(items, p + 1, k - 1, q);
      assert Serves(Ring(items, p), Op.Get, items[q]) <==> p == q;
    }
  }

  /** The Gets that bring the rotation from position p to r, then the removal of z, then one more Get. */
  ghost function AcrossRemoval<T>(r: Ring<T>, p: nat, z: T): seq<Op<T>>
    requires p <= r.index
  {
    Gets(r.index - p) + [Remove(z), Get]
  }

  /** And a removal that misses the guard always breaks a turn: there is a member f that this turn has served
      already and that is served again, while the member that is due, there throughout, is not served. */
  lemma UnguardedRemoveBreaksTurn<T>(r: Ring<T>, z: T) returns (f: T)
    requires Valid(r) && z in r.items && |r.items| > 1 && !KeepsTurn(r, z)
    ensures f in Excluded(r, z).items && Due(r, z) in Excluded(r, z).items && f != Due(r, z)
    ensures var p := IndexOf(r.items, f);
            && 0 <= p < r.index
            && Services(Ring(r.items, p), AcrossRemoval(r, p, z), f) == 2
            && Services(Ring(r.items, p), AcrossRemoval(r, p, z), Due(r, z)) == 0
  {
    var due, r' := Due(r, z), Excluded(r, z);
    var d := if r.items[r.index] != z then r.index else r.index + 1;
    FrontAfterRemoval(r, z);
    RemoveRestarts(r, z);
    f := r'.items[0];
    var p := if r.items[0] == z then 1 else 0;
    PositionIs(r.items, p);
    var start, gets := Ring(r.items, p), Gets<T>(r.index - p);
    Walk(r.items, p, r.index - p, p);
    Walk(r.items, p, r.index - p, d);
    ServicesConcat(start, gets, [Remove(z), Get], f);
    ServicesConcat(start, gets, [Remove(z), Get], due);
    RemoveThenGet(r, z, f);
    RemoveThenGet(r, z, due);
  }

  lemma RemoveThenGet<T>(r: Ring<T>, z: T, x: T)
    ensures Services(r, [Remove(z), Get], x) == Now(Excluded(r, z), Get, x)
  {
    assert [Op.Remove(z), Op.Get][1..] == [Op.Get];
    assert Services(Excluded(r, z), [Get], x) == Now(Excluded(r, z), Get, x) + Services(Rotated(Excluded(r, z)), [], x);
  }

  lemma ThreeOps<T>(r: Ring<T>, a: Op<T>, b: Op<T>, c: Op<T>, x: T)
    ensures var r1 := Apply(r, a); var r2 := Apply(r1, b);
            Services(r, [a, b, c], x) == Now(r, a, x) + Now(r1, b, x) + Now(r2, c, x)
  {
    assert [a, b, c][1..] == [b, c] && [b, c][1..] == [c];
    var r2 := Apply(Apply(r, a), b);
    assert Services(r2, [c], x) == Now(r2, c, x) + Services(Apply(r2, c), [], x);
  }

  /** A Remove between two services breaks the turn order: 1 is served by both Gets while 3,
      present throughout, waits. */
  lemma RemoveBreaksTurns()
    ensures var ops := [Op.Get, Op.Remove(2), Op.Get];
            var r := Ring([1, 2, 3], 0);
            Services(r, ops, 1) == 2 && Services(r, ops, 3) == 0
  {
    var r, r1 := Ring([1, 2, 3], 0), Ring([1, 2, 3], 1);
    ThreeOps(r, Get, Remove(2), Get, 1);
    ThreeOps(r, Get, Remove(2), Get, 3);
    assert Apply(r, Get) == r1;
    assert IndexOf([1, 2, 3], 2) == 1 by { assert r1.items[1] == 2 && r1.items[0] != 2; }
    assert Excluded(r1, 2).items == [1] + [3];
    assert Excluded(r1, 2).index == 0;
  }

  class Balancer<T(==)> {
    var items: seq<T>
    var index: nat

    ghost function View(): Ring<T>
      reads this
    {
      Ring(items, index)
    }

    constructor ()
      ensures View() == Ring([], 0)
    {
      items, index := [], 0;
    }

    method Add(item: T)
      modifies this
      ensures View() == Included(old(View()), item)
    {
      var pos := IndexOf(items, item);
      if pos != -1 {
        return;
      }
      items := items + [item];
    }

    method Remove(item: T)
      modifies this
      ensures View() == Excluded(old(View()), item)
    {
      if |items| == 0 {
        return;
      }
      var pos := IndexOf(items, item);
      if pos == -1 {
        return;
      }
      items := RemoveAt(items, pos);
      if |items| >= index {
        index := 0;
      }
    }

    method Len() returns (n: nat)
      ensures n == |View().items|
    {
      n := |items|;
    }

    method Get() returns (item: Option<T>)
      requires Valid(View())
      modifies this
      ensures View() == Rotated(old(View())) && Valid(View())
      ensures item == if old(items) == [] then None else Some(old(items[index]))
    {
      if |items| == 0 {
        return None;
      }
      item := Some(items[index]);
      Successor(index, |items|);
      index := (index + 1) % |items|;
    }

    method Index() returns (i: nat)
      ensures i == View().index
    {
      i := index;
    }

    method ResetIndex()
      modifies this
      ensures View() == old(View()).(index := 0)
    {
      index := 0;
    }

    method Reset()
      modifies this
      ensures View() == Ring([], 0)
    {
      ResetIndex();
      items := [];
    }
  }
}

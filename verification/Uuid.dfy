/** The 16-byte ids of the database, and the order orderUUIDs puts them in. */
module Uuid {
  type Byte = b: int | 0 <= b < 256

  /** bytes.Compare(a, b) < 0. */
  predicate Less(a: seq<Byte>, b: seq<Byte>) {
    if b == [] then false
    else if a == [] then true
    else a[0] < b[0] || (a[0] == b[0] && Less(a[1..], b[1..]))
  }

  /** The number a byte string spells, most significant byte first. */
  function Value(a: seq<Byte>): nat {
    if a == [] then 0 else a[0] * Pow256(|a| - 1) + Value(a[1..])
  }

  function Pow256(n: nat): (p: nat)
    ensures p >= 1
  {
    if n == 0 then 1 else 256 * Pow256(n - 1)
  }

  lemma MulStep(x: nat, y: nat, p: nat)
    requires x <= y
    ensures x * p <= y * p
    ensures (x + 1) * p == x * p + p
  {
  }

  lemma {:induction false} ValueBound(a: seq<Byte>)
    ensures Value(a) < Pow256(|a|)
  {
    if a != [] {
      ValueBound(a[1..]);
      MulStep(a[0], 255, Pow256(|a| - 1));
    }
  }

  /** On strings of one length, such as UUIDs, the byte order is the numeric
      order. It is therefore a strict total order in which only equal ids tie. */
  lemma {:induction false} LessIsNumericOrder(a: seq<Byte>, b: seq<Byte>)
    requires |a| == |b|
    ensures Less(a, b) <==> Value(a) < Value(b)
    ensures a == b <==> Value(a) == Value(b)
  {
    if a != [] {
      LessIsNumericOrder(a[1..], b[1..]);
      ValueBound(a[1..]);
      ValueBound(b[1..]);
      var p := Pow256(|a| - 1);
      if a[0] < b[0] {
        MulStep(a[0] + 1, b[0], p);
        MulStep(a[0], a[0], p);
      } else if b[0] < a[0] {
        MulStep(b[0] + 1, a[0], p);
        MulStep(b[0], b[0], p);
      }
      assert a == [a[0]] + a[1..] && b == [b[0]] + b[1..];
    }
  }

  /** The canonical locking order of two container ids. */
  function OrderUuids(a: seq<Byte>, b: seq<Byte>): (r: (seq<Byte>, seq<Byte>)) {
    if Less(a, b) then (a, b) else (b, a)
  }

  /** Whatever order the caller names two ids in, orderUUIDs returns the same
      pair, and it is the numerically ascending one. */
  lemma OrderIsCanonical(a: seq<Byte>, b: seq<Byte>)
    requires |a| == |b|
    ensures OrderUuids(a, b) == OrderUuids(b, a)
    ensures Value(OrderUuids(a, b).0) <= Value(OrderUuids(a, b).1)
    ensures multiset{OrderUuids(a, b).0, OrderUuids(a, b).1} == multiset{a, b}
  {
    LessIsNumericOrder(a, b);
    LessIsNumericOrder(b, a);
  }
}

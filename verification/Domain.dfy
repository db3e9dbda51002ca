/** Value objects of internal/domain: rectangles in millimetres and integer
    money. Amounts carry no currency here. */
module Domain {
  datatype Dimension = Dimension(length: int, width: int) {
    function Area(): int { length * width }

    predicate FitsInside(outer: Dimension) {
      length <= outer.length && width <= outer.width
    }

    predicate Valid() { length > 0 && width > 0 }
  }

  function Abs(n: int): nat { if n < 0 then -n else n }

  /** Integer division of Go and of SQL bigint: by magnitude and sign. */
  function TruncDiv(n: int, d: int): int
    requires d != 0
  {
    if d < 0 then TruncDivPos(-n, -d) else TruncDivPos(n, d)
  }

  function TruncDivPos(n: int, d: int): int
    requires d > 0
  {
    if n < 0 then -(-n / d) else n / d
  }

  /** It truncates toward zero: the remainder is smaller than the divisor and
      has the sign of the dividend. */
  lemma TruncatesTowardZero(n: int, d: int) returns (r: int)
    requires d != 0
    ensures n == TruncDiv(n, d) * d + r
    ensures Abs(r) < Abs(d) && (r > 0 ==> n > 0) && (r < 0 ==> n < 0)
  {
    if d < 0 {
      var r' := TruncatesPos(-n, -d);
      NegProduct(TruncDivPos(-n, -d), d);
      r := -r';
    } else {
      r := TruncatesPos(n, d);
    }
  }

  lemma TruncatesPos(n: int, d: int) returns (r: int)
    requires d > 0
    ensures n == TruncDivPos(n, d) * d + r
    ensures -d < r < d && (r > 0 ==> n > 0) && (r < 0 ==> n < 0)
  {
    var rest := MagnitudeRemainder(n, d);
    r := if n < 0 then -rest else rest;
  }

  lemma MagnitudeRemainder(n: int, d: int) returns (rest: int)
    requires d > 0
    ensures TruncDivPos(n, d) * d == if n < 0 then n + rest else n - rest
    ensures 0 <= rest < d && rest <= Abs(n)
  {
    var q: int;
    q, rest := QuotientRemainder(Abs(n), d);
    if n < 0 { SignedProduct(TruncDivPos(n, d), q, d); }
  }

  lemma SignedProduct(t: int, q: int, d: int)
    requires t == -q
    ensures t * d == -(q * d)
  {
  }

  lemma QuotientRemainder(a: int, b: int) returns (q: int, r: int)
    requires 0 <= a && 0 < b
    ensures q == a / b && a == q * b + r && 0 <= r < b && r <= a
  {
    q, r := a / b, a % b;
  }

  lemma TruncIsOdd(n: int, d: int)
    requires d > 0
    ensures TruncDiv(-n, d) == -TruncDiv(n, d)
  {
    if n == 0 {
      ZeroDiv(d);
    } else if n > 0 {
      assert -(-n) == n;
    }
  }

  lemma ZeroDiv(d: int)
    requires d > 0
    ensures 0 / d == 0
  {
  }

  lemma NegProduct(q: int, d: int)
    ensures (-q) * d == -(q * d)
    ensures q * (-d) == -(q * d)
    ensures (-q) * (-d) == q * d
  {
  }

  /** Money.Scale on amounts: a zero denominator leaves the amount alone. */
  function Scale(amount: int, numerator: int, denominator: int): int {
    if denominator == 0 then amount else TruncDiv(amount * numerator, denominator)
  }

  lemma ValidArea(d: Dimension)
    requires d.Valid()
    ensures d.Area() > 0
  {
  }

  lemma {:induction false} MulMono(a: int, b: int, c: int)
    requires a <= b && 0 <= c
    ensures c * a <= c * b
  {
  }
}

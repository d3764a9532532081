/** Integer helpers shared by the index calculators and the boxing builders. */
module IntArith {

  /** The C++ `/` on signed integers: the quotient is truncated toward zero. */
  function DivTrunc(a: int, b: int): int
    requires b != 0
  {
    if a >= 0 then (if b > 0 then a / b else -(a / -b))
    else (if b > 0 then -((-a) / b) else (-a) / (-b))
  }

  /** Product of the entries; 1 for the empty sequence (the element count of a shape). */
  function Product(s: seq<int>): int
  {
    if s == [] then 1 else s[0] * Product(s[1..])
  }

  lemma {:induction false} ProductPositive(s: seq<int>)
    requires forall k :: 0 <= k < |s| ==> s[k] > 0
    ensures Product(s) > 0
  {
    if s != [] {
      ProductPositive(s[1..]);
      MulPositive(s[0], Product(s[1..]));
    }
  }

  lemma MulPositive(a: int, b: int)
    requires a > 0 && b > 0
    ensures a * b > 0
  {
  }

  lemma MulMonotone(a: int, b: int, c: int)
    requires a <= b && c >= 0
    ensures a * c <= b * c
  {
    assert b * c - a * c == (b - a) * c;
  }

  /** Euclidean division by a positive divisor has exactly one quotient and remainder. */
  lemma DivModUnique(p: int, q: int, r: int, d: int)
    requires d > 0 && 0 <= r < d && p == q * d + r
    ensures p / d == q && p % d == r
  {
    var q', r' := p / d, p % d;
    assert p == q' * d + r';
    assert (q - q') * d == r' - r;
    if q > q' {
      MulMonotone(1, q - q', d);
    } else if q < q' {
      MulMonotone(1, q' - q, d);
    }
  }
}

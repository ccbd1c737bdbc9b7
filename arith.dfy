/** Facts about Euclidean division by a positive divisor, proved once for the time formats. */
module Arith {

  /** Quotient and remainder are determined by the division identity. */
  lemma DivModUnique(x: int, b: int, q: int, r: int)
    requires b > 0 && 0 <= r < b && x == q * b + r
    ensures x / b == q && x % b == r
  {
    var q', r' := x / b, x % b;
    if q' > q {
      MulStep(q, q', b);
    } else if q' < q {
      MulStep(q', q, b);
    }
  }

  lemma MulStep(a: int, c: int, b: int)
    requires a < c && b >= 0
    ensures a * b + b <= c * b
  {
    assert c * b - a * b - b == (c - a - 1) * b;
  }

  /** Taking one divisor off: (x - b) / b + 1 == x / b. */
  lemma DivShift(x: nat, b: nat)
    requires b > 0 && x >= b
    ensures (x - b) / b + 1 == x / b
  {
    var q, r := x / b, x % b;
    DivModUnique(x - b, b, q - 1, r);
  }
}

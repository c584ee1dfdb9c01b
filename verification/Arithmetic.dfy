/** Multiplication and division, for the modules that count in pages, slots or blocks. */
module Arithmetic {

  function Min(a: nat, b: nat): nat {
    if a <= b then a else b
  }

  /** An index into a ring of `size` places, brought back once it has run past the end. */
  function Wrap(i: nat, size: nat): nat {
    if i >= size then i - size else i
  }

  lemma MulAtLeast(k: int, d: nat)
    requires d > 0
    ensures k >= 1 ==> k * d >= d
    ensures k <= -1 ==> k * d <= 0 - d
  {
  }

  lemma Quotient(x: int, q: int, r: int, d: nat)
    requires x == q * d + r && 0 <= r < d
    ensures x / d == q && x % d == r
  {
    var q', r' := x / d, x % d;
    assert x == q' * d + r';
    assert (q - q') * d == r' - r;
    MulAtLeast(q - q', d);
  }
}

/**
 Arithmetic the models share: machine words, smaller and larger, subtraction that stops at
 zero, powers of two, and the order of products and quotients.
 */
module Numbers {
  /** How many numbers a 64-bit word holds, and the largest of them. */
  const WORD: nat := 0x1_0000_0000_0000_0000
  const U64_MAX: nat := WORD - 1

  function Min(a: int, b: int): int { if a < b then a else b }

  function Max(a: int, b: int): int { if a < b then b else a }

  function Monus(a: nat, b: nat): nat { if a <= b then 0 else a - b }

  function Pow2(n: nat): (p: nat)
    ensures p >= 1
  {
    if n == 0 then 1 else 2 * Pow2(n - 1)
  }

  predicate Increasing(xs: seq<nat>) {
    forall i, j | 0 <= i < j < |xs| :: xs[i] < xs[j]
  }

  lemma NextProduct(a: int, c: int)
    ensures (a + 1) * c == a * c + c
  {
  }

  /** Products by one factor are in the order of the other, and at least that factor apart. */
  lemma {:induction false} ProductOrder(a: int, b: int, c: nat)
    ensures a <= b ==> a * c <= b * c
    ensures a < b ==> a * c + c <= b * c
    decreases b - a
  {
    if a < b {
      ProductOrder(a, b - 1, c);
      NextProduct(b - 1, c);
    }
  }

  lemma QuotientAround(x: nat, d: nat)
    requires d >= 1
    ensures x / d * d <= x < x / d * d + d
  {
  }
}

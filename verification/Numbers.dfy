/** Small arithmetic shared by the other modules. */
module Numbers {

  function Min(a: int, b: int): int { if a <= b then a else b }

  function Max(a: int, b: int): int { if a >= b then a else b }

  lemma Distribute(n: nat, m: nat)
    requires n > 0
    ensures n * m == (n - 1) * m + m
  {
  }
}

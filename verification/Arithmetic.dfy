/** The few facts of multiplication and division that several proofs need. */
module Arithmetic {

  lemma MulMonotone(p: nat, a: int, b: int)
    requires a <= b
    ensures p * a <= p * b
  {
    assert p * b == p * a + p * (b - a);
  }

  /** Division by `p` counts the multiples of `p` that fit. */
  lemma DivAtLeast(a: nat, p: nat, n: nat)
    requires p > 0
    ensures p * n <= a <==> n <= a / p
  {
    assert a == p * (a / p) + a % p;
    if n <= a / p {
      MulMonotone(p, n, a / p);
    } else {
      MulMonotone(p, a / p + 1, n);
      assert p * (a / p + 1) == p * (a / p) + p;
    }
  }

  lemma DivGrows(a: nat, b: nat, p: nat)
    requires a <= b && p > 0
    ensures a / p <= b / p
  {
    assert a / p >= 0;
    DivAtLeast(a, p, a / p);
    DivAtLeast(b, p, a / p);
  }
}

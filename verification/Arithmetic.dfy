/** Facts about products and quotients that the scheduler and the calendar share. */
module Arithmetic {
  lemma MulAtLeast(k: nat, n: nat)
    requires k >= 1
    ensures k * n >= n
  {}

  lemma DivisionIsUnique(n: nat, q1: nat, x1: nat, q2: nat, x2: nat)
    requires x1 < n && x2 < n && q1 * n + x1 == q2 * n + x2
    ensures q1 == q2 && x1 == x2
  {
    if q1 < q2 {
      MulAtLeast(q2 - q1, n);
    } else if q2 < q1 {
      MulAtLeast(q1 - q2, n);
    }
  }
}

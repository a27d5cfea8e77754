/** Named products of naturals, so that proofs speak of them and not of raw nonlinear terms. */
module NatArithmetic {

  function Times(b: nat, n: nat): nat { b * n }

  lemma TimesStep(b: nat, n: nat)
    ensures Times(b, n + 1) == Times(b, n) + b
  {
  }

  lemma {:induction false} TimesOrder(b: nat, p: nat, q: nat)
    requires p > q
    ensures Times(b, p) >= Times(b, q) + b
  {
    TimesStep(b, p - 1);
    if p > q + 1 { TimesOrder(b, p - 1, q); }
  }
}

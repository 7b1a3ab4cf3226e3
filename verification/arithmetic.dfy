/** Products, kept out of sight of the solver's nonlinear arithmetic. */
module Arithmetic {

  function Times(n: nat, each: nat): nat {
    n * each
  }

  lemma TimesNext(n: nat, each: nat)
    ensures Times(n + 1, each) == Times(n, each) + each
  {
  }
}

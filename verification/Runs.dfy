/** Runs of a deterministic machine: repeated steps and what every step keeps. */
module Runs {

  function Iterate<T>(step: T -> T, s: T, n: nat): T
    decreases n
  {
    if n == 0 then s else Iterate(step, step(s), n - 1)
  }

  /** What holds at the start and is kept by each step holds after every number of steps. */
  lemma {:induction false} Invariant<T(!new)>(step: T -> T, inv: T -> bool, s: T, n: nat)
    requires inv(s) && forall x :: inv(x) ==> inv(step(x))
    ensures inv(Iterate(step, s, n))
    decreases n
  {
    if n > 0 {
      Invariant(step, inv, step(s), n - 1);
    }
  }
}

/** Repeating a step, and adding up what its turns cost. */
module Iteration {
  function Count(b: bool): nat {
    if b then 1 else 0
  }

  function Iterate<S>(f: S -> S, s: S, n: nat): S
    decreases n
  {
    if n == 0 then s else Iterate(f, f(s), n - 1)
  }

  function Total<S>(f: S -> S, g: S -> nat, s: S, n: nat): nat
    decreases n
  {
    if n == 0 then 0 else g(s) + Total(f, g, f(s), n - 1)
  }

  lemma {:induction false} AtRest<S>(f: S -> S, g: S -> nat, s: S, n: nat)
    requires f(s) == s && g(s) == 0
    ensures Total(f, g, s, n) == 0
    decreases n
  {
    if n > 0 {
      AtRest(f, g, s, n - 1);
    }
  }

  lemma {:induction false} OneEach<S(!new)>(f: S -> S, g: S -> nat, inv: S -> bool, s: S, n: nat)
    requires inv(s) && forall t :: inv(t) ==> inv(f(t)) && g(t) == 1
    ensures Total(f, g, s, n) == n
    decreases n
  {
    if n > 0 {
      OneEach(f, g, inv, f(s), n - 1);
    }
  }

  lemma {:induction false} OneMoreEach<S(!new)>(f: S -> S, size: S -> nat, inv: S -> bool, s: S, n: nat)
    requires inv(s) && forall t :: inv(t) ==> inv(f(t)) && size(f(t)) == size(t) + 1
    ensures size(Iterate(f, s, n)) == size(s) + n
    decreases n
  {
    if n > 0 {
      OneMoreEach(f, size, inv, f(s), n - 1);
    }
  }
}

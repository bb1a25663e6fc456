/**
 Repeating a step, and what it keeps.
 */
module Iteration {
  function Iterate<T>(f: T -> T, x: T, m: nat): T {
    if m == 0 then x else f(Iterate(f, x, m - 1))
  }

  lemma {:induction false} IterateKeeps<T(!new)>(f: T -> T, p: (T, nat) -> bool, x: T, m: nat)
    requires p(x, 0) && forall y, k: nat :: p(y, k) ==> p(f(y), k + 1)
    ensures p(Iterate(f, x, m), m)
  {
    if m == 0 {
    } else {
      IterateKeeps(f, p, x, m - 1);
      assert p(f(Iterate(f, x, m - 1)), m - 1 + 1);
    }
  }

  lemma {:induction false} IterateRelates<S(!new), T(!new)>(f: S -> S, g: T -> T, r: (S, T) -> bool, x: S, y: T, m: nat)
    requires r(x, y) && forall a, b :: r(a, b) ==> r(f(a), g(b))
    ensures r(Iterate(f, x, m), Iterate(g, y, m))
  {
    if m == 0 {
    } else {
      IterateRelates(f, g, r, x, y, m - 1);
    }
  }
}

module Wrappers {
  datatype Option<+T> = None | Some(value: T)

  function Max(a: int, b: int): int { if a >= b then a else b }

  function Min(a: int, b: int): int { if a <= b then a else b }

  // The state a run of steps leads to.
  ghost function Fold<S, A>(step: (S, A) -> S, s: S, actions: seq<A>): S {
    if actions == [] then s else step(Fold(step, s, actions[..|actions| - 1]), actions[|actions| - 1])
  }

  lemma FoldNext<S, A>(step: (S, A) -> S, s: S, actions: seq<A>, a: A)
    ensures Fold(step, s, actions + [a]) == step(Fold(step, s, actions), a)
  {
    assert (actions + [a])[..|actions|] == actions;
  }

  lemma {:induction false} FoldConcat<S, A>(step: (S, A) -> S, s: S, a: seq<A>, b: seq<A>)
    ensures Fold(step, s, a + b) == Fold(step, Fold(step, s, a), b)
  {
    if b == [] {
      assert a + b == a;
    } else {
      var n := |b| - 1;
      FoldConcat(step, s, a, b[..n]);
      FoldNext(step, s, a + b[..n], b[n]);
      assert a + b == a + b[..n] + [b[n]];
    }
  }
}

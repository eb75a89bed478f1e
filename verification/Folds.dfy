/** A loop that updates a state row by row and stops at the first error. */
module Folds {
  import opened Dicts

  function Fold<S, X, E>(step: (S, X) -> Result<S, E>, init: S, xs: seq<X>): Result<S, E> {
    if xs == [] then Ok(init)
    else
      match Fold(step, init, xs[..|xs| - 1])
      case Err(e) => Err(e)
      case Ok(s) => step(s, xs[|xs| - 1])
  }

  lemma {:induction false} FoldStops<S, X, E>(step: (S, X) -> Result<S, E>, init: S, xs: seq<X>, i: nat)
    requires i <= |xs| && Fold(step, init, xs[..i]).Err?
    ensures Fold(step, init, xs).Err? && Fold(step, init, xs).error == Fold(step, init, xs[..i]).error
    decreases |xs|
  {
    if i < |xs| {
      assert xs[..|xs| - 1][..i] == xs[..i];
      FoldStops(step, init, xs[..|xs| - 1], i);
    } else {
      assert xs[..i] == xs;
    }
  }

  lemma FoldNext<S, X, E>(step: (S, X) -> Result<S, E>, init: S, xs: seq<X>, i: nat)
    requires i < |xs|
    ensures Fold(step, init, xs[..i + 1]) ==
      match Fold(step, init, xs[..i]) case Err(e) => Err(e) case Ok(s) => step(s, xs[i])
  {
    assert xs[..i + 1][..i] == xs[..i];
  }
}

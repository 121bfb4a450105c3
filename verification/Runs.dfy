/** Runs of a state machine: what every journal and every retry tool folds its actions with. */
module Runs {

  ghost function Fold<W, A>(step: (W, A) -> W, w: W, actions: seq<A>): W {
    if actions == [] then w else step(Fold(step, w, actions[..|actions| - 1]), actions[|actions| - 1])
  }

  lemma FoldSnoc<W, A>(step: (W, A) -> W, w: W, actions: seq<A>, a: A)
    ensures Fold(step, w, actions + [a]) == step(Fold(step, w, actions), a)
  {
    assert (actions + [a])[..|actions|] == actions;
  }

  lemma {:induction false} FoldAppend<W, A>(step: (W, A) -> W, w: W, first: seq<A>, later: seq<A>)
    ensures Fold(step, w, first + later) == Fold(step, Fold(step, w, first), later)
  {
    if later == [] {
      assert first + later == first;
    } else {
      var n := |later| - 1;
      assert (first + later)[..|first + later| - 1] == first + later[..n];
      FoldAppend(step, w, first, later[..n]);
    }
  }

  lemma FoldHead<W, A>(step: (W, A) -> W, w: W, a: A, rest: seq<A>)
    ensures Fold(step, w, [a] + rest) == Fold(step, step(w, a), rest)
  {
    FoldAppend(step, w, [a], rest);
    FoldSnoc(step, w, [], a);
    assert [] + [a] == [a];
  }

  lemma FoldThree<W, A>(step: (W, A) -> W, w: W, a: A, b: A, c: A)
    ensures Fold(step, w, [a, b, c]) == step(step(step(w, a), b), c)
  {
    FoldSnoc(step, w, [], a);
    FoldSnoc(step, w, [a], b);
    FoldSnoc(step, w, [a, b], c);
    assert [] + [a] == [a] && [a] + [b] == [a, b] && [a, b] + [c] == [a, b, c];
  }
}

/** Runs of any machine: a step function applied along a sequence of actions. */
module Runs {

  function Fold<S, A>(step: (S, A) -> S, s: S, acts: seq<A>): S {
    if acts == [] then s else step(Fold(step, s, acts[..|acts| - 1]), acts[|acts| - 1])
  }

  /** Every action is possible at its turn. */
  predicate Possible<S, A>(can: (S, A) -> bool, step: (S, A) -> S, s: S, acts: seq<A>) {
    acts == [] ||
    (Possible(can, step, s, acts[..|acts| - 1]) && can(Fold(step, s, acts[..|acts| - 1]), acts[|acts| - 1]))
  }

  lemma FoldOne<S, A>(step: (S, A) -> S, s: S, acts: seq<A>, a: A)
    ensures Fold(step, s, acts + [a]) == step(Fold(step, s, acts), a)
  {
    assert (acts + [a])[..|acts|] == acts;
  }

  lemma PossibleOne<S, A>(can: (S, A) -> bool, step: (S, A) -> S, s: S, acts: seq<A>, a: A)
    ensures Possible(can, step, s, acts + [a]) <==> Possible(can, step, s, acts) && can(Fold(step, s, acts), a)
  {
    assert (acts + [a])[..|acts|] == acts;
  }

  lemma {:induction false} FoldJoin<S, A>(step: (S, A) -> S, s: S, first: seq<A>, second: seq<A>)
    ensures Fold(step, s, first + second) == Fold(step, Fold(step, s, first), second)
  {
    if second == [] {
      assert first + second == first;
    } else {
      var n := |second| - 1;
      FoldJoin(step, s, first, second[..n]);
      assert (first + second)[..|first| + n] == first + second[..n];
    }
  }

  lemma {:induction false} PossibleJoin<S, A>(
    can: (S, A) -> bool, step: (S, A) -> S, s: S, first: seq<A>, second: seq<A>)
    ensures Possible(can, step, s, first + second) <==>
            Possible(can, step, s, first) && Possible(can, step, Fold(step, s, first), second)
  {
    if second == [] {
      assert first + second == first;
    } else {
      var n := |second| - 1;
      PossibleJoin(can, step, s, first, second[..n]);
      FoldJoin(step, s, first, second[..n]);
      assert (first + second)[..|first| + n] == first + second[..n];
    }
  }
}

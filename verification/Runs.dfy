/** Runs of any step function. */
module Runs {
  function Fold<S, E>(next: (S, E) -> S, s: S, steps: seq<E>): S
    decreases |steps|
  {
    if steps == [] then s else Fold(next, next(s, steps[0]), steps[1..])
  }

  lemma {:induction false} FoldAppend<S, E>(next: (S, E) -> S, s: S, xs: seq<E>, ys: seq<E>)
    ensures Fold(next, s, xs + ys) == Fold(next, Fold(next, s, xs), ys)
    decreases |xs|
  {
    if xs == [] {
      assert xs + ys == ys;
    } else {
      assert (xs + ys)[1..] == xs[1..] + ys;
      FoldAppend(next, next(s, xs[0]), xs[1..], ys);
    }
  }

  lemma FoldFirst<S, E>(next: (S, E) -> S, s: S, e: E, steps: seq<E>)
    ensures Fold(next, s, [e] + steps) == Fold(next, next(s, e), steps)
  {
    assert ([e] + steps)[1..] == steps;
  }

  lemma FoldLast<S, E>(next: (S, E) -> S, s: S, steps: seq<E>, e: E)
    ensures Fold(next, s, steps + [e]) == next(Fold(next, s, steps), e)
  {
    FoldAppend(next, s, steps, [e]);
    assert [e][1..] == [];
  }

  /** The state after n + 1 steps from the state after n. */
  lemma FoldPrefix<S, E>(next: (S, E) -> S, s: S, steps: seq<E>, n: nat)
    requires n < |steps|
    ensures Fold(next, s, steps[..n + 1]) == next(Fold(next, s, steps[..n]), steps[n])
  {
    assert steps[..n + 1] == steps[..n] + [steps[n]];
    FoldLast(next, s, steps[..n], steps[n]);
  }

  lemma FoldThree<S, E>(next: (S, E) -> S, s: S, a: E, b: E, c: E)
    ensures Fold(next, s, [a, b, c]) == next(next(next(s, a), b), c)
  {
    assert [a, b, c] == [a] + [b, c] && [b, c] == [b] + [c];
    FoldFirst(next, s, a, [b, c]);
    FoldFirst(next, next(s, a), b, [c]);
    assert [c][1..] == [];
  }

  /** What `on` brings about and `off` ends holds exactly when some `on` has come with no `off` since. */
  lemma {:induction false} LastTurn(held: nat -> bool, on: nat -> bool, off: nat -> bool, n: nat)
    requires !held(0) && forall i: nat :: i < n ==> (held(i + 1) <==> on(i) || (held(i) && !off(i)))
    ensures held(n) <==> exists i: nat :: i < n && on(i) && forall j: nat :: i < j < n ==> !off(j)
  {
    if n > 0 {
      var k := n - 1;
      LastTurn(held, on, off, k);
      assert held(k + 1) <==> on(k) || (held(k) && !off(k));
      if held(k) && !off(k) {
        var i: nat :| i < k && on(i) && forall j: nat :: i < j < k ==> !off(j);
        assert forall j: nat :: i < j < n ==> !off(j);
      }
      if i: nat :| i < n && on(i) && forall j: nat :: i < j < n ==> !off(j) {
        if i < k { assert !off(k) && forall j: nat :: i < j < k ==> !off(j); }
      }
    }
  }
}

// Running a step over consecutive bars.
module Folds {
  /** The state before bar `n` when the bars from `from` on are stepped through in order. */
  function Fold<S>(step: (S, nat) -> S, start: S, from: nat, n: nat): S {
    if n <= from then start else step(Fold(step, start, from, n - 1), n - 1)
  }

  /** What holds before some bar and is kept by every step holds before every later bar. */
  lemma {:induction false} FoldInduction<S(!new)>(step: (S, nat) -> S, start: S, from: nat,
                                                inv: (S, nat) -> bool, base: nat, n: nat)
    requires from <= base <= n
    requires inv(Fold(step, start, from, base), base)
    requires forall s, i: nat {:trigger step(s, i)} | base <= i < n && inv(s, i) :: inv(step(s, i), i + 1)
    ensures inv(Fold(step, start, from, n), n)
  {
    if n > base {
      FoldInduction(step, start, from, inv, base, n - 1);
      assert inv(step(Fold(step, start, from, n - 1), n - 1), n - 1 + 1);
    }
  }
}

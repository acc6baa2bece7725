/** Runs of a state machine, for the protocols that are modelled step by step. */
module Runs {

  /** Every state of `tr` but the first follows from the one before it. */
  ghost predicate IsRun<S>(tr: seq<S>, next: (S, S) -> bool)
  {
    tr != [] && forall i, j :: 0 <= i && j == i + 1 && j < |tr| ==> next(tr[i], tr[j])
  }

  /** What holds at the start and is kept by every step holds at the end. */
  lemma {:induction false} RunKeeps<S>(tr: seq<S>, next: (S, S) -> bool, inv: S -> bool)
    requires IsRun(tr, next) && inv(tr[0])
    requires forall s, s' :: inv(s) && next(s, s') ==> inv(s')
    ensures inv(tr[|tr| - 1])
  {
    var n := |tr| - 1;
    if n > 0 {
      RunKeeps(tr[..n], next, inv);
      assert next(tr[n - 1], tr[n]);
    }
  }
}

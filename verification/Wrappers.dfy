/** What every module of the model shares: Option values, and induction along a run. */
module Wrappers {
  datatype Option<+T> = None | Some(value: T)

  ghost predicate StaysTrue(p: nat -> bool, k: nat) {
    p(k) ==> p(k + 1)
  }

  lemma {:induction false} TrueAlong(p: nat -> bool, n: nat)
    requires p(0) && forall k: nat :: k < n ==> StaysTrue(p, k)
    ensures p(n)
    decreases n
  {
    if n > 0 {
      TrueAlong(p, n - 1);
      assert StaysTrue(p, n - 1);
    }
  }
}

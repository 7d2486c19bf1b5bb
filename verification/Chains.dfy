/** Runs as chains of related states, and invariants over them. */
module Chains {

  /** Each state of the run is related to the next. */
  ghost predicate Chain<T(!new)>(run: seq<T>, next: (T, T) -> bool) {
    |run| > 0 && forall j, k :: 0 <= j < k < |run| && k == j + 1 ==> next(run[j], run[k])
  }

  lemma ChainGrows<T(!new)>(run: seq<T>, next: (T, T) -> bool, t: T)
    requires Chain(run, next) && next(run[|run| - 1], t)
    ensures Chain(run + [t], next)
  {
    var longer := run + [t];
    forall j, k | 0 <= j < k < |longer| && k == j + 1 ensures next(longer[j], longer[k]) {
      if k < |run| { assert next(run[j], run[k]); }
    }
  }

  lemma ChainOfFour<T(!new)>(s0: T, s1: T, s2: T, s3: T, next: (T, T) -> bool)
    requires next(s0, s1) && next(s1, s2) && next(s2, s3)
    ensures Chain([s0, s1, s2, s3], next)
  {
  }

  /** What the first state satisfies and every step keeps, up to a limit, holds of every state up to it. */
  lemma {:induction false} ChainKeeps<T(!new)>(run: seq<T>, next: (T, T) -> bool, inv: (T, nat) -> bool,
                                                      limit: nat, i: nat)
    requires Chain(run, next) && i < |run| && i <= limit && inv(run[0], 0)
    requires forall p, q, n: nat :: n < limit && inv(p, n) && next(p, q) ==> inv(q, n + 1)
    ensures inv(run[i], i)
  {
    if i > 0 {
      ChainKeeps(run, next, inv, limit, i - 1);
      assert next(run[i - 1], run[i]);
    }
  }

  /** Induction over an interval. */
  lemma {:induction false} Climb(holds: int -> bool, lo: int, hi: int)
    requires lo <= hi && holds(lo) && forall i :: lo <= i < hi && holds(i) ==> holds(i + 1)
    ensures holds(hi)
    decreases hi - lo
  {
    if lo < hi { Climb(holds, lo + 1, hi); }
  }
}

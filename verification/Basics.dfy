/** Definitions shared by the other modules. */
module Basics {

  datatype Option<+T> = None | Some(value: T)

  ghost predicate Distinct<T>(s: seq<T>) {
    forall j, k :: 0 <= j < k < |s| ==> s[j] != s[k]
  }

  predicate Increasing(s: seq<int>) {
    forall j, k :: 0 <= j < k < |s| ==> s[j] < s[k]
  }

  lemma SubsetSize<T>(a: set<T>, b: set<T>)
    requires a <= b
    ensures |a| <= |b|
  {
    assert b == a + (b - a);
  }

  /** A finite run of a transition system: it starts in `init`, and each step is one of `next`. */
  ghost predicate IsRun<S(!new)>(init: S -> bool, next: (S, S) -> bool, r: seq<S>) {
    |r| > 0 && init(r[0]) && forall k :: 0 <= k < |r| - 1 ==> next(r[k], r[k + 1])
  }

  lemma ExtendRun<S(!new)>(init: S -> bool, next: (S, S) -> bool, r: seq<S>, s: S)
    requires IsRun(init, next, r) && next(r[|r| - 1], s)
    ensures IsRun(init, next, r + [s])
  {
    var r' := r + [s];
    forall k | 0 <= k < |r'| - 1 ensures next(r'[k], r'[k + 1]) {
      if k < |r| - 1 { assert next(r[k], r[k + 1]); }
    }
  }

  /** What holds initially and is kept by every step holds in every state of every run. */
  lemma {:induction false} RunInvariant<S(!new)>(
      init: S -> bool, next: (S, S) -> bool, inv: S -> bool, r: seq<S>, k: nat)
    requires IsRun(init, next, r) && k < |r|
    requires forall s :: init(s) ==> inv(s)
    requires forall s, s' :: inv(s) && next(s, s') ==> inv(s')
    ensures inv(r[k])
  {
    if k == 0 {
    } else {
      RunInvariant(init, next, inv, r, k - 1);
      assert next(r[k - 1], r[k - 1 + 1]);
    }
  }

  /** What every step does from a state that satisfies a run invariant, every step of a run does. */
  lemma RunSteps<S(!new)>(init: S -> bool, next: (S, S) -> bool, inv: S -> bool, rel: (S, S) -> bool, r: seq<S>)
    requires IsRun(init, next, r)
    requires forall s :: init(s) ==> inv(s)
    requires forall s, s' :: inv(s) && next(s, s') ==> inv(s') && rel(s, s')
    ensures forall k :: 0 < k < |r| ==> rel(r[k - 1], r[k])
  {
    forall k | 0 < k < |r| ensures rel(r[k - 1], r[k]) {
      RunInvariant(init, next, inv, r, k - 1);
      assert next(r[k - 1], r[k - 1 + 1]);
    }
  }
}

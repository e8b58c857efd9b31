/** Lists of positions. */
module Sequences {
  /** Each position is after the one before it. */
  ghost predicate Increasing(f: seq<nat>) {
    forall j, k :: 0 <= j < k < |f| ==> f[j] < f[k]
  }

  lemma NothingIncreases()
    ensures Increasing([])
  {
  }

  lemma IncreasingSnoc(f: seq<nat>, n: nat)
    requires Increasing(f) && forall k :: 0 <= k < |f| ==> f[k] < n
    ensures Increasing(f + [n])
  {
  }

  /** The positions below a bound that have a property, in order. */
  ghost predicate Picks(f: seq<nat>, n: nat, p: nat -> bool) {
    && Increasing(f)
    && (forall k :: 0 <= k < |f| ==> f[k] < n && p(f[k]))
    && forall i: nat :: i < n && p(i) ==> i in f
  }

  lemma PicksNothing(p: nat -> bool)
    ensures Picks([], 0, p)
  {
  }

  lemma PicksNext(f: seq<nat>, n: nat, p: nat -> bool)
    requires Picks(f, n, p)
    ensures Picks(if p(n) then f + [n] else f, n + 1, p)
  {
    if p(n) {
      IncreasingSnoc(f, n);
      forall i: nat | i < n + 1 && p(i) ensures i in f + [n] {
        assert i < n ==> i in f;
      }
    }
  }
}

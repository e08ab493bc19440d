/** Facts about sequences, and inductions over them, that several modules lean on. */
module Sequences {

  lemma TakeNext<T>(s: seq<T>, n: nat)
    requires n < |s|
    ensures s[..n + 1] == s[..n] + [s[n]]
  {
  }

  // What holds at first and is kept by each step holds all along.
  lemma {:induction false} Throughout(holds: nat -> bool, lo: nat, hi: nat)
    requires lo <= hi && holds(lo)
    requires forall k: nat :: lo <= k < hi && holds(k) ==> holds(k + 1)
    ensures holds(hi)
    decreases hi
  {
    if lo != hi {
      Throughout(holds, lo, hi - 1);
    }
  }

  // What does not hold at first and holds later begins to hold in between.
  lemma {:induction false} FirstTime(holds: nat -> bool, n: nat) returns (m: nat)
    requires !holds(0) && holds(n)
    ensures m < n && !holds(m) && holds(m + 1)
  {
    if holds(n - 1) {
      m := FirstTime(holds, n - 1);
    } else {
      m := n - 1;
    }
  }

  // What holds at first, and is kept by a step exactly if the step is not bad, holds all
  // along exactly if no step is bad.
  lemma AlwaysExactly(holds: nat -> bool, bad: nat -> bool, n: nat)
    requires holds(0) && forall k: nat :: k < n && holds(k) ==> (holds(k + 1) <==> !bad(k))
    ensures (forall k: nat :: k <= n ==> holds(k)) <==> (forall k: nat :: k < n ==> !bad(k))
  {
    if forall k: nat :: k <= n ==> holds(k) {
      forall k: nat | k < n ensures !bad(k) {
        assert holds(k) && holds(k + 1);
      }
    }
    if forall k: nat :: k < n ==> !bad(k) {
      forall k: nat | k <= n ensures holds(k) {
        Throughout(holds, 0, k);
      }
    }
  }

  lemma Regroup<T>(a: seq<T>, b: seq<T>, c: seq<T>)
    ensures a + (b + c) == (a + b) + c
  {
  }
}

/** Majorities of a cluster of `n` members named 0, 1, ..., n - 1. */
module Quorums {
  function Majority(n: nat): nat {
    n / 2 + 1
  }

  function Ids(n: nat): (ids: set<nat>)
    ensures forall p: nat :: p in ids <==> p < n
    ensures |ids| == n
  {
    if n == 0 then {} else Ids(n - 1) + {n - 1}
  }

  lemma SubsetCount(a: set<nat>, b: set<nat>)
    requires a <= b
    ensures |a| <= |b|
  {
    assert b == a + (b - a);
  }

  /** Two groups that together outnumber the cluster share a member. */
  lemma Overlap(n: nat, a: set<nat>, b: set<nat>) returns (p: nat)
    requires a <= Ids(n) && b <= Ids(n)
    requires |a| + |b| > n
    ensures p in a && p in b
  {
    SubsetCount(a + b, Ids(n));
    assert |a + b| + |a * b| == |a| + |b|;
    p :| p in a * b;
  }
}

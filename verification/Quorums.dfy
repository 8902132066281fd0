/** Majorities of a voter set (util.go). */
module Quorums {

  /** Votes needed for a majority of `n` voters; one when there are no voters. */
  function QuorumSize(n: nat): nat {
    if n == 0 then 1 else n / 2 + 1
  }

  ghost predicate IsQuorum(voters: set<int>, q: set<int>) {
    q <= voters && |q| >= QuorumSize(|voters|)
  }

  lemma Pick<T>(s: set<T>) returns (x: T)
    requires s != {}
    ensures x in s
  {
    assert !(s <= {});
    x :| x in s;
  }

  lemma SubsetSize<T>(a: set<T>, b: set<T>)
    requires a <= b
    ensures |a| <= |b|
  {
    assert b == a + (b - a);
  }

  /** Two majorities taken from voter sets that differ by at most one node share a node. */
  lemma QuorumsMeet(v1: set<int>, v2: set<int>, q1: set<int>, q2: set<int>)
    requires IsQuorum(v1, q1) && IsQuorum(v2, q2)
    requires |v1 - v2| + |v2 - v1| <= 1
    ensures q1 * q2 != {}
  {
    assert v1 + v2 == v1 + (v2 - v1) == v2 + (v1 - v2);
    SubsetSize(q1 + q2, v1 + v2);
    assert |q1 + q2| == |q1| + |q2| - |q1 * q2|;
  }

  /** Two majorities of one voter set share a node. */
  lemma QuorumMember(v: set<int>, q1: set<int>, q2: set<int>) returns (p: int)
    requires IsQuorum(v, q1) && IsQuorum(v, q2)
    ensures p in q1 && p in q2
  {
    QuorumsMeet(v, v, q1, q2);
    p := Pick(q1 * q2);
  }

  /** The set has a member in every majority. */
  ghost predicate Blocks(voters: set<int>, a: set<int>) {
    a <= voters && |a| + QuorumSize(|voters|) > |voters|
  }

  lemma BlockMember(v: set<int>, a: set<int>, q: set<int>) returns (p: int)
    requires Blocks(v, a) && IsQuorum(v, q)
    ensures p in a && p in q
  {
    SubsetSize(a + q, v);
    assert |a + q| == |a| + |q| - |a * q|;
    p := Pick(a * q);
  }
}

/** Majorities of a fixed membership: any two of them share a member. */
module Quorums {
  import opened Types

  /** The threshold of `ConsensusModule::new` for a cluster of `n` nodes. */
  function QuorumSize(n: nat): nat { n / 2 + 1 }

  ghost predicate IsQuorum(servers: set<NodeId>, q: set<NodeId>) {
    q <= servers && |q| >= QuorumSize(|servers|)
  }

  lemma SubsetSize(a: set<NodeId>, b: set<NodeId>)
    requires a <= b
    ensures |a| <= |b|
  {
    assert b == a + (b - a);
  }

  lemma QuorumsMeet(servers: set<NodeId>, p: set<NodeId>, q: set<NodeId>) returns (i: NodeId)
    requires IsQuorum(servers, p) && IsQuorum(servers, q)
    ensures i in p && i in q && i in servers
  {
    SubsetSize(p + q, servers);
    assert |p + q| + |p * q| == |p| + |q|;
    assert |p * q| > 0;
    i :| i in p * q;
  }
}

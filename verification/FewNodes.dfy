/** Clusters of up to four nodes: what holds with no assumption on timing at all. */
module FewNodes {
  import opened RaftTypes
  import opened Membership
  import opened NodeSpec
  import opened Cluster
  import opened Safety
  import opened LateReplies
  import opened MatchOrder

  ghost predicate MayComeNext(c: ClusterState, c': ClusterState) {
    exists s :: Possible(c, s) && c' == TakeStep(c, s)
  }

  ghost predicate MayStepAt(r: seq<ClusterState>, i: nat)
    requires i + 1 < |r|
  {
    MayComeNext(r[i], r[i + 1])
  }

  /** A run in which everything that the code allows may happen, late replies included. */
  ghost predicate AnyRun(r: seq<ClusterState>, boot: Bootstrap) {
    |r| > 0 && Init(r[0], boot) && forall i {:trigger MayStepAt(r, i)} | 0 <= i < |r| - 1 :: MayStepAt(r, i)
  }

  lemma StepIsInTime(r: seq<ClusterState>, boot: Bootstrap, c: ClusterState)
    requires Run(r, boot) && |boot| <= 4 && MayComeNext(r[|r| - 1], c)
    ensures Run(r + [c], boot)
  {
    var step :| Possible(r[|r| - 1], step) && c == TakeStep(r[|r| - 1], step);
    FewNeedNoTiming(r, boot, |r| - 1, step);
    forall i | 0 <= i < |r + [c]| - 1 ensures StepAt(r + [c], i) {
      if i < |r| - 1 { assert StepAt(r, i); }
    }
  }

  /** In a cluster of up to four the assumption on timing always holds, and with it every theorem about runs. */
  lemma {:induction false} AnyRunIsRun(r: seq<ClusterState>, boot: Bootstrap)
    requires AnyRun(r, boot) && |boot| <= 4
    ensures Run(r, boot)
    decreases |r|
  {
    if |r| > 1 {
      var n := |r| - 1;
      forall i | 0 <= i < n - 1 ensures MayStepAt(r[..n], i) { assert MayStepAt(r, i); }
      AnyRunIsRun(r[..n], boot);
      assert MayStepAt(r, n - 1);
      StepIsInTime(r[..n], boot, r[n]);
      assert r == r[..n] + [r[n]];
    }
  }

  // ---- The safety properties, with nothing assumed --------------------------

  lemma ElectionSafety(r: seq<ClusterState>, boot: Bootstrap, i: nat, a: NodeId, j: nat, b: NodeId)
    requires AnyRun(r, boot) && |boot| <= 4 && i < |r| && j < |r| && a in r[i].nodes && b in r[j].nodes
    requires r[i].nodes[a].role == Leader && r[j].nodes[b].role == Leader && r[i].nodes[a].term == r[j].nodes[b].term
    ensures a == b
  {
    AnyRunIsRun(r, boot);
    Safety.ElectionSafety(r, boot, i, a, j, b);
  }

  lemma LogMatching(r: seq<ClusterState>, boot: Bootstrap, i: nat, a: NodeId, j: nat, b: NodeId, m: LogIndex, n: LogIndex)
    requires AnyRun(r, boot) && |boot| <= 4 && i < |r| && j < |r| && a in r[i].nodes && b in r[j].nodes
    requires m <= n && m < |r[i].nodes[a].log| && n < |r[j].nodes[b].log|
    requires r[i].nodes[a].log[m].term == r[j].nodes[b].log[n].term
    ensures m < |r[j].nodes[b].log| && r[i].nodes[a].log[..m + 1] == r[j].nodes[b].log[..m + 1]
  {
    AnyRunIsRun(r, boot);
    Safety.LogMatching(r, boot, i, a, j, b, m, n);
  }

  lemma LeadersHaveCommitted(r: seq<ClusterState>, boot: Bootstrap, i: nat, a: NodeId, j: nat, b: NodeId)
    requires AnyRun(r, boot) && |boot| <= 4 && i < |r| && j < |r| && a in r[i].nodes && b in r[j].nodes
    requires r[j].nodes[b].role == Leader
    requires r[i].nodes[a].term < r[j].nodes[b].term || (r[i].nodes[a].term == r[j].nodes[b].term && i <= j)
    ensures var s := r[i].nodes[a]; s.commit < |s.log| && s.log[..s.commit + 1] <= r[j].nodes[b].log
  {
    AnyRunIsRun(r, boot);
    Safety.LeadersHaveCommitted(r, boot, i, a, j, b);
  }

  lemma StateMachineSafety(r: seq<ClusterState>, boot: Bootstrap, i: nat, a: NodeId, j: nat, b: NodeId, n: LogIndex)
    requires AnyRun(r, boot) && |boot| <= 4 && i < |r| && j < |r| && a in r[i].nodes && b in r[j].nodes
    requires n <= r[i].nodes[a].commit && n <= r[j].nodes[b].commit
    ensures n < |r[i].nodes[a].log| && n < |r[j].nodes[b].log|
    ensures r[i].nodes[a].log[..n + 1] == r[j].nodes[b].log[..n + 1]
  {
    AnyRunIsRun(r, boot);
    Safety.StateMachineSafety(r, boot, i, a, j, b, n);
  }

  /** A leader's match index is sound, and every probe is above it. */
  lemma IndicesSound(r: seq<ClusterState>, boot: Bootstrap, i: nat, p: NodeId, q: NodeId)
    requires AnyRun(r, boot) && |boot| <= 4 && i < |r| && p in r[i].nodes && q in r[i].nodes && q != p
    requires r[i].nodes[p].role == Leader
    ensures InOrder(r[i].nodes[p])
    ensures r[i].nodes[q].term == r[i].nodes[p].term ==>
              AgreeTo(r[i].nodes[p].log, r[i].nodes[q].log, MatchOf(r[i].nodes[p], q))
  {
    AnyRunIsRun(r, boot);
    ProbesAboveMatches(r, boot, i, p);
    if r[i].nodes[q].term == r[i].nodes[p].term { MatchIndexSound(r, boot, i, p, q); }
  }
}

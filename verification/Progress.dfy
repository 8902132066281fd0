/** What never goes back: terms, commit indices, applied commands, a leader's match indices. */
module Progress {
  import opened RaftTypes
  import opened Quorums
  import opened Membership
  import opened NodeSpec
  import opened LogHistory
  import opened Cluster
  import opened ClusterInv
  import opened ReplicationSteps
  import opened CommitSteps
  import opened Safety

  ghost predicate MatchesKept(s: NodeState, s': NodeState) {
    forall q | q in s.matchIndex :: q in s'.matchIndex && s.matchIndex[q] <= s'.matchIndex[q]
  }

  /** From `s` to `s'` nothing was taken back; a leader only appended and matched more. */
  ghost predicate Onward(s: NodeState, s': NodeState) {
    && s.term <= s'.term
    && s.commit <= s'.commit
    && s.lastApplied <= s'.lastApplied
    && s.fsm <= s'.fsm
    && (s.role == Leader && s'.role == Leader ==> s'.term == s.term && MatchesKept(s, s'))
    && (s.role != Leader && s'.role == Leader ==> s.role == Candidate && s'.term == s.term)
  }

  /** Steps that at most turn the node into a follower of a later term. */
  lemma Demoted(s: NodeState, s': NodeState)
    requires s' == s.(role := s'.role, term := s'.term, votedFor := s'.votedFor)
    requires s.term <= s'.term && (s'.role == Leader ==> s.role == Leader && s'.term == s.term)
    ensures Onward(s, s')
  {
  }

  lemma VotesOnward(s: NodeState, m: VoteCall, inContact: bool)
    requires |s.log| > 0
    ensures Onward(s, HandleVote(s, m.args, inContact).0)
  {
    if !Disregards(s, m.args, inContact) {
      var s1 := HearCandidate(s, m.args);
      Demoted(s, s1);
      Demoted(s, s1.(votedFor := m.args.candidate));
    }
  }

  lemma VoteRepliesOnward(s: NodeState, t: Term, reply: VoteReply)
    ensures Onward(s, HandleVoteReply(s, t, reply))
  {
    if s.role == Candidate && s.term == t {
      if reply.term > t {
        Demoted(s, BecomeFollower(s, reply.term));
      } else if reply.granted {
        WinOnward(s, s.(votesReceived := s.votesReceived + 1));
      }
    }
  }

  lemma WinOnward(s: NodeState, s1: NodeState)
    requires s.role == Candidate && s1 == s.(votesReceived := s1.votesReceived)
    ensures Onward(s, s1) && Onward(s, BecomeLeader(s1))
  {
  }

  lemma AcceptOnward(g: Hist, boot: Bootstrap, done: set<Ballot>, m: AppendCall, s: NodeState)
    requires Alone(g, boot, done, m.dst, s) && AppendCallOk(g, boot, m) && s.term == m.args.term
    requires Accepts(s.log, m.args.prevIndex, m.args.prevTerm)
    ensures var s' := AcceptEntries(s, m.args);
            && s'.role == s.role && s.role != Leader && s'.term == s.term && s.commit <= s'.commit
            && s'.lastApplied == s.lastApplied && s'.fsm == s.fsm
  {
    NotTheSender(g, boot, m, s);
    AcceptedState(g, boot, m, s);
  }

  lemma HeedOnward(s: NodeState, a: AppendArgs)
    requires s.term <= a.term
    ensures Onward(s, Heed(s, a))
    ensures Heed(s, a).role == Leader ==> s.role == Leader && s.term == a.term
  {
  }

  lemma AppendsOnward(g: Hist, boot: Bootstrap, done: set<Ballot>, m: AppendCall, s: NodeState)
    requires Alone(g, boot, done, m.dst, s) && AppendCallOk(g, boot, m)
    ensures Onward(s, HandleAppend(s, m.args).0)
  {
    AppendOutcomes(s, m.args);
    if s.term <= m.args.term {
      HeedOnward(s, m.args);
      if Accepts(s.log, m.args.prevIndex, m.args.prevTerm) {
        HeedMove(g, boot, done, m, s);
        AcceptOnward(g, boot, done, m, Heed(s, m.args));
      }
    }
  }

  lemma RepliesOnward(s: NodeState, q: NodeId, a: AppendArgs, reply: AppendReply)
    requires |s.log| > 0
    ensures Onward(s, HandleAppendReply(s, q, a, reply).0)
  {
    var s' := HandleAppendReply(s, q, a, reply).0;
    assert s' == s || (s.term < reply.term && s' == BecomeFollower(s, reply.term))
           || s' == s.(commit := s'.commit, nextIndex := s'.nextIndex, matchIndex := s'.matchIndex);
    assert MatchesKept(s, s') && s.commit <= s'.commit;
  }

  lemma QuietStepsOnward(c: ClusterState, step: Step)
    requires Enabled(c, step) && !step.VoteReplyArrives? && !step.VoteArrives?
    requires !step.AppendArrives? && !step.AppendReplyArrives?
    ensures Actor(step) in TakeStep(c, step).nodes
    ensures Onward(c.nodes[Actor(step)], TakeStep(c, step).nodes[Actor(step)])
  {
  }

  lemma StepOnward(c: ClusterState, boot: Bootstrap, step: Step, p: NodeId)
    requires Inv(c, boot) && Enabled(c, step) && p in c.nodes
    ensures p in TakeStep(c, step).nodes && Onward(c.nodes[p], TakeStep(c, step).nodes[p])
  {
    var s := c.nodes[Actor(step)];
    if step.VoteArrives? {
      VotesOnward(s, step.voteCall, step.inContact);
    } else if step.VoteReplyArrives? {
      VoteRepliesOnward(s, step.voteAnswer.call.args.term, step.voteAnswer.reply);
    } else if step.AppendArrives? {
      AloneInCluster(c, boot, step.call.dst);
      assert AppendCallOk(c.hist, boot, step.call);
      AppendsOnward(c.hist, boot, c.ballotsDone, step.call, s);
    } else if step.AppendReplyArrives? {
      RepliesOnward(s, step.answer.call.dst, step.answer.call.args, step.answer.reply);
    } else {
      QuietStepsOnward(c, step);
    }
  }

  lemma StepOnwardInRun(r: seq<ClusterState>, boot: Bootstrap, i: nat, p: NodeId)
    requires Run(r, boot) && i + 1 < |r| && p in r[i].nodes
    ensures p in r[i + 1].nodes && Onward(r[i].nodes[p], r[i + 1].nodes[p])
  {
    RunHasInv(r, boot, i);
    assert StepAt(r, i);
    var step :| Enabled(r[i], step) && r[i + 1] == TakeStep(r[i], step);
    StepOnward(r[i], boot, step, p);
  }

  /** Along a run no node's term, commit index or applied commands ever go back. */
  lemma {:induction false} NodesGoOnward(r: seq<ClusterState>, boot: Bootstrap, i: nat, j: nat, p: NodeId)
    requires Run(r, boot) && i <= j < |r| && p in r[i].nodes
    ensures p in r[j].nodes
    ensures var (s, s') := (r[i].nodes[p], r[j].nodes[p]);
            s.term <= s'.term && s.commit <= s'.commit && s.lastApplied <= s'.lastApplied && s.fsm <= s'.fsm
    decreases j - i
  {
    if i < j {
      NodesGoOnward(r, boot, i, j - 1, p);
      StepOnwardInRun(r, boot, j - 1, p);
    }
  }

  /** Nothing at or below a node's commit index is ever truncated or replaced. */
  lemma CommittedEntriesStay(r: seq<ClusterState>, boot: Bootstrap, i: nat, j: nat, p: NodeId)
    requires Run(r, boot) && i <= j < |r| && p in r[i].nodes
    ensures p in r[j].nodes
    ensures var (s, s') := (r[i].nodes[p], r[j].nodes[p]);
            s.commit < |s.log| && s.log[..s.commit + 1] <= s'.log
  {
    NodesGoOnward(r, boot, i, j, p);
    StateMachineSafety(r, boot, i, p, j, p, r[i].nodes[p].commit);
  }

  lemma LedJustBefore(r: seq<ClusterState>, boot: Bootstrap, i: nat, j: nat, p: NodeId)
    requires Run(r, boot) && i < j < |r| && p in r[i].nodes && p in r[j].nodes
    requires r[i].nodes[p].role == Leader && r[j].nodes[p].role == Leader
    requires r[i].nodes[p].term == r[j].nodes[p].term
    ensures p in r[j - 1].nodes && r[j - 1].nodes[p].role == Leader && r[j - 1].nodes[p].term == r[i].nodes[p].term
  {
    NodesGoOnward(r, boot, i, j - 1, p);
    StepOnwardInRun(r, boot, j - 1, p);
    LeaderInRun(r, boot, i, p);
    RunGrows(r, boot, i, j - 1);
    var g := NodeInRun(r, boot, j - 1, p);
    assert Won(r[j - 1].hist, p, r[i].nodes[p].term);
  }

  /** A node that leads a term at two points of a run led it all the time between them. */
  lemma {:induction false} LeadsThroughout(r: seq<ClusterState>, boot: Bootstrap, i: nat, k: nat, j: nat, p: NodeId)
    requires Run(r, boot) && i <= k <= j < |r| && p in r[i].nodes && p in r[j].nodes
    requires r[i].nodes[p].role == Leader && r[j].nodes[p].role == Leader
    requires r[i].nodes[p].term == r[j].nodes[p].term
    ensures p in r[k].nodes && r[k].nodes[p].role == Leader && r[k].nodes[p].term == r[i].nodes[p].term
    decreases j - k
  {
    if k < j {
      LedJustBefore(r, boot, i, j, p);
      LeadsThroughout(r, boot, i, k, j - 1, p);
    }
  }

  /** Match indices never decrease during a leadership. */
  lemma {:induction false} MatchIndicesGrow(r: seq<ClusterState>, boot: Bootstrap, i: nat, j: nat, p: NodeId)
    requires Run(r, boot) && i <= j < |r| && p in r[i].nodes && p in r[j].nodes
    requires r[i].nodes[p].role == Leader && r[j].nodes[p].role == Leader
    requires r[i].nodes[p].term == r[j].nodes[p].term
    ensures MatchesKept(r[i].nodes[p], r[j].nodes[p])
    decreases j - i
  {
    if i < j {
      LeadsThroughout(r, boot, i, j - 1, j, p);
      MatchIndicesGrow(r, boot, i, j - 1, p);
      StepOnwardInRun(r, boot, j - 1, p);
    }
  }

  // ---- A cluster of one -----------------------------------------------------

  lemma NobodyToAsk(c: ClusterState, boot: Bootstrap)
    requires Inv(c, boot) && |boot| == 1
    ensures c.voteAnswers == {}
  {
    forall a | a in c.voteAnswers ensures false {
      assert VoteAnswerOk(c.hist, boot, a);
      SubsetSize({a.call.src, a.call.dst}, boot.Keys);
    }
  }

  lemma VotesElectNobody(s: NodeState, a: VoteArgs, inContact: bool)
    requires |s.log| > 0
    ensures HandleVote(s, a, inContact).0.role == Leader ==> s.role == Leader
  {
    assert HearCandidate(s, a).role == Leader ==> s.role == Leader;
  }

  lemma AppendsElectNobody(s: NodeState, a: AppendArgs)
    requires |s.log| > 0
    ensures HandleAppend(s, a).0.role == Leader ==> s.role == Leader
  {
    AppendOutcomes(s, a);
    if s.term <= a.term {
      HeedOnward(s, a);
      if Accepts(s.log, a.prevIndex, a.prevTerm) { AcceptKeepsRole(Heed(s, a), a); }
    }
  }

  lemma AcceptKeepsRole(s: NodeState, a: AppendArgs)
    requires a.prevIndex < |s.log|
    ensures AcceptEntries(s, a).role == s.role
  {
    MergeKeepsStanding(s, a);
  }

  lemma AcksElectNobody(s: NodeState, q: NodeId, a: AppendArgs, reply: AppendReply)
    requires |s.log| > 0
    ensures HandleAppendReply(s, q, a, reply).0.role == Leader ==> s.role == Leader
  {
  }

  /** A node becomes leader only on a reply to its request for a vote. */
  lemma OnlyRepliesElect(c: ClusterState, step: Step, p: NodeId)
    requires Enabled(c, step) && p in c.nodes && !step.VoteReplyArrives?
    ensures p in TakeStep(c, step).nodes
    ensures TakeStep(c, step).nodes[p].role == Leader ==> c.nodes[p].role == Leader
  {
    var s, s' := c.nodes[Actor(step)], TakeStep(c, step).nodes[Actor(step)];
    match step
    case VoteArrives(m, inContact) => VotesElectNobody(s, m.args, inContact);
    case AppendArrives(m) => AppendsElectNobody(s, m.args);
    case AppendReplyArrives(a) => AcksElectNobody(s, a.call.dst, a.call.args, a.reply);
    case _ => QuietStepsElectNobody(c, step);
  }

  lemma QuietStepsElectNobody(c: ClusterState, step: Step)
    requires Enabled(c, step) && !step.VoteReplyArrives? && !step.VoteArrives?
    requires !step.AppendArrives? && !step.AppendReplyArrives?
    ensures Actor(step) in TakeStep(c, step).nodes
    ensures TakeStep(c, step).nodes[Actor(step)].role == Leader ==> c.nodes[Actor(step)].role == Leader
  {
  }

  /** The only voter of a cluster has its majority as soon as it stands, but never becomes leader:
      votes are counted only when a reply comes in. */
  lemma {:induction false} LoneNodeNeverLeads(r: seq<ClusterState>, boot: Bootstrap, i: nat, p: NodeId)
    requires Run(r, boot) && i < |r| && p in r[i].nodes && |boot| == 1
    ensures r[i].nodes[p].role != Leader
    decreases i
  {
    if i == 0 {
      assert Unused(boot, p, r[0].nodes[p]);
    } else {
      RunHasInv(r, boot, i - 1);
      RunHasInv(r, boot, i);
      NobodyToAsk(r[i - 1], boot);
      assert StepAt(r, i - 1);
      var step :| Enabled(r[i - 1], step) && r[i] == TakeStep(r[i - 1], step);
      LoneNodeNeverLeads(r, boot, i - 1, p);
      OnlyRepliesElect(r[i - 1], step, p);
    }
  }

  // ---- One call a peer ------------------------------------------------------

  ghost function CallsTo(c: ClusterState, p: NodeId, q: NodeId): set<AppendCall> {
    set m | m in c.calls && m.src == p && m.dst == q
  }

  lemma NoCallWhileOneIsOut(c: ClusterState, c': ClusterState, p: NodeId, q: NodeId)
    requires Next(c, c') && p in c.nodes && InFlight(c.nodes[p], q)
    ensures CallsTo(c', p, q) == CallsTo(c, p, q)
  {
    var step :| Enabled(c, step) && c' == TakeStep(c, step);
    if step.SendStarts? { assert step.p != p || step.q != q; }
  }

  /** As long as a node's call to a peer is out, it makes no other call to it. */
  lemma {:induction false} OneCallAtATime(r: seq<ClusterState>, boot: Bootstrap, i: nat, j: nat, p: NodeId, q: NodeId)
    requires Run(r, boot) && i <= j < |r| && forall k | i <= k < j :: p in r[k].nodes && InFlight(r[k].nodes[p], q)
    ensures CallsTo(r[j], p, q) == CallsTo(r[i], p, q)
    decreases j - i
  {
    if i < j {
      OneCallAtATime(r, boot, i, j - 1, p, q);
      assert StepAt(r, j - 1);
      NoCallWhileOneIsOut(r[j - 1], r[j], p, q);
    }
  }
}

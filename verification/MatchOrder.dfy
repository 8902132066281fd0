/** In a cluster of at most four nodes a leader never probes a peer at or below what it matches, whatever
    late replies it was handed. */
module MatchOrder {
  import opened RaftTypes
  import opened Membership
  import opened NodeSpec
  import opened LogHistory
  import opened Cluster
  import opened ClusterInv
  import opened ClusterSteps
  import opened ReplicationSteps
  import opened CommitSteps
  import opened Safety
  import opened Backoff
  import opened LateCalls
  import opened LateReplies

  /** What a call's sender matched when it sent it goes back to something the peer took over. */
  ghost predicate SentOk(g: Hist, m: AppendCall) {
    MatchOk(g, m.args.term, m.dst, m.sentMatch)
  }

  /** The peer refused with this log, and in a cluster of at most four the log has what was matched. */
  ghost predicate Refused(g: Hist, boot: Bootstrap, a: AppendAnswer, f: Log) {
    var (m, t) := (a.call, a.call.args.term);
    && LogOk(g, f) && t in g.lead && !Accepts(f, m.args.prevIndex, m.args.prevTerm)
    && a.reply == ConflictReply(f, t, m.args.prevIndex)
    && (|boot| <= 4 ==> AgreeTo(g.lead[t].log, f, m.sentMatch))
  }

  ghost predicate WasRefused(g: Hist, boot: Bootstrap, a: AppendAnswer) {
    !a.reply.success && a.reply.term == a.call.args.term ==> exists f :: Refused(g, boot, a, f)
  }

  /** Every probe is above what is matched. */
  predicate InOrder(s: NodeState) {
    s.role == Leader ==> forall q | q in s.nextIndex && q in s.matchIndex :: s.matchIndex[q] < s.nextIndex[q]
  }

  ghost predicate RefusalsInv(c: ClusterState, boot: Bootstrap) {
    && (forall m {:trigger SentOk(c.hist, m)} | m in c.calls :: SentOk(c.hist, m))
    && (forall a {:trigger WasRefused(c.hist, boot, a)} | a in c.answers :: WasRefused(c.hist, boot, a))
  }

  // ---- What stays -----------------------------------------------------------

  ghost predicate LateStays(g: Hist, h: Hist) {
    forall k | k in g.late :: k in h.late && h.late[k] == g.late[k]
  }

  lemma MatchOkKept(g: Hist, h: Hist, voters: set<NodeId>, t: Term, q: NodeId, n: LogIndex)
    requires HistInv(g, voters) && Grows(g, h) && LateStays(g, h) && MatchOk(g, t, q, n)
    ensures MatchOk(h, t, q, n)
  {
  }

  lemma RefusedKept(g: Hist, h: Hist, boot: Bootstrap, a: AppendAnswer, f: Log)
    requires Grows(g, h) && Refused(g, boot, a, f)
    ensures Refused(h, boot, a, f)
  {
    LogOkGrows(g, h, f);
    var l, l' := g.lead[a.call.args.term].log, h.lead[a.call.args.term].log;
    var n := a.call.sentMatch;
    if AgreeTo(l, f, n) { assert l[..n + 1] == l'[..n + 1]; }
  }

  lemma RefusalsKept(c: ClusterState, c': ClusterState, boot: Bootstrap)
    requires Inv(c, boot) && RefusalsInv(c, boot) && Grows(c.hist, c'.hist) && LateStays(c.hist, c'.hist)
    requires forall m | m in c'.calls && m !in c.calls :: SentOk(c'.hist, m)
    requires forall a | a in c'.answers && a !in c.answers :: WasRefused(c.hist, boot, a)
    ensures RefusalsInv(c', boot)
  {
    forall x | x in c'.calls ensures SentOk(c'.hist, x) {
      if x in c.calls {
        assert SentOk(c.hist, x);
        MatchOkKept(c.hist, c'.hist, boot.Keys, x.args.term, x.dst, x.sentMatch);
      }
    }
    forall x | x in c'.answers ensures WasRefused(c'.hist, boot, x) {
      assert WasRefused(c.hist, boot, x);
      if !x.reply.success && x.reply.term == x.call.args.term {
        var f :| Refused(c.hist, boot, x, f);
        RefusedKept(c.hist, c'.hist, boot, x, f);
      }
    }
  }

  // ---- Steps ----------------------------------------------------------------

  lemma LateValuesStay(c: ClusterState, boot: Bootstrap, step: Step)
    requires Inv(c, boot) && CallsInv(c) && Enabled(c, step)
    ensures LateStays(c.hist, TakeStep(c, step).hist)
  {
    if step.AppendReplyArrives? {
      var a := step.answer;
      assert NothingSent(c, c.pending[(a.call.src, a.call.dst)]);
    }
  }

  lemma NewCallOk(c: ClusterState, boot: Bootstrap, p: NodeId, q: NodeId, m: AppendCall)
    requires Inv(c, boot) && Enabled(c, SendStarts(p, q)) && |c.nodes[p].log| > 0
    requires m == AppendCall(c.clock, p, q, AppendRequest(c.nodes[p], q), MatchOf(c.nodes[p], q))
    ensures SentOk(c.hist, m)
  {
    AloneInCluster(c, boot, p);
    assert PeerInv(c.hist, c.nodes[p], q);
  }

  /** A peer in no later term has what the call's sender matched, in a cluster of at most four. */
  lemma HasMatched(c: ClusterState, boot: Bootstrap, m: AppendCall)
    requires Inv(c, boot) && m in c.calls && SentOk(c.hist, m) && m.dst in c.nodes
    requires c.nodes[m.dst].term <= m.args.term && |boot| <= 4
    ensures m.args.term in c.hist.lead && AgreeTo(c.hist.lead[m.args.term].log, c.nodes[m.dst].log, m.sentMatch)
  {
    var g, t, q, n, f := c.hist, m.args.term, m.dst, m.sentMatch, c.nodes[m.dst];
    assert AppendCallOk(g, boot, m);
    AloneInCluster(c, boot, q);
    assert LeaderOk(g, boot.Keys, t);
    if n == 0 {
      assert g.lead[t].log[..1] == f.log[..1];
    } else if Accepted(g, t, q, n) {
      FollowsLeader(g, boot, q, f, t);
      assert f.log[..n + 1] == g.lead[t].log[..n + 1];
    } else {
      EarlierAckKept(g, boot, t, q, f, g.late[(t, q)], n);
    }
  }

  lemma NewAnswerOk(c: ClusterState, boot: Bootstrap, m: AppendCall)
    requires Inv(c, boot) && RefusalsInv(c, boot) && Enabled(c, AppendArrives(m))
    ensures WasRefused(c.hist, boot, AppendAnswer(m, HandleAppend(c.nodes[m.dst], m.args).1))
  {
    var s := c.nodes[m.dst];
    var a := AppendAnswer(m, HandleAppend(s, m.args).1);
    AppendOutcomes(s, m.args);
    AloneInCluster(c, boot, m.dst);
    assert AppendCallOk(c.hist, boot, m) && SentOk(c.hist, m);
    if !a.reply.success && a.reply.term == m.args.term {
      if |boot| <= 4 { HasMatched(c, boot, m); }
      assert Refused(c.hist, boot, a, s.log);
    }
  }

  lemma SendKeepsRefusals(c: ClusterState, boot: Bootstrap, p: NodeId, q: NodeId)
    requires Inv(c, boot) && RefusalsInv(c, boot) && Enabled(c, SendStarts(p, q))
    ensures RefusalsInv(TakeStep(c, SendStarts(p, q)), boot)
  {
    AloneInCluster(c, boot, p);
    SendStep(c, p, q);
    NewCallOk(c, boot, p, q, AppendCall(c.clock, p, q, AppendRequest(c.nodes[p], q), MatchOf(c.nodes[p], q)));
    RefusalsKept(c, TakeStep(c, SendStarts(p, q)), boot);
  }

  lemma StepKeepsRefusals(c: ClusterState, boot: Bootstrap, step: Step)
    requires Inv(c, boot) && CallsInv(c) && RefusalsInv(c, boot) && Enabled(c, step)
    ensures RefusalsInv(TakeStep(c, step), boot)
  {
    StepsKeepInv(c, boot, step);
    LateValuesStay(c, boot, step);
    if step.SendStarts? {
      SendKeepsRefusals(c, boot, step.p, step.q);
    } else {
      if step.AppendArrives? { NewAnswerOk(c, boot, step.call); } else { OthersSayNothing(c, step); }
      RefusalsKept(c, TakeStep(c, step), boot);
    }
  }

  lemma OthersSayNothing(c: ClusterState, step: Step)
    requires Enabled(c, step) && !step.SendStarts? && !step.AppendArrives?
    ensures TakeStep(c, step).calls == c.calls && TakeStep(c, step).answers == c.answers
  {
  }

  // ---- The order ------------------------------------------------------------

  /** What backing off on a log that has what is matched leads to. */
  lemma BacksOffAbove(l: Log, f: Log, n: LogIndex, a: AppendArgs, t: Term)
    requires Compatible(l, f) && AgreeTo(l, f, n) && a.prevIndex < |l| && l[a.prevIndex].term == a.prevTerm
    requires !Accepts(f, a.prevIndex, a.prevTerm)
    ensures n < BackoffIndex(l, ConflictReply(f, t, a.prevIndex))
  {
    BackoffExact(l, f, a.prevIndex + 1);
    PrefixIsCommon(l, f, n + 1);
  }

  /** A rejection in the leader's own term leaves its probe above what is matched. */
  lemma RejectionInOrder(c: ClusterState, boot: Bootstrap, a: AppendAnswer, s: NodeState)
    requires Inv(c, boot) && RefusalsInv(c, boot) && Enabled(c, AppendReplyArrives(a)) && |boot| <= 4
    requires s == c.nodes[a.call.src] && s.role == Leader && s.term == a.call.args.term
    requires !a.reply.success && a.reply.term <= s.term
    ensures MatchOf(s, a.call.dst) < BackoffIndex(s.log, a.reply)
  {
    var g, m := c.hist, a.call;
    AloneInCluster(c, boot, m.src);
    ReplyExpected(c, boot, a);
    assert WasRefused(g, boot, a);
    var f :| Refused(g, boot, a, f);
    PendingProbe(c, boot, m);
    OkLogsCompatible(g, boot.Keys, s.log, f);
    BacksOffAbove(s.log, f, m.sentMatch, m.args, m.args.term);
  }

  /** While the call is out of an earlier leadership, nothing is matched. */
  lemma LateReplyInOrder(c: ClusterState, boot: Bootstrap, a: AppendAnswer, s: NodeState)
    requires Inv(c, boot) && Enabled(c, AppendReplyArrives(a))
    requires s == c.nodes[a.call.src] && s.role == Leader && s.term != a.call.args.term
    ensures |s.log| > 0 && MatchOf(s, a.call.dst) < BackoffIndex(s.log, a.reply)
  {
    AloneInCluster(c, boot, a.call.src);
    assert PendingOk(c.nodes, c.calls, (a.call.src, a.call.dst), a.call);
  }

  lemma HandledInOrder(s: NodeState, q: NodeId, a: AppendArgs, reply: AppendReply)
    requires |s.log| > 0 && InOrder(s)
    requires s.role == Leader && reply.term <= s.term && !reply.success ==> MatchOf(s, q) < BackoffIndex(s.log, reply)
    ensures InOrder(HandleAppendReply(s, q, a, reply).0)
  {
  }

  lemma ReplyKeepsOrder(c: ClusterState, boot: Bootstrap, a: AppendAnswer)
    requires Inv(c, boot) && RefusalsInv(c, boot) && Enabled(c, AppendReplyArrives(a)) && |boot| <= 4
    requires InOrder(c.nodes[a.call.src])
    ensures |c.nodes[a.call.src].log| > 0
    ensures InOrder(HandleAppendReply(c.nodes[a.call.src], a.call.dst, a.call.args, a.reply).0)
  {
    var s := c.nodes[a.call.src];
    AloneInCluster(c, boot, a.call.src);
    if s.role == Leader && a.reply.term <= s.term && !a.reply.success {
      if s.term == a.call.args.term {
        RejectionInOrder(c, boot, a, s);
      } else {
        LateReplyInOrder(c, boot, a, s);
      }
    }
    HandledInOrder(s, a.call.dst, a.call.args, a.reply);
  }

  /** The leader, if it still is one, has the indices it had. */
  predicate IndicesStay(s: NodeState, s': NodeState) {
    s'.role == Leader ==> s.role == Leader && s'.nextIndex == s.nextIndex && s'.matchIndex == s.matchIndex
  }

  lemma VoteKeepsIndices(s: NodeState, a: VoteArgs, inContact: bool)
    requires |s.log| > 0
    ensures IndicesStay(s, HandleVote(s, a, inContact).0)
  {
    var s1 := HearCandidate(s, a);
    assert s1.role == Leader ==> s1 == s;
  }

  lemma AppendKeepsIndices(c: ClusterState, boot: Bootstrap, m: AppendCall)
    requires Inv(c, boot) && Enabled(c, AppendArrives(m))
    ensures IndicesStay(c.nodes[m.dst], HandleAppend(c.nodes[m.dst], m.args).0)
  {
    var s := c.nodes[m.dst];
    AloneInCluster(c, boot, m.dst);
    assert AppendCallOk(c.hist, boot, m);
    if s.term <= m.args.term { FollowsSender(s, m.args); }
  }

  lemma OthersKeepIndices(c: ClusterState, step: Step)
    requires Enabled(c, step) && !step.VoteArrives? && !step.VoteReplyArrives? && !step.AppendArrives? && !step.AppendReplyArrives?
    ensures Actor(step) in TakeStep(c, step).nodes && IndicesStay(c.nodes[Actor(step)], TakeStep(c, step).nodes[Actor(step)])
  {
  }

  lemma WinnerInOrder(boot: Bootstrap, p: NodeId, s: NodeState)
    requires ConfigInv(boot, p, s) && |s.log| > 0 && s.role == Candidate
    ensures InOrder(BecomeLeader(s))
  {
    NewLeaderIndices(boot, p, s);
  }

  lemma VoteReplyKeepsOrder(boot: Bootstrap, p: NodeId, s: NodeState, t: Term, reply: VoteReply)
    requires ConfigInv(boot, p, s) && |s.log| > 0 && InOrder(s)
    ensures InOrder(HandleVoteReply(s, t, reply))
  {
    if s.role == Candidate && s.term == t && reply.term <= t && reply.granted {
      WinnerInOrder(boot, p, s.(votesReceived := s.votesReceived + 1));
    }
  }

  lemma StepKeepsOrder(c: ClusterState, boot: Bootstrap, step: Step, p: NodeId)
    requires Inv(c, boot) && RefusalsInv(c, boot) && Enabled(c, step) && |boot| <= 4 && p in c.nodes && InOrder(c.nodes[p])
    ensures p in TakeStep(c, step).nodes && InOrder(TakeStep(c, step).nodes[p])
  {
    if p == Actor(step) {
      AloneInCluster(c, boot, p);
      if step.VoteArrives? {
        VoteKeepsIndices(c.nodes[p], step.voteCall.args, step.inContact);
      } else if step.VoteReplyArrives? {
        VoteReplyKeepsOrder(boot, p, c.nodes[p], step.voteAnswer.call.args.term, step.voteAnswer.reply);
      } else if step.AppendArrives? {
        AppendKeepsIndices(c, boot, step.call);
      } else if step.AppendReplyArrives? {
        ReplyKeepsOrder(c, boot, step.answer);
      } else {
        OthersKeepIndices(c, step);
      }
    }
  }

  lemma NextKeepsRefusals(c: ClusterState, boot: Bootstrap, c': ClusterState)
    requires Inv(c, boot) && CallsInv(c) && RefusalsInv(c, boot) && Next(c, c')
    ensures RefusalsInv(c', boot)
  {
    var step :| Enabled(c, step) && c' == TakeStep(c, step);
    StepKeepsRefusals(c, boot, step);
  }

  lemma NextKeepsOrder(c: ClusterState, boot: Bootstrap, c': ClusterState, p: NodeId)
    requires Inv(c, boot) && RefusalsInv(c, boot) && Next(c, c') && |boot| <= 4 && p in c.nodes && InOrder(c.nodes[p])
    ensures p in c'.nodes && InOrder(c'.nodes[p])
  {
    var step :| Enabled(c, step) && c' == TakeStep(c, step);
    StepKeepsOrder(c, boot, step, p);
  }

  lemma {:induction false} RefusalsInRun(r: seq<ClusterState>, boot: Bootstrap, i: nat)
    requires Run(r, boot) && i < |r|
    ensures RefusalsInv(r[i], boot)
  {
    if i > 0 {
      RefusalsInRun(r, boot, i - 1);
      CallsInRun(r, boot, i - 1);
      RunHasInv(r, boot, i - 1);
      assert StepAt(r, i - 1);
      NextKeepsRefusals(r[i - 1], boot, r[i]);
    }
  }

  /** In every state of every run of up to four nodes a leader probes every peer above what it matches. */
  lemma {:induction false} ProbesAboveMatches(r: seq<ClusterState>, boot: Bootstrap, i: nat, p: NodeId)
    requires Run(r, boot) && |boot| <= 4 && i < |r| && p in r[i].nodes
    ensures InOrder(r[i].nodes[p])
  {
    if i == 0 {
      assert Unused(boot, p, r[0].nodes[p]);
    } else {
      SameNodes(r, boot, i - 1, p);
      RefusalsInRun(r, boot, i - 1);
      ProbesAboveMatches(r, boot, i - 1, p);
      NextKeepsOrder(r[i - 1], boot, r[i], p);
    }
  }
}

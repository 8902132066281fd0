/** Replies that outlive the leadership that sent their requests: which of them do no harm, and why. */
module LateReplies {
  import opened RaftTypes
  import opened Quorums
  import opened Membership
  import opened NodeSpec
  import opened LogHistory
  import opened Cluster
  import opened ClusterInv
  import opened ReplicationSteps
  import opened CommitSteps
  import opened Safety
  import opened Progress

  // ---- What a leader could commit, it has -----------------------------------

  /** No index past the commit index satisfies the commit rule. */
  ghost predicate FullyCommitted(s: NodeState) {
    s.role == Leader ==> forall n {:trigger Committable(s, n)} | s.commit < n < |s.log| :: !Committable(s, n)
  }

  /** A leader that leads on with its log, its indices and its commit index as they were. */
  ghost predicate SameBooks(s: NodeState, s': NodeState) {
    s'.role == Leader ==> s' == s.(votedFor := s'.votedFor, inFlight := s'.inFlight, lastApplied := s'.lastApplied,
                                   batch := s'.batch, fsm := s'.fsm)
  }

  lemma SameLeadership(s: NodeState, s': NodeState)
    requires FullyCommitted(s) && SameBooks(s, s')
    ensures FullyCommitted(s')
  {
    if s'.role == Leader {
      forall n | s'.commit < n < |s'.log| ensures !Committable(s', n) {
        assert AckedBy(s', n) == AckedBy(s, n);
        assert !Committable(s, n);
      }
    }
  }

  lemma ScanIsFull(s: NodeState)
    requires |s.log| > 0
    ensures FullyCommitted(UpdateCommit(s))
  {
    var s' := UpdateCommit(s);
    forall n | s'.commit < n < |s'.log| ensures !Committable(s', n) {
      assert AckedBy(s', n) == AckedBy(s, n);
      assert !Committable(s, n);
    }
  }

  /** With two voters or more a leader cannot commit by its own copy. */
  lemma AloneCommitsNothing(s: NodeState, n: LogIndex)
    requires |s.voters| >= 2 && AckedBy(s, n) == {}
    ensures !Committable(s, n)
  {
  }

  lemma SubmitStaysFull(s: NodeState, cmd: Command)
    requires FullyCommitted(s) && |s.voters| >= 2 && forall q :: MatchOf(s, q) < |s.log|
    ensures FullyCommitted(Submit(s, cmd))
  {
    var s' := Submit(s, cmd);
    if s.role == Leader {
      forall n | s'.commit < n < |s'.log| ensures !Committable(s', n) {
        if n < |s.log| {
          assert AckedBy(s', n) == AckedBy(s, n);
          assert !Committable(s, n);
        } else {
          assert forall q :: MatchOf(s', q) == MatchOf(s, q) < n;
          AloneCommitsNothing(s', n);
        }
      }
    }
  }

  lemma WinnerIsFull(s: NodeState)
    requires s.role == Candidate && |s.voters| >= 2 && s.matchIndex.Keys <= s.peers.Keys - {s.id}
    ensures FullyCommitted(BecomeLeader(s))
  {
    var s' := BecomeLeader(s);
    forall n | s'.commit < n < |s'.log| ensures !Committable(s', n) {
      assert AckedBy(s', n) == {};
      AloneCommitsNothing(s', n);
    }
  }

  lemma VoteReplyStaysFull(s: NodeState, t: Term, reply: VoteReply)
    requires FullyCommitted(s) && |s.voters| >= 2 && s.matchIndex.Keys <= s.peers.Keys - {s.id}
    ensures FullyCommitted(HandleVoteReply(s, t, reply))
  {
    var s1, s' := s.(votesReceived := s.votesReceived + 1), HandleVoteReply(s, t, reply);
    if s' == BecomeLeader(s1) && s.role == Candidate {
      WinnerIsFull(s1);
    } else {
      assert s' == s || s'.role != Leader;
    }
  }

  lemma ReplyStaysFull(s: NodeState, q: NodeId, a: AppendArgs, reply: AppendReply)
    requires FullyCommitted(s) && |s.log| > 0
    ensures FullyCommitted(HandleAppendReply(s, q, a, reply).0)
  {
    var s' := HandleAppendReply(s, q, a, reply).0;
    if s.role == Leader && reply.term <= s.term {
      if reply.success && Reach(a) > MatchOf(s, q) {
        ScanIsFull(Matched(s, q, Reach(a)));
      } else {
        forall n | s'.commit < n < |s'.log| ensures !Committable(s', n) {
          assert AckedBy(s', n) == AckedBy(s, n);
          assert !Committable(s, n);
        }
      }
    }
  }

  lemma MatchesInLog(c: ClusterState, boot: Bootstrap, p: NodeId)
    requires Inv(c, boot) && p in c.nodes
    ensures var s := c.nodes[p];
            && s.voters == boot.Keys && s.matchIndex.Keys == s.peers.Keys == boot.Keys - {s.id} && |s.log| > 0
            && (s.role == Leader ==> forall q :: MatchOf(s, q) < |s.log|)
  {
    AloneInCluster(c, boot, p);
    var s := c.nodes[p];
    if s.role == Leader {
      forall q ensures MatchOf(s, q) < |s.log| {
        if q in s.matchIndex { assert PeerInv(c.hist, s, q); }
      }
    }
  }

  /** A request of another node leaves a leader as it is, or ends its leadership. */
  lemma RequestsStayFull(c: ClusterState, boot: Bootstrap, m: AppendCall)
    requires Inv(c, boot) && Possible(c, AppendArrives(m)) && FullyCommitted(c.nodes[m.dst])
    ensures FullyCommitted(HandleAppend(c.nodes[m.dst], m.args).0)
  {
    var s := c.nodes[m.dst];
    AloneInCluster(c, boot, m.dst);
    assert AppendCallOk(c.hist, boot, m);
    if s.term <= m.args.term { FollowsSender(s, m.args); }
  }

  lemma FollowsSender(s: NodeState, a: AppendArgs)
    requires |s.log| > 0 && s.term <= a.term && (s.term == a.term ==> s.role != Leader)
    ensures HandleAppend(s, a).0.role != Leader
  {
    AppendsElectNobody(s, a);
    if s.term < a.term { AppendsElectNobody(BecomeFollower(s, a.term), a); }
  }

  lemma VoteStaysFull(s: NodeState, a: VoteArgs, inContact: bool)
    requires FullyCommitted(s) && |s.log| > 0
    ensures FullyCommitted(HandleVote(s, a, inContact).0)
  {
    VotesElectNobody(s, a, inContact);
    SameLeadership(s, HandleVote(s, a, inContact).0);
  }

  lemma StepStaysFull(c: ClusterState, boot: Bootstrap, step: Step, p: NodeId)
    requires Inv(c, boot) && |boot| >= 2 && Enabled(c, step) && p in c.nodes && FullyCommitted(c.nodes[p])
    ensures p in TakeStep(c, step).nodes && FullyCommitted(TakeStep(c, step).nodes[p])
  {
    MatchesInLog(c, boot, p);
    assert |boot.Keys| == |boot|;
    if p == Actor(step) {
      var s := c.nodes[p];
      match step
      case VoteArrives(m, inContact) => VoteStaysFull(s, m.args, inContact);
      case VoteReplyArrives(a) => VoteReplyStaysFull(s, a.call.args.term, a.reply);
      case ClientSubmits(_, cmd) => SubmitStaysFull(s, cmd);
      case AppendArrives(m) => RequestsStayFull(c, boot, m);
      case AppendReplyArrives(a) => ReplyStaysFull(s, a.call.dst, a.call.args, a.reply);
      case _ => QuietStaysFull(c, step);
    }
  }

  lemma QuietStaysFull(c: ClusterState, step: Step)
    requires Enabled(c, step) && FullyCommitted(c.nodes[Actor(step)])
    requires !step.VoteArrives? && !step.VoteReplyArrives? && !step.ClientSubmits?
    requires !step.AppendArrives? && !step.AppendReplyArrives?
    ensures Actor(step) in TakeStep(c, step).nodes && FullyCommitted(TakeStep(c, step).nodes[Actor(step)])
  {
    QuietKeepsBooks(c, step);
    SameLeadership(c.nodes[Actor(step)], TakeStep(c, step).nodes[Actor(step)]);
  }

  lemma QuietKeepsBooks(c: ClusterState, step: Step)
    requires Enabled(c, step) && !step.VoteArrives? && !step.VoteReplyArrives? && !step.ClientSubmits?
    requires !step.AppendArrives? && !step.AppendReplyArrives?
    ensures Actor(step) in TakeStep(c, step).nodes
    ensures SameBooks(c.nodes[Actor(step)], TakeStep(c, step).nodes[Actor(step)])
  {
    QuietStepsElectNobody(c, step);
  }

  lemma NextStaysFull(c: ClusterState, boot: Bootstrap, c': ClusterState, p: NodeId)
    requires Inv(c, boot) && |boot| >= 2 && Next(c, c') && p in c.nodes && FullyCommitted(c.nodes[p])
    ensures p in c'.nodes && FullyCommitted(c'.nodes[p])
  {
    var step :| Enabled(c, step) && c' == TakeStep(c, step);
    StepStaysFull(c, boot, step, p);
  }

  /** In every state of every run a leader has committed whatever its match indices allow. */
  lemma {:induction false} NothingLeftToCommit(r: seq<ClusterState>, boot: Bootstrap, i: nat, p: NodeId)
    requires Run(r, boot) && |boot| >= 2 && i < |r| && p in r[i].nodes
    ensures FullyCommitted(r[i].nodes[p])
  {
    if i == 0 {
      assert Unused(boot, p, r[0].nodes[p]);
    } else {
      SameNodes(r, boot, i - 1, p);
      NothingLeftToCommit(r, boot, i - 1, p);
      NextStaysFull(r[i - 1], boot, r[i], p);
    }
  }

  // ---- Late acknowledgements ------------------------------------------------

  /** Below a leader's own entries a match index makes no difference to the commit rule. */
  lemma BelowOwnEntries(s: NodeState, q: NodeId, n: LogIndex)
    requires s.role == Leader && FullyCommitted(s) && n < |s.log| && MatchOf(s, q) < n
    requires forall k | 0 <= k <= n :: s.log[k].term != s.term
    ensures UpdateCommit(Matched(s, q, n)).commit == s.commit
  {
    var s1 := Matched(s, q, n);
    forall k | s.commit < k < |s.log| ensures !Committable(s1, k) {
      assert !Committable(s, k);
      if k > n { assert AckedBy(s1, k) == AckedBy(s, k); }
    }
  }

  lemma LateAckBelow(c: ClusterState, boot: Bootstrap, a: AppendAnswer)
    requires Inv(c, boot) && Enabled(c, AppendReplyArrives(a)) && IsLate(c.nodes[a.call.src], a) && a.reply.success
    ensures |boot| >= 2
    ensures var s, n := c.nodes[a.call.src], Reach(a.call.args);
            n < |s.log| && forall k | 0 <= k <= n :: s.log[k].term != s.term
  {
    var g, s, n := c.hist, c.nodes[a.call.src], Reach(a.call.args);
    AloneInCluster(c, boot, a.call.src);
    ReplyExpected(c, boot, a);
    SubsetSize({a.call.src, a.call.dst}, boot.Keys);
    assert |boot.Keys| == |boot|;
    LeaderOwns(g, boot, a.call.src, s, n);
    forall k | 0 <= k <= n ensures s.log[k].term != s.term {
      TermsAscend(g, boot.Keys, s.log, k, n);
    }
  }

  /** An acknowledgement can change what is committed only if it reaches the leader's own entries:
      every late one that may come in changes nothing but indices. */
  lemma LateAckCommitsNothing(r: seq<ClusterState>, boot: Bootstrap, i: nat, a: AppendAnswer)
    requires Run(r, boot) && i < |r| && Enabled(r[i], AppendReplyArrives(a))
    requires IsLate(r[i].nodes[a.call.src], a) && a.reply.success
    ensures var s := r[i].nodes[a.call.src];
            |s.log| > 0 && HandleAppendReply(s, a.call.dst, a.call.args, a.reply).0.commit == s.commit
  {
    var s, n := r[i].nodes[a.call.src], Reach(a.call.args);
    RunHasInv(r, boot, i);
    LateAckBelow(r[i], boot, a);
    NothingLeftToCommit(r, boot, i, a.call.src);
    if n > MatchOf(s, a.call.dst) { BelowOwnEntries(s, a.call.dst, n); }
  }

  lemma FewAcksInTime(c: ClusterState, boot: Bootstrap, a: AppendAnswer)
    requires Inv(c, boot) && |boot| <= 4 && Possible(c, AppendReplyArrives(a)) && a.reply.success
    ensures InTime(c.nodes[a.call.src], a)
  {
    var g, s, t, n := c.hist, c.nodes[a.call.src], a.call.args.term, Reach(a.call.args);
    AloneInCluster(c, boot, a.call.src);
    assert AppendAnswerOk(g, boot, a);
    if IsLate(s, a) {
      FewBlock(g, boot, t, a.call.dst, n);
      LeaderOwns(g, boot, a.call.src, s, 0);
      assert LeaderOk(g, boot.Keys, t) && LeaderOk(g, boot.Keys, s.term);
      BlockingSetKeeps(g, boot.Keys, t, n, s.term);
      assert s.log[n] == g.lead[t].log[..n + 1][n];
    }
  }

  /** In a cluster of at most four nodes no step needs the assumption on timing: what one peer and the
      leader have stored every later leader has. */
  lemma FewNeedNoTiming(r: seq<ClusterState>, boot: Bootstrap, i: nat, step: Step)
    requires Run(r, boot) && |boot| <= 4 && i < |r| && Possible(r[i], step)
    ensures Enabled(r[i], step)
  {
    RunHasInv(r, boot, i);
    if step.AppendReplyArrives? && step.answer.reply.success { FewAcksInTime(r[i], boot, step.answer); }
  }

  // ---- Late rejections ------------------------------------------------------

  /** A rejection that points nowhere, as a refusal of an older term does, finds nothing matched: the leader
      takes it for one of its term only if the call is from an earlier leadership of its own. */
  lemma ZeroHintFindsNothingMatched(r: seq<ClusterState>, boot: Bootstrap, i: nat, a: AppendAnswer)
    requires Run(r, boot) && i < |r| && Possible(r[i], AppendReplyArrives(a))
    requires var s := r[i].nodes[a.call.src]; s.role == Leader && a.reply.term <= s.term
    requires !a.reply.success && a.reply.conflictIndex == 0
    ensures IsLate(r[i].nodes[a.call.src], a) && MatchOf(r[i].nodes[a.call.src], a.call.dst) == 0
  {
    RunHasInv(r, boot, i);
    assert Enabled(r[i], AppendReplyArrives(a));
    ReplyExpected(r[i], boot, a);
  }

  // ---- When an acknowledgement is worth something ---------------------------

  ghost predicate Holds(log: Log, t: Term) {
    exists k :: 0 <= k < |log| && log[k].term == t
  }

  /** The request is of this leadership; or the leader still has what it carried, and has entries of
      every term since then. */
  ghost predicate Vouched(s: NodeState, a: AppendArgs) {
    || a.term == s.term
    || (Reach(a) < |s.log| && s.log[Reach(a)].term == a.term && forall w | a.term < w < s.term :: Holds(s.log, w))
  }

  /** A later leader that this leader has entries of was elected with everything below them. */
  lemma SeenLeaderHad(g: Hist, boot: Bootstrap, log: Log, n: LogIndex, w: Term)
    requires HistInv(g, boot.Keys) && LogOk(g, log) && n < |log| && log[n].term < w && Holds(log, w)
    ensures w in g.lead && log[..n + 1] <= g.lead[w].base
  {
    var k :| 0 <= k < |log| && log[k].term == w;
    if k <= n { TermsAscend(g, boot.Keys, log, k, n); }
    assert EntryOk(g, log, k) && LeaderOk(g, boot.Keys, w);
    assert log[n] == log[..k + 1][n] == g.lead[w].log[n];
    assert log[..n + 1] == log[..k + 1][..n + 1];
  }

  lemma LaterLeadersHad(g: Hist, boot: Bootstrap, log: Log, u: Term, t: Term, n: LogIndex)
    requires HistInv(g, boot.Keys) && LogOk(g, log) && u in g.lead && log == g.lead[u].log
    requires n < |log| && log[n].term == t < u && Own(g, t, n) && n < |g.lead[u].base|
    requires forall w | t < w < u :: Holds(log, w)
    ensures log[..n + 1] == g.lead[t].log[..n + 1]
    ensures forall w | w in g.lead && t < w <= u :: g.lead[t].log[..n + 1] <= g.lead[w].base
  {
    assert LeaderOk(g, boot.Keys, u) && LeaderOk(g, boot.Keys, t);
    assert EntryOk(g, log, n);
    forall w | w in g.lead && t < w <= u ensures g.lead[t].log[..n + 1] <= g.lead[w].base {
      if w < u { SeenLeaderHad(g, boot, log, n, w); }
    }
  }

  lemma NeverMissed(g: Hist, q: NodeId, f: Log, l: Log, t: Term, n: LogIndex)
    requires |f| > 0 && CarryInv(g, q, f) && Own(g, t, n) && Accepted(g, t, q, n)
    requires n < |l| && l[..n + 1] == g.lead[t].log[..n + 1]
    requires forall w | w in g.lead && t < w <= LastTerm(f) :: g.lead[t].log[..n + 1] <= g.lead[w].base
    ensures AgreeTo(l, f, n)
  {
    assert Carries(g, t, n, f, LastTerm(f) + 1);
  }

  lemma VouchedKept(g: Hist, boot: Bootstrap, p: NodeId, s: NodeState, q: NodeId, f: NodeState, a: AppendArgs)
    requires HistInv(g, boot.Keys) && NodeInv(g, boot, p, s) && NodeInv(g, boot, q, f)
    requires s.role == Leader && f.term == s.term && a.term < s.term && Vouched(s, a)
    requires Own(g, a.term, Reach(a)) && Accepted(g, a.term, q, Reach(a))
    ensures AgreeTo(s.log, f.log, Reach(a))
  {
    LeaderOwns(g, boot, p, s, Reach(a));
    LaterLeadersHad(g, boot, s.log, s.term, a.term, Reach(a));
    NeverMissed(g, q, f.log, s.log, a.term, Reach(a));
  }

  /** The missing test of the request's term suffices in clusters of every size, and so does a weaker
      one: an acknowledgement that is vouched for is about what the peer has now. */
  lemma VouchedAckSound(r: seq<ClusterState>, boot: Bootstrap, i: nat, a: AppendAnswer)
    requires Run(r, boot) && i < |r| && Possible(r[i], AppendReplyArrives(a)) && a.reply.success
    requires a.call.dst in r[i].nodes && r[i].nodes[a.call.src].role == Leader
    requires r[i].nodes[a.call.dst].term == r[i].nodes[a.call.src].term
    requires Vouched(r[i].nodes[a.call.src], a.call.args)
    ensures AgreeTo(r[i].nodes[a.call.src].log, r[i].nodes[a.call.dst].log, Reach(a.call.args))
  {
    var g, s, f := r[i].hist, r[i].nodes[a.call.src], r[i].nodes[a.call.dst];
    RunHasInv(r, boot, i);
    AloneInCluster(r[i], boot, a.call.src);
    AloneInCluster(r[i], boot, a.call.dst);
    assert AppendAnswerOk(g, boot, a);
    LeaderOwns(g, boot, a.call.src, s, 0);
    if a.call.args.term == s.term {
      FollowsLeader(g, boot, a.call.dst, f, s.term);
    } else {
      VouchedKept(g, boot, a.call.src, s, a.call.dst, f, a.call.args);
    }
  }
}

/** Replies, commits and applying keep the invariant; so it holds in every run. */
module CommitSteps {
  import opened RaftTypes
  import opened Quorums
  import opened Membership
  import opened NodeSpec
  import opened LogHistory
  import opened Cluster
  import opened ClusterInv
  import opened HistorySteps
  import opened ClusterSteps
  import opened ReplicationSteps

  // ---- Counting replicas ----------------------------------------------------

  /** An entry of the leader's term that enough match indices cover is chosen. */
  lemma CommittableIsChosen(g: Hist, boot: Bootstrap, p: NodeId, s: NodeState, n: LogIndex)
    requires HistInv(g, boot.Keys) && NodeInv(g, boot, p, s) && s.role == Leader
    requires n > s.commit && Committable(s, n)
    ensures Chosen(g, boot.Keys, s.term, n)
  {
    var t := s.term;
    assert LeaderOk(g, boot.Keys, t);
    var acked := AckedBy(s, n);
    forall q | q in acked ensures Accepted(g, t, q, n) {
      assert PeerInv(g, s, q);
    }
    SubsetSize(acked + {p}, AcceptorsOf(g, boot.Keys, t, n));
  }

  lemma RolesStand(g: Hist, h: Hist, p: NodeId, s: NodeState, n: LogIndex)
    requires TermInv(g, p, s.term) && RoleInv(g, p, s) && VoteInv(g, p, s) && s.role == Leader && n > s.commit
    requires Won(g, p, s.term) && h == RecordCommit(g, s.term, n)
    ensures TermInv(h, p, s.term) && RoleInv(h, p, s.(commit := n)) && VoteInv(h, p, s.(commit := n))
  {
  }

  lemma CommitNodeInv(g: Hist, h: Hist, boot: Bootstrap, p: NodeId, s: NodeState, n: LogIndex)
    requires HistInv(g, boot.Keys) && NodeInv(g, boot, p, s) && s.role == Leader
    requires n > s.commit && Chosen(g, boot.Keys, s.term, n)
    requires h == RecordCommit(g, s.term, n) && Grows(g, h)
    ensures NodeInv(h, boot, p, s.(commit := n))
  {
    LogStands(g, h, boot, p, s);
    RolesStand(g, h, p, s, n);
    ApplyInvExtends(s, s.(commit := n));
    assert CommittedIn(h, s.log, n, s.term);
    PeersStand(g, h, s, s.(commit := n));
  }

  /** The commit scan after a peer's match index has gone up. */
  lemma ScanMove(g: Hist, boot: Bootstrap, done: set<Ballot>, p: NodeId, s: NodeState)
    requires Alone(g, boot, done, p, s) && s.role == Leader
    ensures var s' := UpdateCommit(s);
            MoveOk(g, AfterCommit(g, s, s'), boot, done, done, p, s, s')
  {
    var n := CommitScan(s, LastIndex(s.log));
    if n > s.commit {
      CommittableIsChosen(g, boot, p, s, n);
      CommitRecorded(g, boot, s.term, n);
      CommitNodeInv(g, RecordCommit(g, s.term, n), boot, p, s, n);
    } else {
      NoMove(g, boot, done, done, p, s);
    }
  }

  // ---- Replies to append requests -------------------------------------------

  function AfterAnswer(c: ClusterState, a: AppendAnswer, s': NodeState, h: Hist): ClusterState {
    c.(nodes := c.nodes[a.call.src := s'], pending := c.pending - {(a.call.src, a.call.dst)}, hist := h)
  }

  /** The leader's indices for every peer but one stay. */
  ghost predicate OnlyPeerMoves(s: NodeState, s': NodeState, q: NodeId) {
    && s'.role == s.role && s'.term == s.term && s'.inFlight == s.inFlight
    && (forall r | r != q && r in s.nextIndex :: r in s'.nextIndex && s'.nextIndex[r] == s.nextIndex[r])
    && (forall r | r != q :: MatchOf(s', r) == MatchOf(s, r))
  }

  lemma CallFinished(c: ClusterState, boot: Bootstrap, p: NodeId, q: NodeId, s': NodeState)
    requires PendingInv(c.nodes, c.calls, c.pending) && p in c.nodes
    requires OnlyPeerMoves(c.nodes[p], s', q)
             || (s'.inFlight == c.nodes[p].inFlight && s'.role != Leader)
    ensures PendingInv(c.nodes[p := s'], c.calls, c.pending - {(p, q)})
  {
    var nodes, pending := c.nodes[p := s'], c.pending - {(p, q)};
    forall k | k in pending ensures PendingOk(nodes, c.calls, k, pending[k]) {
      assert PendingOk(c.nodes, c.calls, k, c.pending[k]);
    }
  }

  lemma AnswerKeepsInv(c: ClusterState, boot: Bootstrap, a: AppendAnswer, s': NodeState, h: Hist)
    requires Inv(c, boot) && a.call.src in c.nodes && Alone(h, boot, c.ballotsDone, a.call.src, s')
    requires GrowsBy(c.hist, h, a.call.src)
    requires OnlyPeerMoves(c.nodes[a.call.src], s', a.call.dst)
             || (s'.inFlight == c.nodes[a.call.src].inFlight && s'.role != Leader)
    ensures Follows(c, AfterAnswer(c, a, s', h), boot)
  {
    var c' := AfterAnswer(c, a, s', h);
    MessagesKept(c, c', boot);
    CallFinished(c, boot, a.call.src, a.call.dst, s');
    StepKeepsInv(c, c', boot, a.call.src);
  }

  function Matched(s: NodeState, q: NodeId, n: LogIndex): NodeState {
    s.(matchIndex := s.matchIndex[q := n], nextIndex := s.nextIndex[q := n + 1])
  }

  /** What the leader is told by a late reply it had no index for. */
  lemma LateMove(g: Hist, boot: Bootstrap, done: set<Ballot>, p: NodeId, s: NodeState, a: AppendAnswer)
    requires Alone(g, boot, done, p, s)
    requires IsLate(s, a) && a.reply.success ==> MatchOf(s, a.call.dst) == 0
    ensures Alone(RecordLate(g, s, a), boot, done, p, s) && GrowsBy(g, RecordLate(g, s, a), p)
  {
    if IsLate(s, a) {
      LateKept(g, RecordLate(g, s, a), boot, done, p, s, a.call.dst);
    } else {
      GrowsBySelf(g, p);
    }
  }

  lemma LateKept(g: Hist, h: Hist, boot: Bootstrap, done: set<Ballot>, p: NodeId, s: NodeState, q: NodeId)
    requires Alone(g, boot, done, p, s) && s.role == Leader
    requires h == g.(late := h.late, over := h.over) && g.over <= h.over
    requires h.late == g.late || (MatchOf(s, q) == 0 && (s.term, q) in h.late
                                  && h.late == g.late[(s.term, q) := h.late[(s.term, q)]])
    ensures Alone(h, boot, done, p, s) && GrowsBy(g, h, p)
  {
    assert Grows(g, h);
    LateRecorded(g, h, boot);
    LateStands(g, h, boot, p, s, q);
  }

  lemma LateStands(g: Hist, h: Hist, boot: Bootstrap, p: NodeId, s: NodeState, q: NodeId)
    requires HistInv(g, boot.Keys) && NodeInv(g, boot, p, s) && s.role == Leader && Grows(g, h)
    requires h == g.(late := h.late, over := h.over)
    requires h.late == g.late || (MatchOf(s, q) == 0 && (s.term, q) in h.late
                                  && h.late == g.late[(s.term, q) := h.late[(s.term, q)]])
    ensures NodeInv(h, boot, p, s)
  {
    LogStands(g, h, boot, p, s);
    LatePeers(g, h, s, q);
  }

  lemma LatePeers(g: Hist, h: Hist, s: NodeState, q: NodeId)
    requires s.nextIndex.Keys == s.matchIndex.Keys && LeaderInv(g, s) && s.role == Leader
    requires h == g.(late := h.late, over := h.over) && g.over <= h.over
    requires h.late == g.late || (MatchOf(s, q) == 0 && (s.term, q) in h.late
                                  && h.late == g.late[(s.term, q) := h.late[(s.term, q)]])
    ensures LeaderInv(h, s)
  {
    forall r | r in s.nextIndex ensures PeerInv(h, s, r) {
      assert PeerInv(g, s, r);
      assert r != q ==> ((s.term, r) in h.late <==> (s.term, r) in g.late);
    }
  }

  lemma MatchedPeers(g: Hist, s: NodeState, q: NodeId, n: LogIndex)
    requires s.nextIndex.Keys == s.matchIndex.Keys && LeaderInv(g, s) && s.role == Leader && q in s.nextIndex
    requires MatchOk(g, s.term, q, n) && n < |s.log|
    ensures LeaderInv(g, Matched(s, q, n))
  {
    var s' := Matched(s, q, n);
    forall r | r in s'.nextIndex ensures PeerInv(g, s', r) {
      assert r != q ==> PeerInv(g, s, r);
    }
  }

  /** A successful reply: the peer matches as far as the request went. */
  lemma MatchedOk(g: Hist, boot: Bootstrap, done: set<Ballot>, p: NodeId, q: NodeId, s: NodeState, n: LogIndex)
    requires Alone(g, boot, done, p, s) && s.role == Leader && q in boot && q != p
    requires MatchOk(g, s.term, q, n) && n < |s.log|
    ensures Alone(g, boot, done, p, Matched(s, q, n))
  {
    var s' := Matched(s, q, n);
    MatchedPeers(g, s, q, n);
    MatchedConfig(boot, p, s, q, n);
  }

  lemma MatchedConfig(boot: Bootstrap, p: NodeId, s: NodeState, q: NodeId, n: LogIndex)
    requires ConfigInv(boot, p, s) && q in boot && q != p
    ensures ConfigInv(boot, p, Matched(s, q, n))
  {
    var s' := Matched(s, q, n);
    assert s'.matchIndex.Keys == s.matchIndex.Keys && s'.nextIndex.Keys == s.nextIndex.Keys;
  }

  /** A rejection: the next probe is in the log unless the leader was handed a late rejection that pointed
      past it, and not below what already matches unless it was handed a late acknowledgement. */
  lemma PeersBackedOff(g: Hist, s: NodeState, q: NodeId, n: LogIndex)
    requires s.nextIndex.Keys == s.matchIndex.Keys && LeaderInv(g, s) && s.role == Leader && q in s.nextIndex && n >= 1
    requires (s.term, q) !in g.over ==> n <= |s.log|
    requires (s.term, q) !in g.late ==> s.matchIndex[q] < n
    ensures s.nextIndex[q := n].Keys == s.nextIndex.Keys && LeaderInv(g, s.(nextIndex := s.nextIndex[q := n]))
  {
    var s' := s.(nextIndex := s.nextIndex[q := n]);
    forall x | x in s'.nextIndex ensures PeerInv(g, s', x) { assert PeerInv(g, s, x); }
  }

  lemma BackedOffOk(g: Hist, boot: Bootstrap, done: set<Ballot>, p: NodeId, q: NodeId, s: NodeState, r: AppendReply)
    requires Alone(g, boot, done, p, s) && s.role == Leader && q in boot && q != p
    requires (s.term, q) !in g.over ==> BackoffIndex(s.log, r) <= |s.log|
    requires (s.term, q) !in g.late && s.matchIndex[q] > 0 ==> r.conflictTerm == 0 && r.conflictIndex > s.matchIndex[q]
    ensures Alone(g, boot, done, p, s.(nextIndex := s.nextIndex[q := BackoffIndex(s.log, r)]))
  {
    PeersBackedOff(g, s, q, BackoffIndex(s.log, r));
  }

  /** The pending call of a reply, and what the leader has for the peer. */
  lemma ReplyExpected(c: ClusterState, boot: Bootstrap, a: AppendAnswer)
    requires Inv(c, boot) && Enabled(c, AppendReplyArrives(a))
    ensures AppendAnswerOk(c.hist, boot, a)
    ensures PendingOk(c.nodes, c.calls, (a.call.src, a.call.dst), a.call)
    ensures IsLate(c.nodes[a.call.src], a) ==> MatchOf(c.nodes[a.call.src], a.call.dst) == 0
  {
  }

  /** What a reply leads to. */
  lemma AnswerCases(c: ClusterState, a: AppendAnswer)
    requires Possible(c, AppendReplyArrives(a))
    ensures var s, q := c.nodes[a.call.src], a.call.dst;
            var g := RecordLate(c.hist, s, a);
            var s' := HandleAppendReply(s, q, a.call.args, a.reply).0;
            && TakeStep(c, AppendReplyArrives(a)) == AfterAnswer(c, a, s', AfterCommit(g, s, s'))
            && s' ==
                 if s.role != Leader then s
                 else if a.reply.term > s.term then BecomeFollower(s, a.reply.term)
                 else if !a.reply.success then s.(nextIndex := s.nextIndex[q := BackoffIndex(s.log, a.reply)])
                 else if Reach(a.call.args) <= MatchOf(s, q) then s
                 else UpdateCommit(Matched(s, q, Reach(a.call.args)))
  {
  }

  /** As far as the leader is concerned a late reply may be recorded. */
  lemma LateOk(c: ClusterState, boot: Bootstrap, a: AppendAnswer, s: NodeState)
    requires Inv(c, boot) && Enabled(c, AppendReplyArrives(a)) && s == c.nodes[a.call.src]
    ensures Alone(RecordLate(c.hist, s, a), boot, c.ballotsDone, a.call.src, s)
    ensures GrowsBy(c.hist, RecordLate(c.hist, s, a), a.call.src)
  {
    AloneInCluster(c, boot, a.call.src);
    ReplyExpected(c, boot, a);
    LateMove(c.hist, boot, c.ballotsDone, a.call.src, s, a);
  }

  lemma AnswerIgnored(c: ClusterState, boot: Bootstrap, a: AppendAnswer, s: NodeState)
    requires Inv(c, boot) && Enabled(c, AppendReplyArrives(a)) && s == c.nodes[a.call.src]
    ensures Follows(c, AfterAnswer(c, a, s, RecordLate(c.hist, s, a)), boot)
  {
    LateOk(c, boot, a, s);
    AnswerKeepsInv(c, boot, a, s, RecordLate(c.hist, s, a));
  }

  lemma AnswerOutdates(c: ClusterState, boot: Bootstrap, a: AppendAnswer, s: NodeState)
    requires Inv(c, boot) && Enabled(c, AppendReplyArrives(a)) && s == c.nodes[a.call.src]
    requires a.reply.term > s.term
    ensures Follows(c, AfterAnswer(c, a, BecomeFollower(s, a.reply.term), c.hist), boot)
  {
    AloneInCluster(c, boot, a.call.src);
    FollowerMove(c.hist, boot, c.ballotsDone, c.ballotsDone, a.call.src, s, a.reply.term);
    AnswerKeepsInv(c, boot, a, BecomeFollower(s, a.reply.term), c.hist);
  }

  /** Where a rejection that may come in leads. */
  lemma RejectionBounds(c: ClusterState, boot: Bootstrap, a: AppendAnswer, s: NodeState)
    requires Inv(c, boot) && Enabled(c, AppendReplyArrives(a)) && s == c.nodes[a.call.src]
    requires s.role == Leader && a.reply.term <= s.term && !a.reply.success
    ensures a.call.dst in boot && a.call.dst != a.call.src && a.call.dst in s.matchIndex
    ensures |s.log| > 0
    ensures (s.term, a.call.dst) !in RecordLate(c.hist, s, a).over ==> BackoffIndex(s.log, a.reply) <= |s.log|
    ensures (s.term, a.call.dst) !in RecordLate(c.hist, s, a).late && s.matchIndex[a.call.dst] > 0 ==>
              a.reply.conflictTerm == 0 && a.reply.conflictIndex > s.matchIndex[a.call.dst]
  {
    AloneInCluster(c, boot, a.call.src);
    ReplyExpected(c, boot, a);
    assert PeerInv(c.hist, s, a.call.dst);
  }

  lemma BackoffMoves(s: NodeState, q: NodeId, n: LogIndex)
    ensures OnlyPeerMoves(s, s.(nextIndex := s.nextIndex[q := n]), q)
  {
  }

  lemma RejectMove(c: ClusterState, boot: Bootstrap, a: AppendAnswer, s: NodeState)
    requires Inv(c, boot) && Enabled(c, AppendReplyArrives(a)) && s == c.nodes[a.call.src]
    requires s.role == Leader && a.reply.term <= s.term && !a.reply.success
    ensures var s' := s.(nextIndex := s.nextIndex[a.call.dst := BackoffIndex(s.log, a.reply)]);
            Alone(RecordLate(c.hist, s, a), boot, c.ballotsDone, a.call.src, s')
    ensures GrowsBy(c.hist, RecordLate(c.hist, s, a), a.call.src)
  {
    RejectionBounds(c, boot, a, s);
    LateOk(c, boot, a, s);
    BackedOffOk(RecordLate(c.hist, s, a), boot, c.ballotsDone, a.call.src, a.call.dst, s, a.reply);
  }

  lemma AnswerRejects(c: ClusterState, boot: Bootstrap, a: AppendAnswer, s: NodeState)
    requires Inv(c, boot) && Enabled(c, AppendReplyArrives(a)) && s == c.nodes[a.call.src]
    requires s.role == Leader && a.reply.term <= s.term && !a.reply.success
    ensures var s' := s.(nextIndex := s.nextIndex[a.call.dst := BackoffIndex(s.log, a.reply)]);
            Follows(c, AfterAnswer(c, a, s', RecordLate(c.hist, s, a)), boot)
  {
    var q, g := a.call.dst, RecordLate(c.hist, s, a);
    var s' := s.(nextIndex := s.nextIndex[q := BackoffIndex(s.log, a.reply)]);
    RejectMove(c, boot, a, s);
    BackoffMoves(s, q, BackoffIndex(s.log, a.reply));
    AnswerKeepsInv(c, boot, a, s', g);
  }

  lemma MatchedMoves(g: Hist, s: NodeState, q: NodeId, n: LogIndex)
    requires |s.log| > 0
    ensures var s1 := Matched(s, q, n);
            && OnlyPeerMoves(s, UpdateCommit(s1), q)
            && AfterCommit(g, s, UpdateCommit(s1)) == AfterCommit(g, s1, UpdateCommit(s1))
  {
  }

  /** Where an acknowledgement that may come in leads. */
  lemma AckBounds(c: ClusterState, boot: Bootstrap, a: AppendAnswer, s: NodeState)
    requires Inv(c, boot) && Enabled(c, AppendReplyArrives(a)) && s == c.nodes[a.call.src]
    requires s.role == Leader && a.reply.term <= s.term && a.reply.success
    ensures a.call.dst in boot && a.call.dst != a.call.src && Reach(a.call.args) < |s.log|
    ensures MatchOk(RecordLate(c.hist, s, a), s.term, a.call.dst, Reach(a.call.args))
  {
    var t, n := a.call.args.term, Reach(a.call.args);
    AloneInCluster(c, boot, a.call.src);
    ReplyExpected(c, boot, a);
    assert AppendCallOk(c.hist, boot, a.call) && LeaderOk(c.hist, boot.Keys, s.term);
    assert n >= |c.hist.lead[s.term].base| && n < |s.log| ==> s.log[n].term == s.term;
  }

  lemma GrowsByTwice(g: Hist, h: Hist, k: Hist, p: NodeId)
    requires GrowsBy(g, h, p) && GrowsBy(h, k, p)
    ensures GrowsBy(g, k, p)
  {
  }

  lemma AnswerMatches(c: ClusterState, boot: Bootstrap, a: AppendAnswer, s: NodeState)
    requires Inv(c, boot) && Enabled(c, AppendReplyArrives(a)) && s == c.nodes[a.call.src]
    requires s.role == Leader && a.reply.term <= s.term && a.reply.success
    ensures var s' := UpdateCommit(Matched(s, a.call.dst, Reach(a.call.args)));
            Follows(c, AfterAnswer(c, a, s', AfterCommit(RecordLate(c.hist, s, a), s, s')), boot)
  {
    var p, q, n, g := a.call.src, a.call.dst, Reach(a.call.args), RecordLate(c.hist, s, a);
    var s' := UpdateCommit(Matched(s, q, n));
    LateOk(c, boot, a, s);
    AckBounds(c, boot, a, s);
    MatchedOk(g, boot, c.ballotsDone, p, q, s, n);
    ScanMove(g, boot, c.ballotsDone, p, Matched(s, q, n));
    MatchedMoves(g, s, q, n);
    GrowsByTwice(c.hist, g, AfterCommit(g, s, s'), p);
    AnswerKeepsInv(c, boot, a, s', AfterCommit(g, s, s'));
  }

  lemma AppendReplyArrivesKeepsInv(c: ClusterState, boot: Bootstrap, a: AppendAnswer)
    requires Inv(c, boot) && Enabled(c, AppendReplyArrives(a))
    ensures Follows(c, TakeStep(c, AppendReplyArrives(a)), boot)
  {
    var s := c.nodes[a.call.src];
    AnswerCases(c, a);
    AnswerIgnored(c, boot, a, s);
    if s.role == Leader {
      if a.reply.term > s.term {
        AnswerOutdates(c, boot, a, s);
      } else if !a.reply.success {
        AnswerRejects(c, boot, a, s);
      } else {
        AnswerMatches(c, boot, a, s);
      }
    }
  }

  // ---- A call ends ----------------------------------------------------------

  lemma CallEndsKeepsInv(c: ClusterState, boot: Bootstrap, p: NodeId, q: NodeId)
    requires Inv(c, boot) && Enabled(c, CallEnds(p, q))
    ensures Follows(c, TakeStep(c, CallEnds(p, q)), boot)
  {
    var c' := TakeStep(c, CallEnds(p, q));
    AloneInCluster(c, boot, p);
    MarksKept(c.hist, boot, c.ballotsDone, p, c.nodes[p], c.nodes[p].inFlight[q := false]);
    GrowsBySelf(c.hist, p);
    MessagesKept(c, c', boot);
    forall k | k in c'.pending ensures PendingOk(c'.nodes, c'.calls, k, c'.pending[k]) {
      assert PendingOk(c.nodes, c.calls, k, c.pending[k]);
    }
    StepKeepsInv(c, c', boot, p);
  }

  // ---- Applying -------------------------------------------------------------

  lemma CommandsOfOneMore(log: Log, i: nat, j: nat)
    requires i <= j < |log|
    ensures CommandsOf(log[i..j + 1]) == CommandsOf(log[i..j]) + CommandsOf([log[j]])
  {
    assert log[i..j + 1][..j - i] == log[i..j];
    assert [log[j]][..0] == [];
  }

  /** Steps of the applier move the batch, the state machine and `lastApplied` only. */
  predicate AppliesOnly(s: NodeState, s': NodeState) {
    s' == s.(batch := s'.batch, fsm := s'.fsm, lastApplied := s'.lastApplied)
  }

  lemma TakeBatchApplies(s: NodeState)
    requires ApplyInv(s) && CanTakeBatch(s)
    ensures ApplyInv(TakeBatch(s)) && AppliesOnly(s, TakeBatch(s))
  {
  }

  lemma ApplyOneApplies(s: NodeState)
    requires ApplyInv(s) && CanApplyOne(s)
    ensures ApplyInv(ApplyOne(s)) && AppliesOnly(s, ApplyOne(s))
  {
    var b := s.batch.value;
    CommandsOfOneMore(s.log, 1, b.base + 1 + b.done);
    assert b.entries[b.done] == s.log[b.base + 1 + b.done];
  }

  lemma FinishBatchApplies(s: NodeState)
    requires ApplyInv(s) && CanFinishBatch(s)
    ensures ApplyInv(FinishBatch(s)) && AppliesOnly(s, FinishBatch(s))
  {
  }

  lemma ApplierMove(g: Hist, boot: Bootstrap, done: set<Ballot>, p: NodeId, s: NodeState, s': NodeState)
    requires Alone(g, boot, done, p, s) && AppliesOnly(s, s') && ApplyInv(s')
    ensures MoveOk(g, g, boot, done, done, p, s, s')
  {
    GrowsBySelf(g, p);
  }

  lemma ApplierKeepsInv(c: ClusterState, boot: Bootstrap, p: NodeId, s': NodeState)
    requires Inv(c, boot) && p in c.nodes && AppliesOnly(c.nodes[p], s') && ApplyInv(s')
    ensures Follows(c, c.(nodes := c.nodes[p := s']), boot)
  {
    AloneInCluster(c, boot, p);
    ApplierMove(c.hist, boot, c.ballotsDone, p, c.nodes[p], s');
    QuietStep(c, boot, p, s', c.hist, c.ballotsDone);
  }

  lemma BatchTakenKeepsInv(c: ClusterState, boot: Bootstrap, p: NodeId)
    requires Inv(c, boot) && Enabled(c, BatchTaken(p))
    ensures Follows(c, TakeStep(c, BatchTaken(p)), boot)
  {
    AloneInCluster(c, boot, p);
    TakeBatchApplies(c.nodes[p]);
    ApplierKeepsInv(c, boot, p, TakeBatch(c.nodes[p]));
  }

  lemma EntryAppliedKeepsInv(c: ClusterState, boot: Bootstrap, p: NodeId)
    requires Inv(c, boot) && Enabled(c, EntryApplied(p))
    ensures Follows(c, TakeStep(c, EntryApplied(p)), boot)
  {
    AloneInCluster(c, boot, p);
    ApplyOneApplies(c.nodes[p]);
    ApplierKeepsInv(c, boot, p, ApplyOne(c.nodes[p]));
  }

  lemma BatchFinishedKeepsInv(c: ClusterState, boot: Bootstrap, p: NodeId)
    requires Inv(c, boot) && Enabled(c, BatchFinished(p))
    ensures Follows(c, TakeStep(c, BatchFinished(p)), boot)
  {
    AloneInCluster(c, boot, p);
    FinishBatchApplies(c.nodes[p]);
    ApplierKeepsInv(c, boot, p, FinishBatch(c.nodes[p]));
  }

  // ---- All steps ------------------------------------------------------------

  lemma NewNodeInv(boot: Bootstrap, p: NodeId, f: bool)
    requires p in boot
    ensures NodeInv(EMPTY_HIST, boot, p, NewNode(p, boot, f)) && NewNode(p, boot, f).role == Follower
  {
    var s := NewNode(p, boot, f);
    assert s.active == boot.Keys;
    assert s.voters == boot.Keys;
    assert s.addrs == boot;
    assert s.log[1..1] == [];
  }

  lemma NewNodesInv(boot: Bootstrap, nodes: map<NodeId, NodeState>)
    requires nodes.Keys == boot.Keys
    requires forall p {:trigger Unused(boot, p, nodes[p])} | p in nodes :: Unused(boot, p, nodes[p])
    ensures NodesInv(EMPTY_HIST, boot, nodes) && CountsInv(EMPTY_HIST, boot, {}, nodes)
  {
    forall p | p in nodes
      ensures NodeInv(EMPTY_HIST, boot, p, nodes[p]) && CountInv(EMPTY_HIST, boot, {}, p, nodes[p])
    {
      assert Unused(boot, p, nodes[p]);
      NewNodeInv(boot, p, nodes[p].hasFactory);
    }
  }

  lemma SilentClusterInv(nodes: map<NodeId, NodeState>, boot: Bootstrap)
    requires NO_NODE !in boot && nodes.Keys == boot.Keys
    requires NodesInv(EMPTY_HIST, boot, nodes) && CountsInv(EMPTY_HIST, boot, {}, nodes)
    ensures Inv(ClusterState(nodes, {}, {}, {}, 0, {}, {}, map[], EMPTY_HIST), boot)
  {
  }

  lemma InitHasInv(c: ClusterState, boot: Bootstrap)
    requires Init(c, boot)
    ensures Inv(c, boot)
  {
    NewNodesInv(boot, c.nodes);
    SilentClusterInv(c.nodes, boot);
  }

  lemma StepsKeepInv(c: ClusterState, boot: Bootstrap, step: Step)
    requires Inv(c, boot) && Enabled(c, step)
    ensures Follows(c, TakeStep(c, step), boot)
  {
    match step
    case ElectionTimeout(p) => ElectionTimeoutKeepsInv(c, boot, p);
    case VoteArrives(m, inContact) => VoteArrivesKeepsInv(c, boot, m, inContact);
    case VoteReplyArrives(a) => VoteReplyArrivesKeepsInv(c, boot, a);
    case ClientSubmits(p, cmd) => ClientSubmitsKeepsInv(c, boot, p, cmd);
    case SendStarts(p, q) => SendStartsKeepsInv(c, boot, p, q);
    case AppendArrives(m) => AppendArrivesKeepsInv(c, boot, m);
    case AppendReplyArrives(a) => AppendReplyArrivesKeepsInv(c, boot, a);
    case CallEnds(p, q) => CallEndsKeepsInv(c, boot, p, q);
    case QuorumCheck(p, live) => QuorumCheckKeepsInv(c, boot, p, live);
    case BatchTaken(p) => BatchTakenKeepsInv(c, boot, p);
    case EntryApplied(p) => EntryAppliedKeepsInv(c, boot, p);
    case BatchFinished(p) => BatchFinishedKeepsInv(c, boot, p);
  }

  lemma NextKeepsInv(c: ClusterState, boot: Bootstrap, c': ClusterState)
    requires Inv(c, boot) && Next(c, c')
    ensures Inv(c', boot) && Grows(c.hist, c'.hist)
  {
    var step :| Enabled(c, step) && c' == TakeStep(c, step);
    StepsKeepInv(c, boot, step);
  }

  /** The invariant holds in every state of every run. */
  lemma {:induction false} RunHasInv(r: seq<ClusterState>, boot: Bootstrap, i: nat)
    requires Run(r, boot) && i < |r|
    ensures Inv(r[i], boot)
  {
    if i == 0 {
      InitHasInv(r[0], boot);
    } else {
      RunHasInv(r, boot, i - 1);
      assert StepAt(r, i - 1);
      NextKeepsInv(r[i - 1], boot, r[i]);
    }
  }
}

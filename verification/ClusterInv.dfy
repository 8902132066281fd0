/** The inductive invariant of the cluster. */
module ClusterInv {
  import opened RaftTypes
  import opened Quorums
  import opened Membership
  import opened NodeSpec
  import opened LogHistory
  import opened Cluster

  ghost predicate PlainHist(g: Hist, boot: Bootstrap) {
    && (forall t | t in g.lead :: PlainLog(boot, g.lead[t].log))
    && (forall k | k in g.adv :: PlainLog(boot, g.adv[k]))
  }

  /** The configuration the node works with is the bootstrap cluster. */
  ghost predicate ConfigInv(boot: Bootstrap, p: NodeId, s: NodeState) {
    && p in boot && s.id == p && s.bootstrap == boot
    && s.active == boot.Keys && s.voters == boot.Keys && s.addrs == boot
    && s.peers.Keys == boot.Keys - {p}
    && s.nextIndex.Keys == boot.Keys - {p}
    && s.matchIndex.Keys == boot.Keys - {p}
  }

  /** The state machine has been given exactly the commands up to `lastApplied`, and of the
      batch in progress those handed over so far. */
  ghost predicate ApplyInv(s: NodeState) {
    && s.lastApplied <= s.commit < |s.log|
    && match s.batch
       case None => s.fsm == CommandsOf(s.log[1..s.lastApplied + 1])
       case Some(b) =>
         && b.base == s.lastApplied < b.upTo <= s.commit
         && b.entries == s.log[b.base + 1..b.upTo + 1]
         && b.done <= |b.entries|
         && s.fsm == CommandsOf(s.log[1..b.base + 1 + b.done])
  }

  ghost predicate LogInv(g: Hist, boot: Bootstrap, s: NodeState) {
    LogOk(g, s.log) && PlainLog(boot, s.log) && TermsBelow(s.log, s.term + 1)
  }

  /** A node never took part in a term beyond its own. */
  ghost predicate TermInv(g: Hist, p: NodeId, term: Term) {
    && (forall t | (t, p) in g.votes :: t <= term)
    && (forall t | (t, p) in g.adv :: t <= term)
    && (forall t | (t, p) in g.acc :: t <= term)
    && (forall t | t in g.lead && g.lead[t].who == p :: t <= term)
  }

  predicate Won(g: Hist, p: NodeId, term: Term) {
    term in g.lead && g.lead[term].who == p
  }

  /** A leader, and a leader that stepped down in its own term, still has the log it led with. */
  ghost predicate RoleInv(g: Hist, p: NodeId, s: NodeState) {
    && (s.role == Leader ==> Won(g, p, s.term) && g.lead[s.term].commit <= s.commit)
    && (Won(g, p, s.term) ==> s.role != Candidate && s.log == g.lead[s.term].log)
    && (s.role == Candidate ==>
          && (s.term, p) in g.adv && Voted(g, s.term, p, p) && s.votedFor == p
          && (s.term !in g.lead ==> s.log == g.adv[(s.term, p)]))
  }

  /** `votedFor` is forgotten within a term only by the leader of that term. */
  ghost predicate VoteInv(g: Hist, p: NodeId, s: NodeState) {
    && (s.votedFor != NO_NODE ==> Voted(g, s.term, p, s.votedFor))
    && ((s.term, p) in g.votes ==> s.votedFor == g.votes[(s.term, p)] || Won(g, p, s.term))
  }

  ghost predicate CarryInv(g: Hist, p: NodeId, log: Log)
    requires |log| > 0
  {
    forall t: Term, n: LogIndex :: Accepted(g, t, p, n) && Own(g, t, n) ==> Carries(g, t, n, log, LastTerm(log) + 1)
  }

  /** What a match index `n` of the leader of `t` for `q` goes back to: the peer took over the leader's
      log that far, or, as long as `n` is below the leader's own entries, its own log in an earlier leadership. */
  ghost predicate MatchOk(g: Hist, t: Term, q: NodeId, n: LogIndex) {
    || n == 0 || Accepted(g, t, q, n)
    || (&& (t, q) in g.late && g.late[(t, q)] < t
        && Own(g, g.late[(t, q)], n) && Accepted(g, g.late[(t, q)], q, n)
        && t in g.lead && g.lead[t].who == g.lead[g.late[(t, q)]].who && n < |g.lead[t].base|)
  }

  ghost predicate PeerInv(g: Hist, s: NodeState, q: NodeId)
    requires q in s.nextIndex && q in s.matchIndex
  {
    && 1 <= s.nextIndex[q] && s.matchIndex[q] < |s.log|
    && ((s.term, q) !in g.over ==> s.nextIndex[q] <= |s.log|)
    && MatchOk(g, s.term, q, s.matchIndex[q])
    && ((s.term, q) !in g.late ==> s.matchIndex[q] < s.nextIndex[q])
  }

  ghost predicate LeaderInv(g: Hist, s: NodeState)
    requires s.nextIndex.Keys == s.matchIndex.Keys
  {
    s.role == Leader ==> forall q | q in s.nextIndex :: PeerInv(g, s, q)
  }

  ghost predicate NodeInv(g: Hist, boot: Bootstrap, p: NodeId, s: NodeState) {
    && ConfigInv(boot, p, s)
    && ApplyInv(s)
    && LogInv(g, boot, s)
    && TermInv(g, p, s.term)
    && RoleInv(g, p, s)
    && VoteInv(g, p, s)
    && CarryInv(g, p, s.log)
    && Committed(g, s.log, s.commit, s.term)
    && LeaderInv(g, s)
  }

  // ---- Messages -------------------------------------------------------------

  ghost predicate VoteCallOk(g: Hist, boot: Bootstrap, m: VoteCall) {
    && m.src in boot && m.dst in boot && m.dst != m.src && m.args.candidate == m.src
    && (m.args.term, m.src) in g.adv
    && var log := g.adv[(m.args.term, m.src)];
       |log| > 0 && m.args.lastIndex == LastIndex(log) && m.args.lastTerm == LastTerm(log)
  }

  ghost predicate VoteAnswerOk(g: Hist, boot: Bootstrap, a: VoteAnswer) {
    && VoteCallOk(g, boot, a.call)
    && (a.reply.granted ==> Voted(g, a.call.args.term, a.call.dst, a.call.src))
  }

  /** The request is a piece of this log. */
  predicate PieceOf(log: Log, a: AppendArgs)
    requires Reach(a) < |log|
  {
    a.prevTerm == log[a.prevIndex].term && a.entries == log[a.prevIndex + 1..Reach(a) + 1]
  }

  /** A request is a piece of its leader's log, and goes up to an entry of the leader's term. */
  ghost predicate AppendCallOk(g: Hist, boot: Bootstrap, m: AppendCall) {
    && m.src in boot && m.dst in boot && m.dst != m.src && m.args.leader == m.src
    && m.args.term in g.lead && g.lead[m.args.term].who == m.src
    && Own(g, m.args.term, Reach(m.args))
    && PieceOf(g.lead[m.args.term].log, m.args)
    && m.args.leaderCommit <= Reach(m.args)
    && Committed(g, g.lead[m.args.term].log, m.args.leaderCommit, m.args.term)
    && ((m.args.term, m.dst) !in g.late ==>
          m.sentMatch <= m.args.prevIndex && (m.sentMatch > 0 ==> Accepted(g, m.args.term, m.dst, m.sentMatch)))
  }

  /** A rejection in the request's own term points below the probe but above what is matched. */
  predicate RejectionOk(g: Hist, m: AppendCall, r: AppendReply) {
    && 1 <= r.conflictIndex <= m.args.prevIndex
    && ((m.args.term, m.dst) !in g.late && m.sentMatch > 0 ==> r.conflictTerm == 0 && r.conflictIndex > m.sentMatch)
  }

  ghost predicate AppendAnswerOk(g: Hist, boot: Bootstrap, a: AppendAnswer) {
    && AppendCallOk(g, boot, a.call)
    && a.reply.term >= a.call.args.term
    && (a.reply.success ==> a.reply.term == a.call.args.term
                            && Accepted(g, a.call.args.term, a.call.dst, Reach(a.call.args)))
    && (!a.reply.success && a.reply.term == a.call.args.term ==> RejectionOk(g, a.call, a.reply))
  }

  /** While its call is out, a leader's indices for the peer stay as they were when it was sent; in a
      later leadership nothing is matched yet. */
  predicate PendingOk(nodes: map<NodeId, NodeState>, calls: set<AppendCall>, k: (NodeId, NodeId), m: AppendCall) {
    && m in calls && k == (m.src, m.dst) && m.src in nodes
    && InFlight(nodes[m.src], m.dst)
    && (nodes[m.src].role == Leader && nodes[m.src].term == m.args.term ==>
          && MatchOf(nodes[m.src], m.dst) == m.sentMatch
          && m.dst in nodes[m.src].nextIndex && nodes[m.src].nextIndex[m.dst] == m.args.prevIndex + 1)
    && (nodes[m.src].role == Leader && nodes[m.src].term != m.args.term ==> MatchOf(nodes[m.src], m.dst) == 0)
  }

  function Counted(g: Hist, boot: Bootstrap, done: set<Ballot>, p: NodeId, t: Term): set<NodeId> {
    set q | q in boot && Voted(g, t, q, p) && (q == p || Ballot(p, t, q) in done)
  }

  /** A candidate never counts more votes than voters it got them from. */
  ghost predicate CountInv(g: Hist, boot: Bootstrap, done: set<Ballot>, p: NodeId, s: NodeState) {
    s.role == Candidate ==>
      && s.votesReceived <= |Counted(g, boot, done, p, s.term)|
      && s.votesNeeded == QuorumSize(|boot.Keys|)
  }

  ghost predicate MessagesInv(c: ClusterState, boot: Bootstrap) {
    && (forall m {:trigger VoteCallOk(c.hist, boot, m)} | m in c.voteCalls :: VoteCallOk(c.hist, boot, m))
    && (forall a {:trigger VoteAnswerOk(c.hist, boot, a)} | a in c.voteAnswers :: VoteAnswerOk(c.hist, boot, a))
    && (forall m {:trigger AppendCallOk(c.hist, boot, m)} | m in c.calls :: AppendCallOk(c.hist, boot, m) && m.id < c.clock)
    && (forall a {:trigger AppendAnswerOk(c.hist, boot, a)} | a in c.answers :: a.call in c.calls && AppendAnswerOk(c.hist, boot, a))
  }

  ghost predicate NodesInv(g: Hist, boot: Bootstrap, nodes: map<NodeId, NodeState>) {
    forall p {:trigger NodeInv(g, boot, p, nodes[p])} | p in nodes :: NodeInv(g, boot, p, nodes[p])
  }

  ghost predicate CountsInv(g: Hist, boot: Bootstrap, done: set<Ballot>, nodes: map<NodeId, NodeState>) {
    forall p {:trigger CountInv(g, boot, done, p, nodes[p])} | p in nodes :: CountInv(g, boot, done, p, nodes[p])
  }

  ghost predicate PendingInv(nodes: map<NodeId, NodeState>, calls: set<AppendCall>, pending: map<(NodeId, NodeId), AppendCall>) {
    forall k {:trigger PendingOk(nodes, calls, k, pending[k])} | k in pending :: PendingOk(nodes, calls, k, pending[k])
  }

  ghost predicate Inv(c: ClusterState, boot: Bootstrap) {
    && NO_NODE !in boot
    && c.nodes.Keys == boot.Keys
    && HistInv(c.hist, boot.Keys)
    && PlainHist(c.hist, boot)
    && NodesInv(c.hist, boot, c.nodes)
    && CountsInv(c.hist, boot, c.ballotsDone, c.nodes)
    && MessagesInv(c, boot)
    && PendingInv(c.nodes, c.calls, c.pending)
  }

  /** What every step is shown to do. */
  ghost predicate Follows(c: ClusterState, c': ClusterState, boot: Bootstrap) {
    Inv(c', boot) && Grows(c.hist, c'.hist)
  }

  /** A leader's indices stand while the history grows and its log does not shrink. */
  lemma PeersStand(g: Hist, h: Hist, s: NodeState, s': NodeState)
    requires s.nextIndex.Keys == s.matchIndex.Keys && LeaderInv(g, s) && Grows(g, h) && h.late == g.late && h.over == g.over
    requires s'.role == Leader ==> s.role == Leader && s'.term == s.term && |s.log| <= |s'.log|
    requires s'.nextIndex == s.nextIndex && s'.matchIndex == s.matchIndex
    ensures LeaderInv(h, s')
  {
    if s'.role == Leader {
      forall q | q in s'.nextIndex ensures PeerInv(h, s', q) { assert PeerInv(g, s, q); }
    }
  }

  // ---- Keeping what a step does not touch -----------------------------------

  /** The history grew only by what node `p` did. */
  ghost predicate GrowsBy(g: Hist, h: Hist, p: NodeId) {
    && Grows(g, h)
    && (forall t | t in h.lead && h.lead[t].who != p :: t in g.lead && h.lead[t] == g.lead[t])
    && (forall k | k in h.adv && k.1 != p :: k in g.adv)
    && (forall k | k in h.votes && k.1 != p :: k in g.votes)
    && (forall k | k in h.acc && k.1 != p :: k in g.acc && h.acc[k] == g.acc[k])
    && (forall k | k in h.late && !(k.0 in h.lead && h.lead[k.0].who == p) :: k in g.late && h.late[k] == g.late[k])
  }

  lemma CarryInvGrows(g: Hist, h: Hist, voters: set<NodeId>, q: NodeId, log: Log)
    requires |log| > 0 && HistInv(g, voters) && Grows(g, h) && CarryInv(g, q, log)
    requires forall t | (t, q) in h.acc :: (t, q) in g.acc && g.acc[(t, q)] == h.acc[(t, q)]
    ensures CarryInv(h, q, log)
  {
    forall t: Term, n: LogIndex | Accepted(h, t, q, n) && Own(h, t, n)
      ensures Carries(h, t, n, log, LastTerm(log) + 1)
    {
      assert Accepted(g, t, q, n) && AccOk(g, voters, t, q);
      assert Own(g, t, n);
      CarriesGrows(g, h, t, n, log, LastTerm(log) + 1);
    }
  }

  lemma OtherNodeKept(g: Hist, h: Hist, boot: Bootstrap, p: NodeId, q: NodeId, s: NodeState)
    requires HistInv(g, boot.Keys) && GrowsBy(g, h, p) && q != p && NodeInv(g, boot, q, s)
    ensures NodeInv(h, boot, q, s)
  {
    LogOkGrows(g, h, s.log);
    forall t | (t, q) in h.acc ensures (t, q) in g.acc && g.acc[(t, q)] == h.acc[(t, q)] {
      assert (t, q).1 != p;
    }
    CarryInvGrows(g, h, boot.Keys, q, s.log);
    CommittedGrows(g, h, s.log, s.commit, s.term, s.term);
    OtherTermKept(g, h, p, q, s.term);
    OtherVoteKept(g, h, p, q, s);
    OtherPeersKept(g, h, p, q, s);
  }

  lemma OtherTermKept(g: Hist, h: Hist, p: NodeId, q: NodeId, term: Term)
    requires GrowsBy(g, h, p) && q != p && TermInv(g, q, term)
    ensures TermInv(h, q, term)
  {
    forall t | (t, q) in h.votes ensures t <= term { assert (t, q).1 != p; }
    forall t | (t, q) in h.adv ensures t <= term { assert (t, q).1 != p; }
    forall t | (t, q) in h.acc ensures t <= term { assert (t, q).1 != p; }
  }

  lemma OtherVoteKept(g: Hist, h: Hist, p: NodeId, q: NodeId, s: NodeState)
    requires GrowsBy(g, h, p) && q != p && VoteInv(g, q, s)
    ensures VoteInv(h, q, s)
  {
    if (s.term, q) in h.votes { assert (s.term, q).1 != p; }
  }

  lemma OtherPeersKept(g: Hist, h: Hist, p: NodeId, q: NodeId, s: NodeState)
    requires GrowsBy(g, h, p) && q != p && RoleInv(g, q, s) && s.nextIndex.Keys == s.matchIndex.Keys && LeaderInv(g, s)
    ensures LeaderInv(h, s)
  {
    if s.role == Leader {
      forall r | r in s.nextIndex ensures PeerInv(h, s, r) { assert PeerInv(g, s, r); }
    }
  }

  lemma CountedGrows(g: Hist, h: Hist, boot: Bootstrap, d: set<Ballot>, e: set<Ballot>, p: NodeId, s: NodeState)
    requires Grows(g, h) && d <= e && CountInv(g, boot, d, p, s)
    ensures CountInv(h, boot, e, p, s)
  {
    SubsetSize(Counted(g, boot, d, p, s.term), Counted(h, boot, e, p, s.term));
  }

  lemma VoteCallKept(g: Hist, h: Hist, boot: Bootstrap, m: VoteCall)
    requires Grows(g, h) && VoteCallOk(g, boot, m)
    ensures VoteCallOk(h, boot, m)
  {
  }

  lemma AppendCallKept(g: Hist, h: Hist, boot: Bootstrap, m: AppendCall)
    requires Grows(g, h) && AppendCallOk(g, boot, m)
    ensures AppendCallOk(h, boot, m)
  {
    var log, log' := g.lead[m.args.term].log, h.lead[m.args.term].log;
    assert log <= log';
    assert log[m.args.prevIndex + 1..Reach(m.args) + 1] == log'[m.args.prevIndex + 1..Reach(m.args) + 1];
    var k := m.args.leaderCommit;
    if k > 0 {
      CommittedGrows(g, h, log, k, m.args.term, m.args.term);
      var t: Term :| CommittedIn(h, log, k, t) && t <= m.args.term;
      assert log[..k + 1] == log'[..k + 1];
      assert CommittedIn(h, log', k, t);
    }
  }

  lemma MessagesKept(c: ClusterState, c': ClusterState, boot: Bootstrap)
    requires MessagesInv(c, boot) && Grows(c.hist, c'.hist)
    requires c'.voteCalls == c.voteCalls && c'.voteAnswers == c.voteAnswers
    requires c'.calls == c.calls && c'.answers == c.answers && c'.clock == c.clock
    ensures MessagesInv(c', boot)
  {
    forall m | m in c'.voteCalls ensures VoteCallOk(c'.hist, boot, m) {
      assert VoteCallOk(c.hist, boot, m);
    }
    forall m | m in c'.calls ensures AppendCallOk(c'.hist, boot, m) && m.id < c'.clock {
      assert AppendCallOk(c.hist, boot, m);
      AppendCallKept(c.hist, c'.hist, boot, m);
    }
    forall a | a in c'.answers ensures a.call in c'.calls && AppendAnswerOk(c'.hist, boot, a) {
      assert AppendAnswerOk(c.hist, boot, a);
      AppendCallKept(c.hist, c'.hist, boot, a.call);
    }
    forall a | a in c'.voteAnswers ensures VoteAnswerOk(c'.hist, boot, a) {
      assert VoteAnswerOk(c.hist, boot, a);
    }
  }

  /** A step of node `p` that leaves calls alone keeps the pending ones in order if the leader's
      indices stay, or if it is not the leader of the calls' term. */
  ghost predicate CallsUndisturbed(g: Hist, p: NodeId, s: NodeState, s': NodeState) {
    && s'.inFlight == s.inFlight
    && (s'.role == Leader ==>
          || (s.role == Leader && s.term == s'.term && s.matchIndex == s'.matchIndex && s.nextIndex == s'.nextIndex)
          || (s'.term !in g.lead && forall q :: MatchOf(s', q) == 0))
  }

  lemma NodesKept(g: Hist, h: Hist, boot: Bootstrap, nodes: map<NodeId, NodeState>, p: NodeId, s: NodeState)
    requires HistInv(g, boot.Keys) && GrowsBy(g, h, p)
    requires NodesInv(g, boot, nodes) && NodeInv(h, boot, p, s)
    ensures NodesInv(h, boot, nodes[p := s])
  {
    var after := nodes[p := s];
    forall q | q in after ensures NodeInv(h, boot, q, after[q]) {
      if q != p { OtherNodeKept(g, h, boot, p, q, nodes[q]); }
    }
  }

  lemma CountsKept(g: Hist, h: Hist, boot: Bootstrap, d: set<Ballot>, e: set<Ballot>,
                   nodes: map<NodeId, NodeState>, p: NodeId, s: NodeState)
    requires Grows(g, h) && d <= e
    requires CountsInv(g, boot, d, nodes) && CountInv(h, boot, e, p, s)
    ensures CountsInv(h, boot, e, nodes[p := s])
  {
    var after := nodes[p := s];
    forall q | q in after ensures CountInv(h, boot, e, q, after[q]) {
      if q != p { CountedGrows(g, h, boot, d, e, q, nodes[q]); }
    }
  }

  /** What is left to show about a step of node `p`, once the other nodes are out of the way. */
  ghost predicate StepOk(c: ClusterState, c': ClusterState, boot: Bootstrap, p: NodeId) {
    && p in c.nodes && p in c'.nodes && c'.nodes == c.nodes[p := c'.nodes[p]]
    && c.ballotsDone <= c'.ballotsDone
    && GrowsBy(c.hist, c'.hist, p)
    && HistInv(c'.hist, boot.Keys) && PlainHist(c'.hist, boot)
    && NodeInv(c'.hist, boot, p, c'.nodes[p])
    && CountInv(c'.hist, boot, c'.ballotsDone, p, c'.nodes[p])
    && MessagesInv(c', boot)
    && PendingInv(c'.nodes, c'.calls, c'.pending)
  }

  lemma StepKeepsInv(c: ClusterState, c': ClusterState, boot: Bootstrap, p: NodeId)
    requires Inv(c, boot) && StepOk(c, c', boot, p)
    ensures Follows(c, c', boot)
  {
    NodesKept(c.hist, c'.hist, boot, c.nodes, p, c'.nodes[p]);
    CountsKept(c.hist, c'.hist, boot, c.ballotsDone, c'.ballotsDone, c.nodes, p, c'.nodes[p]);
  }

  lemma PendingKept(c: ClusterState, c': ClusterState, boot: Bootstrap, p: NodeId)
    requires Inv(c, boot) && p in c.nodes && p in c'.nodes
    requires c'.nodes == c.nodes[p := c'.nodes[p]]
    requires c'.pending == c.pending && c'.calls == c.calls
    requires CallsUndisturbed(c.hist, p, c.nodes[p], c'.nodes[p])
    ensures PendingInv(c'.nodes, c'.calls, c'.pending)
  {
    forall k | k in c'.pending ensures PendingOk(c'.nodes, c'.calls, k, c'.pending[k]) {
      assert PendingOk(c.nodes, c.calls, k, c.pending[k]);
      assert AppendCallOk(c.hist, boot, c.pending[k]);
    }
  }

  /** The part of the invariant that concerns one node. */
  ghost predicate Alone(g: Hist, boot: Bootstrap, done: set<Ballot>, p: NodeId, s: NodeState) {
    && NO_NODE !in boot
    && HistInv(g, boot.Keys) && PlainHist(g, boot)
    && NodeInv(g, boot, p, s) && CountInv(g, boot, done, p, s)
  }

  lemma AloneInCluster(c: ClusterState, boot: Bootstrap, p: NodeId)
    requires Inv(c, boot) && p in c.nodes
    ensures Alone(c.hist, boot, c.ballotsDone, p, c.nodes[p])
  {
    assert NodeInv(c.hist, boot, p, c.nodes[p]);
    assert CountInv(c.hist, boot, c.ballotsDone, p, c.nodes[p]);
  }

  /** Node `p` goes from `s` to `s'` and the history from `g` to `h`, as far as `p` is concerned. */
  ghost predicate MoveOk(g: Hist, h: Hist, boot: Bootstrap, done: set<Ballot>, done': set<Ballot>,
                         p: NodeId, s: NodeState, s': NodeState) {
    && GrowsBy(g, h, p) && done <= done'
    && Alone(h, boot, done', p, s')
    && CallsUndisturbed(g, p, s, s')
  }

  /** A step that sends nothing and ends no call. */
  lemma QuietStep(c: ClusterState, boot: Bootstrap, p: NodeId, s': NodeState, h: Hist, done: set<Ballot>)
    requires Inv(c, boot) && p in c.nodes
    requires MoveOk(c.hist, h, boot, c.ballotsDone, done, p, c.nodes[p], s')
    ensures Follows(c, c.(nodes := c.nodes[p := s'], hist := h, ballotsDone := done), boot)
  {
    var c' := c.(nodes := c.nodes[p := s'], hist := h, ballotsDone := done);
    MessagesKept(c, c', boot);
    PendingKept(c, c', boot, p);
    StepKeepsInv(c, c', boot, p);
  }
}

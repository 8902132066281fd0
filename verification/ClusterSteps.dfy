/** Every step of the cluster keeps the invariant. */
module ClusterSteps {
  import opened RaftTypes
  import opened Quorums
  import opened Membership
  import opened NodeSpec
  import opened LogHistory
  import opened Cluster
  import opened ClusterInv
  import opened HistorySteps

  // ---- Node-local facts -----------------------------------------------------

  /** Going back to follower: in a newer term, or in the term the node has led. */
  lemma FollowerKept(g: Hist, boot: Bootstrap, p: NodeId, s: NodeState, term: Term)
    requires NodeInv(g, boot, p, s)
    requires term > s.term || (term == s.term && s.role == Leader)
    ensures NodeInv(g, boot, p, BecomeFollower(s, term))
  {
    CommittedGrows(g, g, s.log, s.commit, s.term, term);
  }

  lemma RebuildKeepsConfig(boot: Bootstrap, p: NodeId, s: NodeState)
    requires ConfigInv(boot, p, s) && PlainLog(boot, s.log)
    ensures ConfigInv(boot, p, Rebuild(s)) && Rebuild(s) == s.(peers := Rebuild(s).peers)
  {
    PlainLogKeepsBootstrap(boot, s.log);
    var m := BootMembers(boot);
    assert Rebuild(s) == RebuildAs(s, m);
    assert VotersOf(m) == boot.Keys;
    assert AddrsOf(m) == boot;
    var s' := RebuildAs(s, m);
    assert s'.nextIndex == s.nextIndex;
    assert s'.matchIndex == s.matchIndex;
  }

  lemma CommittedExtends(g: Hist, log: Log, log': Log, c: LogIndex, term: Term)
    requires Committed(g, log, c, term) && c < |log| && c < |log'| && log[..c + 1] == log'[..c + 1]
    ensures Committed(g, log', c, term)
  {
    if c > 0 {
      var t: Term :| CommittedIn(g, log, c, t) && t <= term;
      assert CommittedIn(g, log', c, t);
    }
  }

  lemma SameBelow(f: Log, l: Log, c: LogIndex, i: nat, j: nat)
    requires i <= j <= c <= |f| && c <= |l| && f[..c] == l[..c]
    ensures f[i..j] == l[i..j]
  {
    assert f[i..j] == f[..c][i..j] && l[i..j] == l[..c][i..j];
  }

  /** Applying only depends on the log up to the commit index. */
  lemma ApplyInvExtends(s: NodeState, s': NodeState)
    requires ApplyInv(s) && s.commit <= s'.commit < |s'.log|
    requires s.log[..s.commit + 1] == s'.log[..s.commit + 1]
    requires s'.lastApplied == s.lastApplied && s'.batch == s.batch && s'.fsm == s.fsm
    ensures ApplyInv(s')
  {
    var c := s.commit + 1;
    match s.batch
    case None => SameBelow(s.log, s'.log, c, 1, s.lastApplied + 1);
    case Some(b) =>
      SameBelow(s.log, s'.log, c, b.base + 1, b.upTo + 1);
      SameBelow(s.log, s'.log, c, 1, b.base + 1 + b.done);
  }

  lemma CarriesExtends(g: Hist, t: Term, n: LogIndex, log: Log, u: Term, log': Log, u': Term)
    requires Own(g, t, n) && Carries(g, t, n, log, u) && log <= log' && u <= u'
    ensures Carries(g, t, n, log', u')
  {
    if Diverged(g, t, n, u) {
      var w :| w in g.lead && t < w < u && !(g.lead[t].log[..n + 1] <= g.lead[w].base);
    }
  }

  lemma GrowsBySelf(g: Hist, p: NodeId)
    ensures GrowsBy(g, g, p)
  {
  }

  lemma NoMove(g: Hist, boot: Bootstrap, done: set<Ballot>, done': set<Ballot>, p: NodeId, s: NodeState)
    requires Alone(g, boot, done, p, s) && done <= done'
    ensures MoveOk(g, g, boot, done, done', p, s, s)
  {
    CountedGrows(g, g, boot, done, done', p, s);
  }

  lemma FollowerMove(g: Hist, boot: Bootstrap, done: set<Ballot>, done': set<Ballot>, p: NodeId, s: NodeState, term: Term)
    requires Alone(g, boot, done, p, s) && done <= done'
    requires term > s.term || (term == s.term && s.role == Leader)
    ensures MoveOk(g, g, boot, done, done', p, s, BecomeFollower(s, term))
  {
    FollowerKept(g, boot, p, s, term);
  }

  // ---- Elections ------------------------------------------------------------

  lemma CandidateStanding(g: Hist, h: Hist, boot: Bootstrap, p: NodeId, s: NodeState, s': NodeState)
    requires NodeInv(g, boot, p, s) && h == RecordCandidacy(g, s.term + 1, p, s.log)
    requires s' == s.(role := Candidate, term := s.term + 1, votedFor := p,
                      votesReceived := s'.votesReceived, votesNeeded := s'.votesNeeded)
    ensures ConfigInv(boot, p, s') && TermInv(h, p, s'.term) && RoleInv(h, p, s') && VoteInv(h, p, s')
  {
  }

  lemma CandidateNodeInv(g: Hist, h: Hist, boot: Bootstrap, p: NodeId, s: NodeState, s': NodeState)
    requires HistInv(g, boot.Keys) && NodeInv(g, boot, p, s) && h == RecordCandidacy(g, s.term + 1, p, s.log)
    requires s' == s.(role := Candidate, term := s.term + 1, votedFor := p,
                      votesReceived := s'.votesReceived, votesNeeded := s'.votesNeeded)
    requires Grows(g, h)
    ensures NodeInv(h, boot, p, s')
  {
    LogStands(g, h, boot, p, s);
    CommittedGrows(h, h, s.log, s.commit, s.term, s'.term);
    CandidateStanding(g, h, boot, p, s, s');
  }

  lemma CandidacyOk(g: Hist, boot: Bootstrap, done: set<Ballot>, p: NodeId, s: NodeState)
    requires Alone(g, boot, done, p, s) && MayStartElection(s)
    ensures var s' := StartElection(s);
            MoveOk(g, RecordCandidacy(g, s'.term, p, s'.log), boot, done, done, p, s, s')
  {
    var s' := StartElection(s);
    var h := RecordCandidacy(g, s'.term, p, s.log);
    CandidacyRecorded(g, boot, s'.term, p, s.log);
    CandidateNodeInv(g, h, boot, p, s, s');
    OwnVoteCounted(h, boot, done, p, s'.term);
  }

  lemma OwnVoteCounted(g: Hist, boot: Bootstrap, done: set<Ballot>, p: NodeId, t: Term)
    requires p in boot && Voted(g, t, p, p)
    ensures |Counted(g, boot, done, p, t)| >= 1
  {
    SubsetSize({p}, Counted(g, boot, done, p, t));
  }

  lemma ElectionTimeoutKeepsInv(c: ClusterState, boot: Bootstrap, p: NodeId)
    requires Inv(c, boot) && Enabled(c, ElectionTimeout(p))
    ensures Follows(c, TakeStep(c, ElectionTimeout(p)), boot)
  {
    AloneInCluster(c, boot, p);
    var s, s' := c.nodes[p], StartElection(c.nodes[p]);
    var h := RecordCandidacy(c.hist, s'.term, p, s'.log);
    CandidacyOk(c.hist, boot, c.ballotsDone, p, s);
    QuietStep(c, boot, p, s', h, c.ballotsDone);
    var calls := set q | q in VoteRecipients(s') :: VoteCall(p, q, VoteRequest(s'));
    VoteCallsAdded(c.(nodes := c.nodes[p := s'], hist := h), boot, calls);
  }

  lemma VoteCallsAdded(c: ClusterState, boot: Bootstrap, ms: set<VoteCall>)
    requires Inv(c, boot) && forall m | m in ms :: VoteCallOk(c.hist, boot, m)
    ensures Inv(c.(voteCalls := c.voteCalls + ms), boot)
  {
  }

  /** Whoever passes the up-to-date check advertised a log that carries what the voter took over. */
  lemma UpToDateCarries(g: Hist, voters: set<NodeId>, t: Term, n: LogIndex, f: Log, a: Log, u: Term)
    requires HistInv(g, voters) && Own(g, t, n) && t < u
    requires LogOk(g, f) && LogOk(g, a) && TermsBelow(a, u)
    requires UpToDate(LastIndex(a), LastTerm(a), f)
    requires Carries(g, t, n, f, LastTerm(f) + 1)
    ensures Carries(g, t, n, a, u)
  {
    var entry := g.lead[t].log[..n + 1];
    assert LeaderOk(g, voters, t);
    if Diverged(g, t, n, LastTerm(f) + 1) {
      var w :| w in g.lead && t < w < LastTerm(f) + 1 && !(entry <= g.lead[w].base);
      assert w < u;
    } else {
      assert f[n] == entry[n];
      TermsAscend(g, voters, f, n, |f| - 1);
      if LastTerm(a) == LastTerm(f) {
        LogsMatch(g, f, a, |f| - 1, |a| - 1);
        assert f == f[..|f|] && f <= a;
      } else {
        StartsWithBase(g, voters, a);
        assert t < LastTerm(a) < u;
      }
    }
  }

  /** The leader of a term, even after it stepped down, refuses every candidate of that term. */
  lemma ExLeaderRefuses(g: Hist, boot: Bootstrap, p: NodeId, s: NodeState, a: Log, lastIndex: LogIndex)
    requires HistInv(g, boot.Keys) && NodeInv(g, boot, p, s) && Won(g, p, s.term)
    requires |a| > 0 && TermsBelow(a, s.term)
    ensures !UpToDate(lastIndex, LastTerm(a), s.log)
  {
    assert LeaderOk(g, boot.Keys, s.term);
  }

  lemma GrantCarries(g: Hist, boot: Bootstrap, p: NodeId, s: NodeState, a: Log, u: Term)
    requires HistInv(g, boot.Keys) && LogOk(g, s.log) && CarryInv(g, p, s.log)
    requires LogOk(g, a) && TermsBelow(a, u) && UpToDate(LastIndex(a), LastTerm(a), s.log)
    ensures forall t: Term, n: LogIndex :: Accepted(g, t, p, n) && Own(g, t, n) && t < u ==> Carries(g, t, n, a, u)
  {
    forall t: Term, n: LogIndex | Accepted(g, t, p, n) && Own(g, t, n) && t < u ensures Carries(g, t, n, a, u) {
      UpToDateCarries(g, boot.Keys, t, n, s.log, a, u);
    }
  }

  /** The history after a vote for a candidate whose log is up to date. */
  lemma GrantRecorded(g: Hist, boot: Bootstrap, m: VoteCall, s: NodeState)
    requires HistInv(g, boot.Keys) && PlainHist(g, boot) && NodeInv(g, boot, m.dst, s) && NO_NODE !in boot
    requires VoteCallOk(g, boot, m) && s.term == m.args.term
    requires s.votedFor == NO_NODE || s.votedFor == m.src
    requires UpToDate(m.args.lastIndex, m.args.lastTerm, s.log)
    ensures !Won(g, m.dst, s.term)
    ensures var h := RecordVote(g, s.term, m.dst, m.src);
            HistInv(h, boot.Keys) && PlainHist(h, boot) && GrowsBy(g, h, m.dst)
  {
    var p, u := m.dst, s.term;
    var a := g.adv[(u, m.src)];
    assert AdvOk(g, u, m.src) && VoteOk(g, boot.Keys, u, p);
    if Won(g, p, u) {
      ExLeaderRefuses(g, boot, p, s, a, m.args.lastIndex);
    }
    GrantCarries(g, boot, p, s, a, u);
    VoteRecorded(g, boot.Keys, u, p, m.src);
  }

  lemma VoteGranted(g: Hist, boot: Bootstrap, done: set<Ballot>, m: VoteCall, s: NodeState)
    requires Alone(g, boot, done, m.dst, s) && VoteCallOk(g, boot, m) && s.term == m.args.term
    requires s.votedFor == NO_NODE || s.votedFor == m.src
    requires UpToDate(m.args.lastIndex, m.args.lastTerm, s.log)
    ensures s.role == Follower
    ensures var s' := s.(votedFor := m.src);
            MoveOk(g, RecordVote(g, s.term, m.dst, m.src), boot, done, done, m.dst, s, s')
  {
    var p, u := m.dst, s.term;
    var h := RecordVote(g, u, p, m.src);
    GrantRecorded(g, boot, m, s);
    VoterNodeInv(g, h, boot, p, s, m.src);
  }

  lemma VoterNodeInv(g: Hist, h: Hist, boot: Bootstrap, p: NodeId, s: NodeState, c: NodeId)
    requires HistInv(g, boot.Keys) && NodeInv(g, boot, p, s) && !Won(g, p, s.term) && h == RecordVote(g, s.term, p, c)
    requires (s.votedFor == NO_NODE || s.votedFor == c) && c != p && NO_NODE !in boot && Grows(g, h)
    ensures NodeInv(h, boot, p, s.(votedFor := c)) && s.role == Follower
  {
    LogStands(g, h, boot, p, s);
    VoterStanding(g, h, boot, p, s, c);
  }

  lemma VoterStanding(g: Hist, h: Hist, boot: Bootstrap, p: NodeId, s: NodeState, c: NodeId)
    requires NodeInv(g, boot, p, s) && !Won(g, p, s.term) && h == RecordVote(g, s.term, p, c)
    requires s.votedFor == NO_NODE || s.votedFor == c
    requires c != p && NO_NODE !in boot
    ensures var s' := s.(votedFor := c);
            ConfigInv(boot, p, s') && TermInv(h, p, s'.term) && RoleInv(h, p, s') && VoteInv(h, p, s')
            && s.role == Follower
  {
  }

  /** What the history says of a node's log, after a step that is not about logs. */
  lemma LogStands(g: Hist, h: Hist, boot: Bootstrap, p: NodeId, s: NodeState)
    requires HistInv(g, boot.Keys) && NodeInv(g, boot, p, s) && Grows(g, h) && h.acc == g.acc
    ensures LogInv(h, boot, s) && CarryInv(h, p, s.log) && Committed(h, s.log, s.commit, s.term)
  {
    LogOkGrows(g, h, s.log);
    CarryInvGrows(g, h, boot.Keys, p, s.log);
    CommittedGrows(g, h, s.log, s.commit, s.term, s.term);
  }

  lemma HearMove(g: Hist, boot: Bootstrap, done: set<Ballot>, p: NodeId, s: NodeState, a: VoteArgs)
    requires Alone(g, boot, done, p, s)
    ensures MoveOk(g, g, boot, done, done, p, s, HearCandidate(s, a))
  {
    NoMove(g, boot, done, done, p, s);
    if a.term > s.term {
      FollowerMove(g, boot, done, done, p, s, a.term);
    }
  }

  lemma VoteHandledOk(g: Hist, boot: Bootstrap, done: set<Ballot>, m: VoteCall, s: NodeState, inContact: bool)
    requires Alone(g, boot, done, m.dst, s) && VoteCallOk(g, boot, m)
    ensures var (s', reply) := HandleVote(s, m.args, inContact);
            var h := AfterVote(g, s', reply);
            && MoveOk(g, h, boot, done, done, m.dst, s, s')
            && (reply.granted ==> Voted(h, m.args.term, m.dst, m.src))
  {
    NoMove(g, boot, done, done, m.dst, s);
    if !Disregards(s, m.args, inContact) {
      var s1 := HearCandidate(s, m.args);
      HearMove(g, boot, done, m.dst, s, m.args);
      if GrantsTo(s1, m.args) { VoteGranted(g, boot, done, m, s1); }
    }
  }

  lemma VoteArrivesKeepsInv(c: ClusterState, boot: Bootstrap, m: VoteCall, inContact: bool)
    requires Inv(c, boot) && Enabled(c, VoteArrives(m, inContact))
    ensures Follows(c, TakeStep(c, VoteArrives(m, inContact)), boot)
  {
    AloneInCluster(c, boot, m.dst);
    var (s', reply) := HandleVote(c.nodes[m.dst], m.args, inContact);
    var h := AfterVote(c.hist, s', reply);
    assert VoteCallOk(c.hist, boot, m);
    VoteHandledOk(c.hist, boot, c.ballotsDone, m, c.nodes[m.dst], inContact);
    QuietStep(c, boot, m.dst, s', h, c.ballotsDone);
    VoteCallKept(c.hist, h, boot, m);
    VoteAnswerAdded(c.(nodes := c.nodes[m.dst := s'], hist := h), boot, VoteAnswer(m, reply));
  }

  lemma VoteAnswerAdded(c: ClusterState, boot: Bootstrap, a: VoteAnswer)
    requires Inv(c, boot) && VoteAnswerOk(c.hist, boot, a)
    ensures Inv(c.(voteAnswers := c.voteAnswers + {a}), boot)
  {
  }

  /** At most one node wins a term: two majorities of votes would share a voter. */
  lemma WinnerIsFirst(g: Hist, boot: Bootstrap, p: NodeId, s: NodeState)
    requires HistInv(g, boot.Keys) && NodeInv(g, boot, p, s) && s.role == Candidate
    requires IsQuorum(boot.Keys, VotersFor(g, boot.Keys, s.term, p))
    ensures s.term !in g.lead && s.log == g.adv[(s.term, p)]
  {
    if s.term in g.lead {
      assert LeaderOk(g, boot.Keys, s.term);
      var q := QuorumMember(boot.Keys, VotersFor(g, boot.Keys, s.term, p),
                            VotersFor(g, boot.Keys, s.term, g.lead[s.term].who));
    }
  }

  /** What a winner writes: entries of its own term only, none of which changes the bootstrap cluster. */
  lemma PreambleOk(boot: Bootstrap, log: Log, term: Term)
    requires PlainLog(boot, log)
    ensures var log' := log + LeaderPreamble(boot, log, term);
            && log < log' && PlainLog(boot, log') && LastTerm(log') == term
            && forall i | |log| <= i < |log'| :: log'[i].term == term
  {
    FoundingIsPlain(boot, term);
    var pre := LeaderPreamble(boot, log, term);
    var log' := log + pre;
    assert forall e | e in pre :: Plain(boot, e) && e.term == term;
    assert forall i | |log| <= i < |log'| :: log'[i] == pre[i - |log|] && log'[i] in pre;
  }

  /** Entries of the current term at the end of the log leave a leader's node invariant alone. */
  lemma LogGrown(g: Hist, h: Hist, boot: Bootstrap, p: NodeId, s: NodeState, log: Log)
    requires HistInv(g, boot.Keys) && HistInv(h, boot.Keys) && Grows(g, h) && NodeInv(g, boot, p, s)
    requires s.log < log && Won(h, p, s.term) && h.lead[s.term].log == log
    requires forall t | (t, p) in h.acc && t != s.term :: (t, p) in g.acc && g.acc[(t, p)] == h.acc[(t, p)]
    requires LastTerm(log) == s.term
    ensures CarryInv(h, p, log) && Committed(h, log, s.commit, s.term) && ApplyInv(s.(log := log))
  {
    CommittedGrows(g, h, s.log, s.commit, s.term, s.term);
    assert s.log[..s.commit + 1] == log[..s.commit + 1];
    CommittedExtends(h, s.log, log, s.commit, s.term);
    ApplyInvExtends(s, s.(log := log));
    forall u: Term, n: LogIndex | Accepted(h, u, p, n) && Own(h, u, n)
      ensures Carries(h, u, n, log, LastTerm(log) + 1)
    {
      if u != s.term {
        assert Accepted(g, u, p, n) && AccOk(g, boot.Keys, u, p);
        assert Own(g, u, n);
        CarriesGrows(g, h, u, n, s.log, LastTerm(s.log) + 1);
        CarriesExtends(h, u, n, s.log, LastTerm(s.log) + 1, log, LastTerm(log) + 1);
      }
    }
  }

  /** The history of a win. */
  lemma WinRecorded(g: Hist, boot: Bootstrap, p: NodeId, s: NodeState)
    requires HistInv(g, boot.Keys) && PlainHist(g, boot) && NodeInv(g, boot, p, s) && s.role == Candidate
    requires IsQuorum(boot.Keys, VotersFor(g, boot.Keys, s.term, p))
    ensures s.term !in g.lead
    ensures var log := s.log + LeaderPreamble(boot, s.log, s.term);
            var h := RecordWin(g, s.term, p, s.log, log);
            && HistInv(h, boot.Keys) && PlainHist(h, boot) && GrowsBy(g, h, p)
            && PlainLog(boot, log) && s.log < log && LastTerm(log) == s.term
  {
    var log := s.log + LeaderPreamble(boot, s.log, s.term);
    var h := RecordWin(g, s.term, p, s.log, log);
    WinnerIsFirst(g, boot, p, s);
    PreambleOk(boot, s.log, s.term);
    assert AdvOk(g, s.term, p) && AccOk(g, boot.Keys, s.term, p);
    assert Grows(g, h);
    LeadRecorded(g, h, boot, s.term, p, Leadership(p, s.log, log, 0));
  }

  lemma NewLeaderIndices(boot: Bootstrap, p: NodeId, s: NodeState)
    requires ConfigInv(boot, p, s) && s.role == Candidate
    ensures var s' := BecomeLeader(s);
            ConfigInv(boot, p, s') && forall q | q in s'.nextIndex ::
              s'.matchIndex[q] == 0 && s'.nextIndex[q] == |s'.log| - 1
  {
    var s' := BecomeLeader(s);
    assert s'.nextIndex.Keys == s.nextIndex.Keys;
    assert s'.matchIndex.Keys == s.matchIndex.Keys;
  }

  lemma WinnerStanding(g: Hist, h: Hist, boot: Bootstrap, p: NodeId, s: NodeState, s': NodeState)
    requires NodeInv(g, boot, p, s) && s.role == Candidate && s' == BecomeLeader(s)
    requires h == RecordWin(g, s.term, p, s.log, s'.log)
    ensures TermInv(h, p, s'.term) && RoleInv(h, p, s') && VoteInv(h, p, s')
  {
  }

  lemma WinnerIndices(h: Hist, boot: Bootstrap, p: NodeId, s: NodeState, s': NodeState)
    requires ConfigInv(boot, p, s) && s.role == Candidate && |s.log| > 0 && s' == BecomeLeader(s)
    ensures ConfigInv(boot, p, s') && LeaderInv(h, s')
  {
    NewLeaderIndices(boot, p, s);
  }

  lemma WinnerLog(g: Hist, h: Hist, boot: Bootstrap, p: NodeId, s: NodeState, s': NodeState)
    requires HistInv(g, boot.Keys) && HistInv(h, boot.Keys) && Grows(g, h) && NodeInv(g, boot, p, s)
    requires s'.term == s.term && s'.commit == s.commit && s'.lastApplied == s.lastApplied && s'.batch == s.batch && s'.fsm == s.fsm
    requires h == RecordWin(g, s.term, p, s.log, s'.log)
    requires PlainLog(boot, s'.log) && s.log < s'.log && LastTerm(s'.log) == s.term
    ensures LogInv(h, boot, s') && CarryInv(h, p, s'.log) && Committed(h, s'.log, s'.commit, s'.term) && ApplyInv(s')
  {
    LogGrown(g, h, boot, p, s, s'.log);
    assert LeaderOk(h, boot.Keys, s.term);
    ApplyInvExtends(s, s');
  }

  lemma WinnerNodeInv(g: Hist, h: Hist, boot: Bootstrap, p: NodeId, s: NodeState, s': NodeState)
    requires HistInv(g, boot.Keys) && HistInv(h, boot.Keys) && Grows(g, h)
    requires NodeInv(g, boot, p, s) && s.role == Candidate && s' == BecomeLeader(s)
    requires h == RecordWin(g, s.term, p, s.log, s'.log)
    requires PlainLog(boot, s'.log) && s.log < s'.log && LastTerm(s'.log) == s.term
    ensures NodeInv(h, boot, p, s')
  {
    WinnerStanding(g, h, boot, p, s, s');
    WinnerIndices(h, boot, p, s, s');
    WinnerLog(g, h, boot, p, s, s');
  }

  lemma CandidateWins(g: Hist, boot: Bootstrap, done: set<Ballot>, p: NodeId, s: NodeState)
    requires Alone(g, boot, done, p, s) && s.role == Candidate
    requires IsQuorum(boot.Keys, VotersFor(g, boot.Keys, s.term, p))
    ensures var s' := BecomeLeader(s);
            MoveOk(g, RecordWin(g, s.term, p, s.log, s'.log), boot, done, done, p, s, s')
  {
    var s' := BecomeLeader(s);
    var h := RecordWin(g, s.term, p, s.log, s'.log);
    WinRecorded(g, boot, p, s);
    WinnerNodeInv(g, h, boot, p, s, s');
    WinnerUndisturbed(g, boot, p, s);
  }

  lemma WinnerUndisturbed(g: Hist, boot: Bootstrap, p: NodeId, s: NodeState)
    requires ConfigInv(boot, p, s) && s.role == Candidate && s.term !in g.lead
    ensures CallsUndisturbed(g, p, s, BecomeLeader(s))
  {
    NewLeaderIndices(boot, p, s);
  }

  lemma OneMoreCounted(g: Hist, boot: Bootstrap, done: set<Ballot>, p: NodeId, q: NodeId, s: NodeState)
    requires Alone(g, boot, done, p, s) && s.role == Candidate && q != p
    requires Voted(g, s.term, q, p) && Ballot(p, s.term, q) !in done
    ensures var s' := s.(votesReceived := s.votesReceived + 1);
            && CountInv(g, boot, done + {Ballot(p, s.term, q)}, p, s')
            && s'.votesReceived <= |VotersFor(g, boot.Keys, s.term, p)|
  {
    assert VoteOk(g, boot.Keys, s.term, q);
    var done' := done + {Ballot(p, s.term, q)};
    var was, now := Counted(g, boot, done, p, s.term), Counted(g, boot, done', p, s.term);
    SubsetSize(was + {q}, now);
    SubsetSize(now, VotersFor(g, boot.Keys, s.term, p));
  }

  lemma VoteCounted(g: Hist, boot: Bootstrap, done: set<Ballot>, p: NodeId, q: NodeId, s: NodeState)
    requires Alone(g, boot, done, p, s) && s.role == Candidate && q != p
    requires Voted(g, s.term, q, p) && Ballot(p, s.term, q) !in done
    ensures var done' := done + {Ballot(p, s.term, q)};
            var s' := s.(votesReceived := s.votesReceived + 1);
            && Alone(g, boot, done', p, s')
            && s'.votesReceived <= |VotersFor(g, boot.Keys, s.term, p)|
  {
    OneMoreCounted(g, boot, done, p, q, s);
  }

  lemma CountOk(g: Hist, boot: Bootstrap, done: set<Ballot>, p: NodeId, q: NodeId, s: NodeState)
    requires Alone(g, boot, done, p, s) && s.role == Candidate && q != p
    requires Voted(g, s.term, q, p) && Ballot(p, s.term, q) !in done
    ensures MoveOk(g, g, boot, done, done + {Ballot(p, s.term, q)}, p, s, s.(votesReceived := s.votesReceived + 1))
  {
    VoteCounted(g, boot, done, p, q, s);
    GrowsBySelf(g, p);
  }

  /** The vote that completes the majority makes the candidate leader. */
  lemma WinOk(g: Hist, boot: Bootstrap, done: set<Ballot>, p: NodeId, q: NodeId, s: NodeState, s1: NodeState)
    requires Alone(g, boot, done, p, s) && s.role == Candidate && q != p
    requires Voted(g, s.term, q, p) && Ballot(p, s.term, q) !in done
    requires s1 == s.(votesReceived := s.votesReceived + 1) && s1.votesReceived == s1.votesNeeded
    ensures MoveOk(g, RecordWin(g, s.term, p, s.log, BecomeLeader(s1).log), boot, done, done + {Ballot(p, s.term, q)},
                   p, s, BecomeLeader(s1))
  {
    var done' := done + {Ballot(p, s.term, q)};
    VoteCounted(g, boot, done, p, q, s);
    CandidateWins(g, boot, done', p, s1);
    CountedMove(g, RecordWin(g, s.term, p, s.log, BecomeLeader(s1).log), boot, done, done', p, s, s1, BecomeLeader(s1));
  }

  /** Counting a vote first makes no difference to what comes after. */
  lemma CountedMove(g: Hist, h: Hist, boot: Bootstrap, done: set<Ballot>, done': set<Ballot>,
                    p: NodeId, s: NodeState, s1: NodeState, s': NodeState)
    requires MoveOk(g, h, boot, done', done', p, s1, s') && done <= done'
    requires s1 == s.(votesReceived := s.votesReceived + 1)
    ensures MoveOk(g, h, boot, done, done', p, s, s')
  {
  }

  /** A vote reply is ignored, or is from a newer term, or counts, and then may win the election. */
  function AfterReply(c: ClusterState, a: VoteAnswer, s': NodeState, h: Hist): ClusterState {
    c.(nodes := c.nodes[a.call.src := s'], hist := h, ballotsDone := c.ballotsDone + {BallotOf(a.call)})
  }

  lemma VoteReplyCases(c: ClusterState, a: VoteAnswer)
    requires Enabled(c, VoteReplyArrives(a)) && c.nodes[a.call.src].id == a.call.src
    ensures var s := c.nodes[a.call.src];
            var s1 := s.(votesReceived := s.votesReceived + 1);
            TakeStep(c, VoteReplyArrives(a)) ==
              if s.role != Candidate || s.term != a.call.args.term then AfterReply(c, a, s, c.hist)
              else if a.reply.term > s.term then AfterReply(c, a, BecomeFollower(s, a.reply.term), c.hist)
              else if !a.reply.granted then AfterReply(c, a, s, c.hist)
              else if s1.votesReceived == s1.votesNeeded then
                AfterReply(c, a, BecomeLeader(s1), RecordWin(c.hist, s.term, a.call.src, s.log, BecomeLeader(s1).log))
              else AfterReply(c, a, s1, c.hist)
  {
  }

  lemma ReplyKeepsInv(c: ClusterState, boot: Bootstrap, a: VoteAnswer, s': NodeState, h: Hist)
    requires Inv(c, boot) && a.call.src in c.nodes
    requires MoveOk(c.hist, h, boot, c.ballotsDone, c.ballotsDone + {BallotOf(a.call)}, a.call.src, c.nodes[a.call.src], s')
    ensures Follows(c, AfterReply(c, a, s', h), boot)
  {
    QuietStep(c, boot, a.call.src, s', h, c.ballotsDone + {BallotOf(a.call)});
  }

  predicate IsGrant(s: NodeState, a: VoteAnswer) {
    s.role == Candidate && s.term == a.call.args.term && a.reply.granted
  }

  lemma CountKeepsInv(c: ClusterState, boot: Bootstrap, a: VoteAnswer, s: NodeState)
    requires Inv(c, boot) && Enabled(c, VoteReplyArrives(a))
    requires s == c.nodes[a.call.src] && IsGrant(s, a)
    ensures Follows(c, AfterReply(c, a, s.(votesReceived := s.votesReceived + 1), c.hist), boot)
  {
    AloneInCluster(c, boot, a.call.src);
    assert VoteAnswerOk(c.hist, boot, a);
    CountOk(c.hist, boot, c.ballotsDone, a.call.src, a.call.dst, s);
    ReplyKeepsInv(c, boot, a, s.(votesReceived := s.votesReceived + 1), c.hist);
  }

  lemma WinKeepsInv(c: ClusterState, boot: Bootstrap, a: VoteAnswer, s: NodeState, s1: NodeState)
    requires Inv(c, boot) && Enabled(c, VoteReplyArrives(a))
    requires s == c.nodes[a.call.src] && IsGrant(s, a)
    requires s1 == s.(votesReceived := s.votesReceived + 1) && s1.votesReceived == s1.votesNeeded
    ensures Follows(c, AfterReply(c, a, BecomeLeader(s1), RecordWin(c.hist, s.term, a.call.src, s.log, BecomeLeader(s1).log)), boot)
  {
    var p := a.call.src;
    AloneInCluster(c, boot, p);
    assert VoteAnswerOk(c.hist, boot, a);
    WinOk(c.hist, boot, c.ballotsDone, p, a.call.dst, s, s1);
    ReplyKeepsInv(c, boot, a, BecomeLeader(s1), RecordWin(c.hist, s.term, p, s.log, BecomeLeader(s1).log));
  }

  lemma OtherReplyKeepsInv(c: ClusterState, boot: Bootstrap, a: VoteAnswer)
    requires Inv(c, boot) && a.call.src in c.nodes
    ensures var s := c.nodes[a.call.src];
            && Follows(c, AfterReply(c, a, s, c.hist), boot)
            && (a.reply.term > s.term ==> Follows(c, AfterReply(c, a, BecomeFollower(s, a.reply.term), c.hist), boot))
  {
    var p, s := a.call.src, c.nodes[a.call.src];
    var done' := c.ballotsDone + {BallotOf(a.call)};
    AloneInCluster(c, boot, p);
    NoMove(c.hist, boot, c.ballotsDone, done', p, s);
    ReplyKeepsInv(c, boot, a, s, c.hist);
    if a.reply.term > s.term {
      FollowerMove(c.hist, boot, c.ballotsDone, done', p, s, a.reply.term);
      ReplyKeepsInv(c, boot, a, BecomeFollower(s, a.reply.term), c.hist);
    }
  }

  lemma GrantKeepsInv(c: ClusterState, boot: Bootstrap, a: VoteAnswer, s: NodeState, s1: NodeState)
    requires Inv(c, boot) && Enabled(c, VoteReplyArrives(a))
    requires s == c.nodes[a.call.src] && IsGrant(s, a) && s1 == s.(votesReceived := s.votesReceived + 1)
    ensures s1.votesReceived == s1.votesNeeded ==>
              Follows(c, AfterReply(c, a, BecomeLeader(s1), RecordWin(c.hist, s.term, a.call.src, s.log, BecomeLeader(s1).log)), boot)
    ensures s1.votesReceived != s1.votesNeeded ==> Follows(c, AfterReply(c, a, s1, c.hist), boot)
  {
    if s1.votesReceived == s1.votesNeeded {
      WinKeepsInv(c, boot, a, s, s1);
    } else {
      CountKeepsInv(c, boot, a, s);
    }
  }

  lemma VoteReplyArrivesKeepsInv(c: ClusterState, boot: Bootstrap, a: VoteAnswer)
    requires Inv(c, boot) && Enabled(c, VoteReplyArrives(a))
    ensures Follows(c, TakeStep(c, VoteReplyArrives(a)), boot)
  {
    AloneInCluster(c, boot, a.call.src);
    VoteReplyCases(c, a);
    if IsGrant(c.nodes[a.call.src], a) && a.reply.term <= c.nodes[a.call.src].term {
      GrantKeepsInv(c, boot, a, c.nodes[a.call.src], c.nodes[a.call.src].(votesReceived := c.nodes[a.call.src].votesReceived + 1));
    } else {
      OtherReplyKeepsInv(c, boot, a);
    }
  }

  lemma StepDownOk(g: Hist, boot: Bootstrap, done: set<Ballot>, p: NodeId, s: NodeState, live: set<NodeId>)
    requires Alone(g, boot, done, p, s) && s.role == Leader
    ensures MoveOk(g, g, boot, done, done, p, s, StepDown(s, live))
  {
    FollowerMove(g, boot, done, done, p, s, s.term);
    NoMove(g, boot, done, done, p, s);
  }

  lemma QuorumCheckKeepsInv(c: ClusterState, boot: Bootstrap, p: NodeId, live: set<NodeId>)
    requires Inv(c, boot) && Enabled(c, QuorumCheck(p, live))
    ensures Follows(c, TakeStep(c, QuorumCheck(p, live)), boot)
  {
    AloneInCluster(c, boot, p);
    StepDownOk(c.hist, boot, c.ballotsDone, p, c.nodes[p], live);
    QuietStep(c, boot, p, StepDown(c.nodes[p], live), c.hist, c.ballotsDone);
  }
}

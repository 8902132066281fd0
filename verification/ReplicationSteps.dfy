/** Appending, sending, receiving, committing and applying keep the invariant. */
module ReplicationSteps {
  import opened RaftTypes
  import opened Membership
  import opened NodeSpec
  import opened LogHistory
  import opened Cluster
  import opened ClusterInv
  import opened HistorySteps
  import opened ClusterSteps

  // ---- The leader appends ---------------------------------------------------

  lemma AppendGrows(g: Hist, boot: Bootstrap, p: NodeId, s: NodeState, e: Entry)
    requires HistInv(g, boot.Keys) && NodeInv(g, boot, p, s) && s.role == Leader
    ensures s.term in g.lead && Grows(g, RecordAppend(g, s.term, p, s.log + [e]))
  {
    assert LeaderOk(g, boot.Keys, s.term);
  }

  lemma AppendedLead(g: Hist, boot: Bootstrap, p: NodeId, s: NodeState, e: Entry)
    requires HistInv(g, boot.Keys) && NodeInv(g, boot, p, s) && s.role == Leader && e.term == s.term && Plain(boot, e)
    ensures s.term in g.lead
    ensures var (b, log) := (g.lead[s.term].base, s.log + [e]);
            && 1 <= |b| < |log| && b <= log && LogOk(g, b) && TermsBelow(b, s.term) && log[0] == SENTINEL
            && PlainLog(boot, log) && forall i | |b| <= i < |log| :: log[i].term == s.term
  {
    var b := g.lead[s.term].base;
    assert LeaderOk(g, boot.Keys, s.term);
    LogOkPrefix(g, s.log, |b|);
    assert b == s.log[..|b|];
  }

  lemma AppendRecorded(g: Hist, boot: Bootstrap, p: NodeId, s: NodeState, e: Entry)
    requires HistInv(g, boot.Keys) && PlainHist(g, boot) && NodeInv(g, boot, p, s) && s.role == Leader
    requires e.term == s.term && Plain(boot, e)
    ensures s.term in g.lead
    ensures var h := RecordAppend(g, s.term, p, s.log + [e]);
            && HistInv(h, boot.Keys) && PlainHist(h, boot) && GrowsBy(g, h, p)
  {
    var t, log := s.term, s.log + [e];
    var l := g.lead[t].(log := log);
    assert LeaderOk(g, boot.Keys, t);
    AppendedLead(g, boot, p, s, e);
    AppendGrows(g, boot, p, s, e);
    LeadRecorded(g, RecordAppend(g, t, p, log), boot, t, p, l);
  }

  lemma SubmitNodeInv(g: Hist, h: Hist, boot: Bootstrap, p: NodeId, s: NodeState, s': NodeState)
    requires HistInv(g, boot.Keys) && HistInv(h, boot.Keys) && Grows(g, h)
    requires NodeInv(g, boot, p, s) && s.role == Leader && Won(g, p, s.term)
    requires s' == s.(log := s'.log) && s.log < s'.log && LastTerm(s'.log) == s.term && PlainLog(boot, s'.log)
    requires h == RecordAppend(g, s.term, p, s'.log)
    ensures NodeInv(h, boot, p, s')
  {
    LogGrown(g, h, boot, p, s, s'.log);
    assert LeaderOk(h, boot.Keys, s.term);
    PeersStand(g, h, s, s');
  }

  lemma SubmitOk(g: Hist, boot: Bootstrap, done: set<Ballot>, p: NodeId, s: NodeState, cmd: Command)
    requires Alone(g, boot, done, p, s) && s.role == Leader
    ensures s.term in g.lead
    ensures MoveOk(g, RecordAppend(g, s.term, p, Submit(s, cmd).log), boot, done, done, p, s, Submit(s, cmd))
  {
    var e := Entry(Normal, s.term, cmd);
    AppendRecorded(g, boot, p, s, e);
    SubmitNodeInv(g, RecordAppend(g, s.term, p, s.log + [e]), boot, p, s, Submit(s, cmd));
  }

  lemma ClientSubmitsKeepsInv(c: ClusterState, boot: Bootstrap, p: NodeId, cmd: Command)
    requires Inv(c, boot) && Enabled(c, ClientSubmits(p, cmd))
    ensures Follows(c, TakeStep(c, ClientSubmits(p, cmd)), boot)
  {
    var s := c.nodes[p];
    AloneInCluster(c, boot, p);
    SubmitOk(c.hist, boot, c.ballotsDone, p, s, cmd);
    QuietStep(c, boot, p, Submit(s, cmd), RecordAppend(c.hist, s.term, p, Submit(s, cmd).log), c.ballotsDone);
  }

  // ---- The leader sends -----------------------------------------------------

  /** A request reaches the end of the leader's log, so it covers what the leader has committed. */
  lemma RequestOk(g: Hist, boot: Bootstrap, p: NodeId, s: NodeState, q: NodeId, id: nat)
    requires HistInv(g, boot.Keys) && NodeInv(g, boot, p, s) && s.role == Leader && q in s.peers && InBounds(s, q)
    ensures AppendCallOk(g, boot, AppendCall(id, p, q, AppendRequest(s, q), MatchOf(s, q)))
  {
    assert LeaderOk(g, boot.Keys, s.term);
    assert PeerInv(g, s, q);
    assert s.log[s.nextIndex[q]..] == s.log[s.nextIndex[q]..|s.log|];
  }

  lemma MarksKept(g: Hist, boot: Bootstrap, done: set<Ballot>, p: NodeId, s: NodeState, marks: map<NodeId, bool>)
    requires Alone(g, boot, done, p, s)
    ensures Alone(g, boot, done, p, s.(inFlight := marks))
  {
  }

  lemma CallAdded(c: ClusterState, c': ClusterState, boot: Bootstrap, call: AppendCall)
    requires MessagesInv(c, boot) && AppendCallOk(c.hist, boot, call) && call.id == c.clock
    requires c' == c.(nodes := c'.nodes, pending := c'.pending, clock := c.clock + 1, calls := c.calls + {call})
    ensures MessagesInv(c', boot)
  {
    forall m | m in c'.calls ensures AppendCallOk(c'.hist, boot, m) && m.id < c'.clock {
      assert m != call ==> AppendCallOk(c.hist, boot, m);
    }
    forall a | a in c'.answers ensures a.call in c'.calls && AppendAnswerOk(c'.hist, boot, a) {
      assert AppendAnswerOk(c.hist, boot, a);
    }
  }

  lemma CallPending(c: ClusterState, boot: Bootstrap, p: NodeId, q: NodeId, call: AppendCall)
    requires PendingInv(c.nodes, c.calls, c.pending) && Enabled(c, SendStarts(p, q)) && MessagesInv(c, boot)
    requires q in c.nodes[p].matchIndex
    requires call == AppendCall(c.clock, p, q, AppendRequest(c.nodes[p], q), MatchOf(c.nodes[p], q))
    ensures PendingInv(c.nodes[p := MarkSent(c.nodes[p], q)], c.calls + {call}, c.pending[(p, q) := call])
  {
    var nodes, calls, pending := c.nodes[p := MarkSent(c.nodes[p], q)], c.calls + {call}, c.pending[(p, q) := call];
    forall k | k in pending ensures PendingOk(nodes, calls, k, pending[k]) {
      if k != (p, q) { assert PendingOk(c.nodes, c.calls, k, c.pending[k]); }
    }
  }

  lemma SendStep(c: ClusterState, p: NodeId, q: NodeId)
    requires Enabled(c, SendStarts(p, q))
    ensures var s := c.nodes[p];
            var call := AppendCall(c.clock, p, q, AppendRequest(s, q), MatchOf(s, q));
            TakeStep(c, SendStarts(p, q)) ==
              c.(nodes := c.nodes[p := MarkSent(s, q)], clock := c.clock + 1,
                 calls := c.calls + {call}, pending := c.pending[(p, q) := call])
  {
  }

  lemma SendStartsKeepsInv(c: ClusterState, boot: Bootstrap, p: NodeId, q: NodeId)
    requires Inv(c, boot) && Enabled(c, SendStarts(p, q))
    ensures Follows(c, TakeStep(c, SendStarts(p, q)), boot)
  {
    var g, s, c' := c.hist, c.nodes[p], TakeStep(c, SendStarts(p, q));
    var call := AppendCall(c.clock, p, q, AppendRequest(s, q), MatchOf(s, q));
    SendStep(c, p, q);
    AloneInCluster(c, boot, p);
    RequestOk(g, boot, p, s, q, c.clock);
    MarksKept(g, boot, c.ballotsDone, p, s, s.inFlight[q := true]);
    CallAdded(c, c', boot, call);
    CallPending(c, boot, p, q, call);
    GrowsBySelf(g, p);
    StepKeepsInv(c, c', boot, p);
  }

  // ---- A follower receives --------------------------------------------------

  /** A follower that took something over from the leader of its term holds a piece of that
      leader's log and nothing else. */
  lemma FollowsLeader(g: Hist, boot: Bootstrap, p: NodeId, s: NodeState, t: Term)
    requires HistInv(g, boot.Keys) && NodeInv(g, boot, p, s)
    requires t == s.term && (t, p) in g.acc
    ensures t in g.lead && g.acc[(t, p)] < |s.log| && s.log <= g.lead[t].log
  {
    var n := g.acc[(t, p)];
    assert AccOk(g, boot.Keys, t, p) && LeaderOk(g, boot.Keys, t);
    assert Accepted(g, t, p, n) && Own(g, t, n);
    assert Carries(g, t, n, s.log, LastTerm(s.log) + 1);
    assert g.lead[t].log[..n + 1] <= s.log;
    assert s.log[n].term == t;
    TermsAscend(g, boot.Keys, s.log, n, |s.log| - 1);
    assert EntryOk(g, s.log, |s.log| - 1);
    assert s.log == s.log[..|s.log|];
  }

  lemma RejectionIsOk(g: Hist, boot: Bootstrap, m: AppendCall, s: NodeState)
    requires HistInv(g, boot.Keys) && NodeInv(g, boot, m.dst, s) && AppendCallOk(g, boot, m)
    requires s.term == m.args.term && !Accepts(s.log, m.args.prevIndex, m.args.prevTerm)
    ensures RejectionOk(g, m, ConflictReply(s.log, s.term, m.args.prevIndex))
  {
    assert LeaderOk(g, boot.Keys, m.args.term);
    if (m.args.term, m.dst) !in g.late && m.sentMatch > 0 {
      FollowsLeader(g, boot, m.dst, s, s.term);
    }
  }

  /** The log of the leader of `t` up to an entry of its own. */
  ghost predicate OfferOk(g: Hist, t: Term, o: Log) {
    && t in g.lead && |g.lead[t].base| < |o| && g.lead[t].base <= o <= g.lead[t].log
    && LogOk(g, o) && LastTerm(o) == t
  }

  /** The leader's log as far as the request reaches. */
  function Offered(g: Hist, a: AppendArgs): Log
    requires a.term in g.lead && Reach(a) < |g.lead[a.term].log|
  {
    g.lead[a.term].log[..Reach(a) + 1]
  }

  function Joined(f: Log, o: Log): Log {
    if o <= f then f else o
  }

  lemma OfferedOk(g: Hist, boot: Bootstrap, m: AppendCall)
    requires HistInv(g, boot.Keys) && AppendCallOk(g, boot, m)
    ensures OfferOk(g, m.args.term, Offered(g, m.args))
  {
    assert LeaderOk(g, boot.Keys, m.args.term);
    LogOkPrefix(g, g.lead[m.args.term].log, Reach(m.args) + 1);
  }

  lemma OfferedContent(l: Log, a: AppendArgs)
    requires Reach(a) < |l| && a.prevTerm == l[a.prevIndex].term
    requires a.entries == l[a.prevIndex + 1..Reach(a) + 1]
    ensures l[..Reach(a) + 1][a.prevIndex + 1..] == a.entries
    ensures l[..Reach(a) + 1][a.prevIndex].term == a.prevTerm
  {
  }

  lemma OfferMerged(g: Hist, f: Log, o: Log, a: AppendArgs)
    requires LogOk(g, f) && LogOk(g, o) && Accepts(f, a.prevIndex, a.prevTerm)
    requires a.prevIndex < |o| && o[a.prevIndex].term == a.prevTerm && o[a.prevIndex + 1..] == a.entries
    ensures MergeEntries(f, a.prevIndex, a.entries) == Joined(f, o)
  {
    MergeTakesOver(g, f, o, a.prevIndex);
  }

  lemma MergeOk(g: Hist, boot: Bootstrap, m: AppendCall, f: Log)
    requires HistInv(g, boot.Keys) && LogOk(g, f) && AppendCallOk(g, boot, m)
    requires Accepts(f, m.args.prevIndex, m.args.prevTerm)
    ensures OfferOk(g, m.args.term, Offered(g, m.args))
    ensures MergeEntries(f, m.args.prevIndex, m.args.entries) == Joined(f, Offered(g, m.args))
  {
    OfferedOk(g, boot, m);
    OfferedContent(g.lead[m.args.term].log, m.args);
    OfferMerged(g, f, Offered(g, m.args), m.args);
  }

  /** A prefix that the follower's log and the leader's log share survives. */
  lemma SharedPrefixSurvives(f: Log, o: Log, l: Log, c: LogIndex)
    requires c < |f| && f[..c + 1] <= l && o <= l
    ensures c < |Joined(f, o)| && Joined(f, o)[..c + 1] == f[..c + 1]
  {
    if |o| <= c {
      assert o == l[..c + 1][..|o|] == f[..c + 1][..|o|];
    } else {
      assert o[..c + 1] == l[..c + 1] == f[..c + 1];
    }
  }

  /** Nothing at or below the commit index is lost. */
  lemma JoinKeepsCommitted(g: Hist, boot: Bootstrap, p: NodeId, s: NodeState, o: Log)
    requires HistInv(g, boot.Keys) && NodeInv(g, boot, p, s) && OfferOk(g, s.term, o)
    ensures s.commit < |Joined(s.log, o)| && Joined(s.log, o)[..s.commit + 1] == s.log[..s.commit + 1]
  {
    LeaderHasCommitted(g, boot.Keys, s.log, s.commit, s.term);
    SharedPrefixSurvives(s.log, o, g.lead[s.term].log, s.commit);
  }

  lemma JoinedLogInv(g: Hist, boot: Bootstrap, p: NodeId, s: NodeState, o: Log)
    requires HistInv(g, boot.Keys) && PlainHist(g, boot) && LogInv(g, boot, s) && OfferOk(g, s.term, o)
    ensures LogInv(g, boot, s.(log := Joined(s.log, o)))
  {
    assert LeaderOk(g, boot.Keys, s.term);
    assert forall e | e in o :: e in g.lead[s.term].log;
  }

  /** An entry of the follower's log at `n`, as the leader of its term has it, against the offer. */
  lemma OfferComparable(g: Hist, boot: Bootstrap, t: Term, n: LogIndex, s: NodeState, o: Log)
    requires HistInv(g, boot.Keys) && LogInv(g, boot, s) && Own(g, t, n) && g.lead[t].log[..n + 1] <= s.log
    requires s.term in g.lead && o <= g.lead[s.term].log
    ensures t <= s.term
    ensures t == s.term ==> o <= s.log || g.lead[t].log[..n + 1] <= o
  {
    var entry := g.lead[t].log[..n + 1];
    assert LeaderOk(g, boot.Keys, t);
    assert s.log[n] == entry[n] && s.log[n].term == t;
    if t == s.term {
      if |o| <= n + 1 {
        assert o == entry[..|o|];
      } else {
        assert entry == o[..n + 1];
      }
    }
  }

  /** What the follower took over earlier it still has, or this leader already missed it. */
  lemma OfferCarries(g: Hist, boot: Bootstrap, t: Term, n: LogIndex, s: NodeState, o: Log)
    requires HistInv(g, boot.Keys) && LogInv(g, boot, s) && Own(g, t, n)
    requires Carries(g, t, n, s.log, LastTerm(s.log) + 1)
    requires OfferOk(g, s.term, o) && !(o <= s.log)
    ensures Carries(g, t, n, o, s.term + 1)
  {
    if Diverged(g, t, n, LastTerm(s.log) + 1) {
      CarriesExtends(g, t, n, o, LastTerm(s.log) + 1, o, s.term + 1);
    } else {
      OfferComparable(g, boot, t, n, s, o);
      assert t < s.term && !(g.lead[t].log[..n + 1] <= g.lead[s.term].base) ==> Diverged(g, t, n, s.term + 1);
    }
  }

  lemma OfferCarriesGrown(g: Hist, h: Hist, boot: Bootstrap, s: NodeState, o: Log, t: Term, n: LogIndex)
    requires HistInv(g, boot.Keys) && LogInv(g, boot, s) && OfferOk(g, s.term, o) && !(o <= s.log)
    requires Grows(g, h) && Own(g, t, n) && Carries(g, t, n, s.log, LastTerm(s.log) + 1)
    ensures Carries(h, t, n, o, s.term + 1)
  {
    OfferCarries(g, boot, t, n, s, o);
    CarriesGrows(g, h, t, n, o, s.term + 1);
  }

  lemma JoinCarries(g: Hist, h: Hist, boot: Bootstrap, s: NodeState, o: Log, t: Term, n: LogIndex, log: Log)
    requires HistInv(g, boot.Keys) && LogInv(g, boot, s) && OfferOk(g, s.term, o)
    requires Grows(g, h) && Own(g, t, n) && Carries(g, t, n, s.log, LastTerm(s.log) + 1)
    requires log == Joined(s.log, o)
    ensures Carries(h, t, n, log, LastTerm(log) + 1)
  {
    if o <= s.log {
      CarriesGrows(g, h, t, n, log, LastTerm(log) + 1);
    } else {
      OfferCarriesGrown(g, h, boot, s, o, t, n);
    }
  }

  lemma OfferCarried(g: Hist, h: Hist, s: NodeState, o: Log, n: LogIndex)
    requires OfferOk(g, s.term, o) && h.lead == g.lead && n < |o| && Own(h, s.term, n)
    ensures Carries(h, s.term, n, Joined(s.log, o), LastTerm(Joined(s.log, o)) + 1)
  {
    assert h.lead[s.term].log[..n + 1] == o[..n + 1] <= Joined(s.log, o);
  }

  lemma JoinedCarries(g: Hist, h: Hist, boot: Bootstrap, p: NodeId, s: NodeState, o: Log, t: Term, n: LogIndex)
    requires HistInv(g, boot.Keys) && LogInv(g, boot, s) && CarryInv(g, p, s.log) && OfferOk(g, s.term, o)
    requires h == RecordAccept(g, s.term, p, |o| - 1) && Grows(g, h) && Accepted(h, t, p, n) && Own(h, t, n)
    ensures Carries(h, t, n, Joined(s.log, o), LastTerm(Joined(s.log, o)) + 1)
  {
    if Accepted(g, t, p, n) {
      assert Carries(g, t, n, s.log, LastTerm(s.log) + 1);
      JoinCarries(g, h, boot, s, o, t, n, Joined(s.log, o));
    } else {
      assert t == s.term && n < |o|;
      OfferCarried(g, h, s, o, n);
    }
  }

  lemma JoinedLogCarries(g: Hist, h: Hist, boot: Bootstrap, p: NodeId, s: NodeState, o: Log)
    requires HistInv(g, boot.Keys) && LogInv(g, boot, s) && CarryInv(g, p, s.log) && OfferOk(g, s.term, o)
    requires h == RecordAccept(g, s.term, p, |o| - 1)
    ensures CarryInv(h, p, Joined(s.log, o))
  {
    var log := Joined(s.log, o);
    assert Grows(g, h);
    forall t: Term, n: LogIndex | Accepted(h, t, p, n) && Own(h, t, n) ensures Carries(h, t, n, log, LastTerm(log) + 1) {
      JoinedCarries(g, h, boot, p, s, o, t, n);
    }
  }

  /** A follower's new commit index is what its leader had committed. */
  lemma FollowedCommit(g: Hist, boot: Bootstrap, m: AppendCall, log: Log)
    requires HistInv(g, boot.Keys) && AppendCallOk(g, boot, m) && Offered(g, m.args) <= log
    ensures Committed(g, log, m.args.leaderCommit, m.args.term) && m.args.leaderCommit < |log|
  {
    var k, l := m.args.leaderCommit, g.lead[m.args.term].log;
    assert log[..k + 1] == Offered(g, m.args)[..k + 1] == l[..k + 1];
    CommittedExtends(g, l, log, k, m.args.term);
  }

  lemma MergedShape(s: NodeState, a: AppendArgs, log: Log, r: NodeState)
    requires a.prevIndex < |s.log| && log == MergeEntries(s.log, a.prevIndex, a.entries)
    requires r == Rebuild(s.(log := log)) && r == s.(log := log, peers := r.peers)
    ensures Merged(s, a) == r || Merged(s, a) == s.(log := log)
  {
  }

  lemma CommitShape(s: NodeState, a: AppendArgs)
    requires a.leaderCommit <= Reach(a)
    ensures FollowCommit(s, a) == s.(commit := if a.leaderCommit > s.commit then a.leaderCommit else s.commit)
  {
  }

  /** Apart from its peers' clients, what accepting a request does to a follower of the cluster. */
  lemma AcceptedState(g: Hist, boot: Bootstrap, m: AppendCall, s: NodeState)
    requires HistInv(g, boot.Keys) && PlainHist(g, boot) && NodeInv(g, boot, m.dst, s) && AppendCallOk(g, boot, m)
    requires s.term == m.args.term && Accepts(s.log, m.args.prevIndex, m.args.prevTerm)
    ensures OfferOk(g, s.term, Offered(g, m.args))
    ensures AcceptedShape(g, boot, m, s, AcceptEntries(s, m.args))
  {
    MergeOk(g, boot, m, s.log);
    JoinedLogInv(g, boot, m.dst, s, Offered(g, m.args));
    var log := Joined(s.log, Offered(g, m.args));
    RebuildKeepsConfig(boot, m.dst, s.(log := log));
    MergedShape(s, m.args, log, Rebuild(s.(log := log)));
    CommitShape(Merged(s, m.args), m.args);
  }

  lemma AcceptedLog(g: Hist, boot: Bootstrap, m: AppendCall, s: NodeState, s': NodeState)
    requires HistInv(g, boot.Keys) && NodeInv(g, boot, m.dst, s) && AppendCallOk(g, boot, m)
    requires s.term == m.args.term && OfferOk(g, s.term, Offered(g, m.args))
    requires s' == s.(log := Joined(s.log, Offered(g, m.args)), peers := s'.peers,
                      commit := if m.args.leaderCommit > s.commit then m.args.leaderCommit else s.commit)
    ensures ApplyInv(s') && Committed(g, s'.log, s'.commit, s'.term)
  {
    var o := Offered(g, m.args);
    JoinKeepsCommitted(g, boot, m.dst, s, o);
    FollowedCommit(g, boot, m, s'.log);
    ApplyInvExtends(s, s');
    CommittedExtends(g, s.log, s'.log, s.commit, s.term);
  }

  lemma NotTheSender(g: Hist, boot: Bootstrap, m: AppendCall, s: NodeState)
    requires NodeInv(g, boot, m.dst, s) && AppendCallOk(g, boot, m) && s.term == m.args.term
    ensures !Won(g, m.dst, s.term) && s.role != Leader
  {
  }

  /** A follower that is not the leader of its term stands as it stood. */
  lemma AcceptStanding(g: Hist, h: Hist, boot: Bootstrap, p: NodeId, s: NodeState, s': NodeState, n: LogIndex)
    requires NodeInv(g, boot, p, s) && !Won(g, p, s.term) && s.role != Leader && s.term in g.lead
    requires s' == s.(log := s'.log, peers := s'.peers, commit := s'.commit)
    requires h == RecordAccept(g, s.term, p, n)
    ensures TermInv(h, p, s'.term) && RoleInv(h, p, s') && VoteInv(h, p, s')
  {
  }

  lemma AcceptedLogInv(g: Hist, h: Hist, boot: Bootstrap, s: NodeState, s': NodeState, o: Log)
    requires HistInv(g, boot.Keys) && PlainHist(g, boot) && LogInv(g, boot, s) && OfferOk(g, s.term, o)
    requires s'.log == Joined(s.log, o) && s'.term == s.term && Grows(g, h)
    ensures LogInv(h, boot, s')
  {
    JoinedLogInv(g, boot, s.id, s, o);
    LogOkGrows(g, h, s'.log);
  }

  lemma AcceptReplicated(g: Hist, h: Hist, boot: Bootstrap, m: AppendCall, s: NodeState, s': NodeState)
    requires HistInv(g, boot.Keys) && NodeInv(g, boot, m.dst, s) && AppendCallOk(g, boot, m)
    requires s.term == m.args.term && OfferOk(g, s.term, Offered(g, m.args))
    requires s' == s.(log := Joined(s.log, Offered(g, m.args)), peers := s'.peers,
                      commit := if m.args.leaderCommit > s.commit then m.args.leaderCommit else s.commit)
    requires Grows(g, h)
    ensures ApplyInv(s') && Committed(h, s'.log, s'.commit, s'.term)
  {
    AcceptedLog(g, boot, m, s, s');
    CommittedGrows(g, h, s'.log, s'.commit, s'.term, s'.term);
  }

  ghost predicate AcceptedShape(g: Hist, boot: Bootstrap, m: AppendCall, s: NodeState, s': NodeState) {
    && m.args.term in g.lead && Reach(m.args) < |g.lead[m.args.term].log|
    && s' == s.(log := Joined(s.log, Offered(g, m.args)), peers := s'.peers,
                commit := if m.args.leaderCommit > s.commit then m.args.leaderCommit else s.commit)
    && ConfigInv(boot, m.dst, s')
  }

  lemma AcceptNodeInv(g: Hist, h: Hist, boot: Bootstrap, m: AppendCall, s: NodeState, s': NodeState)
    requires HistInv(g, boot.Keys) && PlainHist(g, boot) && NodeInv(g, boot, m.dst, s) && AppendCallOk(g, boot, m)
    requires s.term == m.args.term && OfferOk(g, s.term, Offered(g, m.args)) && AcceptedShape(g, boot, m, s, s')
    requires h == RecordAccept(g, s.term, m.dst, Reach(m.args)) && Grows(g, h)
    ensures NodeInv(h, boot, m.dst, s')
  {
    AcceptReplicated(g, h, boot, m, s, s');
    AcceptTookOver(g, h, boot, m, s, s');
    NotTheSender(g, boot, m, s);
    AcceptStanding(g, h, boot, m.dst, s, s', Reach(m.args));
  }

  lemma AcceptTookOver(g: Hist, h: Hist, boot: Bootstrap, m: AppendCall, s: NodeState, s': NodeState)
    requires HistInv(g, boot.Keys) && PlainHist(g, boot) && NodeInv(g, boot, m.dst, s) && AppendCallOk(g, boot, m)
    requires s.term == m.args.term && OfferOk(g, s.term, Offered(g, m.args)) && AcceptedShape(g, boot, m, s, s')
    requires h == RecordAccept(g, s.term, m.dst, Reach(m.args)) && Grows(g, h)
    ensures LogInv(h, boot, s') && CarryInv(h, m.dst, s'.log)
  {
    AcceptedLogInv(g, h, boot, s, s', Offered(g, m.args));
    JoinedLogCarries(g, h, boot, m.dst, s, Offered(g, m.args));
  }

  lemma AcceptMove(g: Hist, boot: Bootstrap, done: set<Ballot>, m: AppendCall, s: NodeState)
    requires Alone(g, boot, done, m.dst, s) && AppendCallOk(g, boot, m)
    requires s.term == m.args.term && Accepts(s.log, m.args.prevIndex, m.args.prevTerm)
    ensures MoveOk(g, RecordAccept(g, s.term, m.dst, Reach(m.args)), boot, done, done, m.dst, s, AcceptEntries(s, m.args))
    ensures AcceptEntries(s, m.args).role != Leader
  {
    var h := RecordAccept(g, s.term, m.dst, Reach(m.args));
    AcceptRecorded(g, boot, s.term, m.dst, Reach(m.args));
    AcceptedState(g, boot, m, s);
    AcceptNodeInv(g, h, boot, m, s, AcceptEntries(s, m.args));
    NotTheSender(g, boot, m, s);
    CountedGrows(g, h, boot, done, done, m.dst, s);
  }

  lemma HeedMove(g: Hist, boot: Bootstrap, done: set<Ballot>, m: AppendCall, s: NodeState)
    requires Alone(g, boot, done, m.dst, s) && s.term <= m.args.term
    ensures MoveOk(g, g, boot, done, done, m.dst, s, Heed(s, m.args))
  {
    if s.term < m.args.term {
      FollowerMove(g, boot, done, done, m.dst, s, m.args.term);
    } else {
      NoMove(g, boot, done, done, m.dst, s);
    }
    HintKept(g, boot, done, m.dst, s, if m.args.term > s.term then BecomeFollower(s, m.args.term) else s, m.args.leader);
  }

  lemma HintKept(g: Hist, boot: Bootstrap, done: set<Ballot>, p: NodeId, s: NodeState, s': NodeState, hint: NodeId)
    requires MoveOk(g, g, boot, done, done, p, s, s')
    ensures MoveOk(g, g, boot, done, done, p, s, s'.(hint := hint))
  {
  }

  lemma TwoMoves(g: Hist, h: Hist, boot: Bootstrap, done: set<Ballot>, p: NodeId, s: NodeState, s1: NodeState, s': NodeState)
    requires MoveOk(g, g, boot, done, done, p, s, s1) && MoveOk(g, h, boot, done, done, p, s1, s')
    requires s'.role != Leader
    ensures MoveOk(g, h, boot, done, done, p, s, s')
  {
  }

  lemma HeedThenAccept(g: Hist, boot: Bootstrap, done: set<Ballot>, m: AppendCall, s: NodeState)
    requires Alone(g, boot, done, m.dst, s) && AppendCallOk(g, boot, m) && s.term <= m.args.term
    requires Accepts(s.log, m.args.prevIndex, m.args.prevTerm)
    ensures MoveOk(g, RecordAccept(g, m.args.term, m.dst, Reach(m.args)), boot, done, done,
                   m.dst, s, AcceptEntries(Heed(s, m.args), m.args))
  {
    var h, s1 := RecordAccept(g, m.args.term, m.dst, Reach(m.args)), Heed(s, m.args);
    HeedMove(g, boot, done, m, s);
    AcceptMove(g, boot, done, m, s1);
    TwoMoves(g, h, boot, done, m.dst, s, s1, AcceptEntries(s1, m.args));
  }

  lemma AcceptanceAnswer(g: Hist, boot: Bootstrap, m: AppendCall)
    requires HistInv(g, boot.Keys) && PlainHist(g, boot) && AppendCallOk(g, boot, m)
    requires GrowsBy(g, RecordAccept(g, m.args.term, m.dst, Reach(m.args)), m.dst)
    ensures AppendAnswerOk(RecordAccept(g, m.args.term, m.dst, Reach(m.args)), boot,
                           AppendAnswer(m, AppendReply(m.args.term, true, 0, 0)))
  {
    AppendCallKept(g, RecordAccept(g, m.args.term, m.dst, Reach(m.args)), boot, m);
  }

  function AfterDelivery(c: ClusterState, m: AppendCall, s': NodeState, h: Hist, reply: AppendReply): ClusterState {
    c.(nodes := c.nodes[m.dst := s'], hist := h, answers := c.answers + {AppendAnswer(m, reply)})
  }

  lemma AppendOutcomes(s: NodeState, a: AppendArgs)
    requires |s.log| > 0
    ensures HandleAppend(s, a) ==
              if a.term < s.term then (s, AppendReply(s.term, false, 0, 0))
              else if !Accepts(s.log, a.prevIndex, a.prevTerm) then
                (Heed(s, a), ConflictReply(s.log, a.term, a.prevIndex))
              else (AcceptEntries(Heed(s, a), a), AppendReply(a.term, true, 0, 0))
  {
    assert a.term >= s.term ==> Heed(s, a).term == a.term && Heed(s, a).log == s.log;
  }

  lemma AppendCases(c: ClusterState, m: AppendCall)
    requires Enabled(c, AppendArrives(m))
    ensures var s := c.nodes[m.dst];
            var s1 := Heed(s, m.args);
            TakeStep(c, AppendArrives(m)) ==
              if m.args.term < s.term then
                AfterDelivery(c, m, s, c.hist, AppendReply(s.term, false, 0, 0))
              else if !Accepts(s.log, m.args.prevIndex, m.args.prevTerm) then
                AfterDelivery(c, m, s1, c.hist, ConflictReply(s.log, m.args.term, m.args.prevIndex))
              else
                AfterDelivery(c, m, AcceptEntries(s1, m.args), RecordAccept(c.hist, m.args.term, m.dst, Reach(m.args)),
                              AppendReply(m.args.term, true, 0, 0))
  {
    AppendOutcomes(c.nodes[m.dst], m.args);
  }

  lemma DeliveryKeepsInv(c: ClusterState, boot: Bootstrap, m: AppendCall, s': NodeState, h: Hist, reply: AppendReply)
    requires Inv(c, boot) && m in c.calls && m.dst in c.nodes
    requires MoveOk(c.hist, h, boot, c.ballotsDone, c.ballotsDone, m.dst, c.nodes[m.dst], s')
    requires AppendAnswerOk(h, boot, AppendAnswer(m, reply))
    ensures Follows(c, AfterDelivery(c, m, s', h, reply), boot)
  {
    QuietStep(c, boot, m.dst, s', h, c.ballotsDone);
    AnswerAdded(c.(nodes := c.nodes[m.dst := s'], hist := h), boot, AppendAnswer(m, reply));
  }

  lemma AnswerAdded(c: ClusterState, boot: Bootstrap, a: AppendAnswer)
    requires Inv(c, boot) && AppendAnswerOk(c.hist, boot, a) && a.call in c.calls
    ensures Inv(c.(answers := c.answers + {a}), boot)
  {
  }

  lemma StaleKeepsInv(c: ClusterState, boot: Bootstrap, m: AppendCall, s: NodeState)
    requires Inv(c, boot) && Enabled(c, AppendArrives(m)) && s == c.nodes[m.dst] && m.args.term < s.term
    ensures Follows(c, AfterDelivery(c, m, s, c.hist, AppendReply(s.term, false, 0, 0)), boot)
  {
    AloneInCluster(c, boot, m.dst);
    assert AppendCallOk(c.hist, boot, m);
    NoMove(c.hist, boot, c.ballotsDone, c.ballotsDone, m.dst, s);
    DeliveryKeepsInv(c, boot, m, s, c.hist, AppendReply(s.term, false, 0, 0));
  }

  lemma RejectionKeepsInv(c: ClusterState, boot: Bootstrap, m: AppendCall, s: NodeState)
    requires Inv(c, boot) && Enabled(c, AppendArrives(m)) && s == c.nodes[m.dst]
    requires s.term <= m.args.term && !Accepts(s.log, m.args.prevIndex, m.args.prevTerm)
    ensures Follows(c, AfterDelivery(c, m, Heed(s, m.args), c.hist, ConflictReply(s.log, m.args.term, m.args.prevIndex)), boot)
  {
    AloneInCluster(c, boot, m.dst);
    assert AppendCallOk(c.hist, boot, m);
    HeedMove(c.hist, boot, c.ballotsDone, m, s);
    RejectionIsOk(c.hist, boot, m, Heed(s, m.args));
    DeliveryKeepsInv(c, boot, m, Heed(s, m.args), c.hist, ConflictReply(s.log, m.args.term, m.args.prevIndex));
  }

  lemma AcceptanceKeepsInv(c: ClusterState, boot: Bootstrap, m: AppendCall, s: NodeState)
    requires Inv(c, boot) && Enabled(c, AppendArrives(m)) && s == c.nodes[m.dst]
    requires s.term <= m.args.term && Accepts(s.log, m.args.prevIndex, m.args.prevTerm)
    ensures Follows(c, AfterDelivery(c, m, AcceptEntries(Heed(s, m.args), m.args),
                              RecordAccept(c.hist, m.args.term, m.dst, Reach(m.args)),
                              AppendReply(m.args.term, true, 0, 0)), boot)
  {
    AloneInCluster(c, boot, m.dst);
    assert AppendCallOk(c.hist, boot, m);
    HeedThenAccept(c.hist, boot, c.ballotsDone, m, s);
    AcceptanceAnswer(c.hist, boot, m);
    DeliveryKeepsInv(c, boot, m, AcceptEntries(Heed(s, m.args), m.args),
                     RecordAccept(c.hist, m.args.term, m.dst, Reach(m.args)), AppendReply(m.args.term, true, 0, 0));
  }

  lemma AppendArrivesKeepsInv(c: ClusterState, boot: Bootstrap, m: AppendCall)
    requires Inv(c, boot) && Enabled(c, AppendArrives(m))
    ensures Follows(c, TakeStep(c, AppendArrives(m)), boot)
  {
    var s := c.nodes[m.dst];
    AppendCases(c, m);
    if m.args.term < s.term {
      StaleKeepsInv(c, boot, m, s);
    } else if !Accepts(s.log, m.args.prevIndex, m.args.prevTerm) {
      RejectionKeepsInv(c, boot, m, s);
    } else {
      AcceptanceKeepsInv(c, boot, m, s);
    }
  }
}

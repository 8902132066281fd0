/** What a leader has sent to a peer while a call from an earlier leadership of its own is still out: nothing. */
module LateCalls {
  import opened RaftTypes
  import opened Membership
  import opened NodeSpec
  import opened LogHistory
  import opened Cluster
  import opened ClusterInv
  import opened ClusterSteps
  import opened ReplicationSteps
  import opened CommitSteps
  import opened Safety
  import opened Progress

  ghost predicate NoCallTo(calls: set<AppendCall>, t: Term, q: NodeId) {
    forall m | m in calls :: !(m.args.term == t && m.dst == q)
  }

  /** In term `t` nothing was sent to `q`, nor did `q` take anything over, nor was its late acknowledgement processed. */
  ghost predicate Untouched(c: ClusterState, t: Term, q: NodeId) {
    NoCallTo(c.calls, t, q) && (t, q) !in c.hist.acc && (t, q) !in c.hist.late
  }

  predicate LeadsSince(c: ClusterState, m: AppendCall) {
    m.src in c.nodes && c.nodes[m.src].role == Leader && c.nodes[m.src].term != m.args.term
  }

  ghost predicate NothingSent(c: ClusterState, m: AppendCall) {
    LeadsSince(c, m) ==> Untouched(c, c.nodes[m.src].term, m.dst)
  }

  ghost predicate LateTermsLed(g: Hist) {
    forall k | k in g.late :: k.0 in g.lead
  }

  ghost predicate CallsInv(c: ClusterState) {
    LateTermsLed(c.hist) && forall k {:trigger NothingSent(c, c.pending[k])} | k in c.pending :: NothingSent(c, c.pending[k])
  }

  // ---- Steps ----------------------------------------------------------------

  /** Calls, takeovers and late acknowledgements that are new are of term `t` and peer `q`. */
  ghost predicate Adds(c: ClusterState, c': ClusterState, t: Term, q: NodeId) {
    && (forall m | m in c'.calls && m !in c.calls :: m.args.term == t && m.dst == q)
    && (forall k | k in c'.hist.acc && k !in c.hist.acc :: k == (t, q))
    && (forall k | k in c'.hist.late && k !in c.hist.late :: k == (t, q))
  }

  /** Whoever leads has led the same term before. */
  predicate NobodyWins(c: ClusterState, c': ClusterState) {
    forall p | p in c'.nodes && c'.nodes[p].role == Leader ::
      p in c.nodes && c.nodes[p].role == Leader && c.nodes[p].term == c'.nodes[p].term
  }

  lemma StaysUntouched(c: ClusterState, c': ClusterState, m: AppendCall, t: Term, q: NodeId)
    requires NothingSent(c, m) && NobodyWins(c, c') && Adds(c, c', t, q)
    requires LeadsSince(c, m) ==> (c.nodes[m.src].term, m.dst) != (t, q)
    ensures NothingSent(c', m)
  {
  }

  lemma VoteKeepsLeader(s: NodeState, a: VoteArgs, inContact: bool)
    requires |s.log| > 0
    ensures var s' := HandleVote(s, a, inContact).0; s'.role == Leader ==> s.role == Leader && s'.term == s.term
  {
    var s1 := HearCandidate(s, a);
    assert s1.role == Leader ==> s1 == s;
  }

  lemma AppendKeepsLeader(s: NodeState, a: AppendArgs)
    requires |s.log| > 0
    ensures var s' := HandleAppend(s, a).0; s'.role == Leader ==> s.role == Leader && s'.term == s.term
  {
    var s1 := Heed(s, a);
    assert s1.role == Leader ==> s.role == Leader && s1.term == s.term;
    if a.term >= s.term && Accepts(s1.log, a.prevIndex, a.prevTerm) { MergeKeepsStanding(s1, a); }
  }

  lemma ReplyKeepsLeader(s: NodeState, q: NodeId, a: AppendArgs, reply: AppendReply)
    requires |s.log| > 0
    ensures var s' := HandleAppendReply(s, q, a, reply).0; s'.role == Leader ==> s.role == Leader && s'.term == s.term
  {
  }

  /** The peer of a pending call is not its sender, and a term has one leader. */
  lemma OneLeader(c: ClusterState, boot: Bootstrap, p: NodeId, q: NodeId)
    requires Inv(c, boot) && p in c.nodes && q in c.nodes && c.nodes[p].role == Leader && c.nodes[q].role == Leader
    requires c.nodes[p].term == c.nodes[q].term
    ensures p == q
  {
    AloneInCluster(c, boot, p);
    AloneInCluster(c, boot, q);
  }

  lemma PendingCall(c: ClusterState, boot: Bootstrap, k: (NodeId, NodeId))
    requires Inv(c, boot) && k in c.pending
    ensures var m := c.pending[k]; m in c.calls && k == (m.src, m.dst) && m.dst != m.src && AppendCallOk(c.hist, boot, m)
    ensures c.pending[k].src in c.nodes && InFlight(c.nodes[c.pending[k].src], c.pending[k].dst)
  {
    assert PendingOk(c.nodes, c.calls, k, c.pending[k]);
    assert AppendCallOk(c.hist, boot, c.pending[k]);
  }

  /** Steps that send nothing, take nothing over and win nothing. */
  ghost predicate Idle(c: ClusterState, c': ClusterState) {
    && NobodyWins(c, c') && c'.calls == c.calls && c'.hist.acc.Keys == c.hist.acc.Keys && c'.hist.late == c.hist.late
    && c.hist.lead.Keys <= c'.hist.lead.Keys
    && forall k | k in c'.pending :: k in c.pending && c'.pending[k] == c.pending[k]
  }

  lemma IdleKeeps(c: ClusterState, c': ClusterState)
    requires CallsInv(c) && Idle(c, c')
    ensures CallsInv(c')
  {
    forall k | k in c'.pending ensures NothingSent(c', c'.pending[k]) {
      assert NothingSent(c, c.pending[k]);
    }
  }

  predicate IsIdle(step: Step) {
    step.ElectionTimeout? || step.VoteArrives? || step.CallEnds? || step.QuorumCheck?
    || step.BatchTaken? || step.EntryApplied? || step.BatchFinished?
  }

  lemma VoteIsIdle(c: ClusterState, m: VoteCall, inContact: bool)
    requires Enabled(c, VoteArrives(m, inContact))
    ensures Idle(c, TakeStep(c, VoteArrives(m, inContact)))
  {
    VoteKeepsLeader(c.nodes[m.dst], m.args, inContact);
  }

  lemma IdleSteps(c: ClusterState, step: Step)
    requires Enabled(c, step) && IsIdle(step)
    ensures Idle(c, TakeStep(c, step))
  {
    if step.VoteArrives? { VoteIsIdle(c, step.voteCall, step.inContact); }
  }

  lemma SubmitKeeps(c: ClusterState, boot: Bootstrap, p: NodeId, cmd: Command)
    requires Inv(c, boot) && CallsInv(c) && Enabled(c, ClientSubmits(p, cmd))
    ensures CallsInv(TakeStep(c, ClientSubmits(p, cmd)))
  {
    var c' := TakeStep(c, ClientSubmits(p, cmd));
    AloneInCluster(c, boot, p);
    assert LeaderOk(c.hist, boot.Keys, c.nodes[p].term);
    IdleKeeps(c, c');
  }

  lemma SendKeeps(c: ClusterState, boot: Bootstrap, p: NodeId, q: NodeId)
    requires Inv(c, boot) && CallsInv(c) && Enabled(c, SendStarts(p, q))
    ensures CallsInv(TakeStep(c, SendStarts(p, q)))
  {
    var c' := TakeStep(c, SendStarts(p, q));
    SendStep(c, p, q);
    var t := c.nodes[p].term;
    assert Adds(c, c', t, q) && NobodyWins(c, c');
    forall k | k in c'.pending ensures NothingSent(c', c'.pending[k]) {
      if k != (p, q) {
        PendingCall(c, boot, k);
        var m := c.pending[k];
        assert NothingSent(c, m);
        if LeadsSince(c, m) && c.nodes[m.src].term == t { OneLeader(c, boot, p, m.src); }
        StaysUntouched(c, c', m, t, q);
      }
    }
  }

  lemma AppendKeeps(c: ClusterState, boot: Bootstrap, m: AppendCall)
    requires Inv(c, boot) && CallsInv(c) && Enabled(c, AppendArrives(m))
    ensures CallsInv(TakeStep(c, AppendArrives(m)))
  {
    var c' := TakeStep(c, AppendArrives(m));
    AppendKeepsLeader(c.nodes[m.dst], m.args);
    assert Adds(c, c', m.args.term, m.dst) && NobodyWins(c, c');
    forall k | k in c'.pending ensures NothingSent(c', c'.pending[k]) {
      assert NothingSent(c, c.pending[k]);
      StaysUntouched(c, c', c.pending[k], m.args.term, m.dst);
    }
  }

  /** What a reply leaves to the other calls that are out. */
  lemma ReplyKeepsOther(c: ClusterState, c': ClusterState, boot: Bootstrap, p: NodeId, q: NodeId, k: (NodeId, NodeId))
    requires Inv(c, boot) && CallsInv(c) && p in c.nodes && k in c.pending && k != (p, q) && NobodyWins(c, c')
    requires if c.nodes[p].role == Leader then Adds(c, c', c.nodes[p].term, q)
             else c'.calls == c.calls && c'.hist.acc == c.hist.acc && c'.hist.late == c.hist.late
    ensures NothingSent(c', c.pending[k])
  {
    PendingCall(c, boot, k);
    var m := c.pending[k];
    assert NothingSent(c, m);
    if c.nodes[p].role == Leader {
      if LeadsSince(c, m) && c.nodes[m.src].term == c.nodes[p].term { OneLeader(c, boot, p, m.src); }
      StaysUntouched(c, c', m, c.nodes[p].term, q);
    }
  }

  lemma ReplyKeeps(c: ClusterState, boot: Bootstrap, a: AppendAnswer)
    requires Inv(c, boot) && CallsInv(c) && Enabled(c, AppendReplyArrives(a))
    ensures CallsInv(TakeStep(c, AppendReplyArrives(a)))
  {
    var c' := TakeStep(c, AppendReplyArrives(a));
    var (p, q, s) := (a.call.src, a.call.dst, c.nodes[a.call.src]);
    AloneInCluster(c, boot, p);
    AnswerCases(c, a);
    ReplyKeepsLeader(s, q, a.call.args, a.reply);
    assert NobodyWins(c, c');
    forall k | k in c'.pending ensures NothingSent(c', c'.pending[k]) { ReplyKeepsOther(c, c', boot, p, q, k); }
  }

  /** A vote reply that makes its candidate the first leader of its term. */
  ghost predicate FirstWin(c: ClusterState, c': ClusterState, p: NodeId) {
    && p in c.nodes && c.nodes[p].term !in c.hist.lead && c'.nodes.Keys == c.nodes.Keys && c'.nodes[p].term == c.nodes[p].term
    && (forall x | x in c.nodes && x != p :: c'.nodes[x] == c.nodes[x])
    && c'.calls == c.calls && c'.pending == c.pending && c'.hist.late == c.hist.late
    && c.hist.lead.Keys <= c'.hist.lead.Keys && c'.hist.acc.Keys == c.hist.acc.Keys + {(c.nodes[p].term, p)}
  }

  lemma WinnersTerm(c: ClusterState, boot: Bootstrap, a: VoteAnswer, s: NodeState)
    requires Inv(c, boot) && Enabled(c, VoteReplyArrives(a)) && s == c.nodes[a.call.src]
    requires IsGrant(s, a) && s.votesReceived + 1 == s.votesNeeded
    ensures s.term !in c.hist.lead
  {
    AloneInCluster(c, boot, a.call.src);
    assert VoteAnswerOk(c.hist, boot, a);
    VoteCounted(c.hist, boot, c.ballotsDone, a.call.src, a.call.dst, s);
    WinnerIsFirst(c.hist, boot, a.call.src, s);
  }

  lemma LosesIdly(c: ClusterState, a: VoteAnswer, s': NodeState)
    requires a.call.src in c.nodes
    requires s'.role == Leader ==> c.nodes[a.call.src].role == Leader && s'.term == c.nodes[a.call.src].term
    ensures Idle(c, AfterReply(c, a, s', c.hist))
  {
  }

  lemma WinsFirst(c: ClusterState, a: VoteAnswer, s1: NodeState)
    requires a.call.src in c.nodes && c.nodes[a.call.src].term !in c.hist.lead && s1.role == Candidate
    requires s1.term == c.nodes[a.call.src].term
    ensures var s := c.nodes[a.call.src];
            FirstWin(c, AfterReply(c, a, BecomeLeader(s1), RecordWin(c.hist, s.term, a.call.src, s.log, BecomeLeader(s1).log)), a.call.src)
  {
  }

  lemma GrantWinsOrIdles(c: ClusterState, boot: Bootstrap, a: VoteAnswer)
    requires Inv(c, boot) && Enabled(c, VoteReplyArrives(a))
    requires IsGrant(c.nodes[a.call.src], a) && a.reply.term <= c.nodes[a.call.src].term
    ensures var c' := TakeStep(c, VoteReplyArrives(a)); Idle(c, c') || FirstWin(c, c', a.call.src)
  {
    var s := c.nodes[a.call.src];
    var s1 := s.(votesReceived := s.votesReceived + 1);
    AloneInCluster(c, boot, a.call.src);
    VoteReplyCases(c, a);
    if s1.votesReceived == s1.votesNeeded {
      WinnersTerm(c, boot, a, s);
      WinsFirst(c, a, s1);
    } else {
      LosesIdly(c, a, s1);
    }
  }

  lemma WinIsFirst(c: ClusterState, boot: Bootstrap, a: VoteAnswer)
    requires Inv(c, boot) && Enabled(c, VoteReplyArrives(a))
    ensures var c' := TakeStep(c, VoteReplyArrives(a)); Idle(c, c') || FirstWin(c, c', a.call.src)
  {
    var s := c.nodes[a.call.src];
    if IsGrant(s, a) && a.reply.term <= s.term {
      GrantWinsOrIdles(c, boot, a);
    } else {
      AloneInCluster(c, boot, a.call.src);
      VoteReplyCases(c, a);
      LosesIdly(c, a, s);
      LosesIdly(c, a, BecomeFollower(s, a.reply.term));
    }
  }

  lemma NewLeaderUntouched(c: ClusterState, boot: Bootstrap, t: Term, q: NodeId)
    requires Inv(c, boot) && LateTermsLed(c.hist) && t !in c.hist.lead
    ensures Untouched(c, t, q)
  {
    forall m | m in c.calls ensures m.args.term != t { assert AppendCallOk(c.hist, boot, m); }
    assert AccOk(c.hist, boot.Keys, t, q);
  }

  lemma FirstWinKeeps(c: ClusterState, c': ClusterState, boot: Bootstrap, p: NodeId)
    requires Inv(c, boot) && CallsInv(c) && FirstWin(c, c', p)
    ensures CallsInv(c')
  {
    forall k | k in c'.pending ensures NothingSent(c', c'.pending[k]) {
      PendingCall(c, boot, k);
      var m := c.pending[k];
      assert NothingSent(c, m);
      if LeadsSince(c', m) {
        if m.src == p {
          NewLeaderUntouched(c, boot, c.nodes[p].term, m.dst);
        } else {
          AloneInCluster(c, boot, m.src);
        }
      }
    }
  }

  lemma VoteReplyKeeps(c: ClusterState, boot: Bootstrap, a: VoteAnswer)
    requires Inv(c, boot) && CallsInv(c) && Enabled(c, VoteReplyArrives(a))
    ensures CallsInv(TakeStep(c, VoteReplyArrives(a)))
  {
    var c' := TakeStep(c, VoteReplyArrives(a));
    WinIsFirst(c, boot, a);
    if Idle(c, c') { IdleKeeps(c, c'); } else { FirstWinKeeps(c, c', boot, a.call.src); }
  }

  lemma StepKeepsCalls(c: ClusterState, boot: Bootstrap, step: Step)
    requires Inv(c, boot) && CallsInv(c) && Enabled(c, step)
    ensures CallsInv(TakeStep(c, step))
  {
    match step
    case VoteReplyArrives(a) => VoteReplyKeeps(c, boot, a);
    case ClientSubmits(p, cmd) => SubmitKeeps(c, boot, p, cmd);
    case SendStarts(p, q) => SendKeeps(c, boot, p, q);
    case AppendArrives(m) => AppendKeeps(c, boot, m);
    case AppendReplyArrives(a) => ReplyKeeps(c, boot, a);
    case _ =>
      IdleSteps(c, step);
      IdleKeeps(c, TakeStep(c, step));
  }

  lemma NextKeepsCalls(c: ClusterState, boot: Bootstrap, c': ClusterState)
    requires Inv(c, boot) && CallsInv(c) && Next(c, c')
    ensures CallsInv(c')
  {
    var step :| Enabled(c, step) && c' == TakeStep(c, step);
    StepKeepsCalls(c, boot, step);
  }

  lemma {:induction false} CallsInRun(r: seq<ClusterState>, boot: Bootstrap, i: nat)
    requires Run(r, boot) && i < |r|
    ensures CallsInv(r[i])
  {
    if i > 0 {
      CallsInRun(r, boot, i - 1);
      RunHasInv(r, boot, i - 1);
      assert StepAt(r, i - 1);
      NextKeepsCalls(r[i - 1], boot, r[i]);
    }
  }

  // ---- Entries of a node's own term -----------------------------------------

  /** A node with an entry of the term it is in has taken it over from the leader of that term. */
  ghost predicate TookOwn(g: Hist, q: NodeId, s: NodeState) {
    |s.log| > 0 && (s.term > 0 && LastTerm(s.log) == s.term ==> (s.term, q) in g.acc)
  }

  ghost predicate AllTookOwn(c: ClusterState) {
    forall q {:trigger TookOwn(c.hist, q, c.nodes[q])} | q in c.nodes :: TookOwn(c.hist, q, c.nodes[q])
  }

  lemma SameLogTookOwn(c: ClusterState, c': ClusterState, boot: Bootstrap, q: NodeId)
    requires Inv(c, boot) && q in c.nodes && q in c'.nodes && TookOwn(c.hist, q, c.nodes[q])
    requires c'.nodes[q].log == c.nodes[q].log && c.nodes[q].term <= c'.nodes[q].term && Grows(c.hist, c'.hist)
    ensures TookOwn(c'.hist, q, c'.nodes[q])
  {
    AloneInCluster(c, boot, q);
  }

  ghost predicate LogsStay(c: ClusterState, step: Step)
    requires Possible(c, step)
  {
    var c' := TakeStep(c, step);
    forall q | q in c.nodes :: q in c'.nodes && c'.nodes[q].log == c.nodes[q].log
  }

  lemma VoteKeepsLog(s: NodeState, a: VoteArgs, inContact: bool)
    requires |s.log| > 0
    ensures HandleVote(s, a, inContact).0.log == s.log
  {
    var s1 := HearCandidate(s, a);
    assert s1.log == s.log;
  }

  lemma ReplyKeepsLog(s: NodeState, q: NodeId, a: AppendArgs, reply: AppendReply)
    requires |s.log| > 0
    ensures HandleAppendReply(s, q, a, reply).0.log == s.log
  {
  }

  lemma VotesKeepLogs(c: ClusterState, m: VoteCall, inContact: bool)
    requires Enabled(c, VoteArrives(m, inContact))
    ensures LogsStay(c, VoteArrives(m, inContact))
  {
    VoteKeepsLog(c.nodes[m.dst], m.args, inContact);
  }

  lemma RepliesKeepLogs(c: ClusterState, a: AppendAnswer)
    requires Enabled(c, AppendReplyArrives(a))
    ensures LogsStay(c, AppendReplyArrives(a))
  {
    ReplyKeepsLog(c.nodes[a.call.src], a.call.dst, a.call.args, a.reply);
  }

  lemma OthersKeepLogs(c: ClusterState, step: Step)
    requires Enabled(c, step) && !step.AppendArrives? && !step.VoteReplyArrives? && !step.ClientSubmits?
    requires !step.VoteArrives? && !step.AppendReplyArrives?
    ensures LogsStay(c, step)
  {
    match step
    case ElectionTimeout(p) => assert StartElection(c.nodes[p]).log == c.nodes[p].log;
    case QuorumCheck(p, live) => assert StepDown(c.nodes[p], live).log == c.nodes[p].log;
    case _ => QuietKeepsLogs(c, step);
  }

  lemma QuietKeepsLogs(c: ClusterState, step: Step)
    requires Enabled(c, step)
    requires step.SendStarts? || step.CallEnds? || step.BatchTaken? || step.EntryApplied? || step.BatchFinished?
    ensures LogsStay(c, step)
  {
  }

  /** After the request the peer has taken it over, or has the log it had. */
  lemma AppendTakesOwn(c: ClusterState, m: AppendCall)
    requires Enabled(c, AppendArrives(m))
    ensures var (c', s) := (TakeStep(c, AppendArrives(m)), c.nodes[m.dst]);
            && m.dst in c'.nodes && (forall q | q in c.nodes && q != m.dst :: q in c'.nodes && c'.nodes[q] == c.nodes[q])
            && (c'.nodes[m.dst].log == s.log || (c'.nodes[m.dst].term == m.args.term && (m.args.term, m.dst) in c'.hist.acc))
  {
    var s := c.nodes[m.dst];
    AppendOutcomes(s, m.args);
    if m.args.term >= s.term && Accepts(s.log, m.args.prevIndex, m.args.prevTerm) {
      MergeKeepsStanding(Heed(s, m.args), m.args);
    }
  }

  lemma WinnerTookOwn(c: ClusterState, boot: Bootstrap, a: VoteAnswer, q: NodeId)
    requires Inv(c, boot) && Enabled(c, VoteReplyArrives(a)) && q in c.nodes
    ensures var c' := TakeStep(c, VoteReplyArrives(a));
            && q in c'.nodes
            && (c'.nodes[q].log == c.nodes[q].log || (c'.nodes[q].term, q) in c'.hist.acc)
  {
    AloneInCluster(c, boot, a.call.src);
    VoteReplyCases(c, a);
  }

  lemma StepTakesOwn(c: ClusterState, boot: Bootstrap, step: Step, q: NodeId)
    requires Inv(c, boot) && Enabled(c, step) && q in c.nodes
    ensures var c' := TakeStep(c, step);
            && q in c'.nodes
            && (c'.nodes[q].log == c.nodes[q].log || (c'.nodes[q].term, q) in c'.hist.acc)
  {
    match step
    case VoteArrives(m, inContact) => VotesKeepLogs(c, m, inContact);
    case VoteReplyArrives(a) => WinnerTookOwn(c, boot, a, q);
    case AppendArrives(m) => AppendTakesOwn(c, m);
    case AppendReplyArrives(a) => RepliesKeepLogs(c, a);
    case ClientSubmits(p, cmd) => SubmitTakesOwn(c, boot, p, cmd, q);
    case _ => OthersKeepLogs(c, step);
  }

  lemma SubmitTakesOwn(c: ClusterState, boot: Bootstrap, p: NodeId, cmd: Command, q: NodeId)
    requires Inv(c, boot) && Enabled(c, ClientSubmits(p, cmd)) && q in c.nodes
    ensures var c' := TakeStep(c, ClientSubmits(p, cmd));
            && q in c'.nodes
            && (c'.nodes[q].log == c.nodes[q].log || (c'.nodes[q].term, q) in c'.hist.acc)
  {
    AloneInCluster(c, boot, p);
  }

  lemma StepKeepsTookOwn(c: ClusterState, boot: Bootstrap, step: Step, q: NodeId)
    requires Inv(c, boot) && Enabled(c, step) && q in c.nodes && TookOwn(c.hist, q, c.nodes[q])
    ensures var c' := TakeStep(c, step); q in c'.nodes && TookOwn(c'.hist, q, c'.nodes[q])
  {
    var c' := TakeStep(c, step);
    StepsKeepInv(c, boot, step);
    StepOnward(c, boot, step, q);
    StepTakesOwn(c, boot, step, q);
    if c'.nodes[q].log == c.nodes[q].log {
      SameLogTookOwn(c, c', boot, q);
    } else {
      AloneInCluster(c', boot, q);
    }
  }

  lemma NextKeepsTookOwn(c: ClusterState, boot: Bootstrap, c': ClusterState, q: NodeId)
    requires Inv(c, boot) && Next(c, c') && q in c.nodes && TookOwn(c.hist, q, c.nodes[q])
    ensures q in c'.nodes && TookOwn(c'.hist, q, c'.nodes[q])
  {
    var step :| Enabled(c, step) && c' == TakeStep(c, step);
    StepKeepsTookOwn(c, boot, step, q);
  }

  lemma {:induction false} TookOwnInRun(r: seq<ClusterState>, boot: Bootstrap, i: nat, q: NodeId)
    requires Run(r, boot) && i < |r| && q in r[i].nodes
    ensures TookOwn(r[i].hist, q, r[i].nodes[q])
  {
    if i == 0 {
      assert Unused(boot, q, r[0].nodes[q]);
    } else {
      SameNodes(r, boot, i - 1, q);
      TookOwnInRun(r, boot, i - 1, q);
      NextKeepsTookOwn(r[i - 1], boot, r[i], q);
    }
  }

  // ---- What the assumption on timing excludes -------------------------------

  lemma EntryOfTerm(g: Hist, boot: Bootstrap, q: NodeId, f: NodeState, n: LogIndex, t: Term)
    requires HistInv(g, boot.Keys) && NodeInv(g, boot, q, f) && TookOwn(g, q, f)
    requires n < |f.log| && f.log[n].term == t && f.term <= t && t > 0
    ensures (t, q) in g.acc
  {
    TermsAscend(g, boot.Keys, f.log, n, |f.log| - 1);
  }

  /** A late acknowledgement that the assumption on timing excludes is never about what the peer has, as
      long as the peer is in no later term: while the old call is out, nothing of this leadership has been
      sent to the peer, and it has none of the leader's own entries. */
  lemma ExcludedAckNeverSound(r: seq<ClusterState>, boot: Bootstrap, i: nat, a: AppendAnswer)
    requires Run(r, boot) && i < |r| && Possible(r[i], AppendReplyArrives(a)) && a.call.dst in r[i].nodes
    requires r[i].nodes[a.call.dst].term <= r[i].nodes[a.call.src].term
    requires !InTime(r[i].nodes[a.call.src], a)
    ensures !AgreeTo(r[i].nodes[a.call.src].log, r[i].nodes[a.call.dst].log, Reach(a.call.args))
  {
    var c, p, q, n := r[i], a.call.src, a.call.dst, Reach(a.call.args);
    var s, f := c.nodes[p], c.nodes[q];
    RunHasInv(r, boot, i);
    CallsInRun(r, boot, i);
    TookOwnInRun(r, boot, i, q);
    AloneInCluster(c, boot, p);
    AloneInCluster(c, boot, q);
    LeaderOwns(c.hist, boot, p, s, 0);
    assert LeaderOk(c.hist, boot.Keys, s.term);
    assert NothingSent(c, c.pending[(p, q)]);
    if AgreeTo(s.log, f.log, n) {
      assert f.log[n] == f.log[..n + 1][n] == s.log[n];
      EntryOfTerm(c.hist, boot, q, f, n, s.term);
    }
  }
}

/** A cluster that has just been started, and what its nodes can be made to do from there. */
module Launch {
  import opened RaftTypes
  import opened Quorums
  import opened Maps
  import opened Membership
  import opened NodeSpec
  import opened LogHistory
  import opened Cluster
  import opened ClusterInv
  import opened CommitSteps
  import opened Safety
  import opened Availability

  // ---- A cluster whose nodes can all reach one another ----------------------

  /** The invariants hold, every node has a client for every other, and no late rejection has come in. */
  ghost predicate Alive(c: ClusterState, boot: Bootstrap) {
    Inv(c, boot) && BallotsPast(c) && Connected(c, boot.Keys) && c.hist.over == {}
  }

  predicate HasClient(s: NodeState, q: NodeId) {
    q in s.peers && s.peers[q].client.Some?
  }

  lemma RebuildKeepsClient(boot: Bootstrap, s: NodeState, q: NodeId)
    requires s.bootstrap == boot && s.addrs == boot && s.peers.Keys == boot.Keys - {s.id} && PlainLog(boot, s.log)
    requires HasClient(s, q)
    ensures HasClient(Rebuild(s), q)
  {
    PlainLogKeepsBootstrap(boot, s.log);
    var m := BootMembers(boot);
    assert Rebuild(s).peers == RebuiltPeers(s, m);
    assert RebuiltPeers(s, m)[q] == RebuiltPeer(s, q, m[q]);
  }

  lemma MergeKeepsClient(boot: Bootstrap, p: NodeId, s: NodeState, a: AppendArgs, q: NodeId)
    requires ConfigInv(boot, p, s) && a.prevIndex < |s.log| && PlainLog(boot, MergeEntries(s.log, a.prevIndex, a.entries))
    requires HasClient(s, q)
    ensures HasClient(Merged(s, a), q)
  {
    if NeedsRebuild(s.log, a.prevIndex, a.entries) {
      RebuildKeepsClient(boot, s.(log := MergeEntries(s.log, a.prevIndex, a.entries)), q);
    }
  }

  lemma AppendKeepsClient(boot: Bootstrap, p: NodeId, s: NodeState, a: AppendArgs, q: NodeId)
    requires ConfigInv(boot, p, s) && |s.log| > 0 && PlainLog(boot, HandleAppend(s, a).0.log)
    requires HasClient(s, q)
    ensures HasClient(HandleAppend(s, a).0, q)
  {
    var s1 := Heed(s, a);
    if a.term >= s.term && Accepts(s1.log, a.prevIndex, a.prevTerm) {
      MergeKeepsStanding(s1, a);
      MergeKeepsClient(boot, p, s1, a, q);
    }
  }

  /** The node that takes the step has the peers it had. */
  ghost predicate PeersStay(c: ClusterState, step: Step)
    requires Possible(c, step)
  {
    var (p, c') := (Actor(step), TakeStep(c, step));
    p in c'.nodes && c'.nodes == c.nodes[p := c'.nodes[p]] && c'.nodes[p].peers == c.nodes[p].peers
  }

  lemma VoteReplyKeepsPeers(s: NodeState, t: Term, reply: VoteReply)
    ensures HandleVoteReply(s, t, reply).peers == s.peers
  {
  }

  lemma VoteRepliesKeepPeers(c: ClusterState, a: VoteAnswer)
    requires Enabled(c, VoteReplyArrives(a))
    ensures PeersStay(c, VoteReplyArrives(a))
  {
    VoteReplyKeepsPeers(c.nodes[a.call.src], a.call.args.term, a.reply);
  }

  lemma AppendRepliesKeepPeers(c: ClusterState, a: AppendAnswer)
    requires Enabled(c, AppendReplyArrives(a))
    ensures PeersStay(c, AppendReplyArrives(a))
  {
  }

  lemma VoteKeepsPeers(s: NodeState, a: VoteArgs, inContact: bool)
    requires |s.log| > 0
    ensures HandleVote(s, a, inContact).0.peers == s.peers
  {
    var s1 := HearCandidate(s, a);
    assert s1.peers == s.peers && s1.(votedFor := a.candidate).peers == s.peers;
  }

  lemma VotesKeepPeers(c: ClusterState, m: VoteCall, inContact: bool)
    requires Enabled(c, VoteArrives(m, inContact))
    ensures PeersStay(c, VoteArrives(m, inContact))
  {
    VoteKeepsPeers(c.nodes[m.dst], m.args, inContact);
  }

  lemma OthersKeepPeers(c: ClusterState, step: Step)
    requires Enabled(c, step) && !step.AppendArrives? && !step.VoteReplyArrives? && !step.AppendReplyArrives?
    requires !step.VoteArrives?
    ensures PeersStay(c, step)
  {
    match step
    case ElectionTimeout(p) => assert StartElection(c.nodes[p]).peers == c.nodes[p].peers;
    case QuorumCheck(p, live) => assert StepDown(c.nodes[p], live).peers == c.nodes[p].peers;
    case _ => ApplierKeepsPeers(c, step);
  }

  lemma ApplierKeepsPeers(c: ClusterState, step: Step)
    requires Enabled(c, step)
    requires step.ClientSubmits? || step.SendStarts? || step.CallEnds? || step.BatchTaken? || step.EntryApplied? || step.BatchFinished?
    ensures PeersStay(c, step)
  {
  }

  /** Only an append request can make a node rebuild its peers. */
  lemma OnlyAppendsMovePeers(c: ClusterState, step: Step)
    requires Enabled(c, step) && !step.AppendArrives?
    ensures PeersStay(c, step)
  {
    match step
    case VoteReplyArrives(a) => VoteRepliesKeepPeers(c, a);
    case AppendReplyArrives(a) => AppendRepliesKeepPeers(c, a);
    case VoteArrives(m, inContact) => VotesKeepPeers(c, m, inContact);
    case _ => OthersKeepPeers(c, step);
  }

  lemma StepKeepsClient(c: ClusterState, boot: Bootstrap, step: Step, p: NodeId, q: NodeId)
    requires Inv(c, boot) && Enabled(c, step) && p in c.nodes && HasClient(c.nodes[p], q)
    requires Inv(TakeStep(c, step), boot)
    ensures p in TakeStep(c, step).nodes && HasClient(TakeStep(c, step).nodes[p], q)
  {
    if step.AppendArrives? {
      var s, s' := c.nodes[step.call.dst], TakeStep(c, step).nodes[step.call.dst];
      assert TakeStep(c, step).nodes == c.nodes[step.call.dst := s'] && s' == HandleAppend(s, step.call.args).0;
      AloneInCluster(c, boot, step.call.dst);
      AloneInCluster(TakeStep(c, step), boot, step.call.dst);
      if p == step.call.dst { AppendKeepsClient(boot, p, s, step.call.args, q); }
    } else {
      OnlyAppendsMovePeers(c, step);
    }
  }

  lemma StepKeepsAlive(c: ClusterState, boot: Bootstrap, step: Step)
    requires Alive(c, boot) && Enabled(c, step) && TakeStep(c, step).hist.over == {}
    ensures Alive(TakeStep(c, step), boot)
  {
    var c' := TakeStep(c, step);
    StepsKeepInv(c, boot, step);
    BallotsStayPast(c, boot, step);
    forall p, q | p in boot.Keys && q in boot.Keys && p != q
      ensures p in c'.nodes && q in c'.nodes[p].peers && c'.nodes[p].peers[q].client.Some?
    {
      StepKeepsClient(c, boot, step, p, q);
    }
  }

  lemma CalmKeepsAlive(c: ClusterState, boot: Bootstrap, c': ClusterState)
    requires Alive(c, boot) && CalmNext(c, c')
    ensures Alive(c', boot)
  {
    var step :| Enabled(c, step) && !HandsLateReply(c, step) && c' == TakeStep(c, step);
    LateChanges(c, step);
    StepKeepsAlive(c, boot, step);
  }

  lemma {:induction false} AliveAlong(r: seq<ClusterState>, boot: Bootstrap, c: ClusterState, c': ClusterState, i: nat)
    requires Alive(c, boot) && Path(r, c, c') && i < |r|
    ensures Alive(r[i], boot)
    decreases i
  {
    if i > 0 {
      AliveAlong(r, boot, c, c', i - 1);
      assert CalmAt(r, i - 1);
      CalmKeepsAlive(r[i - 1], boot, r[i]);
    }
  }

  lemma LivesOn(c: ClusterState, boot: Bootstrap, c': ClusterState)
    requires Alive(c, boot) && LeadsTo(c, c')
    ensures Alive(c', boot)
  {
    var r :| Path(r, c, c');
    AliveAlong(r, boot, c, c', |r| - 1);
  }

  /** Nodes that are below this term and have heard of no leader. */
  ghost predicate Blank(c: ClusterState, ps: set<NodeId>, t: Term) {
    forall x | x in ps :: x in c.nodes && c.nodes[x].log == [SENTINEL] && c.nodes[x].term < t
  }

  /** The cluster that `boot` describes can be started. */
  ghost predicate Startable(boot: Bootstrap) {
    NO_NODE !in boot && forall p | p in boot :: boot[p] != ""
  }

  /** A node that has just been started, with a client for every other. */
  ghost predicate Fresh(boot: Bootstrap, p: NodeId, s: NodeState) {
    && s == NewNode(p, boot, true) && s.log == [SENTINEL] && s.term == 0 && s.hasFactory
    && s.peers.Keys == boot.Keys - {p} && forall q | q in s.peers :: s.peers[q].client.Some?
  }

  lemma FreshNode(boot: Bootstrap, p: NodeId)
    requires Startable(boot) && p in boot
    ensures Fresh(boot, p, NewNode(p, boot, true))
  {
    PlainLogKeepsBootstrap(boot, [SENTINEL]);
  }

  lemma Start(boot: Bootstrap) returns (c: ClusterState)
    requires Startable(boot)
    ensures Init(c, boot) && Alive(c, boot) && Blank(c, boot.Keys, 1)
  {
    MapExists(boot.Keys, p => NewNode(p, boot, true));
    var nodes: map<NodeId, NodeState> :| nodes.Keys == boot.Keys && forall p | p in boot.Keys :: nodes[p] == NewNode(p, boot, true);
    c := Started(boot, nodes);
  }

  lemma Started(boot: Bootstrap, nodes: map<NodeId, NodeState>) returns (c: ClusterState)
    requires Startable(boot) && nodes.Keys == boot.Keys && forall p | p in boot.Keys :: nodes[p] == NewNode(p, boot, true)
    ensures Init(c, boot) && Alive(c, boot) && Blank(c, boot.Keys, 1)
  {
    c := ClusterState(nodes, {}, {}, {}, 0, {}, {}, map[], EMPTY_HIST);
    forall p | p in boot ensures Fresh(boot, p, c.nodes[p]) { FreshNode(boot, p); }
    forall p | p in c.nodes ensures Unused(boot, p, c.nodes[p]) { assert Fresh(boot, p, c.nodes[p]); }
    InitHasInv(c, boot);
    FreshConnected(c, boot);
  }

  lemma FreshConnected(c: ClusterState, boot: Bootstrap)
    requires c.nodes.Keys == boot.Keys && forall p {:trigger Fresh(boot, p, c.nodes[p])} | p in boot :: Fresh(boot, p, c.nodes[p])
    ensures Connected(c, boot.Keys) && Blank(c, boot.Keys, 1)
  {
    forall p, q | p in boot.Keys && q in boot.Keys && p != q
      ensures p in c.nodes && q in c.nodes[p].peers && c.nodes[p].peers[q].client.Some?
    {
      assert Fresh(boot, p, c.nodes[p]);
    }
    forall p | p in boot.Keys ensures c.nodes[p].log == [SENTINEL] && c.nodes[p].term == 0 { assert Fresh(boot, p, c.nodes[p]); }
  }

  lemma RunTo(boot: Bootstrap, c: ClusterState, c': ClusterState) returns (r: seq<ClusterState>)
    requires Init(c, boot) && LeadsTo(c, c')
    ensures Run(r, boot) && r[|r| - 1] == c'
  {
    r := RunGoesOn([c], boot, c');
  }

  // ---- Moves ----------------------------------------------------------------

  /** A node that has just won, with this log. */
  ghost predicate Leads(s: NodeState, t: Term, log: Log) {
    s.role == Leader && s.term == t && s.log == log && |log| > 0
    && (forall q :: MatchOf(s, q) == 0) && (forall q | q in s.nextIndex :: s.nextIndex[q] == |log| - 1)
  }

  /** The log after a win. */
  ghost function WonLog(boot: Bootstrap, log: Log, t: Term): Log {
    log + LeaderPreamble(boot, log, t)
  }

  lemma WinnerLeads(boot: Bootstrap, p: NodeId, s: NodeState, t: Term)
    requires ConfigInv(boot, p, s)
    ensures Leads(Winner(Stood(s, t)), t, WonLog(boot, s.log, t))
  {
  }

  /** A node that would vote for `w` in term `t`. */
  ghost predicate Under(c: ClusterState, x: NodeId, w: NodeId, t: Term) {
    && x in c.nodes && w in c.nodes && c.nodes[x].term < t && |c.nodes[x].log| > 0 && |c.nodes[w].log| > 0
    && UpToDate(LastIndex(c.nodes[w].log), LastTerm(c.nodes[w].log), c.nodes[x].log)
  }

  /** The node is elected by these: exactly what becomes of it. */
  lemma ElectOver(c: ClusterState, boot: Bootstrap, w: NodeId, vs: set<NodeId>, t: Term) returns (c': ClusterState)
    requires Alive(c, boot) && |boot| >= 2 && IsQuorum(boot.Keys, vs + {w}) && w !in vs
    requires w in c.nodes && c.nodes[w].term < t && forall x | x in vs :: Under(c, x, w, t)
    ensures Alive(c', boot) && LeadsTo(c, c') && OnlyMove(c, c', vs + {w}) && NoCalls(c, c')
    ensures c'.nodes[w] == Winner(Stood(c.nodes[w], t)) && Leads(c'.nodes[w], t, WonLog(boot, c.nodes[w].log, t))
    ensures forall x | x in vs :: x in c'.nodes && c'.nodes[x].log == c.nodes[x].log && c'.nodes[x].term <= t
    ensures |c.nodes[w].log| > 0
    ensures var s := Stood(c.nodes[w], t); forall q | q in VoteRecipients(s) :: VoteCall(w, q, VoteRequest(s)) in c'.voteCalls
  {
    StandingOf(c, boot, w);
    var qs := vs + {w};
    assert Connected(c, qs);
    forall x | x in qs ensures c.nodes[x].term < t && |c.nodes[x].log| > 0
        && UpToDate(LastIndex(c.nodes[w].log), LastTerm(c.nodes[w].log), c.nodes[x].log) {
      assert x != w ==> Under(c, x, w, t);
    }
    c' := ElectNode(c, boot, qs, w, t);
    WinnerLeads(boot, w, c.nodes[w], t);
    LivesOn(c, boot, c');
    forall x | x in vs ensures x in c'.nodes && c'.nodes[x].log == c.nodes[x].log && c'.nodes[x].term <= t {
      assert x in qs - {w};
    }
  }

  lemma Wins(c: ClusterState, boot: Bootstrap, w: NodeId, vs: set<NodeId>, t: Term) returns (c': ClusterState)
    requires Alive(c, boot) && |boot| >= 2 && IsQuorum(boot.Keys, vs + {w}) && w !in vs
    requires w in c.nodes && c.nodes[w].term < t && forall x | x in vs :: Under(c, x, w, t)
    ensures Alive(c', boot) && LeadsTo(c, c') && OnlyMove(c, c', vs + {w}) && NoCalls(c, c')
    ensures w in c'.nodes && Leads(c'.nodes[w], t, WonLog(boot, c.nodes[w].log, t))
    ensures forall x | x in vs :: x in c'.nodes && c'.nodes[x].log == c.nodes[x].log && c'.nodes[x].term <= t
  {
    c' := ElectOver(c, boot, w, vs, t);
  }

  /** The node is elected by nodes that have heard of no leader. */
  lemma Elect(c: ClusterState, boot: Bootstrap, p: NodeId, rest: set<NodeId>, t: Term) returns (c': ClusterState)
    requires Alive(c, boot) && |boot| >= 2 && IsQuorum(boot.Keys, rest + {p}) && p !in rest
    requires Blank(c, rest, t) && p in c.nodes && c.nodes[p].term < t
    ensures Alive(c', boot) && LeadsTo(c, c') && OnlyMove(c, c', rest + {p}) && NoCalls(c, c')
    ensures c'.nodes[p] == Winner(Stood(c.nodes[p], t)) && Leads(c'.nodes[p], t, WonLog(boot, c.nodes[p].log, t))
    ensures Blank(c', rest, t + 1)
    ensures |c.nodes[p].log| > 0
    ensures var s := Stood(c.nodes[p], t); forall q | q in VoteRecipients(s) :: VoteCall(p, q, VoteRequest(s)) in c'.voteCalls
  {
    StandingOf(c, boot, p);
    c' := ElectOver(c, boot, p, rest, t);
  }

  lemma IndexInBounds(c: ClusterState, boot: Bootstrap, p: NodeId, q: NodeId)
    requires Alive(c, boot) && p in c.nodes && q in c.nodes && p != q && c.nodes[p].role == Leader
    ensures InBounds(c.nodes[p], q)
  {
    AloneInCluster(c, boot, p);
    assert PeerInv(c.hist, c.nodes[p], q);
  }

  /** A peer is brought up to date. */
  lemma BringUp(c: ClusterState, boot: Bootstrap, p: NodeId, q: NodeId) returns (c': ClusterState)
    requires Alive(c, boot) && p in c.nodes && q in c.nodes && p != q
    requires c.nodes[p].role == Leader && c.nodes[q].term <= c.nodes[p].term
    ensures Alive(c', boot) && LeadsTo(c, c') && OnlyMove(c, c', {p, q}) && OnlyCall(c, c', p, q)
    ensures |c.nodes[p].log| > 0 && LeadsOn(c.nodes[p], c'.nodes[p], q) && UpToDatePeer(c'.nodes[p], q)
    ensures c'.nodes[q].term == c'.nodes[p].term && c'.nodes[q].log == c.nodes[p].log
  {
    IndexInBounds(c, boot, p, q);
    ReadyToCatchUp(c, boot, p, q);
    c' := CatchUp(c, boot, p, q);
    LivesOn(c, boot, c');
    CaughtUpLog(c', boot, p, q);
  }

  /** A command is given to a leader. */
  lemma Give(c: ClusterState, boot: Bootstrap, p: NodeId, cmd: Command) returns (c': ClusterState)
    requires Alive(c, boot) && p in c.nodes && c.nodes[p].role == Leader
    ensures Alive(c', boot) && LeadsTo(c, c') && NoCalls(c, c')
    ensures c'.nodes == c.nodes[p := Submit(c.nodes[p], cmd)]
  {
    StandingOf(c, boot, p);
    c' := Take(c, boot, ClientSubmits(p, cmd));
    LivesOn(c, boot, c');
  }

  /** A node hears of an election in a later term. */
  lemma Hear(c: ClusterState, boot: Bootstrap, m: VoteCall) returns (c': ClusterState)
    requires Alive(c, boot) && m in c.voteCalls && m.dst in c.nodes && c.nodes[m.dst].term < m.args.term
    ensures Alive(c', boot) && LeadsTo(c, c') && NoCalls(c, c') && OnlyMove(c, c', {m.dst})
    ensures c'.nodes[m.dst].term == m.args.term && c'.nodes[m.dst].log == c.nodes[m.dst].log
  {
    StandingOf(c, boot, m.dst);
    c' := Take(c, boot, VoteArrives(m, false));
    LivesOn(c, boot, c');
  }

  /** The answer to the node's call to the peer has come back, and the call still waits for it. */
  ghost predicate Waits(c: ClusterState, p: NodeId, q: NodeId, a: AppendAnswer) {
    && a.call.src == p && a.call.dst == q && a in c.answers
    && (p, q) in c.pending && c.pending[(p, q)] == a.call
  }

  /** The leader sends to the peer, which answers. */
  lemma Ask(c: ClusterState, boot: Bootstrap, p: NodeId, q: NodeId) returns (c': ClusterState, a: AppendAnswer)
    requires Alive(c, boot) && Ready(c, p, q)
    ensures |c.nodes[q].log| > 0
    ensures Alive(c', boot) && LeadsTo(c, c') && OnlyMove(c, c', {p, q}) && Waits(c', p, q, a)
    ensures a.call.args == AppendRequest(c.nodes[p], q)
    ensures (c'.nodes[q], a.reply) == HandleAppend(c.nodes[q], a.call.args) && OnlyCall(c, c', p, q)
    ensures c'.nodes[p] == c.nodes[p].(inFlight := c'.nodes[p].inFlight)
  {
    PeerLogs(c, boot, p, q);
    StandingOf(c, boot, q);
    var c1 := FreeCall(c, boot, p, q);
    var c2, call := SendTo(c1, boot, p, q);
    c', a := Deliver(c2, boot, call);
    GoOn(c, c1, c2);
    GoOn(c, c2, c');
    LivesOn(c, boot, c');
  }
}

/** What a node owes to its leader: whom it votes for, how long it stays with the leader it hears from, and
    who its hint names. */
module LeaderContact {
  import opened RaftTypes
  import opened Quorums
  import opened Membership
  import opened NodeSpec
  import opened LogHistory
  import opened Cluster
  import opened ClusterInv
  import opened ReplicationSteps
  import opened CommitSteps

  // ---- One vote request -----------------------------------------------------

  /** The request is of an older term, or of a later one while another leader is in contact. */
  predicate Refuses(s: NodeState, a: VoteArgs, inContact: bool) {
    a.term < s.term || (a.term > s.term && inContact && s.hint != NO_NODE && s.hint != a.candidate)
  }

  /** The node is a voter, the candidate's log is up to date, and the term is new to the node or its vote in
      it is free or the candidate's already. */
  predicate Deserves(s: NodeState, a: VoteArgs)
    requires |s.log| > 0
  {
    var lastTerm := s.log[|s.log| - 1].term;
    && s.id in s.voters
    && (a.lastTerm > lastTerm || (a.lastTerm == lastTerm && a.lastIndex >= |s.log| - 1))
    && (a.term > s.term || s.votedFor == NO_NODE || s.votedFor == a.candidate)
  }

  lemma DeservesIff(s: NodeState, a: VoteArgs)
    requires |s.log| > 0 && a.term >= s.term
    ensures HearCandidate(s, a).log == s.log && HearCandidate(s, a).term == a.term
    ensures GrantsTo(HearCandidate(s, a), a) <==> Deserves(s, a)
  {
  }

  lemma VoteOutcomes(s: NodeState, a: VoteArgs, inContact: bool)
    requires |s.log| > 0
    ensures Refuses(s, a, inContact) ==> HandleVote(s, a, inContact) == (s, VoteReply(s.term, false))
    ensures !Refuses(s, a, inContact) ==>
              HandleVote(s, a, inContact) == if Deserves(s, a) then (HearCandidate(s, a).(votedFor := a.candidate), VoteReply(a.term, true))
                                             else (HearCandidate(s, a), VoteReply(a.term, false))
  {
    assert Disregards(s, a, inContact) <==> Refuses(s, a, inContact);
    if !Refuses(s, a, inContact) { DeservesIff(s, a); }
  }

  /** A request that is refused is so in the node's own term, and changes nothing. Any other takes the node to
      the request's term, as a follower if that is new to it, and is granted exactly if the candidate deserves it. */
  lemma VoteIff(s: NodeState, a: VoteArgs, inContact: bool)
    requires |s.log| > 0
    ensures var (s', reply) := HandleVote(s, a, inContact);
            && (Refuses(s, a, inContact) ==> s' == s && reply == VoteReply(s.term, false))
            && (!Refuses(s, a, inContact) ==>
                  && s'.term == reply.term == a.term
                  && (reply.granted <==> Deserves(s, a))
                  && (reply.granted ==> s'.votedFor == a.candidate)
                  && (!reply.granted ==> s'.votedFor == if a.term > s.term then NO_NODE else s.votedFor)
                  && s'.role == (if a.term > s.term then Follower else s.role)
                  && s' == s.(role := s'.role, term := s'.term, votedFor := s'.votedFor))
  {
    VoteOutcomes(s, a, inContact);
    var s1 := HearCandidate(s, a);
    assert s1 == s.(role := s1.role, term := s1.term, votedFor := s1.votedFor);
  }

  /** In any state: a request never changes the term of a node whose leader, another than the candidate, is in contact. */
  lemma ContactKeepsTerm(c: ClusterState, m: VoteCall)
    requires Possible(c, VoteArrives(m, true)) && c.nodes[m.dst].hint != NO_NODE && c.nodes[m.dst].hint != m.args.candidate
    ensures var d := TakeStep(c, VoteArrives(m, true));
            && d.nodes[m.dst].term == c.nodes[m.dst].term && d.nodes[m.dst].role == c.nodes[m.dst].role
            && (m.args.term != c.nodes[m.dst].term ==> d.nodes == c.nodes)
  {
    VoteIff(c.nodes[m.dst], m.args, true);
  }

  // ---- Later terms end an office --------------------------------------------

  /** A request of a leader takes its node to the leader's term, and ends whatever the node was in an earlier
      one; in its own term it keeps its role. From then on the sender is the node's hint. */
  lemma RequestEndsOfficeIff(s: NodeState, a: AppendArgs)
    requires |s.log| > 0
    ensures var (s', reply) := HandleAppend(s, a);
            && (a.term < s.term ==> s' == s && reply == AppendReply(s.term, false, 0, 0))
            && (a.term >= s.term ==> s'.term == reply.term == a.term && s'.hint == a.leader
                                     && s'.role == (if a.term > s.term then Follower else s.role)
                                     && s'.votedFor == (if a.term > s.term then NO_NODE else s.votedFor))
  {
    AppendOutcomes(s, a);
    if a.term >= s.term && Accepts(s.log, a.prevIndex, a.prevTerm) {
      AcceptKeepsOffice(Heed(s, a), a);
    }
  }

  lemma AcceptKeepsOffice(s: NodeState, a: AppendArgs)
    requires a.prevIndex < |s.log|
    ensures var s' := AcceptEntries(s, a); s'.term == s.term && s'.hint == s.hint && s'.role == s.role && s'.votedFor == s.votedFor
  {
    MergeKeepsStanding(s, a);
    CommitMovesOnly(Merged(s, a), a);
  }

  lemma CommitMovesOnly(s: NodeState, a: AppendArgs)
    ensures FollowCommit(s, a) == s.(commit := FollowCommit(s, a).commit)
  {
  }

  /** A leader that sends to a node in a later term, and processes the answer, is a follower in that term. */
  lemma LeaderLearns(s: NodeState, q: NodeId, a: AppendArgs, f: NodeState)
    requires |s.log| > 0 && |f.log| > 0 && s.role == Leader && a.term == s.term < f.term
    ensures HandleAppendReply(s, q, a, HandleAppend(f, a).1).0 == s.(role := Follower, term := f.term, votedFor := NO_NODE)
  {
  }

  /** So is a candidate that asks such a node for its vote. */
  lemma CandidateLearns(s: NodeState, f: NodeState, inContact: bool)
    requires |s.log| > 0 && |f.log| > 0 && s.role == Candidate && s.term < f.term
    ensures HandleVoteReply(s, s.term, HandleVote(f, VoteRequest(s), inContact).1)
            == s.(role := Follower, term := f.term, votedFor := NO_NODE)
  {
  }

  /** A candidate's election ends exactly with a reply of a later term, or with the vote that completes the majority. */
  lemma ElectionEndsIff(s: NodeState, t: Term, reply: VoteReply)
    requires s.role == Candidate
    ensures var s' := HandleVoteReply(s, t, reply);
            && (s'.role == Leader <==> t == s.term && reply.term <= t && reply.granted && s.votesReceived + 1 == s.votesNeeded)
            && (s'.role == Follower <==> t == s.term && reply.term > t)
            && s'.term == (if s'.role == Follower then reply.term else s.term)
  {
  }

  // ---- A leader that is heard stays -----------------------------------------

  /** Neither `p` nor any of these nodes times out, and whoever of them is asked for a vote has heard its leader
      within the minimum election timeout. */
  predicate Undisturbed(s: Step, p: NodeId, ms: set<NodeId>) {
    && (s.ElectionTimeout? ==> s.p != p && s.p !in ms)
    && (s.VoteArrives? && s.voteCall.dst in ms ==> s.inContact)
  }

  ghost predicate Heard(c: ClusterState, c': ClusterState, p: NodeId, ms: set<NodeId>) {
    exists s :: Enabled(c, s) && c' == TakeStep(c, s) && Undisturbed(s, p, ms)
  }

  ghost predicate HeardAt(r: seq<ClusterState>, k: nat, p: NodeId, ms: set<NodeId>)
    requires k + 1 < |r|
  {
    Heard(r[k], r[k + 1], p, ms)
  }

  /** These nodes follow `p` in term `t`. */
  ghost predicate Followers(c: ClusterState, ms: set<NodeId>, p: NodeId, t: Term) {
    forall m | m in ms :: m in c.nodes && c.nodes[m].role == Follower && c.nodes[m].term == t && c.nodes[m].hint == p
  }

  /** `p` was elected in term `t` and has not stood since; these nodes, which have a member in every majority,
      follow it. */
  ghost predicate Settled(c: ClusterState, boot: Bootstrap, ms: set<NodeId>, p: NodeId, t: Term) {
    && Inv(c, boot) && Blocks(boot.Keys, ms) && Followers(c, ms, p, t) && p != NO_NODE
    && Won(c.hist, p, t) && forall u | (u, p) in c.hist.adv :: u <= t
  }

  /** Then nobody has been elected in a later term. */
  lemma NobodyElectedBeyond(c: ClusterState, boot: Bootstrap, ms: set<NodeId>, p: NodeId, t: Term, u: Term)
    requires Settled(c, boot, ms, p, t) && u in c.hist.lead
    ensures u <= t
  {
    assert LeaderOk(c.hist, boot.Keys, u);
    var m := BlockMember(boot.Keys, ms, VotersFor(c.hist, boot.Keys, u, c.hist.lead[u].who));
    AloneInCluster(c, boot, m);
    assert (u, m) in c.hist.votes;
  }

  lemma RequestsAreOfLeader(c: ClusterState, boot: Bootstrap, ms: set<NodeId>, p: NodeId, t: Term, m: AppendCall)
    requires Settled(c, boot, ms, p, t) && m in c.calls
    ensures m.args.term <= t && (m.args.term == t ==> m.args.leader == p)
  {
    assert AppendCallOk(c.hist, boot, m);
    NobodyElectedBeyond(c, boot, ms, p, t, m.args.term);
  }

  lemma AskedStays(c: ClusterState, boot: Bootstrap, ms: set<NodeId>, p: NodeId, t: Term, m: VoteCall)
    requires Settled(c, boot, ms, p, t) && m in c.voteCalls && m.dst in ms
    ensures |c.nodes[m.dst].log| > 0
    ensures var (s, s') := (c.nodes[m.dst], HandleVote(c.nodes[m.dst], m.args, true).0);
            s'.role == s.role && s'.term == s.term && s'.hint == s.hint
  {
    AloneInCluster(c, boot, m.dst);
    assert VoteCallOk(c.hist, boot, m);
    VoteIff(c.nodes[m.dst], m.args, true);
  }

  lemma OthersIgnored(c: ClusterState, step: Step)
    requires Enabled(c, step) && c.nodes[Actor(step)].role == Follower
    requires !step.ElectionTimeout? && !step.VoteArrives? && !step.AppendArrives?
    ensures Actor(step) in TakeStep(c, step).nodes
    ensures var (s, s') := (c.nodes[Actor(step)], TakeStep(c, step).nodes[Actor(step)]);
            s'.role == s.role && s'.term == s.term && s'.hint == s.hint
  {
  }

  lemma FollowerStays(c: ClusterState, boot: Bootstrap, step: Step, ms: set<NodeId>, p: NodeId, t: Term)
    requires Settled(c, boot, ms, p, t) && Enabled(c, step) && Undisturbed(step, p, ms) && Actor(step) in ms
    ensures Actor(step) in TakeStep(c, step).nodes
    ensures var s' := TakeStep(c, step).nodes[Actor(step)]; s'.role == Follower && s'.term == t && s'.hint == p
  {
    if step.VoteArrives? {
      AskedStays(c, boot, ms, p, t, step.voteCall);
    } else if step.AppendArrives? {
      RequestsAreOfLeader(c, boot, ms, p, t, step.call);
      RequestEndsOfficeIff(c.nodes[step.call.dst], step.call.args);
    } else {
      OthersIgnored(c, step);
    }
  }

  lemma NoNewCandidacy(c: ClusterState, step: Step, p: NodeId)
    requires Enabled(c, step) && (step.ElectionTimeout? ==> step.p != p)
    ensures forall u | (u, p) in TakeStep(c, step).hist.adv :: (u, p) in c.hist.adv
  {
  }

  lemma StaysSettled(c: ClusterState, boot: Bootstrap, c': ClusterState, ms: set<NodeId>, p: NodeId, t: Term)
    requires Settled(c, boot, ms, p, t) && Heard(c, c', p, ms)
    ensures Settled(c', boot, ms, p, t)
  {
    var step :| Enabled(c, step) && c' == TakeStep(c, step) && Undisturbed(step, p, ms);
    StepsKeepInv(c, boot, step);
    NoNewCandidacy(c, step, p);
    FollowersStay(c, boot, step, ms, p, t);
  }

  lemma OthersStand(c: ClusterState, step: Step)
    requires Enabled(c, step)
    ensures var d := TakeStep(c, step); d.nodes.Keys == c.nodes.Keys && forall x | x in c.nodes && x != Actor(step) :: d.nodes[x] == c.nodes[x]
  {
  }

  lemma FollowersStay(c: ClusterState, boot: Bootstrap, step: Step, ms: set<NodeId>, p: NodeId, t: Term)
    requires Settled(c, boot, ms, p, t) && Enabled(c, step) && Undisturbed(step, p, ms)
    ensures Followers(TakeStep(c, step), ms, p, t)
  {
    OthersStand(c, step);
    if Actor(step) in ms { FollowerStays(c, boot, step, ms, p, t); }
    FollowersWhere(c, TakeStep(c, step), Actor(step), ms, p, t);
  }

  lemma FollowersWhere(c: ClusterState, d: ClusterState, x: NodeId, ms: set<NodeId>, p: NodeId, t: Term)
    requires Followers(c, ms, p, t) && d.nodes.Keys == c.nodes.Keys && forall y | y in c.nodes && y != x :: d.nodes[y] == c.nodes[y]
    requires x in ms ==> x in d.nodes && d.nodes[x].role == Follower && d.nodes[x].term == t && d.nodes[x].hint == p
    ensures Followers(d, ms, p, t)
  {
  }

  lemma {:induction false} SettledThroughout(r: seq<ClusterState>, boot: Bootstrap, i: nat, j: nat, ms: set<NodeId>, p: NodeId, t: Term)
    requires i <= j < |r| && Settled(r[i], boot, ms, p, t) && forall k | i <= k < j :: HeardAt(r, k, p, ms)
    ensures Settled(r[j], boot, ms, p, t)
    decreases j - i
  {
    if i < j {
      SettledThroughout(r, boot, i, j - 1, ms, p, t);
      assert HeardAt(r, j - 1, p, ms);
      StaysSettled(r[j - 1], boot, r[j], ms, p, t);
    }
  }

  /** A leader that is heard is not disturbed: as long as followers that have a member in every majority have
      heard it lately whenever they are asked, and neither they nor it time out, they stay with it in its
      term, and no node is elected in a later one, whatever candidates turn up. */
  lemma HeardLeaderStays(r: seq<ClusterState>, boot: Bootstrap, i: nat, j: nat, p: NodeId, ms: set<NodeId>)
    requires Run(r, boot) && i <= j < |r| && p in r[i].nodes && r[i].nodes[p].role == Leader
    requires Blocks(boot.Keys, ms) && Followers(r[i], ms, p, r[i].nodes[p].term)
    requires forall k | i <= k < j :: HeardAt(r, k, p, ms)
    ensures var t := r[i].nodes[p].term;
            && Followers(r[j], ms, p, t)
            && forall x | x in r[j].nodes && r[j].nodes[x].role == Leader && r[j].nodes[x].term >= t :: x == p
  {
    var t := r[i].nodes[p].term;
    RunHasInv(r, boot, i);
    AloneInCluster(r[i], boot, p);
    SettledThroughout(r, boot, i, j, ms, p, t);
    forall x | x in r[j].nodes && r[j].nodes[x].role == Leader && r[j].nodes[x].term >= t ensures x == p {
      AloneInCluster(r[j], boot, x);
      NobodyElectedBeyond(r[j], boot, ms, p, t, r[j].nodes[x].term);
    }
  }
}

/** What a request to add, remove or promote a node comes to: when it is admitted, and what the leader's
    configuration, peers and indices are afterwards (raft.go, membership.go). */
module Administration {
  import opened RaftTypes
  import opened Membership
  import opened NodeSpec
  import opened NodeEvents
  import opened Configuration

  // ---- Who is a member ------------------------------------------------------

  /** After any sequence of events: whom the node takes for a voter, a member and a peer goes by the last
      entry of its log about that node, and by the bootstrap cluster if there is none. */
  lemma VotersByLastWord(id: NodeId, boot: Bootstrap, hasFactory: bool, es: seq<Event>, x: NodeId)
    ensures var s := Outcome(id, boot, hasFactory, es);
            && (Unmentioned(s.log, x) ==> ((x in s.voters <==> x in s.bootstrap) && (x in s.active <==> x in s.bootstrap)))
            && (forall i: LogIndex | LastWord(s.log, x, i) ::
                  && (x in s.voters <==> s.log[i].etype == AddVoter)
                  && (x in s.active <==> s.log[i].etype != EntryType.RemoveNode)
                  && (x in s.peers <==> x != s.id && s.log[i].etype != EntryType.RemoveNode))
  {
    var s := Outcome(id, boot, hasFactory, es);
    LastWordDecides(s.bootstrap, s.log, x);
    forall i: LogIndex | LastWord(s.log, x, i) ensures StandsAs(Replay(s.bootstrap, s.log), x, s.log[i]) {}
  }

  /** A candidate asks, and a read calls, exactly the other voters that can be reached. */
  lemma AskedIff(s: NodeState, q: NodeId)
    requires CacheOk(s)
    ensures var m := Replay(s.bootstrap, s.log);
            && (q in VoteRecipients(s) ==> q != s.id && q in m && m[q].role == Voter)
            && (q != s.id && q in m && m[q].role == Voter && m[q].addr != "" ==> (q in VoteRecipients(s) <==> s.hasFactory))
  {
  }

  // ---- What a change leaves -------------------------------------------------

  /** Everything about the nodes other than `id` is as it was. */
  ghost predicate OthersAsBefore(s: NodeState, s': NodeState, id: NodeId) {
    && (forall x | x != id :: (x in s'.active <==> x in s.active) && (x in s'.voters <==> x in s.voters))
    && (forall x | x != id :: (x in s'.addrs <==> x in s.addrs) && (x in s.addrs ==> s'.addrs[x] == s.addrs[x]))
    && (forall x | x != id :: (x in s'.peers <==> x in s.peers) && (x in s.peers ==> s'.peers[x] == s.peers[x]))
    && (forall x | x != id && x in s.peers ::
          x in s.nextIndex && x in s'.nextIndex && s'.nextIndex[x] == s.nextIndex[x] && MatchOf(s', x) == MatchOf(s, x))
  }

  /** The request went no further than the log and the configuration. */
  ghost predicate OnlyConfigured(s: NodeState, s': NodeState, e: Entry) {
    && s' == s.(log := s'.log, active := s'.active, voters := s'.voters, addrs := s'.addrs, peers := s'.peers,
                nextIndex := s'.nextIndex, matchIndex := s'.matchIndex)
    && s'.log == s.log + [e]
  }

  /** The configuration after one more entry. */
  lemma OneMoreApplied(s: NodeState, t: EntryType, c: Command)
    requires CacheOk(s)
    ensures var e := Entry(t, s.term, c);
            && AppendConfig(s, t, c) == RebuildAs(s.(log := s.log + [e]), ApplyEntry(Replay(s.bootstrap, s.log), e))
            && OnlyConfigured(s, AppendConfig(s, t, c), e)
  {
    var log := s.log + [Entry(t, s.term, c)];
    assert log[..|log| - 1] == s.log;
  }

  /** A member of whom the configuration says the same as before has the peer it had. */
  lemma PeerKept(s: NodeState, log: Log, m: Members, m': Members, x: NodeId)
    requires Caches(s, m) && x in m && x in m' && m'[x] == m[x] && x != s.id
    ensures var s' := RebuildAs(s.(log := log), m');
            && x in s'.peers && s'.peers[x] == s.peers[x] && x in s'.nextIndex && s'.nextIndex[x] == s.nextIndex[x]
            && MatchOf(s', x) == MatchOf(s, x)
  {
    var s1 := s.(log := log);
    assert RebuiltPeers(s1, m')[x] == RebuiltPeer(s1, x, m'[x]);
  }

  lemma OthersKept(s: NodeState, e: Entry, id: NodeId, s': NodeState)
    requires CacheOk(s) && forall x | x != id :: !Concerns(e, x)
    requires s' == RebuildAs(s.(log := s.log + [e]), ApplyEntry(Replay(s.bootstrap, s.log), e))
    ensures OthersAsBefore(s, s', id)
  {
    var m := Replay(s.bootstrap, s.log);
    var m' := ApplyEntry(m, e);
    forall x | x != id ensures (x in m' <==> x in m) && (x in m ==> m'[x] == m[x]) { OthersUntouched(m, e, x); }
    forall x | x != id && x in s.peers
      ensures x in s'.peers && s'.peers[x] == s.peers[x] && x in s'.nextIndex && s'.nextIndex[x] == s.nextIndex[x]
      ensures MatchOf(s', x) == MatchOf(s, x)
    {
      PeerKept(s, s.log + [e], m, m', x);
    }
  }

  /** A removed node is out: no member, no voter, no peer, and with no indices. Nobody else is touched. */
  lemma RemovedIsOut(s: NodeState, id: NodeId)
    requires CacheOk(s) && RemoveMember(s, id).1.None?
    ensures var s' := RemoveMember(s, id).0;
            && OnlyConfigured(s, s', Entry(EntryType.RemoveNode, s.term, ConfigRemove(id)))
            && id !in s'.active && id !in s'.voters && id !in s'.addrs && id !in s'.peers
            && (id != s.id ==> id !in s'.nextIndex && id !in s'.matchIndex)
            && OthersAsBefore(s, s', id)
  {
    var e := Entry(EntryType.RemoveNode, s.term, ConfigRemove(id));
    OneMoreApplied(s, EntryType.RemoveNode, ConfigRemove(id));
    OthersKept(s, e, id, RemoveMember(s, id).0);
  }

  /** An added node is a learner at the address given, no voter, and is reached there. */
  lemma AddedIsLearner(s: NodeState, id: NodeId, addr: string)
    requires CacheOk(s) && AddNode(s, id, addr).1.None?
    ensures var s' := AddNode(s, id, addr).0;
            && OnlyConfigured(s, s', Entry(AddLearner, s.term, ConfigAdd(id, addr)))
            && id in s'.active && id in s'.addrs && s'.addrs[id] == addr && id !in s'.voters && s'.voters == s.voters
            && (id != s.id ==> id in s'.peers && s'.peers[id].role == Learner && id in s'.nextIndex)
            && (id != s.id && addr != "" ==> s'.peers[id].client == if s.hasFactory then Some(Client(id, addr)) else None)
            && OthersAsBefore(s, s', id)
  {
    var e := Entry(AddLearner, s.term, ConfigAdd(id, addr));
    OneMoreApplied(s, AddLearner, ConfigAdd(id, addr));
    OthersKept(s, e, id, AddNode(s, id, addr).0);
    ConfigEntryCached(s, AddLearner, ConfigAdd(id, addr));
  }

  /** A promoted learner is a voter at the address it had, with the indices and the client it had. */
  lemma PromotedIsVoter(s: NodeState, id: NodeId, threshold: int)
    requires CacheOk(s) && PromoteTick(s, id, threshold).1 == Promoted
    ensures var s' := PromoteTick(s, id, threshold).0;
            && id in s.addrs && OnlyConfigured(s, s', Entry(AddVoter, s.term, ConfigAdd(id, s.addrs[id])))
            && s'.voters == s.voters + {id} && s'.active == s.active && s'.addrs == s.addrs
            && id in s.peers && id in s'.peers && s'.peers[id] == Peer(s.peers[id].client, Voter)
            && id in s'.nextIndex && s'.nextIndex[id] == s.nextIndex[id] && MatchOf(s', id) == MatchOf(s, id)
            && OthersAsBefore(s, s', id)
  {
    var e := Entry(AddVoter, s.term, ConfigAdd(id, s.addrs[id]));
    OneMoreApplied(s, AddVoter, ConfigAdd(id, s.addrs[id]));
    OthersKept(s, e, id, PromoteTick(s, id, threshold).0);
    var m := Replay(s.bootstrap, s.log);
    var s1, m' := s.(log := s.log + [e]), ApplyEntry(m, e);
    assert m' == m[id := Member(s.addrs[id], Voter)];
    PromotedPeer(s, m, s.log + [e], id);
  }

  lemma PromotedPeer(s: NodeState, m: Members, log: Log, id: NodeId)
    requires Caches(s, m) && id in m && id != s.id
    ensures var s' := RebuildAs(s.(log := log), m[id := Member(m[id].addr, Voter)]);
            && s'.voters == s.voters + {id} && s'.active == s.active && s'.addrs == s.addrs
            && id in s'.peers && s'.peers[id] == Peer(s.peers[id].client, Voter)
            && id in s'.nextIndex && s'.nextIndex[id] == s.nextIndex[id] && MatchOf(s', id) == MatchOf(s, id)
  {
    var s1, m' := s.(log := log), m[id := Member(m[id].addr, Voter)];
    assert RebuiltPeers(s1, m')[id] == RebuiltPeer(s1, id, m'[id]);
  }

  // ---- When a change is admitted --------------------------------------------

  /** No entry past the commit index is of one of these types. */
  predicate NoneUncommitted(s: NodeState, types: set<EntryType>) {
    forall i | s.commit < i < |s.log| :: s.log[i].etype !in types
  }

  const VOTER_CHANGES := {AddVoter, EntryType.RemoveNode}
  const CHANGES := {AddLearner, AddVoter, EntryType.RemoveNode}

  ghost predicate IsMember(s: NodeState, id: NodeId) {
    id in Replay(s.bootstrap, s.log)
  }

  ghost predicate IsLearner(s: NodeState, id: NodeId) {
    IsMember(s, id) && Replay(s.bootstrap, s.log)[id].role == Learner
  }

  /** A node is added exactly by a leader of whose log it is no member and that has no change of the voters
      uncommitted; what is refused changes nothing. */
  lemma AddedIff(s: NodeState, id: NodeId, addr: string)
    requires CacheOk(s)
    ensures var (s', err) := AddNode(s, id, addr);
            && (err.None? <==> s.role == Leader && !IsMember(s, id) && NoneUncommitted(s, VOTER_CHANGES))
            && (err.Some? ==> s' == s)
            && (err == Some(NotLeader) <==> s.role != Leader)
            && (err == Some(ChangeInProgress) <==> s.role == Leader && !NoneUncommitted(s, VOTER_CHANGES))
            && (err == Some(AlreadyMember) <==> s.role == Leader && NoneUncommitted(s, VOTER_CHANGES) && IsMember(s, id))
  {
  }

  /** A node is removed exactly by a leader of whose log it is a member and that has no change of the
      membership uncommitted. */
  lemma RemovedIff(s: NodeState, id: NodeId)
    requires CacheOk(s)
    ensures var (s', err) := RemoveMember(s, id);
            && (err.None? <==> s.role == Leader && IsMember(s, id) && NoneUncommitted(s, CHANGES))
            && (err.Some? ==> s' == s)
            && (err == Some(NotLeader) <==> s.role != Leader)
            && (err == Some(NotMember) <==> s.role == Leader && !IsMember(s, id))
            && (err == Some(ChangeInProgress) <==> s.role == Leader && IsMember(s, id) && !NoneUncommitted(s, CHANGES))
  {
  }

  /** A node is promoted exactly by a leader of whose log it is a learner, that has no change of the voters
      uncommitted, and whose log is ahead of what the learner is known to have by less than the threshold. The
      promoter gives up for good exactly when the node no longer leads or the other is no longer its learner. */
  lemma PromotedIff(s: NodeState, id: NodeId, threshold: int)
    requires CacheOk(s)
    ensures var (s', outcome) := PromoteTick(s, id, threshold);
            && (outcome == Promoted <==>
                  && s.role == Leader && id != s.id && IsLearner(s, id) && NoneUncommitted(s, VOTER_CHANGES)
                  && |s.log| - 1 < MatchOf(s, id) + threshold)
            && (outcome == GiveUp <==> !(s.role == Leader && id != s.id && IsLearner(s, id)))
            && (outcome != Promoted ==> s' == s)
  {
  }

  // ---- A node that comes back -----------------------------------------------

  /** Indices are kept for the peers and for nobody else. */
  ghost predicate IndicesOfPeers(s: NodeState) {
    s.nextIndex.Keys == s.peers.Keys == s.matchIndex.Keys
  }

  /** A leader is handed an answer of a node that is no peer of its any more, to a request it sent when it
      still was, and does not step down for it. */
  ghost predicate AnswerFromOutside(s: NodeState, e: Event) {
    && e.AppendAnswered? && s.role == Leader && e.reply.term <= s.term && e.peer !in s.peers
    && (e.reply.success ==> e.args.prevIndex + |e.args.entries| > 0)
  }

  lemma RebuiltIndices(s: NodeState, m: Members)
    requires s.nextIndex.Keys == s.matchIndex.Keys
    ensures IndicesOfPeers(RebuildAs(s, m))
  {
  }

  lemma WinnerIndices(s: NodeState)
    requires IndicesOfPeers(s) && s.id !in s.peers
    ensures IndicesOfPeers(BecomeLeader(s))
  {
  }

  lemma MergedIndices(s: NodeState, a: AppendArgs)
    requires IndicesOfPeers(s) && a.prevIndex < |s.log|
    ensures IndicesOfPeers(Merged(s, a))
  {
    var s1 := s.(log := MergeEntries(s.log, a.prevIndex, a.entries));
    RebuiltIndices(s1, Replay(s1.bootstrap, s1.log));
  }

  lemma AppendKeepsIndices(s: NodeState, a: AppendArgs)
    requires IndicesOfPeers(s) && |s.log| > 0
    ensures IndicesOfPeers(HandleAppend(s, a).0)
  {
    var s1 := Heed(s, a);
    assert IndicesOfPeers(s1);
    if a.term >= s.term && Accepts(s1.log, a.prevIndex, a.prevTerm) {
      MergedIndices(s1, a);
      assert AcceptEntries(s1, a) == Merged(s1, a).(commit := AcceptEntries(s1, a).commit);
    }
  }

  lemma VoteReplyKeepsIndices(s: NodeState, t: Term, reply: VoteReply)
    requires IndicesOfPeers(s) && s.id !in s.peers
    ensures IndicesOfPeers(HandleVoteReply(s, t, reply))
  {
    VoteReplyOutcomes(s, t, reply);
    WinnerIndices(s.(votesReceived := s.votesReceived + 1));
  }

  lemma AdminKeepsIndices(s: NodeState, e: Event)
    requires CacheOk(s) && IndicesOfPeers(s) && ChangesCluster(e)
    ensures IndicesOfPeers(React(s, e))
  {
    if React(s, e) != s {
      var entry := AdminAppends(s, e);
      var s1 := s.(log := s.log + [entry]);
      RebuiltIndices(s1, Replay(s1.bootstrap, s1.log));
    }
  }

  lemma AdminAppends(s: NodeState, e: Event) returns (entry: Entry)
    requires |s.log| > 0 && ChangesCluster(e) && React(s, e) != s
    ensures React(s, e) == Rebuild(s.(log := s.log + [entry]))
  {
    match e
    case NodeAdded(id, addr) =>
      entry := Entry(AddLearner, s.term, ConfigAdd(id, addr));
      assert React(s, e) == AppendConfig(s, AddLearner, ConfigAdd(id, addr));
    case NodeRemoved(id) =>
      entry := Entry(EntryType.RemoveNode, s.term, ConfigRemove(id));
      assert React(s, e) == AppendConfig(s, EntryType.RemoveNode, ConfigRemove(id));
    case PromoterTicked(id, threshold) =>
      var c := ConfigAdd(id, if id in s.addrs then s.addrs[id] else "");
      entry := Entry(AddVoter, s.term, c);
      assert React(s, e) == AppendConfig(s, AddVoter, c);
  }

  lemma AnswerKeepsIndicesIff(s: NodeState, p: NodeId, a: AppendArgs, reply: AppendReply)
    requires |s.log| > 0 && IndicesOfPeers(s)
    ensures IndicesOfPeers(HandleAppendReply(s, p, a, reply).0) <==> !AnswerFromOutside(s, AppendAnswered(p, a, reply))
  {
    var s' := HandleAppendReply(s, p, a, reply).0;
    if s.role == Leader && reply.term <= s.term {
      assert s'.peers == s.peers;
      if reply.success {
        assert s'.nextIndex.Keys
               == if a.prevIndex + |a.entries| > MatchOf(s, p) then s.nextIndex.Keys + {p} else s.nextIndex.Keys;
      } else {
        assert s'.nextIndex.Keys == s.nextIndex.Keys + {p};
      }
    }
  }

  lemma QuietKeepsIndices(s: NodeState, e: Event)
    requires |s.log| > 0 && IndicesOfPeers(s) && LeavesLog(e) && !e.AppendAnswered?
    ensures IndicesOfPeers(React(s, e))
  {
    if e.VoteAsked? {
      VoteKeepsIndices(s, e.voteArgs, e.inContact);
    } else if e.BatchTaken? || e.EntryApplied? || e.BatchFinished? {
      ApplierKeepsIndices(s, e);
    } else if e.CallStarted? || e.CallEnded? {
      assert React(s, e) == s.(inFlight := React(s, e).inFlight);
    } else {
      OfficeKeepsIndices(s, e);
    }
  }

  lemma OfficeKeepsIndices(s: NodeState, e: Event)
    requires |s.log| > 0 && IndicesOfPeers(s) && (e.ElectionDue? || e.OwnRemovalApplied? || e.QuorumChecked?)
    ensures IndicesOfPeers(React(s, e))
  {
    assert React(s, e) in {s, StartElection(s), BecomeFollower(s, s.term)};
  }

  lemma VoteKeepsIndices(s: NodeState, a: VoteArgs, inContact: bool)
    requires |s.log| > 0 && IndicesOfPeers(s)
    ensures IndicesOfPeers(HandleVote(s, a, inContact).0)
  {
    if !Disregards(s, a, inContact) {
      var s1 := HearCandidate(s, a);
      assert s1.nextIndex == s.nextIndex && s1.matchIndex == s.matchIndex && s1.peers == s.peers;
    }
  }

  lemma ApplierKeepsIndices(s: NodeState, e: Event)
    requires |s.log| > 0 && IndicesOfPeers(s) && (e.BatchTaken? || e.EntryApplied? || e.BatchFinished?)
    ensures IndicesOfPeers(React(s, e))
  {
    ApplierLeavesAlone(s, e);
    var s' := React(s, e);
    assert s' == s.(batch := s'.batch, fsm := s'.fsm, lastApplied := s'.lastApplied);
  }

  /** The indices are those of the peers until, and only until, an answer comes in from a node that was
      removed after it was asked. */
  lemma IndicesStayIff(s: NodeState, e: Event)
    requires CacheOk(s) && IndicesOfPeers(s)
    ensures IndicesOfPeers(React(s, e)) <==> !AnswerFromOutside(s, e)
  {
    if e.AppendAnswered? {
      AnswerKeepsIndicesIff(s, e.peer, e.args, e.reply);
    } else if ChangesCluster(e) {
      AdminKeepsIndices(s, e);
    } else if e.AppendAsked? {
      AppendKeepsIndices(s, e.args);
    } else if e.VoteAnswered? {
      VoteReplyKeepsIndices(s, e.electionTerm, e.voteReply);
    } else if e.Submitted? {
      assert React(s, e) == s.(log := React(s, e).log);
    } else {
      QuietKeepsIndices(s, e);
    }
  }

  /** Nobody that is not a peer is heard in this sequence of events. */
  ghost predicate NoAnswerFromOutside(id: NodeId, boot: Bootstrap, hasFactory: bool, es: seq<Event>) {
    forall k {:trigger es[k]} | 0 <= k < |es| :: !AnswerFromOutside(Outcome(id, boot, hasFactory, es[..k]), es[k])
  }

  lemma {:induction false} IndicesStay(id: NodeId, boot: Bootstrap, hasFactory: bool, es: seq<Event>)
    requires NoAnswerFromOutside(id, boot, hasFactory, es)
    ensures IndicesOfPeers(Outcome(id, boot, hasFactory, es))
    decreases |es|
  {
    if es != [] {
      var n := |es| - 1;
      var init := es[..n];
      forall k | 0 <= k < n ensures !AnswerFromOutside(Outcome(id, boot, hasFactory, init[..k]), init[k]) {
        assert init[..k] == es[..k] && init[k] == es[k];
      }
      IndicesStay(id, boot, hasFactory, init);
      assert !AnswerFromOutside(Outcome(id, boot, hasFactory, init), es[n]);
      IndicesStayIff(Outcome(id, boot, hasFactory, init), es[n]);
    }
  }

  /** An added node is probed from the end of the log and matched nowhere exactly if the leader has nothing
      left of it, or nothing that says otherwise. */
  lemma StartsAfreshIff(s: NodeState, id: NodeId, addr: string)
    requires CacheOk(s) && AddNode(s, id, addr).1.None? && id != s.id
    ensures var s' := AddNode(s, id, addr).0;
            id in s'.nextIndex && s'.nextIndex[id] == |s'.log| && MatchOf(s', id) == 0
            <==> id !in s.nextIndex || (s.nextIndex[id] == |s.log| + 1 && MatchOf(s, id) == 0)
  {
    OneMoreApplied(s, AddLearner, ConfigAdd(id, addr));
  }

  /** So a node that is added, for the first time or again, starts afresh whatever has happened before, as long
      as no answer of a removed node came in. */
  lemma AddedStartsAfresh(id: NodeId, boot: Bootstrap, hasFactory: bool, es: seq<Event>, x: NodeId, addr: string)
    requires NoAnswerFromOutside(id, boot, hasFactory, es) && AddNode(Outcome(id, boot, hasFactory, es), x, addr).1.None?
    ensures var (s, s') := (Outcome(id, boot, hasFactory, es), AddNode(Outcome(id, boot, hasFactory, es), x, addr).0);
            x != s.id ==> x in s'.nextIndex && s'.nextIndex[x] == |s'.log| && MatchOf(s', x) == 0
  {
    var s := Outcome(id, boot, hasFactory, es);
    IndicesStay(id, boot, hasFactory, es);
    if x != s.id { StartsAfreshIff(s, x, addr); }
  }

  // ---- A node that comes back with what it was matched at before ------------

  /** The acknowledgement, from a peer in the leader's term, of everything up to the index. */
  function AckUpTo(s: NodeState, x: NodeId, m: LogIndex): Event
    requires 0 < m < |s.log|
  {
    AppendAnswered(x, AppendArgs(s.term, s.id, 0, s.log[0].term, s.log[1..m + 1], s.commit), AppendReply(s.term, true, 0, 0))
  }

  lemma OneMoreEvent(id: NodeId, boot: Bootstrap, hasFactory: bool, es: seq<Event>, e: Event)
    ensures Outcome(id, boot, hasFactory, es + [e]) == React(Outcome(id, boot, hasFactory, es), e)
  {
    assert (es + [e])[..|es|] == es;
  }

  lemma TwoNodes(boot: Bootstrap, id: NodeId, x: NodeId)
    requires boot.Keys == {id, x} && id != x
    ensures |FoundingBlock(boot, 1)| == 2 && VotersOf(BootMembers(boot)) == {id, x}
  {
    var ids := SortedIds(boot.Keys);
    SortedSize(ids, boot.Keys);
    assert |{id, x}| == 2;
  }

  lemma {:induction false} SortedSize(ids: seq<NodeId>, s: set<NodeId>)
    requires SortedIdsOf(ids, s)
    ensures |ids| == |s|
    decreases |ids|
  {
    if ids == [] {
      assert forall x :: x in ids <==> x in s;
      assert s == {};
    } else {
      assert ids[0] in ids;
      TailSorted(ids, s);
      SortedSize(ids[1..], s - {ids[0]});
    }
  }

  /** A node of a cluster of two that leads the first term and still has its whole configuration. */
  ghost predicate LeadsTwo(s: NodeState, boot: Bootstrap, id: NodeId, x: NodeId) {
    && CacheOk(s) && s.id == id && s.bootstrap == boot && s.role == Leader && s.term == 1 && |s.log| == 4
    && s.log[3] == NoOp(1) && Replay(boot, s.log) == BootMembers(boot) && s.voters == {id, x}
  }

  lemma FirstCandidacy(boot: Bootstrap, id: NodeId, x: NodeId, hasFactory: bool)
    requires boot.Keys == {id, x} && id != x
    ensures var s := Outcome(id, boot, hasFactory, [ElectionDue]);
            && s.role == Candidate && s.term == 1 && s.id == id && s.bootstrap == boot && s.log == [SENTINEL]
            && s.commit == 0 && s.votesReceived == 1 && s.votesNeeded == 2 && s.voters == {id, x}
  {
    TwoNodes(boot, id, x);
    OneMoreEvent(id, boot, hasFactory, [], ElectionDue);
    assert [] + [ElectionDue] == [ElectionDue];
    assert |{id, x}| == 2;
  }

  lemma FirstWin(s: NodeState, boot: Bootstrap, id: NodeId, x: NodeId)
    requires CacheOk(s) && boot.Keys == {id, x} && id != x
    requires s.role == Candidate && s.term == 1 && s.id == id && s.bootstrap == boot && s.log == [SENTINEL]
    requires s.votesReceived == 1 && s.votesNeeded == 2 && s.commit == 0 && s.voters == {id, x}
    ensures var s' := HandleVoteReply(s, 1, VoteReply(1, true));
            LeadsTwo(s', boot, id, x) && s'.commit == 0 && MatchOf(s', x) == 0
  {
    TwoNodes(boot, id, x);
    PreambleKeepsReplay(boot, [SENTINEL], 1);
    VoteReplyKeepsCache(s, 1, VoteReply(1, true));
  }

  lemma FirstCommit(s: NodeState, boot: Bootstrap, id: NodeId, x: NodeId)
    requires LeadsTwo(s, boot, id, x) && s.commit == 0 && MatchOf(s, x) == 0 && id != x
    ensures var s' := React(s, AckUpTo(s, x, 3)); LeadsTwo(s', boot, id, x) && s'.commit == 3
  {
    var s1 := s.(matchIndex := s.matchIndex[x := 3], nextIndex := s.nextIndex[x := 4]);
    assert AckedBy(s1, 3) == {x} && |{id, x}| == 2;
    assert Committable(s1, 3);
    EventKeepsCache(s, AckUpTo(s, x, 3));
  }

  /** It has removed the other, which is no longer counted. */
  ghost predicate LeadsAlone(s: NodeState, id: NodeId, x: NodeId) {
    && CacheOk(s) && s.role == Leader && s.id == id && s.term == 1 && s.commit == 3 && |s.log| == 5 && s.log[4].term == 1
    && s.voters == {id} && x !in s.nextIndex && MatchOf(s, x) == 0 && x !in s.active
  }

  /** The other is still no member, but counts as matched. */
  ghost predicate StillMatched(s: NodeState, id: NodeId, x: NodeId) {
    && CacheOk(s) && s.role == Leader && s.id == id && s.commit == |s.log| - 1
    && x !in s.active && MatchOf(s, x) == 3 && x in s.nextIndex
  }

  lemma Removal(s: NodeState, boot: Bootstrap, id: NodeId, x: NodeId)
    requires LeadsTwo(s, boot, id, x) && s.commit == 3 && id != x && boot.Keys == {id, x}
    ensures LeadsAlone(RemoveMember(s, x).0, id, x)
  {
    RemovedIff(s, x);
    RemovedIsOut(s, x);
    RemoveKeepsCache(s, x);
  }

  /** The late answer alone makes the leader commit the removal. */
  lemma AnswerAfterRemoval(s: NodeState, id: NodeId, x: NodeId, m: NodeState)
    requires LeadsAlone(s, id, x) && id != x && m.term == 1 && |m.log| == 4
    ensures AnswerFromOutside(s, AckUpTo(m, x, 3)) && StillMatched(React(s, AckUpTo(m, x, 3)), id, x)
  {
    var s1 := s.(matchIndex := s.matchIndex[x := 3], nextIndex := s.nextIndex[x := 4]);
    assert SelfVote(s1) == 1 && |s1.voters| == 1;
    assert Committable(s1, 4);
    EventKeepsCache(s, AckUpTo(m, x, 3));
  }

  lemma CountsAsBefore(s: NodeState, id: NodeId, x: NodeId, addr: string)
    requires StillMatched(s, id, x) && x != id
    ensures AddNode(s, x, addr).1.None? && MatchOf(AddNode(s, x, addr).0, x) == 3
  {
    OneMoreApplied(s, AddLearner, ConfigAdd(x, addr));
  }

  /** The first three events. */
  lemma LedAndAcked(boot: Bootstrap, id: NodeId, x: NodeId, hasFactory: bool) returns (es: seq<Event>)
    requires boot.Keys == {id, x} && id != x
    ensures var s := Outcome(id, boot, hasFactory, es); LeadsTwo(s, boot, id, x) && s.commit == 3
  {
    FirstCandidacy(boot, id, x, hasFactory);
    var s0 := Outcome(id, boot, hasFactory, [ElectionDue]);
    FirstWin(s0, boot, id, x);
    OneMoreEvent(id, boot, hasFactory, [ElectionDue], VoteAnswered(1, VoteReply(1, true)));
    var es1 := [ElectionDue] + [VoteAnswered(1, VoteReply(1, true))];
    var s1 := Outcome(id, boot, hasFactory, es1);
    FirstCommit(s1, boot, id, x);
    OneMoreEvent(id, boot, hasFactory, es1, AckUpTo(s1, x, 3));
    es := es1 + [AckUpTo(s1, x, 3)];
  }

  /** Such an answer does come in: in every cluster of two there is a sequence of events at whose end a node
      that was removed is added again, and the leader holds it to have what it acknowledged before. */
  lemma ComesBackMatched(boot: Bootstrap, id: NodeId, x: NodeId, hasFactory: bool, addr: string) returns (es: seq<Event>)
    requires boot.Keys == {id, x} && id != x
    ensures var s := Outcome(id, boot, hasFactory, es);
            && x !in s.active && AddNode(s, x, addr).1.None? && MatchOf(AddNode(s, x, addr).0, x) == 3
  {
    es := LedAndAcked(boot, id, x, hasFactory);
    var s := Outcome(id, boot, hasFactory, es);
    Removal(s, boot, id, x);
    OneMoreEvent(id, boot, hasFactory, es, NodeRemoved(x));
    es := es + [NodeRemoved(x)];
    AnswerAfterRemoval(Outcome(id, boot, hasFactory, es), id, x, s);
    OneMoreEvent(id, boot, hasFactory, es, AckUpTo(s, x, 3));
    es := es + [AckUpTo(s, x, 3)];
    CountsAsBefore(Outcome(id, boot, hasFactory, es), id, x, addr);
  }
}

/** The cached configuration of a node refines the replay of its log (membership.go), and a
    leader changes the voters by one node at a time. */
module Configuration {
  import opened RaftTypes
  import opened Quorums
  import opened Membership
  import opened NodeSpec
  import opened Logs
  import opened NodeEvents

  // ---- The cache ------------------------------------------------------------

  /** With a peer factory, a peer whose address is known is reached at that address. */
  ghost predicate ClientsOk(s: NodeState) {
    && (s.hasFactory ==> forall p | p in s.peers && p in s.addrs && s.addrs[p] != "" ::
          s.peers[p].client == Some(Client(p, s.addrs[p])))
    && (!s.hasFactory ==> forall p | p in s.peers :: s.peers[p].client.None?)
  }

  ghost predicate Caches(s: NodeState, m: Members) {
    && s.active == m.Keys && s.voters == VotersOf(m) && s.addrs == AddrsOf(m)
    && s.peers.Keys == m.Keys - {s.id}
    && (forall p | p in s.peers :: s.peers[p].role == m[p].role)
    && (forall p | p in s.peers :: p in s.nextIndex)
    && ClientsOk(s)
  }

  /** The members, voters, addresses and peers the node works with are those its log stands for. */
  ghost predicate CacheOk(s: NodeState) {
    |s.log| > 0 && Caches(s, Replay(s.bootstrap, s.log))
  }

  lemma RebuildCaches(s: NodeState, m: Members)
    requires ClientsOk(s)
    ensures Caches(RebuildAs(s, m), m)
  {
    var s' := RebuildAs(s, m);
    assert s'.peers.Keys == m.Keys - {s.id};
    forall p | p in s'.peers ensures p in s'.nextIndex {
    }
  }

  lemma NormalsKeepReplay(boot: Bootstrap, log: Log, es: seq<Entry>)
    requires |log| > 0 && AllNormal(es)
    ensures Replay(boot, log + es) == Replay(boot, log)
  {
    ReplaySplit(boot, log, es);
    NormalEntriesKeepMembers(Replay(boot, log), es);
  }

  lemma FoundingRestatesBootstrap(boot: Bootstrap, term: Term)
    ensures ReplayFrom(BootMembers(boot), FoundingBlock(boot, term)) == BootMembers(boot)
  {
    var ids := SortedIds(boot.Keys);
    ReplayFounding(BootMembers(boot), boot, ids, term);
    var x, y := ReplayFrom(BootMembers(boot), FoundingBlock(boot, term)), BootMembers(boot);
    forall id | id in y ensures id in x && x[id] == y[id] {
      assert id in ids;
    }
    forall id | id in x ensures id in y {
      assert id in ids ==> id in boot;
    }
  }

  /** The founding block a new leader writes restates the bootstrap cluster, and so changes nothing. */
  lemma PreambleKeepsReplay(boot: Bootstrap, log: Log, term: Term)
    requires |log| > 0
    ensures Replay(boot, log + LeaderPreamble(boot, log, term)) == Replay(boot, log)
  {
    if |log| == 1 && boot != map[] {
      var block := FoundingBlock(boot, term);
      ReplaySplit(boot, log, block);
      FoundingRestatesBootstrap(boot, term);
      assert log + LeaderPreamble(boot, log, term) == (log + block) + [NoOp(term)];
      NormalsKeepReplay(boot, log + block, [NoOp(term)]);
    } else {
      NormalsKeepReplay(boot, log, [NoOp(term)]);
    }
  }

  /** A merge that skips the rebuild did not need one. */
  lemma SkippedRebuild(boot: Bootstrap, log: Log, prev: LogIndex, es: seq<Entry>)
    requires prev < |log| && !NeedsRebuild(log, prev, es)
    ensures Replay(boot, MergeEntries(log, prev, es)) == Replay(boot, log)
  {
    var n := AgreeFrom(log, prev, es, 0);
    if n < |es| {
      assert log[..prev + 1 + n] == log;
      NormalsKeepReplay(boot, log, es[n..]);
    }
  }

  ghost predicate SameConfiguration(s: NodeState, s': NodeState) {
    && s'.id == s.id && s'.bootstrap == s.bootstrap && s'.hasFactory == s.hasFactory && s'.log == s.log
    && s'.active == s.active && s'.voters == s.voters && s'.addrs == s.addrs && s'.peers == s.peers
    && (forall p | p in s.nextIndex :: p in s'.nextIndex)
  }

  /** The append loop asks for a rebuild exactly when an entry it was given changes the membership, or the log
      was cut: the new one does not continue the old. */
  lemma RebuildAskedIff(log: Log, prev: LogIndex, es: seq<Entry>)
    requires prev < |log|
    ensures NeedsRebuild(log, prev, es)
            <==> (exists e | e in es :: ChangesMembership(e.etype)) || !(log <= MergeEntries(log, prev, es))
  {
    var n, merged := AgreeFrom(log, prev, es, 0), MergeEntries(log, prev, es);
    if n < |es| {
      if prev + 1 + n < |log| {
        assert merged[prev + 1 + n] == es[n];
      } else {
        assert log[..prev + 1 + n] == log;
      }
    }
  }

  lemma SameCache(s: NodeState, s': NodeState)
    requires CacheOk(s) && SameConfiguration(s, s')
    ensures CacheOk(s')
  {
  }

  lemma LogGrownCache(s: NodeState, log: Log)
    requires CacheOk(s) && |log| > 0 && Replay(s.bootstrap, log) == Replay(s.bootstrap, s.log)
    ensures CacheOk(s.(log := log))
  {
  }

  lemma RebuildIsCached(s: NodeState)
    requires ClientsOk(s) && |s.log| > 0
    ensures CacheOk(Rebuild(s))
  {
    RebuildCaches(s, Replay(s.bootstrap, s.log));
  }

  lemma CommitKeepsConfiguration(s: NodeState, a: AppendArgs)
    ensures SameConfiguration(s, FollowCommit(s, a))
  {
    var s' := FollowCommit(s, a);
    assert s' == s.(commit := s'.commit);
  }

  lemma MergedCached(s: NodeState, a: AppendArgs)
    requires CacheOk(s) && a.prevIndex < |s.log|
    ensures CacheOk(Merged(s, a))
  {
    var log := MergeEntries(s.log, a.prevIndex, a.entries);
    if NeedsRebuild(s.log, a.prevIndex, a.entries) {
      RebuildIsCached(s.(log := log));
    } else {
      SkippedRebuild(s.bootstrap, s.log, a.prevIndex, a.entries);
      LogGrownCache(s, log);
    }
  }

  lemma AcceptKeepsCache(s: NodeState, a: AppendArgs)
    requires CacheOk(s) && a.prevIndex < |s.log|
    ensures CacheOk(AcceptEntries(s, a))
  {
    var r := Merged(s, a);
    MergedCached(s, a);
    CommitKeepsConfiguration(r, a);
    SameCache(r, FollowCommit(r, a));
  }

  lemma HeedKeepsConfiguration(s: NodeState, a: AppendArgs)
    ensures SameConfiguration(s, Heed(s, a))
  {
    var s1 := if a.term > s.term then BecomeFollower(s, a.term) else s;
    assert s1 == s.(role := s1.role, term := s1.term, votedFor := s1.votedFor);
    assert Heed(s, a) == s1.(hint := a.leader);
  }

  lemma AppendKeepsCache(s: NodeState, a: AppendArgs)
    requires CacheOk(s)
    ensures CacheOk(HandleAppend(s, a).0)
  {
    var s1 := Heed(s, a);
    HeedKeepsConfiguration(s, a);
    SameCache(s, s1);
    if a.term >= s.term && Accepts(s1.log, a.prevIndex, a.prevTerm) { AcceptKeepsCache(s1, a); }
  }

  lemma LeaderKeepsCache(s: NodeState)
    requires CacheOk(s)
    ensures CacheOk(BecomeLeader(s))
  {
    PreambleKeepsReplay(s.bootstrap, s.log, s.term);
    var s1 := s.(log := s.log + LeaderPreamble(s.bootstrap, s.log, s.term));
    LogGrownCache(s, s1.log);
    if s.role != Leader { SameCache(s1, BecomeLeader(s)); }
  }

  lemma VoteReplyOutcomes(s: NodeState, t: Term, reply: VoteReply)
    ensures var (s', s1) := (HandleVoteReply(s, t, reply), s.(votesReceived := s.votesReceived + 1));
            s' == s || s' == s1 || s' == BecomeFollower(s, reply.term) || s' == BecomeLeader(s1)
  {
  }

  lemma VoteReplyKeepsCache(s: NodeState, t: Term, reply: VoteReply)
    requires CacheOk(s)
    ensures CacheOk(HandleVoteReply(s, t, reply))
  {
    var s1 := s.(votesReceived := s.votesReceived + 1);
    SameCache(s, s1);
    SameCache(s, BecomeFollower(s, reply.term));
    LeaderKeepsCache(s1);
    VoteReplyOutcomes(s, t, reply);
  }

  lemma ConfigEntryCached(s: NodeState, t: EntryType, c: Command)
    requires ClientsOk(s)
    ensures CacheOk(AppendConfig(s, t, c))
  {
    RebuildIsCached(s.(log := s.log + [Entry(t, s.term, c)]));
  }

  lemma AddKeepsCache(s: NodeState, id: NodeId, addr: string)
    requires CacheOk(s)
    ensures CacheOk(AddNode(s, id, addr).0)
  {
    ConfigEntryCached(s, AddLearner, ConfigAdd(id, addr));
  }

  lemma RemoveKeepsCache(s: NodeState, id: NodeId)
    requires CacheOk(s)
    ensures CacheOk(RemoveMember(s, id).0)
  {
    ConfigEntryCached(s, EntryType.RemoveNode, ConfigRemove(id));
  }

  lemma PromoteKeepsCache(s: NodeState, id: NodeId, threshold: int)
    requires CacheOk(s)
    ensures CacheOk(PromoteTick(s, id, threshold).0)
  {
    ConfigEntryCached(s, AddVoter, ConfigAdd(id, if id in s.addrs then s.addrs[id] else ""));
  }

  lemma AdminKeepsCache(s: NodeState, e: Event)
    requires CacheOk(s) && ChangesCluster(e)
    ensures CacheOk(React(s, e))
  {
    match e
    case NodeAdded(id, addr) => AddKeepsCache(s, id, addr);
    case NodeRemoved(id) => RemoveKeepsCache(s, id);
    case PromoterTicked(id, threshold) => PromoteKeepsCache(s, id, threshold);
  }

  predicate ChangesCluster(e: Event) {
    e.NodeAdded? || e.NodeRemoved? || e.PromoterTicked?
  }

  /** The other events leave log and configuration alone. */
  predicate LeavesLog(e: Event) {
    !ChangesCluster(e) && !e.AppendAsked? && !e.VoteAnswered? && !e.Submitted?
  }

  lemma LeftAlone(s: NodeState, e: Event)
    requires |s.log| > 0 && LeavesLog(e)
    ensures SameConfiguration(s, React(s, e))
  {
    match e
    case AppendAnswered(p, a, reply) => AnswerLeavesAlone(s, p, a, reply);
    case VoteAsked(a, inContact) => VoteLeavesAlone(s, a, inContact);
    case ElectionDue => assert React(s, e) == s || React(s, e) == StartElection(s);
    case CallStarted(p) => assert React(s, e) == s || React(s, e) == MarkSent(s, p);
    case CallEnded(p) => assert React(s, e) == EndCall(s, p);
    case OwnRemovalApplied => assert React(s, e) == BecomeFollower(s, s.term);
    case QuorumChecked(live) => assert React(s, e) == s || React(s, e) == BecomeFollower(s, s.term);
    case _ => ApplierLeavesAlone(s, e);
  }

  lemma ApplierLeavesAlone(s: NodeState, e: Event)
    requires |s.log| > 0 && (e.BatchTaken? || e.EntryApplied? || e.BatchFinished?)
    ensures SameConfiguration(s, React(s, e))
  {
    match e
    case BatchTaken => assert React(s, e) == s || (CanTakeBatch(s) && React(s, e) == TakeBatch(s));
    case EntryApplied => assert React(s, e) == s || (CanApplyOne(s) && React(s, e) == ApplyOne(s));
    case BatchFinished => assert React(s, e) == s || (CanFinishBatch(s) && React(s, e) == FinishBatch(s));
  }

  lemma AnswerLeavesAlone(s: NodeState, p: NodeId, a: AppendArgs, reply: AppendReply)
    requires |s.log| > 0
    ensures SameConfiguration(s, HandleAppendReply(s, p, a, reply).0)
  {
    var s' := HandleAppendReply(s, p, a, reply).0;
    if s.role == Leader {
      if reply.term > s.term {
        assert s' == BecomeFollower(s, reply.term);
      } else {
        assert s' == s.(commit := s'.commit, nextIndex := s'.nextIndex, matchIndex := s'.matchIndex);
      }
    }
  }

  lemma VoteLeavesAlone(s: NodeState, a: VoteArgs, inContact: bool)
    requires |s.log| > 0
    ensures SameConfiguration(s, HandleVote(s, a, inContact).0)
  {
    if !Disregards(s, a, inContact) {
      var s1 := HearCandidate(s, a);
      assert s1 == s.(role := s1.role, term := s1.term, votedFor := s1.votedFor);
      assert SameConfiguration(s, s1);
      assert SameConfiguration(s, s1.(votedFor := a.candidate));
    }
  }

  lemma EventKeepsCache(s: NodeState, e: Event)
    requires CacheOk(s)
    ensures CacheOk(React(s, e))
  {
    if LeavesLog(e) {
      LeftAlone(s, e);
      SameCache(s, React(s, e));
    } else if ChangesCluster(e) {
      AdminKeepsCache(s, e);
    } else {
      match e
      case AppendAsked(a) => AppendKeepsCache(s, a);
      case VoteAnswered(t, reply) => VoteReplyKeepsCache(s, t, reply);
      case Submitted(c) =>
        NormalsKeepReplay(s.bootstrap, s.log, [Entry(Normal, s.term, c)]);
        LogGrownCache(s, s.log + [Entry(Normal, s.term, c)]);
    }
  }

  lemma NewNodeCached(id: NodeId, boot: Bootstrap, hasFactory: bool)
    ensures CacheOk(NewNode(id, boot, hasFactory))
  {
    RebuildIsCached(NodeState(id, boot, hasFactory, Follower, 0, NO_NODE, [SENTINEL], 0, 0,
                              map[], map[], map[], NO_NODE, {}, {}, map[], map[], 0, 0, None, []));
  }

  /** The state of a node after a sequence of events. Configuration cache equals replay: whatever
      happens to it, in whatever order, the node works with its bootstrap cluster as the whole of
      its log changes it. */
  ghost function Outcome(id: NodeId, boot: Bootstrap, hasFactory: bool, es: seq<Event>): (s: NodeState)
    ensures CacheOk(s)
    decreases |es|
  {
    if es == [] then NewNodeCached(id, boot, hasFactory); NewNode(id, boot, hasFactory)
    else
      var before := Outcome(id, boot, hasFactory, es[..|es| - 1]);
      EventKeepsCache(before, es[|es| - 1]);
      React(before, es[|es| - 1])
  }

  // ---- One change at a time -------------------------------------------------

  ghost predicate FreshAt(boot: Bootstrap, log: Log, i: LogIndex)
    requires 1 <= i < |log|
  {
    var p := DecodeConfigAdd(log[i].command);
    log[i].etype == AddLearner && p.Some? ==> p.value.0 !in Replay(boot, log[..i])
  }

  /** Every AddLearner entry names a node that was not a member before it. */
  ghost predicate LearnersFresh(boot: Bootstrap, log: Log) {
    forall i {:trigger FreshAt(boot, log, i)} | 1 <= i < |log| :: FreshAt(boot, log, i)
  }

  lemma FreshPrefix(boot: Bootstrap, log: Log, n: nat)
    requires LearnersFresh(boot, log) && n <= |log|
    ensures LearnersFresh(boot, log[..n])
  {
    forall i | 1 <= i < n ensures FreshAt(boot, log[..n], i) {
      assert FreshAt(boot, log, i);
      assert log[..n][..i] == log[..i];
    }
  }

  lemma FreshExtended(boot: Bootstrap, log: Log, es: seq<Entry>)
    requires LearnersFresh(boot, log) && |log| > 0
    requires forall e | e in es :: e.etype != AddLearner
    ensures LearnersFresh(boot, log + es)
  {
    forall i | 1 <= i < |log + es| ensures FreshAt(boot, log + es, i) {
      if i < |log| {
        assert FreshAt(boot, log, i);
        assert (log + es)[..i] == log[..i];
      } else {
        assert (log + es)[i] in es;
      }
    }
  }

  lemma FreshLearnerAdded(boot: Bootstrap, log: Log, e: Entry)
    requires LearnersFresh(boot, log) && |log| > 0
    requires DecodeConfigAdd(e.command).Some? ==> DecodeConfigAdd(e.command).value.0 !in Replay(boot, log)
    ensures LearnersFresh(boot, log + [e])
  {
    forall i | 1 <= i < |log + [e]| ensures FreshAt(boot, log + [e], i) {
      if i < |log| {
        assert FreshAt(boot, log, i);
        assert (log + [e])[..i] == log[..i];
      } else {
        assert (log + [e])[..i] == log;
      }
    }
  }

  /** Entries that add fresh learners, or change no membership, leave the voters alone. */
  lemma {:induction false} LearnersKeepVoters(boot: Bootstrap, log: Log, n: nat)
    requires LearnersFresh(boot, log) && 1 <= n <= |log|
    requires forall i | n <= i < |log| :: log[i].etype != AddVoter && log[i].etype != EntryType.RemoveNode
    ensures VotersOf(Replay(boot, log)) == VotersOf(Replay(boot, log[..n]))
    decreases |log|
  {
    if n == |log| {
      assert log[..n] == log;
    } else {
      var init := log[..|log| - 1];
      FreshPrefix(boot, log, |log| - 1);
      LearnersKeepVoters(boot, init, n);
      assert init[..n] == log[..n];
      assert FreshAt(boot, log, |log| - 1);
      assert VotersOf(ApplyEntry(Replay(boot, init), log[|log| - 1])) == VotersOf(Replay(boot, init));
    }
  }

  ghost predicate OneApart(v: set<NodeId>, w: set<NodeId>) {
    |v - w| + |w - v| <= 1
  }

  lemma OneEntryOneVoter(m: Members, e: Entry)
    ensures e.etype == AddVoter || e.etype == EntryType.RemoveNode ==> OneApart(VotersOf(m), VotersOf(ApplyEntry(m, e)))
  {
    var v, w := VotersOf(m), VotersOf(ApplyEntry(m, e));
    match e.etype
    case AddVoter =>
      if DecodeConfigAdd(e.command).Some? {
        assert v - w == {} && w - v <= {DecodeConfigAdd(e.command).value.0};
        SubsetSize(w - v, {DecodeConfigAdd(e.command).value.0});
      }
    case RemoveNode =>
      if DecodeConfigRemove(e.command).Some? {
        assert w - v == {} && v - w <= {DecodeConfigRemove(e.command).value};
        SubsetSize(v - w, {DecodeConfigRemove(e.command).value});
      }
    case _ =>
  }

  /** What a reconfiguration request may append: a learner that is no member, a voter, a removal. */
  ghost predicate MayAppend(s: NodeState, entry: Entry) {
    && !PendingVoterChange(s)
    && match entry.etype
       case AddLearner => DecodeConfigAdd(entry.command).Some?
                          && DecodeConfigAdd(entry.command).value.0 !in Replay(s.bootstrap, s.log)
       case Normal => false
       case _ => true
  }

  lemma AddAppends(s: NodeState, id: NodeId, addr: string)
    requires CacheOk(s) && AddNode(s, id, addr).0.log != s.log
    ensures var entry := Entry(AddLearner, s.term, ConfigAdd(id, addr));
            AddNode(s, id, addr).0.log == s.log + [entry] && MayAppend(s, entry)
  {
  }

  lemma RemoveAppends(s: NodeState, id: NodeId)
    requires CacheOk(s) && RemoveMember(s, id).0.log != s.log
    ensures var entry := Entry(EntryType.RemoveNode, s.term, ConfigRemove(id));
            RemoveMember(s, id).0.log == s.log + [entry] && MayAppend(s, entry)
  {
  }

  lemma PromoteAppends(s: NodeState, id: NodeId, threshold: int)
    requires CacheOk(s) && PromoteTick(s, id, threshold).0.log != s.log
    ensures var entry := Entry(AddVoter, s.term, ConfigAdd(id, if id in s.addrs then s.addrs[id] else ""));
            PromoteTick(s, id, threshold).0.log == s.log + [entry] && MayAppend(s, entry)
  {
  }

  lemma AppendedEntry(s: NodeState, e: Event) returns (entry: Entry)
    requires CacheOk(s) && ChangesCluster(e) && React(s, e).log != s.log
    ensures React(s, e).log == s.log + [entry] && MayAppend(s, entry)
  {
    match e
    case NodeAdded(id, addr) =>
      AddAppends(s, id, addr);
      entry := Entry(AddLearner, s.term, ConfigAdd(id, addr));
    case NodeRemoved(id) =>
      RemoveAppends(s, id);
      entry := Entry(EntryType.RemoveNode, s.term, ConfigRemove(id));
    case PromoterTicked(id, threshold) =>
      PromoteAppends(s, id, threshold);
      entry := Entry(AddVoter, s.term, ConfigAdd(id, if id in s.addrs then s.addrs[id] else ""));
  }

  ghost function VotersIn(s: NodeState, log: Log): set<NodeId> {
    VotersOf(Replay(s.bootstrap, log))
  }

  /** One-step reconfiguration: when AddNode, RemoveNode or the promoter appends, the voters of the
      committed prefix and those of the new log are at most one node apart, and so any majority of
      the former meets any majority of the latter. */
  lemma OneStepReconfiguration(s: NodeState, e: Event, q1: set<NodeId>, q2: set<NodeId>)
    requires CacheOk(s) && LearnersFresh(s.bootstrap, s.log) && s.commit < |s.log|
    requires ChangesCluster(e) && React(s, e).log != s.log
    ensures OneApart(VotersIn(s, s.log[..s.commit + 1]), VotersIn(s, React(s, e).log))
    ensures IsQuorum(VotersIn(s, s.log[..s.commit + 1]), q1) && IsQuorum(VotersIn(s, React(s, e).log), q2)
            ==> q1 * q2 != {}
  {
    var entry := AppendedEntry(s, e);
    var log := s.log + [entry];
    var old', new' := VotersIn(s, s.log[..s.commit + 1]), VotersIn(s, log);
    LearnersKeepVoters(s.bootstrap, s.log, s.commit + 1);
    if entry.etype == AddLearner {
      FreshLearnerAdded(s.bootstrap, s.log, entry);
      LearnersKeepVoters(s.bootstrap, log, |s.log|);
      assert log[..|s.log|] == s.log;
    } else {
      assert log[..|log| - 1] == s.log;
      OneEntryOneVoter(Replay(s.bootstrap, s.log), entry);
    }
    if IsQuorum(old', q1) && IsQuorum(new', q2) {
      QuorumsMeet(old', new', q1, q2);
    }
  }

  /** The request carries on from where it says, in a log whose learners were fresh when added. */
  ghost predicate OffersFrom(boot: Bootstrap, f: Log, a: AppendArgs, m: Log) {
    && a.prevIndex < |m| && m[a.prevIndex].term == a.prevTerm && m[a.prevIndex + 1..] == a.entries
    && Matching(f, m) && LearnersFresh(boot, m)
  }

  /** That learners were fresh when added is kept by everything a node does on its own, and by
      taking over entries from a log of which it holds. */
  lemma EventKeepsLearnersFresh(s: NodeState, e: Event, m: Log)
    requires CacheOk(s) && LearnersFresh(s.bootstrap, s.log)
    requires e.AppendAsked? ==> OffersFrom(s.bootstrap, s.log, e.args, m)
    ensures LearnersFresh(s.bootstrap, React(s, e).log)
  {
    if LeavesLog(e) {
      LeftAlone(s, e);
    } else if ChangesCluster(e) {
      AppendKeepsLearnersFresh(s, e);
    } else {
      match e
      case AppendAsked(a) => MergeKeepsLearnersFresh(s, a, m);
      case VoteAnswered(t, reply) => WinKeepsLearnersFresh(s, t, reply);
      case Submitted(c) => FreshExtended(s.bootstrap, s.log, [Entry(Normal, s.term, c)]);
    }
  }

  lemma WinKeepsLearnersFresh(s: NodeState, t: Term, reply: VoteReply)
    requires |s.log| > 0 && LearnersFresh(s.bootstrap, s.log)
    ensures LearnersFresh(s.bootstrap, HandleVoteReply(s, t, reply).log)
  {
    FreshExtended(s.bootstrap, s.log, LeaderPreamble(s.bootstrap, s.log, s.term));
  }

  lemma AppendedLog(s: NodeState, a: AppendArgs)
    requires |s.log| > 0
    ensures HandleAppend(s, a).0.log ==
            if a.term >= s.term && Accepts(s.log, a.prevIndex, a.prevTerm)
            then MergeEntries(s.log, a.prevIndex, a.entries) else s.log
  {
    if a.term >= s.term && Accepts(s.log, a.prevIndex, a.prevTerm) {
      MergeKeepsStanding(Heed(s, a), a);
      CommitKeepsConfiguration(Merged(Heed(s, a), a), a);
      assert HandleAppend(s, a).0 == AcceptEntries(Heed(s, a), a);
    } else {
      assert HandleAppend(s, a).0 == s || HandleAppend(s, a).0 == Heed(s, a);
    }
  }

  lemma OfferTaken(boot: Bootstrap, f: Log, a: AppendArgs, m: Log)
    requires OffersFrom(boot, f, a, m) && Accepts(f, a.prevIndex, a.prevTerm)
    ensures MergeEntries(f, a.prevIndex, a.entries) == f || MergeEntries(f, a.prevIndex, a.entries) == m
  {
    MergeGivesLonger(f, m, a.prevIndex);
  }

  lemma MergeKeepsLearnersFresh(s: NodeState, a: AppendArgs, m: Log)
    requires |s.log| > 0 && LearnersFresh(s.bootstrap, s.log) && OffersFrom(s.bootstrap, s.log, a, m)
    ensures LearnersFresh(s.bootstrap, HandleAppend(s, a).0.log)
  {
    AppendedLog(s, a);
    if a.term >= s.term && Accepts(s.log, a.prevIndex, a.prevTerm) {
      OfferTaken(s.bootstrap, s.log, a, m);
    }
  }

  lemma AppendKeepsLearnersFresh(s: NodeState, e: Event)
    requires CacheOk(s) && LearnersFresh(s.bootstrap, s.log) && ChangesCluster(e)
    ensures LearnersFresh(s.bootstrap, React(s, e).log)
  {
    if React(s, e).log != s.log {
      var entry := AppendedEntry(s, e);
      if entry.etype == AddLearner {
        FreshLearnerAdded(s.bootstrap, s.log, entry);
      } else {
        FreshExtended(s.bootstrap, s.log, [entry]);
      }
    }
  }

  // ---- Over any sequence of events ------------------------------------------

  /** The bootstrap cluster stays, and the commit index is within the log. */
  ghost predicate Sound(s: NodeState, s': NodeState) {
    s'.bootstrap == s.bootstrap && s'.commit < |s'.log|
  }

  lemma MergedLongEnough(log: Log, prev: LogIndex, es: seq<Entry>)
    requires prev < |log|
    ensures prev + |es| < |MergeEntries(log, prev, es)|
  {
  }

  lemma AcceptKeepsSound(s: NodeState, a: AppendArgs, m: Log)
    requires s.commit < |s.log| && OffersFrom(s.bootstrap, s.log, a, m) && s.commit < |m|
    requires Accepts(s.log, a.prevIndex, a.prevTerm)
    ensures Sound(s, AcceptEntries(s, a))
  {
    OfferTaken(s.bootstrap, s.log, a, m);
    MergedLongEnough(s.log, a.prevIndex, a.entries);
    MergeKeepsStanding(s, a);
    CommitKeepsConfiguration(Merged(s, a), a);
  }

  lemma AppendKeepsSound(s: NodeState, a: AppendArgs, m: Log)
    requires s.commit < |s.log| && OffersFrom(s.bootstrap, s.log, a, m) && s.commit < |m|
    ensures Sound(s, HandleAppend(s, a).0)
  {
    var s1 := Heed(s, a);
    HeedKeepsConfiguration(s, a);
    assert s1.commit == s.commit;
    if a.term >= s.term && Accepts(s1.log, a.prevIndex, a.prevTerm) { AcceptKeepsSound(s1, a, m); }
  }

  lemma AnswerKeepsSound(s: NodeState, p: NodeId, a: AppendArgs, reply: AppendReply)
    requires s.commit < |s.log|
    ensures Sound(s, HandleAppendReply(s, p, a, reply).0)
  {
    AnswerLeavesAlone(s, p, a, reply);
  }

  lemma VoteReplyKeepsSound(s: NodeState, t: Term, reply: VoteReply)
    requires s.commit < |s.log|
    ensures Sound(s, HandleVoteReply(s, t, reply))
  {
    VoteReplyOutcomes(s, t, reply);
  }

  lemma VoteKeepsSound(s: NodeState, a: VoteArgs, inContact: bool)
    requires s.commit < |s.log|
    ensures Sound(s, HandleVote(s, a, inContact).0)
  {
    VoteLeavesAlone(s, a, inContact);
    if !Disregards(s, a, inContact) {
      var s1 := HearCandidate(s, a);
      assert s1.commit == s.commit && s1.(votedFor := a.candidate).commit == s.commit;
    }
  }

  lemma ConfigEntrySound(s: NodeState, t: EntryType, c: Command)
    requires s.commit < |s.log|
    ensures Sound(s, AppendConfig(s, t, c))
  {
  }

  lemma AddKeepsSound(s: NodeState, id: NodeId, addr: string)
    requires s.commit < |s.log|
    ensures Sound(s, AddNode(s, id, addr).0)
  {
    ConfigEntrySound(s, AddLearner, ConfigAdd(id, addr));
  }

  lemma RemoveKeepsSound(s: NodeState, id: NodeId)
    requires s.commit < |s.log|
    ensures Sound(s, RemoveMember(s, id).0)
  {
    ConfigEntrySound(s, EntryType.RemoveNode, ConfigRemove(id));
  }

  lemma PromoteKeepsSound(s: NodeState, id: NodeId, threshold: int)
    requires s.commit < |s.log|
    ensures Sound(s, PromoteTick(s, id, threshold).0)
  {
    ConfigEntrySound(s, AddVoter, ConfigAdd(id, if id in s.addrs then s.addrs[id] else ""));
  }

  lemma AdminKeepsSound(s: NodeState, e: Event)
    requires s.commit < |s.log| && ChangesCluster(e)
    ensures Sound(s, React(s, e))
  {
    match e
    case NodeAdded(id, addr) => AddKeepsSound(s, id, addr);
    case NodeRemoved(id) => RemoveKeepsSound(s, id);
    case PromoterTicked(id, threshold) => PromoteKeepsSound(s, id, threshold);
  }

  lemma QuietKeepsSound(s: NodeState, e: Event)
    requires s.commit < |s.log| && LeavesLog(e) && !e.VoteAsked? && !e.AppendAnswered?
    ensures Sound(s, React(s, e))
  {
  }

  lemma OthersKeepSound(s: NodeState, e: Event)
    requires s.commit < |s.log| && !e.AppendAsked?
    ensures Sound(s, React(s, e))
  {
    match e
    case VoteAnswered(t, reply) => VoteReplyKeepsSound(s, t, reply);
    case VoteAsked(a, inContact) => VoteKeepsSound(s, a, inContact);
    case AppendAnswered(p, a, reply) => AnswerKeepsSound(s, p, a, reply);
    case Submitted(c) => assert Sound(s, Submit(s, c));
    case _ => if ChangesCluster(e) { AdminKeepsSound(s, e); } else { QuietKeepsSound(s, e); }
  }

  /** An append request comes from a log as in `OffersFrom` that reaches at least as far as the node has
      committed, as every leader's does that has what is committed. */
  ghost predicate FairlyAsked(s: NodeState, e: Event) {
    e.AppendAsked? ==> exists m :: OffersFrom(s.bootstrap, s.log, e.args, m) && s.commit < |m|
  }

  ghost predicate AllFairlyAsked(id: NodeId, boot: Bootstrap, hasFactory: bool, es: seq<Event>) {
    forall k {:trigger es[k]} | 0 <= k < |es| :: FairlyAsked(Outcome(id, boot, hasFactory, es[..k]), es[k])
  }

  lemma FairlyAskedBefore(id: NodeId, boot: Bootstrap, hasFactory: bool, es: seq<Event>, n: nat)
    requires AllFairlyAsked(id, boot, hasFactory, es) && n <= |es|
    ensures AllFairlyAsked(id, boot, hasFactory, es[..n])
  {
    forall k | 0 <= k < n ensures FairlyAsked(Outcome(id, boot, hasFactory, es[..n][..k]), es[..n][k]) {
      assert es[..n][..k] == es[..k] && es[..n][k] == es[k];
    }
  }

  ghost predicate FreshAndSound(s: NodeState) {
    LearnersFresh(s.bootstrap, s.log) && s.commit < |s.log|
  }

  lemma FairEvent(s: NodeState, e: Event)
    requires CacheOk(s) && FreshAndSound(s) && FairlyAsked(s, e)
    ensures FreshAndSound(React(s, e))
  {
    if e.AppendAsked? {
      var m :| OffersFrom(s.bootstrap, s.log, e.args, m) && s.commit < |m|;
      EventKeepsLearnersFresh(s, e, m);
      AppendKeepsSound(s, e.args, m);
    } else {
      EventKeepsLearnersFresh(s, e, s.log);
      OthersKeepSound(s, e);
    }
  }

  lemma NewNodeFresh(id: NodeId, boot: Bootstrap, hasFactory: bool)
    ensures FreshAndSound(NewNode(id, boot, hasFactory))
  {
  }

  /** After any sequence of events learners were fresh when added, if they were so in the logs the node
      was offered. */
  lemma {:induction false} OutcomeFresh(id: NodeId, boot: Bootstrap, hasFactory: bool, es: seq<Event>)
    requires AllFairlyAsked(id, boot, hasFactory, es)
    ensures FreshAndSound(Outcome(id, boot, hasFactory, es))
    decreases |es|
  {
    if es == [] {
      NewNodeFresh(id, boot, hasFactory);
    } else {
      var n := |es| - 1;
      FairlyAskedBefore(id, boot, hasFactory, es, n);
      OutcomeFresh(id, boot, hasFactory, es[..n]);
      assert FairlyAsked(Outcome(id, boot, hasFactory, es[..n]), es[n]);
      FairEvent(Outcome(id, boot, hasFactory, es[..n]), es[n]);
    }
  }

  ghost predicate OneStep(s: NodeState, s': NodeState) {
    && s.commit < |s.log|
    && var (v, w) := (VotersIn(s, s.log[..s.commit + 1]), VotersIn(s, s'.log));
    OneApart(v, w) && forall q1, q2 :: IsQuorum(v, q1) && IsQuorum(w, q2) ==> q1 * q2 != {}
  }

  lemma IsOneStep(s: NodeState, e: Event)
    requires CacheOk(s) && FreshAndSound(s) && ChangesCluster(e) && React(s, e).log != s.log
    ensures OneStep(s, React(s, e))
  {
    var v, w := VotersIn(s, s.log[..s.commit + 1]), VotersIn(s, React(s, e).log);
    OneStepReconfiguration(s, e, {}, {});
    forall q1, q2 | IsQuorum(v, q1) && IsQuorum(w, q2) ensures q1 * q2 != {} { QuorumsMeet(v, w, q1, q2); }
  }

  /** So in any sequence of events every reconfiguration is one step, wherever in the sequence it comes. */
  lemma EveryReconfigurationOneStep(id: NodeId, boot: Bootstrap, hasFactory: bool, es: seq<Event>, k: nat)
    requires AllFairlyAsked(id, boot, hasFactory, es) && k < |es| && ChangesCluster(es[k])
    ensures var s := Outcome(id, boot, hasFactory, es[..k]); React(s, es[k]).log != s.log ==> OneStep(s, React(s, es[k]))
  {
    var s := Outcome(id, boot, hasFactory, es[..k]);
    FairlyAskedBefore(id, boot, hasFactory, es, k);
    OutcomeFresh(id, boot, hasFactory, es[..k]);
    if React(s, es[k]).log != s.log { IsOneStep(s, es[k]); }
  }
}

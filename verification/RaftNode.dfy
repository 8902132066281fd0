/** One Raft node in place: the lock-held critical sections of the implementation, loops included.
    Each is proved to do what the corresponding function of `NodeSpec` says. */
module RaftNode {
  import opened RaftTypes
  import opened Quorums
  import opened Membership
  import S = NodeSpec

  /** Go ranges over maps and sets in no particular order. */
  method TakeOne<T>(s: set<T>) returns (x: T)
    requires s != {}
    ensures x in s
  {
    ghost var member := Pick(s);
    x :| x in s;
  }

  lemma SetStep<T>(all: set<T>, rest: set<T>, x: T)
    requires x in rest && rest <= all
    ensures all - (rest - {x}) == (all - rest) + {x}
  {
  }

  /** sortedBootstrapIDs: the keys in increasing order. */
  method SortedBootstrapIds(ids: set<NodeId>) returns (sorted: seq<NodeId>)
    ensures sorted == SortedIds(ids)
  {
    sorted := [];
    var rest := ids;
    while rest != {}
      invariant rest <= ids
      invariant SortedIdsOf(sorted, ids - rest)
      invariant forall x, y | x in sorted && y in rest :: x < y
      decreases |rest|
    {
      var m := Least(rest);
      AppendGreatest(sorted, ids - rest, m);
      SetStep(ids, rest, m);
      sorted, rest := sorted + [m], rest - {m};
    }
    assert ids - rest == ids;
    SortedUnique(sorted, SortedIds(ids), ids);
  }

  method Least(s: set<NodeId>) returns (m: NodeId)
    requires s != {}
    ensures m in s && forall x | x in s :: m <= x
  {
    m := TakeOne(s);
    var rest := s - {m};
    while rest != {}
      invariant rest <= s && m in s
      invariant forall x | x in s && x !in rest :: m <= x
      decreases |rest|
    {
      var x := TakeOne(rest);
      rest := rest - {x};
      if x < m { m := x; }
    }
  }

  lemma AppendGreatest(ids: seq<NodeId>, s: set<NodeId>, m: NodeId)
    requires SortedIdsOf(ids, s) && forall x | x in ids :: x < m
    ensures SortedIdsOf(ids + [m], s + {m})
  {
    assert forall i | 0 <= i < |ids| :: ids[i] in ids;
  }

  /** One turn of a loop that gives every key of `all` but `skip` the value `v`. */
  lemma AssignOneMore(base: map<NodeId, LogIndex>, all: set<NodeId>, rest: set<NodeId>, p: NodeId, skip: NodeId, v: LogIndex)
    requires p in rest && rest <= all
    ensures var before := S.Assign(base, all - rest - {skip}, v);
            S.Assign(base, all - (rest - {p}) - {skip}, v) == if p == skip then before else before[p := v]
  {
  }

  lemma NewcomersOneMore(base: map<NodeId, LogIndex>, known: set<NodeId>, members: set<NodeId>, rest: set<NodeId>,
                         p: NodeId, self: NodeId, v: LogIndex)
    requires p in rest && rest <= members
    ensures var before := S.Assign(base, S.Newcomers(known, members - rest, self), v);
            && S.Assign(base, S.Newcomers(known, members - (rest - {p}), self), v)
               == if p != self && p !in known then before[p := v] else before
  {
  }

  lemma DepartedOneMore(base: map<NodeId, LogIndex>, known: set<NodeId>, rest: set<NodeId>, p: NodeId,
                        members: set<NodeId>, self: NodeId)
    requires p in rest && rest <= known
    ensures var before := base - S.Departed(known - rest, members, self);
            base - S.Departed(known - (rest - {p}), members, self)
            == if p !in members || p == self then before - {p} else before
  {
  }

  lemma DepartedThenNew(next: map<NodeId, LogIndex>, members: set<NodeId>, self: NodeId)
    ensures S.Newcomers((next - S.Departed(next.Keys, members, self)).Keys, members, self)
            == S.Newcomers(next.Keys, members, self)
  {
  }

  lemma OneMoreEntry(es: seq<Entry>, i: nat)
    requires i < |es|
    ensures (exists e | e in es[..i + 1] :: ChangesMembership(e.etype))
            <==> (exists e | e in es[..i] :: ChangesMembership(e.etype)) || ChangesMembership(es[i].etype)
  {
    assert es[..i + 1] == es[..i] + [es[i]];
  }

  class Raft {
    const id: NodeId
    const bootstrapCluster: Bootstrap
    const peerFactory: bool

    var state: S.Role
    var currentTerm: Term
    var votedFor: NodeId
    var log: Log
    var commitIndex: LogIndex
    var lastApplied: LogIndex
    var nextIndex: map<NodeId, LogIndex>
    var matchIndex: map<NodeId, LogIndex>
    var appendInFlight: map<NodeId, bool>
    var hintLeaderID: NodeId
    var activeMembers: set<NodeId>
    var voterMembers: set<NodeId>
    var memberAddrs: map<NodeId, string>
    var peers: map<NodeId, S.Peer>

    /** The variables the goroutines of the current election share. */
    var votesReceived: nat
    var votesNeeded: nat

    /** The applier's local variables, and the commands it has handed to the state machine. */
    var batch: Option<S.Batch>
    var fsm: seq<Command>

    ghost function State(): S.NodeState
      reads this
    {
      S.NodeState(id, bootstrapCluster, peerFactory, state, currentTerm, votedFor, log, commitIndex, lastApplied,
                  nextIndex, matchIndex, appendInFlight, hintLeaderID, activeMembers, voterMembers, memberAddrs,
                  peers, votesReceived, votesNeeded, batch, fsm)
    }

    constructor (id: NodeId, initialCluster: Bootstrap, peerFactory: bool)
      ensures State() == S.NewNode(id, initialCluster, peerFactory)
    {
      this.id, bootstrapCluster, this.peerFactory := id, initialCluster, peerFactory;
      state, currentTerm, votedFor, log := S.Follower, 0, NO_NODE, [SENTINEL];
      commitIndex, lastApplied := 0, 0;
      nextIndex, matchIndex, appendInFlight, hintLeaderID := map[], map[], map[], NO_NODE;
      activeMembers, voterMembers, memberAddrs, peers := {}, {}, map[], map[];
      votesReceived, votesNeeded, batch, fsm := 0, 0, None, [];
      new;
      RebuildVolatilePeers(|log| - 1);
    }

    // ---- util.go ------------------------------------------------------------

    function QuorumVotes(): nat
      reads this
    {
      QuorumSize(|voterMembers|)
    }

    function MatchIndexOf(p: NodeId): LogIndex
      reads this
    {
      if p in matchIndex then matchIndex[p] else 0
    }

    // ---- state.go -----------------------------------------------------------

    method BecomeFollower(term: Term)
      modifies this
      ensures State() == S.BecomeFollower(old(State()), term)
    {
      state, currentTerm, votedFor := S.Follower, term, NO_NODE;
    }

    method BecomeLeader()
      requires |log| > 0
      modifies this
      ensures State() == S.BecomeLeader(old(State()))
    {
      if state == S.Leader { return; }
      TakeOffice();
      AppendFoundingCluster();
      ResetIndices(|log|);
      Append(S.NoOp(currentTerm));
    }

    method TakeOffice()
      modifies this
      ensures State() == old(State()).(role := S.Leader, hint := id)
    {
      state, hintLeaderID := S.Leader, id;
    }

    method Append(e: Entry)
      modifies this
      ensures State() == old(State()).(log := old(log) + [e])
    {
      log := log + [e];
    }

    /** On a fresh log the first leader writes down the cluster it was started with. */
    method AppendFoundingCluster()
      modifies this
      ensures State() == old(State()).(log := log)
      ensures log + [S.NoOp(currentTerm)] == old(log) + S.LeaderPreamble(bootstrapCluster, old(log), currentTerm)
    {
      if |log| == 1 && |bootstrapCluster| > 0 {
        var ids := SortedBootstrapIds(bootstrapCluster.Keys);
        ghost var block := FoundingBlock(bootstrapCluster, currentTerm);
        var i := 0;
        while i < |ids|
          invariant 0 <= i <= |ids| == |block|
          invariant State() == old(State()).(log := old(log) + block[..i])
        {
          assert ids[i] in ids;
          Append(Entry(AddVoter, currentTerm, ConfigAdd(ids[i], bootstrapCluster[ids[i]])));
          assert block[..i + 1] == block[..i] + [block[i]];
          i := i + 1;
        }
        assert block[..i] == block;
      }
    }

    /** Every peer is probed from the end of the log. */
    method ResetIndices(next: LogIndex)
      modifies this
      ensures var s, others := old(State()), peers.Keys - {id};
              State() == s.(nextIndex := S.Assign(s.nextIndex, others, next), matchIndex := S.Assign(s.matchIndex, others, 0))
    {
      AssignIndices(next);
    }

    method AssignIndices(next: LogIndex)
      modifies this`nextIndex, this`matchIndex
      ensures nextIndex == S.Assign(old(nextIndex), peers.Keys - {id}, next)
      ensures matchIndex == S.Assign(old(matchIndex), peers.Keys - {id}, 0)
    {
      var rest := peers.Keys;
      while rest != {}
        invariant rest <= peers.Keys
        invariant nextIndex == S.Assign(old(nextIndex), peers.Keys - rest - {id}, next)
        invariant matchIndex == S.Assign(old(matchIndex), peers.Keys - rest - {id}, 0)
        decreases |rest|
      {
        var p := TakeOne(rest);
        AssignOneMore(old(nextIndex), peers.Keys, rest, p, id, next);
        AssignOneMore(old(matchIndex), peers.Keys, rest, p, id, 0);
        rest := rest - {p};
        if p != id {
          nextIndex := nextIndex[p := next];
          matchIndex := matchIndex[p := 0];
        }
      }
      assert peers.Keys - rest == peers.Keys;
    }

    method BecomeCandidate()
      modifies this
      ensures State() == old(State()).(role := S.Candidate, term := old(currentTerm) + 1, votedFor := id)
    {
      state, currentTerm, votedFor := S.Candidate, currentTerm + 1, id;
    }

    // ---- election.go --------------------------------------------------------

    predicate ShouldStartElection(timedOut: bool)
      reads this
    {
      state != S.Leader && |voterMembers| != 0 && id in voterMembers && timedOut
    }

    /** Stands for election; the result is whom to ask for a vote, and how. */
    method StartElection() returns (args: VoteArgs, targets: set<NodeId>)
      requires |log| > 0
      modifies this
      ensures State() == S.StartElection(old(State()))
      ensures args == S.VoteRequest(State()) && targets == S.VoteRecipients(State())
    {
      BecomeCandidate();
      votesReceived := if id in voterMembers then 1 else 0;
      votesNeeded := QuorumVotes();
      args := VoteArgs(currentTerm, id, |log| - 1, log[|log| - 1].term);
      targets := VotingPeers();
    }

    /** The peers that are voters and can be reached. */
    method VotingPeers() returns (targets: set<NodeId>)
      ensures targets == S.VoteRecipients(State())
    {
      targets := {};
      var rest := peers.Keys;
      while rest != {}
        invariant rest <= peers.Keys
        invariant targets == set p | p in S.VoteRecipients(State()) && p !in rest
        decreases |rest|
      {
        var p := TakeOne(rest);
        rest := rest - {p};
        if p != id && p in voterMembers && peers[p].client.Some? { targets := targets + {p}; }
      }
    }

    method OnVoteReply(electionTerm: Term, reply: VoteReply)
      requires |log| > 0
      modifies this
      ensures State() == S.HandleVoteReply(old(State()), electionTerm, reply)
    {
      if state != S.Candidate || currentTerm != electionTerm { return; }
      if reply.term > electionTerm {
        BecomeFollower(reply.term);
        return;
      }
      if reply.granted {
        votesReceived := votesReceived + 1;
        if votesReceived == votesNeeded { BecomeLeader(); }
      }
    }

    // ---- service.go ---------------------------------------------------------

    method RequestVote(args: VoteArgs, inContact: bool) returns (reply: VoteReply)
      requires |log| > 0
      modifies this
      ensures (State(), reply) == S.HandleVote(old(State()), args, inContact)
    {
      if args.term < currentTerm { return VoteReply(currentTerm, false); }
      if args.term > currentTerm && hintLeaderID != NO_NODE && hintLeaderID != args.candidate && inContact {
        return VoteReply(currentTerm, false);
      }
      if args.term > currentTerm { BecomeFollower(args.term); }
      if id !in voterMembers { return VoteReply(currentTerm, false); }
      if votedFor != NO_NODE && votedFor != args.candidate { return VoteReply(currentTerm, false); }
      var lastIndex, lastTerm := |log| - 1, log[|log| - 1].term;
      if args.lastTerm > lastTerm || (args.lastTerm == lastTerm && args.lastIndex >= lastIndex) {
        votedFor := args.candidate;
        return VoteReply(currentTerm, true);
      }
      return VoteReply(currentTerm, false);
    }

    /** The first index of the run of equal terms that ends at `i`. */
    method ConflictIndex(i: LogIndex) returns (conflictIndex: LogIndex)
      requires i < |log|
      ensures conflictIndex == S.ConflictStart(log, i)
    {
      conflictIndex := i;
      while conflictIndex > 1 && log[conflictIndex - 1].term == log[i].term
        invariant conflictIndex <= i && log[conflictIndex].term == log[i].term
        invariant S.ConflictStart(log, conflictIndex) == S.ConflictStart(log, i)
      {
        conflictIndex := conflictIndex - 1;
      }
    }

    /** The truncate-or-append loop. */
    method AppendNewEntries(prev: LogIndex, entries: seq<Entry>) returns (needVolatileRebuild: bool)
      requires prev < |log|
      modifies this`log
      ensures log == S.MergeEntries(old(log), prev, entries)
      ensures needVolatileRebuild == S.NeedsRebuild(old(log), prev, entries)
    {
      ghost var f := log;
      ghost var n := S.AgreeFrom(f, prev, entries, 0);
      needVolatileRebuild := false;
      var i := 0;
      while i < |entries|
        invariant 0 <= i <= |entries|
        invariant log == if i <= n then f else f[..prev + 1 + n] + entries[n..i]
        invariant needVolatileRebuild <==>
                    (n < i && prev + 1 + n < |f|) || exists e | e in entries[..i] :: ChangesMembership(e.etype)
      {
        var entry := entries[i];
        var index := prev + 1 + i;
        if index < |log| {
          if log[index].term != entry.term {
            log := log[..index] + [entry];
            needVolatileRebuild := true;
          }
        } else {
          log := log + [entry];
        }
        if ChangesMembership(entry.etype) { needVolatileRebuild := true; }
        OneMoreEntry(entries, i);
        i := i + 1;
      }
      assert entries[..i] == entries;
      assert n < |entries| ==> entries[n..i] == entries[n..];
    }

    method AppendEntries(args: AppendArgs) returns (reply: AppendReply)
      requires |log| > 0
      modifies this
      ensures (State(), reply) == S.HandleAppend(old(State()), args)
    {
      if args.term < currentTerm { return AppendReply(currentTerm, false, 0, 0); }
      HeedSender(args);
      reply := CheckConsistency(args);
      if reply.success { TakeEntries(args); }
    }

    method HeedSender(args: AppendArgs)
      modifies this
      ensures State() == S.Heed(old(State()), args)
    {
      if args.term > currentTerm { BecomeFollower(args.term); }
      hintLeaderID := args.leader;
    }

    /** Whether the log holds the entry before the new ones, and where it differs if not. */
    method CheckConsistency(args: AppendArgs) returns (reply: AppendReply)
      requires |log| > 0
      ensures reply == if S.Accepts(log, args.prevIndex, args.prevTerm) then AppendReply(currentTerm, true, 0, 0)
                       else S.ConflictReply(log, currentTerm, args.prevIndex)
    {
      var lastLogIndex := |log| - 1;
      if args.prevIndex > lastLogIndex { return AppendReply(currentTerm, false, lastLogIndex + 1, 0); }
      if log[args.prevIndex].term != args.prevTerm {
        var conflictIndex := ConflictIndex(args.prevIndex);
        return AppendReply(currentTerm, false, conflictIndex, log[args.prevIndex].term);
      }
      return AppendReply(currentTerm, true, 0, 0);
    }

    /** Merge, rebuild if needed, and follow the leader's commit index. */
    method TakeEntries(args: AppendArgs)
      requires args.prevIndex < |log|
      modifies this
      ensures State() == S.AcceptEntries(old(State()), args)
    {
      MergeAndRebuild(args);
      if args.leaderCommit > commitIndex {
        var lastNewIndex := args.prevIndex + |args.entries|;
        commitIndex := if args.leaderCommit <= lastNewIndex then args.leaderCommit else lastNewIndex;
      }
    }

    method MergeAndRebuild(args: AppendArgs)
      requires args.prevIndex < |log|
      modifies this
      ensures State() == S.Merged(old(State()), args)
    {
      if |args.entries| > 0 {
        var needVolatileRebuild := AppendNewEntries(args.prevIndex, args.entries);
        if needVolatileRebuild { RebuildVolatilePeers(|log| - 1); }
      }
    }

    // ---- membership.go ------------------------------------------------------

    /** The two maps hold what the configuration says. */
    ghost predicate Holds(members: map<NodeId, string>, roles: map<NodeId, PeerRole>, m: Members) {
      members.Keys == m.Keys && roles.Keys == m.Keys && forall p | p in m :: m[p] == Member(members[p], roles[p])
    }

    /** Every node of the bootstrap cluster, as a voter. */
    method BootstrapMembers() returns (members: map<NodeId, string>, roles: map<NodeId, PeerRole>)
      ensures Holds(members, roles, BootMembers(bootstrapCluster))
    {
      members, roles := map[], map[];
      var rest := bootstrapCluster.Keys;
      while rest != {}
        invariant rest <= bootstrapCluster.Keys
        invariant members.Keys == roles.Keys == bootstrapCluster.Keys - rest
        invariant forall p | p in members :: members[p] == bootstrapCluster[p] && roles[p] == Voter
        decreases |rest|
      {
        var p := TakeOne(rest);
        rest := rest - {p};
        members, roles := members[p := bootstrapCluster[p]], roles[p := Voter];
      }
    }

    /** Bootstrap cluster plus log[1..lastIndex]. */
    method ReplayMembers(lastIndex: LogIndex) returns (members: map<NodeId, string>, roles: map<NodeId, PeerRole>)
      requires lastIndex < |log|
      ensures Holds(members, roles, Replay(bootstrapCluster, log[..lastIndex + 1]))
    {
      members, roles := BootstrapMembers();
      var i := 1;
      while i <= lastIndex
        invariant 1 <= i <= lastIndex + 1
        invariant Holds(members, roles, Replay(bootstrapCluster, log[..i]))
      {
        var e := log[i];
        assert log[..i + 1][..i] == log[..i];
        match e.etype {
          case AddLearner =>
            var p := DecodeConfigAdd(e.command);
            if p.Some? { members, roles := members[p.value.0 := p.value.1], roles[p.value.0 := Learner]; }
          case AddVoter =>
            var p := DecodeConfigAdd(e.command);
            if p.Some? { members, roles := members[p.value.0 := p.value.1], roles[p.value.0 := Voter]; }
          case RemoveNode =>
            var p := DecodeConfigRemove(e.command);
            if p.Some? { members, roles := members - {p.value}, roles - {p.value}; }
          case Normal =>
        }
        i := i + 1;
      }
    }

    /** One peer for every other member; a peer whose address did not change keeps its client. */
    method NewPeers(members: map<NodeId, string>, roles: map<NodeId, PeerRole>, ghost m: Members)
      returns (newPeers: map<NodeId, S.Peer>)
      requires Holds(members, roles, m)
      ensures newPeers == S.RebuiltPeers(State(), m)
    {
      newPeers := map[];
      var rest := members.Keys;
      while rest != {}
        invariant rest <= members.Keys
        invariant newPeers.Keys == m.Keys - rest - {id}
        invariant forall p | p in newPeers :: newPeers[p] == S.RebuiltPeer(State(), p, m[p])
        decreases |rest|
      {
        var p := TakeOne(rest);
        rest := rest - {p};
        if p == id { continue; }
        var addr, role := members[p], roles[p];
        var client: Option<S.Client>;
        if addr != "" {
          if p in memberAddrs && memberAddrs[p] == addr && p in peers && peers[p].client.Some? {
            client := peers[p].client;
          } else {
            client := if peerFactory then Some(S.Client(p, addr)) else None;
          }
        } else {
          client := if p in peers then peers[p].client else None;
        }
        assert S.Peer(client, role) == S.RebuiltPeer(State(), p, m[p]);
        newPeers := newPeers[p := S.Peer(client, role)];
      }
    }

    /** New members start at the end of the log. */
    method AddIndices()
      modifies this`nextIndex, this`matchIndex
      ensures nextIndex == S.Assign(old(nextIndex), S.Newcomers(old(nextIndex).Keys, activeMembers, id), |log|)
      ensures matchIndex == S.Assign(old(matchIndex), S.Newcomers(old(nextIndex).Keys, activeMembers, id), 0)
    {
      ghost var known := nextIndex.Keys;
      var rest := activeMembers;
      while rest != {}
        invariant rest <= activeMembers
        invariant nextIndex == S.Assign(old(nextIndex), S.Newcomers(known, activeMembers - rest, id), |log|)
        invariant matchIndex == S.Assign(old(matchIndex), S.Newcomers(known, activeMembers - rest, id), 0)
        decreases |rest|
      {
        var p := TakeOne(rest);
        NewcomersOneMore(old(nextIndex), known, activeMembers, rest, p, id, |log|);
        NewcomersOneMore(old(matchIndex), known, activeMembers, rest, p, id, 0);
        assert p in nextIndex <==> p in known;
        rest := rest - {p};
        if p != id && p !in nextIndex {
          nextIndex := nextIndex[p := |log|];
          matchIndex := matchIndex[p := 0];
        }
      }
      assert activeMembers - rest == activeMembers;
    }

    /** Indices of nodes that left are dropped. */
    method DropIndices()
      modifies this`nextIndex, this`matchIndex
      ensures nextIndex == old(nextIndex) - S.Departed(old(nextIndex).Keys, activeMembers, id)
      ensures matchIndex == old(matchIndex) - S.Departed(old(nextIndex).Keys, activeMembers, id)
    {
      ghost var known := nextIndex.Keys;
      var rest := nextIndex.Keys;
      while rest != {}
        invariant rest <= known
        invariant nextIndex == old(nextIndex) - S.Departed(known - rest, activeMembers, id)
        invariant matchIndex == old(matchIndex) - S.Departed(known - rest, activeMembers, id)
        decreases |rest|
      {
        var p := TakeOne(rest);
        DepartedOneMore(old(nextIndex), known, rest, p, activeMembers, id);
        DepartedOneMore(old(matchIndex), known, rest, p, activeMembers, id);
        rest := rest - {p};
        if p !in activeMembers || p == id {
          nextIndex := nextIndex - {p};
          matchIndex := matchIndex - {p};
        }
      }
      assert known - rest == known;
    }

    method UpdateIndices()
      modifies this`nextIndex, this`matchIndex
      ensures var known := old(nextIndex).Keys;
              var (gone, added) := (S.Departed(known, activeMembers, id), S.Newcomers(known, activeMembers, id));
              && nextIndex == S.Assign(old(nextIndex) - gone, added, |log|)
              && matchIndex == S.Assign(old(matchIndex) - gone, added, 0)
    {
      DepartedThenNew(nextIndex, activeMembers, id);
      DropIndices();
      AddIndices();
    }

    lemma MembersHeld(members: map<NodeId, string>, roles: map<NodeId, PeerRole>, m: Members)
      requires Holds(members, roles, m)
      ensures members == AddrsOf(m)
      ensures (set p | p in members && roles[p] == Voter) == VotersOf(m)
    {
      forall p | p in m ensures members[p] == m[p].addr && roles[p] == m[p].role {
        assert m[p] == Member(members[p], roles[p]);
      }
    }

    /** Reapplies the bootstrap cluster and the log up to `lastIndex`, which every caller gives as
        the end of the log. */
    method RebuildVolatilePeers(lastIndex: LogIndex)
      requires lastIndex + 1 == |log|
      modifies this
      ensures State() == S.Rebuild(old(State()))
    {
      InstallMembers(lastIndex);
      UpdateIndices();
    }

    method InstallMembers(lastIndex: LogIndex)
      requires lastIndex + 1 == |log|
      modifies this
      ensures var (s, m) := (old(State()), Replay(bootstrapCluster, old(log)));
              State() == s.(active := m.Keys, voters := VotersOf(m), addrs := AddrsOf(m), peers := S.RebuiltPeers(s, m))
    {
      ghost var m := Replay(bootstrapCluster, log);
      assert log[..lastIndex + 1] == log;
      var members, roles := ReplayMembers(lastIndex);
      MembersHeld(members, roles, m);
      var newPeers := NewPeers(members, roles, m);
      var voters := set p | p in members && roles[p] == Voter;
      Install(members.Keys, voters, members, newPeers);
    }

    method Install(active: set<NodeId>, voters: set<NodeId>, addrs: map<NodeId, string>, newPeers: map<NodeId, S.Peer>)
      modifies this
      ensures State() == old(State()).(active := active, voters := voters, addrs := addrs, peers := newPeers)
    {
      activeMembers, voterMembers, memberAddrs, peers := active, voters, addrs, newPeers;
    }

    method HasPendingAddVoterOrRemove() returns (pending: bool)
      ensures pending <==> S.PendingVoterChange(State())
    {
      var i := commitIndex + 1;
      while i < |log|
        invariant commitIndex + 1 <= i
        invariant forall j | commitIndex < j < i && j < |log| :: log[j].etype != AddVoter && log[j].etype != RemoveNode
      {
        if log[i].etype == AddVoter || log[i].etype == RemoveNode { return true; }
        i := i + 1;
      }
      return false;
    }

    method HasPendingMembershipCommit() returns (pending: bool)
      ensures pending <==> S.PendingMembership(State())
    {
      var i := commitIndex + 1;
      while i < |log|
        invariant commitIndex + 1 <= i
        invariant forall j | commitIndex < j < i && j < |log| :: !ChangesMembership(log[j].etype)
      {
        if ChangesMembership(log[i].etype) { return true; }
        i := i + 1;
      }
      return false;
    }

    method AppendConfig(t: EntryType, c: Command)
      modifies this
      ensures State() == S.AppendConfig(old(State()), t, c)
    {
      Append(Entry(t, currentTerm, c));
      RebuildVolatilePeers(|log| - 1);
    }

    /** One tick of the catch-up promoter. */
    method PromoterTick(target: NodeId, threshold: int) returns (outcome: S.PromoteOutcome)
      requires |log| > 0
      modifies this
      ensures (State(), outcome) == S.PromoteTick(old(State()), target, threshold)
    {
      if state != S.Leader { return S.GiveUp; }
      if target !in peers || peers[target].role != Learner { return S.GiveUp; }
      var pending := HasPendingAddVoterOrRemove();
      if pending { return S.TryLater; }
      var addr := if target in memberAddrs then memberAddrs[target] else "";
      var delta := |log| - 1 - MatchIndexOf(target);
      if delta >= threshold { return S.TryLater; }
      AppendConfig(AddVoter, ConfigAdd(target, addr));
      return S.Promoted;
    }

    // ---- raft.go ------------------------------------------------------------

    method Submit(command: Command) returns (isLeader: bool, index: LogIndex, term: Term)
      modifies this
      ensures State() == S.Submit(old(State()), command)
      ensures isLeader == (old(state) == S.Leader)
      ensures if isLeader then index == |log| - 1 && term == currentTerm && log[index].command == command
              else index == 0 && term == 0
    {
      if state != S.Leader { return false, 0, 0; }
      Append(Entry(Normal, currentTerm, command));
      return true, |log| - 1, currentTerm;
    }

    method AddNode(node: NodeId, addr: string) returns (err: Option<S.AdminError>)
      modifies this
      ensures (State(), err) == S.AddNode(old(State()), node, addr)
    {
      if state != S.Leader { return Some(S.NotLeader); }
      var pending := HasPendingAddVoterOrRemove();
      if pending { return Some(S.ChangeInProgress); }
      if node in activeMembers { return Some(S.AlreadyMember); }
      AppendConfig(AddLearner, ConfigAdd(node, addr));
      return None;
    }

    /** Up to the point where the lock is released to wait for the entry to be applied. */
    method RemoveMember(node: NodeId) returns (err: Option<S.AdminError>)
      modifies this
      ensures (State(), err) == S.RemoveMember(old(State()), node)
    {
      if state != S.Leader { return Some(S.NotLeader); }
      if node !in activeMembers { return Some(S.NotMember); }
      var pending := HasPendingMembershipCommit();
      if pending { return Some(S.ChangeInProgress); }
      AppendConfig(EntryType.RemoveNode, ConfigRemove(node));
      return None;
    }

    // ---- replication.go -----------------------------------------------------

    /** The half of sendAppendEntries before the call. */
    method BeginAppend(peer: NodeId) returns (request: Option<AppendArgs>)
      requires S.CanSend(State(), peer) ==> S.InBounds(State(), peer)
      modifies this
      ensures request.Some? <==> S.CanSend(old(State()), peer)
      ensures request.Some? ==> request.value == S.AppendRequest(old(State()), peer)
      ensures State() == if request.Some? then S.MarkSent(old(State()), peer) else old(State())
    {
      if state != S.Leader { return None; }
      if peer !in peers || peers[peer].client.None? { return None; }
      if peer in appendInFlight && appendInFlight[peer] { return None; }
      appendInFlight := appendInFlight[peer := true];
      var nextIdx := nextIndex[peer];
      var lastLogIdx := |log| - 1;
      var entries := if nextIdx <= lastLogIdx then log[nextIdx..] else [];
      var prevLogIndex := nextIdx - 1;
      return Some(AppendArgs(currentTerm, id, prevLogIndex, log[prevLogIndex].term, entries, commitIndex));
    }

    method EndAppend(peer: NodeId)
      modifies this
      ensures State() == S.EndCall(old(State()), peer)
    {
      appendInFlight := appendInFlight[peer := false];
    }

    /** The half of sendAppendEntries after the reply. */
    method OnAppendReply(peer: NodeId, args: AppendArgs, reply: AppendReply) returns (success: bool)
      requires |log| > 0
      modifies this
      ensures (State(), success) == S.HandleAppendReply(old(State()), peer, args, reply)
    {
      if state != S.Leader { return false; }
      if reply.term > currentTerm {
        BecomeFollower(reply.term);
        return false;
      }
      if reply.success {
        var newMatchIndex := args.prevIndex + |args.entries|;
        if newMatchIndex > MatchIndexOf(peer) {
          matchIndex := matchIndex[peer := newMatchIndex];
          nextIndex := nextIndex[peer := newMatchIndex + 1];
          UpdateCommitIndex();
        }
        return true;
      }
      BackOff(peer, reply);
      return false;
    }

    method BackOff(peer: NodeId, reply: AppendReply)
      requires |log| > 0
      modifies this`nextIndex
      ensures nextIndex == old(nextIndex)[peer := S.BackoffIndex(log, reply)]
    {
      if reply.conflictTerm == 0 {
        nextIndex := nextIndex[peer := reply.conflictIndex];
      } else {
        var found := false;
        var i := |log| - 1;
        while i >= 1 && !found
          invariant 0 <= i < |log|
          invariant !found ==> nextIndex == old(nextIndex)
                               && S.FindLast(log, reply.conflictTerm, i) == S.FindLast(log, reply.conflictTerm, |log| - 1)
          invariant found ==> S.FindLast(log, reply.conflictTerm, |log| - 1) == Some(i)
                              && nextIndex == old(nextIndex)[peer := i + 1]
          decreases i, !found
        {
          if log[i].term == reply.conflictTerm {
            nextIndex := nextIndex[peer := i + 1];
            found := true;
          } else if log[i].term < reply.conflictTerm {
            break;
          } else {
            i := i - 1;
          }
        }
        if !found { nextIndex := nextIndex[peer := reply.conflictIndex]; }
      }
      if nextIndex[peer] < 1 { nextIndex := nextIndex[peer := 1]; }
    }

    /** How many voters, the node itself included if it is one, have entry `n`. */
    method CountMatches(n: LogIndex) returns (count: nat)
      ensures count == S.SelfVote(State()) + |S.AckedBy(State(), n)|
    {
      count := if id in voterMembers then 1 else 0;
      var rest := voterMembers;
      ghost var seen: set<NodeId> := {};
      while rest != {}
        invariant rest <= voterMembers
        invariant seen == set p | p in S.AckedBy(State(), n) && p !in rest
        invariant count == S.SelfVote(State()) + |seen|
        decreases |rest|
      {
        var p := TakeOne(rest);
        rest := rest - {p};
        if p == id { continue; }
        if MatchIndexOf(p) >= n {
          count := count + 1;
          seen := seen + {p};
        }
      }
      assert seen == S.AckedBy(State(), n);
    }

    method MayCommit(n: LogIndex, quorum: nat) returns (ok: bool)
      requires n < |log| && quorum == QuorumVotes()
      ensures ok <==> S.Committable(State(), n)
    {
      if log[n].term != currentTerm { return false; }
      var count := CountMatches(n);
      return count >= quorum;
    }

    lemma SameCommittable(s: S.NodeState, t: S.NodeState, n: LogIndex)
      requires s == t.(commit := s.commit)
      ensures S.Committable(s, n) <==> S.Committable(t, n)
    {
      assert S.AckedBy(s, n) == S.AckedBy(t, n);
    }

    method UpdateCommitIndex()
      requires |log| > 0
      modifies this`commitIndex
      ensures State() == S.UpdateCommit(old(State()))
    {
      ghost var s := State();
      var last := |log| - 1;
      var quorum := QuorumVotes();
      var n := commitIndex + 1;
      while n <= last
        invariant s.commit + 1 <= n && (n <= last + 1 || n == s.commit + 1)
        invariant commitIndex == if n <= last + 1 then S.CommitScan(s, n - 1) else s.commit
        decreases last + 1 - n
      {
        var ok := MayCommit(n, quorum);
        SameCommittable(State(), s, n);
        if ok { commitIndex := n; }
        n := n + 1;
      }
    }

    /** The applier takes what is committed and not yet applied, under the lock. */
    method TakeBatch()
      requires S.CanTakeBatch(State())
      modifies this
      ensures State() == S.TakeBatch(old(State()))
    {
      var entries := log[lastApplied + 1..commitIndex + 1];
      batch := Some(S.Batch(lastApplied, commitIndex, entries, 0));
    }

    /** It hands the batch to the state machine, entry by entry; nothing else touches these fields. */
    method ApplyBatch()
      requires batch.Some? && batch.value.done == 0
      modifies this
      ensures State() == old(State()).(fsm := old(fsm) + S.CommandsOf(old(batch).value.entries),
                                       batch := Some(old(batch).value.(done := |old(batch).value.entries|)))
    {
      ghost var s := State();
      var entries := batch.value.entries;
      var i := 0;
      assert entries[..0] == [];
      while i < |entries|
        invariant 0 <= i <= |entries|
        invariant State() == s.(fsm := fsm, batch := batch)
        invariant batch == Some(s.batch.value.(done := i))
        invariant fsm == s.fsm + S.CommandsOf(entries[..i])
      {
        ApplyNext();
        OneMoreCommand(entries, i);
        i := i + 1;
      }
      assert entries[..i] == entries;
    }

    lemma OneMoreCommand(es: seq<Entry>, i: nat)
      requires i < |es|
      ensures S.CommandsOf(es[..i + 1]) == S.CommandsOf(es[..i]) + S.CommandsOf([es[i]])
    {
      assert es[..i + 1][..i] == es[..i];
      assert S.CommandsOf([es[i]][..0]) == [];
    }

    method ApplyNext()
      requires S.CanApplyOne(State())
      modifies this
      ensures State() == S.ApplyOne(old(State()))
    {
      var b := batch.value;
      var entry := b.entries[b.done];
      assert [entry][..0] == [] && S.CommandsOf([entry][..0]) == [];
      match entry.etype {
        case Normal => if entry.command != Nil { fsm := fsm + [entry.command]; }
        case _ =>
      }
      batch := Some(b.(done := b.done + 1));
    }

    method FinishBatch()
      requires S.CanFinishBatch(State())
      modifies this
      ensures State() == S.FinishBatch(old(State()))
    {
      var upTo := batch.value.upTo;
      if upTo > lastApplied { lastApplied := upTo; }
      batch := None;
    }

    // ---- run.go -------------------------------------------------------------

    /** `live` are the peers whose last acknowledgement lies within the window. */
    method MaybeStepDownLeader(live: set<NodeId>)
      modifies this
      ensures State() == S.StepDown(old(State()), live)
    {
      if state != S.Leader { return; }
      var count := if id in voterMembers then 1 else 0;
      var rest := voterMembers;
      ghost var seen: set<NodeId> := {};
      while rest != {}
        invariant rest <= voterMembers && State() == old(State())
        invariant seen == set p | p in (voterMembers - {id}) * live && p !in rest
        invariant count == S.SelfVote(State()) + |seen|
        decreases |rest|
      {
        var p := TakeOne(rest);
        rest := rest - {p};
        if p == id { continue; }
        if p in live {
          count := count + 1;
          seen := seen + {p};
        }
      }
      assert seen == (voterMembers - {id}) * live;
      if count < QuorumVotes() { BecomeFollower(currentTerm); }
    }

    /** One tick of the election check: a leader looks for its quorum, any other node at its timer. The
        term goes up exactly if the node, a voter whose timer has run out, now stands for election; it has
        then voted for itself, and the result is whom to ask for a vote, and how. */
    method ElectionTick(timedOut: bool, live: set<NodeId>) returns (asks: Option<(VoteArgs, set<NodeId>)>)
      requires |log| > 0
      modifies this
      ensures var s := old(State());
              State() == if s.role == S.Leader then S.StepDown(s, live)
                         else if timedOut && S.MayStartElection(s) then S.StartElection(s) else s
      ensures asks.Some? <==> currentTerm > old(currentTerm)
      ensures asks.Some? ==> timedOut && old(state) != S.Leader && state == S.Candidate
      ensures asks.Some? ==> votedFor == id && id in voterMembers
      ensures asks.Some? ==> asks.value == (S.VoteRequest(State()), S.VoteRecipients(State()))
    {
      asks := None;
      if state == S.Leader {
        MaybeStepDownLeader(live);
      } else if ShouldStartElection(timedOut) {
        var args, targets := StartElection();
        asks := Some((args, targets));
      }
    }
  }
}

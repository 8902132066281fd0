/** What a majority whose nodes can reach one another can always do: commit a command and apply it on all of
    them, and read. */
module Service {
  import opened RaftTypes
  import opened Quorums
  import opened Membership
  import opened NodeSpec
  import opened Logs
  import opened Cluster
  import opened ClusterInv
  import opened ReplicationSteps
  import opened CommitSteps
  import opened Safety
  import opened Availability

  // ---- The commit index spreads ---------------------------------------------

  lemma SameLogMerged(log: Log, prev: LogIndex)
    requires prev < |log|
    ensures MergeEntries(log, prev, log[prev + 1..]) == log
  {
    assert Matching(log, log);
    MergeGivesLonger(log, log, prev);
  }

  lemma NothingNew(f: NodeState, a: AppendArgs)
    requires f.term == a.term && Accepts(f.log, a.prevIndex, a.prevTerm) && MergeEntries(f.log, a.prevIndex, a.entries) == f.log
    requires a.leaderCommit <= a.prevIndex + |a.entries|
    ensures var f' := AcceptEntries(f, a);
            && f'.log == f.log && f'.term == f.term
            && f'.commit == if f.commit < a.leaderCommit then a.leaderCommit else f.commit
  {
    MergeKeepsStanding(f, a);
    assert FollowCommit(Merged(f, a), a) == Merged(f, a).(commit := FollowCommit(Merged(f, a), a).commit);
  }

  /** A peer that has the leader's log, and is sent whatever request is due, follows its commit index. */
  lemma FollowsCommit(s: NodeState, q: NodeId, f: NodeState)
    requires InBounds(s, q) && f.log == s.log && f.term <= s.term && s.commit < |s.log|
    ensures var f' := HandleAppend(f, AppendRequest(s, q)).0;
            && f'.log == s.log && f'.term == s.term
            && f'.commit == if f.commit < s.commit then s.commit else f.commit
  {
    var a := AppendRequest(s, q);
    AppendOutcomes(f, a);
    SameLogMerged(s.log, a.prevIndex);
    NothingNew(Heed(f, a), a);
  }

  lemma Announce(c: ClusterState, boot: Bootstrap, p: NodeId, q: NodeId) returns (c': ClusterState)
    requires Inv(c, boot) && Ready(c, p, q) && c.nodes[q].log == c.nodes[p].log
    ensures Inv(c', boot) && LeadsTo(c, c') && OnlyMove(c, c', {p, q}) && p in c'.nodes && q in c'.nodes
    ensures c'.nodes[p] == c.nodes[p].(inFlight := c'.nodes[p].inFlight)
    ensures var (s, f, f') := (c.nodes[p], c.nodes[q], c'.nodes[q]);
            f'.log == s.log && f'.term == s.term && f'.commit == if f.commit < s.commit then s.commit else f.commit
  {
    StandingOf(c, boot, p);
    StandingOf(c, boot, q);
    var c0 := FreeCall(c, boot, p, q);
    var c1, call := SendTo(c0, boot, p, q);
    FollowsCommit(c0.nodes[p], q, c.nodes[q]);
    var answer;
    c', answer := Deliver(c1, boot, call);
    GoOn(c, c0, c1);
    GoOn(c, c1, c');
  }

  /** The node has this log, and has committed all of it. */
  predicate AllCommitted(f: NodeState, log: Log) {
    |log| > 0 && f.log == log && f.commit == LastIndex(log)
  }

  /** The leader of a committed log brings a peer to where it is itself. */
  lemma Follow(c: ClusterState, boot: Bootstrap, p: NodeId, q: NodeId) returns (c': ClusterState)
    requires Inv(c, boot) && Ready(c, p, q) && AllCommitted(c.nodes[p], c.nodes[p].log)
    ensures Inv(c', boot) && LeadsTo(c, c') && OnlyMove(c, c', {p, q}) && LeadsOn(c.nodes[p], c'.nodes[p], q) && Ready(c', p, q)
    ensures AllCommitted(c'.nodes[p], c.nodes[p].log) && AllCommitted(c'.nodes[q], c.nodes[p].log)
  {
    ReadyToCatchUp(c, boot, p, q);
    var d := CatchUp(c, boot, p, q);
    CaughtUpLog(d, boot, p, q);
    StaysCommitted(d, boot, p, q, c.nodes[p]);
    c' := Announce(d, boot, p, q);
    GoOn(c, d, c');
  }

  lemma StaysCommitted(d: ClusterState, boot: Bootstrap, p: NodeId, q: NodeId, s: NodeState)
    requires Inv(d, boot) && p in d.nodes && q in d.nodes && AllCommitted(s, s.log) && LeadsOn(s, d.nodes[p], q)
    requires d.nodes[q].log == s.log
    ensures AllCommitted(d.nodes[p], s.log) && d.nodes[q].commit <= d.nodes[p].commit
  {
    StandingOf(d, boot, p);
    StandingOf(d, boot, q);
  }

  ghost predicate CommittedOn(c: ClusterState, qs: set<NodeId>, log: Log) {
    forall q | q in qs :: q in c.nodes && AllCommitted(c.nodes[q], log)
  }

  /** Where `p` and the peers in `done` have committed the log of `p`, the others follow. */
  lemma {:induction false} FollowAll(c: ClusterState, boot: Bootstrap, p: NodeId, done: set<NodeId>, rest: set<NodeId>)
    returns (c': ClusterState)
    requires Inv(c, boot) && AllReady(c, p, done + rest) && p !in done && p !in rest && done !! rest
    requires CommittedOn(c, done + {p}, c.nodes[p].log)
    ensures Inv(c', boot) && LeadsTo(c, c') && p in c'.nodes && AllReady(c', p, done + rest)
    ensures c'.nodes[p].term == c.nodes[p].term && CommittedOn(c', done + rest + {p}, c.nodes[p].log)
    decreases rest
  {
    if rest == {} {
      c' := c;
      StayPut(c);
      assert done + rest == done;
    } else {
      var q := Pick(rest);
      assert Ready(c, p, q) && p in done + {p};
      var d := Follow(c, boot, p, q);
      OneFollows(c, d, p, q, done, rest);
      c' := FollowAll(d, boot, p, done + {q}, rest - {q});
      GoOn(c, d, c');
      assert done + {q} + (rest - {q}) == done + rest;
    }
  }

  lemma OneFollows(c: ClusterState, d: ClusterState, p: NodeId, q: NodeId, done: set<NodeId>, rest: set<NodeId>)
    requires AllReady(c, p, done + rest) && p !in done && p !in rest && q in rest && q !in done
    requires CommittedOn(c, done + {p}, c.nodes[p].log) && OnlyMove(c, d, {p, q}) && LeadsOn(c.nodes[p], d.nodes[p], q)
    requires Ready(d, p, q) && AllCommitted(d.nodes[p], c.nodes[p].log) && AllCommitted(d.nodes[q], c.nodes[p].log)
    ensures AllReady(d, p, done + {q} + (rest - {q})) && CommittedOn(d, done + {q} + {p}, c.nodes[p].log)
  {
    StillReady(c, d, p, q, done + rest);
    assert done + {q} + (rest - {q}) == done + rest;
    forall x | x in done + {q} + {p} ensures x in d.nodes && AllCommitted(d.nodes[x], c.nodes[p].log) {
      if x != q && x != p { assert x in done + {p}; }
    }
  }

  // ---- The applied commands follow ------------------------------------------

  /** Every one of these nodes applies what it has committed. */
  lemma {:induction false} ApplyEach(c: ClusterState, boot: Bootstrap, qs: set<NodeId>) returns (c': ClusterState)
    requires Inv(c, boot) && qs <= c.nodes.Keys
    ensures Inv(c', boot) && LeadsTo(c, c') && OnlyMove(c, c', qs)
    ensures forall q | q in qs :: OnlyApplies(c.nodes[q], c'.nodes[q]) && c'.nodes[q].lastApplied == c'.nodes[q].commit
    decreases qs
  {
    if qs == {} {
      c' := c;
      StayPut(c);
    } else {
      var q := Pick(qs);
      var d := ApplyAll(c, boot, q);
      c' := ApplyEach(d, boot, qs - {q});
      GoOn(c, d, c');
      forall x | x in qs ensures OnlyApplies(c.nodes[x], c'.nodes[x]) && c'.nodes[x].lastApplied == c'.nodes[x].commit {
        if x != q { assert x in qs - {q}; }
      }
    }
  }

  // ---- A command for everybody ----------------------------------------------

  /** The node has applied this log to its end, and the last command its state machine was given is `cmd`. */
  predicate HasApplied(s: NodeState, log: Log, cmd: Command) {
    && AllCommitted(s, log) && s.lastApplied == s.commit
    && (cmd != Nil ==> s.fsm != [] && s.fsm[|s.fsm| - 1] == cmd)
  }

  lemma LastCommandGiven(c: ClusterState, boot: Bootstrap, q: NodeId, log: Log, term: Term, cmd: Command)
    requires Inv(c, boot) && q in c.nodes && AllCommitted(c.nodes[q], log) && c.nodes[q].lastApplied == c.nodes[q].commit
    requires log[|log| - 1] == Entry(Normal, term, cmd) && log[0] == SENTINEL
    ensures HasApplied(c.nodes[q], log, cmd)
  {
    var s := c.nodes[q];
    AloneInCluster(c, boot, q);
    if cmd != Nil {
      CommandsOfOneMore(log, 1, |log| - 1);
      OneCommand(log[|log| - 1]);
      assert s.fsm == CommandsOf(log[1..|log|]);
    }
  }

  /** `p` leads, and the last entry of its log is the command. */
  predicate LeadsWith(s: NodeState, cmd: Command) {
    s.role == Leader && |s.log| > 0 && s.log[|s.log| - 1] == Entry(Normal, s.term, cmd)
  }

  /** `p` leads these nodes, and they and it have all committed and applied its log, up to the command. */
  ghost predicate Served(c: ClusterState, p: NodeId, qs: set<NodeId>, cmd: Command) {
    && p in qs && AllReady(c, p, qs - {p}) && LeadsWith(c.nodes[p], cmd)
    && forall q | q in qs :: q in c.nodes && HasApplied(c.nodes[q], c.nodes[p].log, cmd)
  }

  lemma ServedIfApplied(c: ClusterState, c': ClusterState, boot: Bootstrap, p: NodeId, qs: set<NodeId>, cmd: Command)
    requires Inv(c', boot) && p in qs && AllReady(c, p, qs - {p}) && LeadsWith(c.nodes[p], cmd) && CommittedOn(c, qs, c.nodes[p].log)
    requires OnlyMove(c, c', qs)
    requires forall q | q in qs :: q in c.nodes && OnlyApplies(c.nodes[q], c'.nodes[q]) && c'.nodes[q].lastApplied == c'.nodes[q].commit
    ensures Served(c', p, qs, cmd)
  {
    AloneInCluster(c', boot, p);
    forall q | q in qs ensures q in c'.nodes && HasApplied(c'.nodes[q], c'.nodes[p].log, cmd) {
      LastCommandGiven(c', boot, q, c.nodes[p].log, c.nodes[p].term, cmd);
    }
    forall q | q in qs - {p} ensures Ready(c', p, q) { assert Ready(c, p, q); }
  }

  lemma MajorityIsServed(c: ClusterState, boot: Bootstrap, qs: set<NodeId>, cmd: Command) returns (c': ClusterState, p: NodeId)
    requires Inv(c, boot) && |boot| >= 2 && IsQuorum(boot.Keys, qs) && Connected(c, qs) && BallotsPast(c)
    ensures Inv(c', boot) && LeadsTo(c, c') && Served(c', p, qs, cmd)
  {
    var d: ClusterState;
    d, p := MajorityCanElect(c, boot, qs);
    assert qs == (qs - {p}) + {p} && qs - {p} == {} + (qs - {p});
    var e := SubmitAndCommit(d, boot, p, qs - {p}, cmd);
    var f := FollowAll(e, boot, p, {}, qs - {p});
    c' := ApplyEach(f, boot, qs);
    ServedIfApplied(f, c', boot, p, qs, cmd);
    GoOn(c, d, e);
    GoOn(c, e, f);
    GoOn(c, f, c');
  }

  /** Availability: after every run of a cluster of two nodes or more, any majority whose nodes can reach one
      another can go on to elect one of them and to commit and apply any command, each of them. */
  lemma AnyMajorityCanCommit(r: seq<ClusterState>, boot: Bootstrap, qs: set<NodeId>, cmd: Command)
    returns (r': seq<ClusterState>, p: NodeId)
    requires Run(r, boot) && |boot| >= 2 && IsQuorum(boot.Keys, qs) && Connected(r[|r| - 1], qs)
    ensures Run(r', boot) && r <= r' && Served(r'[|r'| - 1], p, qs, cmd)
  {
    RunHasInv(r, boot, |r| - 1);
    BallotsInRun(r, boot, |r| - 1);
    var c: ClusterState;
    c, p := MajorityIsServed(r[|r| - 1], boot, qs, cmd);
    r' := RunGoesOn(r, boot, c);
  }
}

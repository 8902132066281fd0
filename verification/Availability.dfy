/** No state that a run can reach is a dead end: any majority whose members can reach one another
    can elect a leader, bring itself up to date, and commit a new command. */
module Availability {
  import opened RaftTypes
  import opened Quorums
  import opened Membership
  import opened NodeSpec
  import opened LogHistory
  import opened Cluster
  import opened ClusterInv
  import opened ReplicationSteps
  import opened CommitSteps
  import opened Safety
  import opened Progress
  import opened Backoff

  // ---- Going on from a state ------------------------------------------------

  /** A leader is handed a reply to a request from an earlier leadership. */
  predicate HandsLateReply(c: ClusterState, step: Step)
    requires Possible(c, step)
  {
    step.AppendReplyArrives? && IsLate(c.nodes[Actor(step)], step.answer)
  }

  /** A step that hands nobody a late reply. */
  ghost predicate CalmNext(c: ClusterState, c': ClusterState) {
    exists s :: Enabled(c, s) && !HandsLateReply(c, s) && c' == TakeStep(c, s)
  }

  ghost predicate CalmAt(r: seq<ClusterState>, i: nat)
    requires i + 1 < |r|
  {
    CalmNext(r[i], r[i + 1])
  }

  ghost predicate Path(r: seq<ClusterState>, c: ClusterState, c': ClusterState) {
    && |r| > 0 && r[0] == c && r[|r| - 1] == c'
    && forall i {:trigger CalmAt(r, i)} | 0 <= i < |r| - 1 :: CalmAt(r, i)
  }

  /** Some sequence of steps of the cluster, none of which needs a late reply, goes from `c` to `c'`. */
  ghost predicate LeadsTo(c: ClusterState, c': ClusterState) {
    exists r :: Path(r, c, c')
  }

  lemma StayPut(c: ClusterState)
    ensures LeadsTo(c, c)
  {
    assert Path([c], c, c);
  }

  lemma GoOn(c: ClusterState, d: ClusterState, e: ClusterState)
    requires LeadsTo(c, d) && LeadsTo(d, e)
    ensures LeadsTo(c, e)
  {
    var r :| Path(r, c, d);
    var q :| Path(q, d, e);
    var w := r + q[1..];
    forall i | 0 <= i < |w| - 1 ensures CalmAt(w, i) {
      if i < |r| - 1 { assert CalmAt(r, i); } else { assert CalmAt(q, i - (|r| - 1)); }
    }
    assert Path(w, c, e);
  }

  lemma TakeOne(c: ClusterState, c': ClusterState)
    requires CalmNext(c, c')
    ensures LeadsTo(c, c')
  {
    assert CalmAt([c, c'], 0);
    assert Path([c, c'], c, c');
  }

  lemma Take(c: ClusterState, boot: Bootstrap, step: Step) returns (c': ClusterState)
    requires Inv(c, boot) && Enabled(c, step) && !HandsLateReply(c, step)
    ensures c' == TakeStep(c, step) && Inv(c', boot) && LeadsTo(c, c')
  {
    c' := TakeStep(c, step);
    StepsKeepInv(c, boot, step);
    TakeOne(c, c');
  }

  lemma RunGrowsBy(r: seq<ClusterState>, boot: Bootstrap, d: ClusterState)
    requires Run(r, boot) && Next(r[|r| - 1], d)
    ensures Run(r + [d], boot)
  {
    forall i | 0 <= i < |r + [d]| - 1 ensures StepAt(r + [d], i) {
      if i < |r| - 1 { assert StepAt(r, i); }
    }
  }

  lemma RunGoesOn(r: seq<ClusterState>, boot: Bootstrap, c': ClusterState) returns (r': seq<ClusterState>)
    requires Run(r, boot) && LeadsTo(r[|r| - 1], c')
    ensures Run(r', boot) && r <= r' && r'[|r'| - 1] == c'
  {
    var q :| Path(q, r[|r| - 1], c');
    r' := r + q[1..];
    forall i | 0 <= i < |r'| - 1 ensures StepAt(r', i) {
      if i < |r| - 1 {
        assert StepAt(r, i);
      } else {
        assert CalmAt(q, i - (|r| - 1));
      }
    }
  }

  // ---- One round with one peer ----------------------------------------------

  ghost predicate Ready(c: ClusterState, p: NodeId, q: NodeId) {
    && p in c.nodes && q in c.nodes && q != p
    && c.nodes[p].role == Leader && c.nodes[q].term <= c.nodes[p].term
    && q in c.nodes[p].peers && c.nodes[p].peers[q].client.Some? && InBounds(c.nodes[p], q)
  }

  /** Answers stay under way, and calls out that are not from `p` to `q` stay out. */
  ghost predicate OnlyCall(c: ClusterState, c': ClusterState, p: NodeId, q: NodeId) {
    c.answers <= c'.answers && forall k | k in c.pending && k != (p, q) :: k in c'.pending && c'.pending[k] == c.pending[k]
  }

  /** Answers stay under way, and calls out that are not from `p` stay out. */
  ghost predicate OnlyCallsOf(c: ClusterState, c': ClusterState, p: NodeId) {
    c.answers <= c'.answers && forall k | k in c.pending && k.0 != p :: k in c'.pending && c'.pending[k] == c.pending[k]
  }

  /** No call begins or ends. */
  ghost predicate NoCalls(c: ClusterState, c': ClusterState) {
    c.answers <= c'.answers && c'.pending == c.pending
  }

  /** A call that is out can always be given up. */
  lemma FreeCall(c: ClusterState, boot: Bootstrap, p: NodeId, q: NodeId) returns (c': ClusterState)
    requires Inv(c, boot) && p in c.nodes
    ensures Inv(c', boot) && LeadsTo(c, c')
    ensures p in c'.nodes && !InFlight(c'.nodes[p], q) && OnlyCall(c, c', p, q)
    ensures c'.nodes == c.nodes[p := c.nodes[p].(inFlight := c'.nodes[p].inFlight)]
  {
    AloneInCluster(c, boot, p);
    if InFlight(c.nodes[p], q) {
      c' := Take(c, boot, CallEnds(p, q));
    } else {
      c' := c;
      StayPut(c);
    }
  }

  lemma SendTo(c: ClusterState, boot: Bootstrap, p: NodeId, q: NodeId) returns (c': ClusterState, call: AppendCall)
    requires Inv(c, boot) && Ready(c, p, q) && !InFlight(c.nodes[p], q)
    ensures Inv(c', boot) && LeadsTo(c, c')
    ensures OnlyCall(c, c', p, q)
    ensures call.src == p && call.dst == q && call.args == AppendRequest(c.nodes[p], q)
    ensures call in c'.calls && (p, q) in c'.pending && c'.pending[(p, q)] == call && call.id == c.clock
    ensures c'.nodes == c.nodes[p := MarkSent(c.nodes[p], q)]
    ensures Enabled(c, SendStarts(p, q)) && c' == TakeStep(c, SendStarts(p, q))
  {
    AloneInCluster(c, boot, p);
    assert PeerInv(c.hist, c.nodes[p], q);
    call := AppendCall(c.clock, p, q, AppendRequest(c.nodes[p], q), MatchOf(c.nodes[p], q));
    SendStep(c, p, q);
    c' := Take(c, boot, SendStarts(p, q));
  }

  lemma Deliver(c: ClusterState, boot: Bootstrap, call: AppendCall) returns (c': ClusterState, answer: AppendAnswer)
    requires Inv(c, boot) && call in c.calls && call.dst in c.nodes
    ensures Inv(c', boot) && LeadsTo(c, c')
    ensures |c.nodes[call.dst].log| > 0
    ensures answer == AppendAnswer(call, HandleAppend(c.nodes[call.dst], call.args).1) && answer in c'.answers
    ensures c'.nodes == c.nodes[call.dst := HandleAppend(c.nodes[call.dst], call.args).0] && NoCalls(c, c')
  {
    AloneInCluster(c, boot, call.dst);
    answer := AppendAnswer(call, HandleAppend(c.nodes[call.dst], call.args).1);
    c' := Take(c, boot, AppendArrives(call));
  }

  lemma Process(c: ClusterState, boot: Bootstrap, a: AppendAnswer) returns (c': ClusterState)
    requires Inv(c, boot) && a.call.src in c.nodes && a in c.answers
    requires (a.call.src, a.call.dst) in c.pending && c.pending[(a.call.src, a.call.dst)] == a.call
    requires c.nodes[a.call.src].term == a.call.args.term
    ensures Inv(c', boot) && LeadsTo(c, c')
    ensures |c.nodes[a.call.src].log| > 0 && OnlyCall(c, c', a.call.src, a.call.dst)
    ensures c'.nodes == c.nodes[a.call.src := HandleAppendReply(c.nodes[a.call.src], a.call.dst, a.call.args, a.reply).0]
    ensures Enabled(c, AppendReplyArrives(a)) && c' == TakeStep(c, AppendReplyArrives(a))
  {
    AloneInCluster(c, boot, a.call.src);
    AnswerCases(c, a);
    c' := Take(c, boot, AppendReplyArrives(a));
  }

  /** The leader goes on leading as it did; only its indices for `q` move, and its commit index with them. */
  ghost predicate LeadsOn(s: NodeState, s': NodeState, q: NodeId) {
    && s.role == Leader && s'.role == Leader && s'.term == s.term && s'.log == s.log && s.commit <= s'.commit
    && s'.id == s.id && s'.voters == s.voters && s'.peers == s.peers
    && (forall x | x != q :: MatchOf(s', x) == MatchOf(s, x))
    && (forall x | x != q && x in s.nextIndex :: x in s'.nextIndex && s'.nextIndex[x] == s.nextIndex[x])
    && InBounds(s', q)
  }

  predicate UpToDatePeer(s: NodeState, q: NodeId)
    requires |s.log| > 0
  {
    MatchOf(s, q) == LastIndex(s.log)
  }

  /** What can be committed at the end of the log has been. */
  predicate EndCommitted(s: NodeState)
    requires |s.log| > 0
  {
    Committable(s, LastIndex(s.log)) ==> LastIndex(s.log) <= s.commit
  }

  /** Either the peer has the whole log now, or the next probe is lower. */
  ghost predicate Advances(s: NodeState, s': NodeState, q: NodeId)
    requires |s.log| > 0 && s'.log == s.log
  {
    || (UpToDatePeer(s', q) && (!UpToDatePeer(s, q) ==> EndCommitted(s')))
    || (MatchOf(s', q) == MatchOf(s, q) && q in s.nextIndex && q in s'.nextIndex && s'.nextIndex[q] < s.nextIndex[q])
  }

  lemma AcceptedAdvances(s: NodeState, q: NodeId)
    requires InBounds(s, q) && s.role == Leader && MatchOf(s, q) < |s.log|
    ensures var s' := HandleAppendReply(s, q, AppendRequest(s, q), AppendReply(s.term, true, 0, 0)).0;
            LeadsOn(s, s', q) && Advances(s, s', q)
  {
    var m := LastIndex(s.log);
    assert Reach(AppendRequest(s, q)) == m;
    if m > MatchOf(s, q) {
      var s1 := Matched(s, q, m);
      assert Committable(s1, m) <==> Committable(UpdateCommit(s1), m) by {
        assert AckedBy(s1, m) == AckedBy(UpdateCommit(s1), m);
      }
    }
  }

  lemma RejectedAdvances(s: NodeState, q: NodeId, f: Log)
    requires InBounds(s, q) && s.role == Leader && Compatible(s.log, f)
    requires !Accepts(f, AppendRequest(s, q).prevIndex, AppendRequest(s, q).prevTerm)
    ensures var a := AppendRequest(s, q);
            var s' := HandleAppendReply(s, q, a, ConflictReply(f, s.term, a.prevIndex)).0;
            LeadsOn(s, s', q) && Advances(s, s', q)
  {
    var a := AppendRequest(s, q);
    RejectionBacksOff(s, q, a, f);
    var s' := HandleAppendReply(s, q, a, ConflictReply(f, s.term, a.prevIndex)).0;
    assert s' == s.(nextIndex := s'.nextIndex);
  }

  lemma PeerFollows(f: NodeState, a: AppendArgs)
    requires |f.log| > 0 && f.term <= a.term
    ensures HandleAppend(f, a).0.term == a.term
  {
    AppendOutcomes(f, a);
    if Accepts(f.log, a.prevIndex, a.prevTerm) { MergeKeepsStanding(Heed(f, a), a); }
  }

  /** The leader when it has processed the peer's answer. */
  lemma AnswerAdvances(s: NodeState, q: NodeId, f: NodeState)
    requires InBounds(s, q) && s.role == Leader && MatchOf(s, q) < |s.log|
    requires f.term <= s.term && Compatible(s.log, f.log)
    ensures var a := AppendRequest(s, q);
            var s' := HandleAppendReply(s, q, a, HandleAppend(f, a).1).0;
            LeadsOn(s, s', q) && Advances(s, s', q)
  {
    var a := AppendRequest(s, q);
    AppendOutcomes(f, a);
    if Accepts(f.log, a.prevIndex, a.prevTerm) {
      AcceptedAdvances(s, q);
    } else {
      RejectedAdvances(s, q, f.log);
    }
  }

  ghost predicate OnlyMove(c: ClusterState, c': ClusterState, moved: set<NodeId>) {
    c'.nodes.Keys == c.nodes.Keys && forall x | x in c.nodes && x !in moved :: c'.nodes[x] == c.nodes[x]
  }

  lemma PeerLogs(c: ClusterState, boot: Bootstrap, p: NodeId, q: NodeId)
    requires Inv(c, boot) && Ready(c, p, q)
    ensures Compatible(c.nodes[p].log, c.nodes[q].log)
    ensures MatchOf(c.nodes[p], q) < |c.nodes[p].log|
  {
    AloneInCluster(c, boot, p);
    AloneInCluster(c, boot, q);
    assert PeerInv(c.hist, c.nodes[p], q);
    OkLogsCompatible(c.hist, boot.Keys, c.nodes[p].log, c.nodes[q].log);
  }

  /** A call from a leader with nothing out to the peer, its answer, and what the leader makes of it. */
  lemma Exchange(c: ClusterState, boot: Bootstrap, p: NodeId, q: NodeId) returns (c': ClusterState)
    requires Inv(c, boot) && Ready(c, p, q) && !InFlight(c.nodes[p], q)
    ensures Inv(c', boot) && LeadsTo(c, c') && OnlyMove(c, c', {p, q}) && p in c'.nodes
    ensures |c.nodes[p].log| > 0 && OnlyCall(c, c', p, q)
    ensures c'.nodes[q].term == c.nodes[p].term
    ensures var s := MarkSent(c.nodes[p], q); LeadsOn(s, c'.nodes[p], q) && Advances(s, c'.nodes[p], q)
  {
    var c1, call := SendTo(c, boot, p, q);
    var c2, answer := Deliver(c1, boot, call);
    PeerLogs(c1, boot, p, q);
    AnswerAdvances(c1.nodes[p], q, c.nodes[q]);
    PeerFollows(c.nodes[q], call.args);
    c' := Process(c2, boot, answer);
    GoOn(c, c1, c2);
    GoOn(c, c2, c');
  }

  /** A leader's marks of calls do not matter for what a round is about. */
  lemma MarksDoNotMatter(s: NodeState, marks: map<NodeId, bool>, q: NodeId, s': NodeState)
    requires |s.log| > 0 && LeadsOn(s.(inFlight := marks), s', q) && Advances(s.(inFlight := marks), s', q)
    ensures LeadsOn(s, s', q) && Advances(s, s', q)
  {
  }

  lemma Round(c: ClusterState, boot: Bootstrap, p: NodeId, q: NodeId) returns (c': ClusterState)
    requires Inv(c, boot) && Ready(c, p, q)
    ensures Inv(c', boot) && LeadsTo(c, c') && OnlyMove(c, c', {p, q}) && Ready(c', p, q)
    ensures |c.nodes[p].log| > 0 && LeadsOn(c.nodes[p], c'.nodes[p], q) && Advances(c.nodes[p], c'.nodes[p], q)
    ensures OnlyCall(c, c', p, q) && c'.nodes[q].term == c'.nodes[p].term
  {
    var c0 := FreeCall(c, boot, p, q);
    c' := Exchange(c0, boot, p, q);
    GoOn(c, c0, c');
    MarksDoNotMatter(c.nodes[p], MarkSent(c0.nodes[p], q).inFlight, q, c'.nodes[p]);
  }

  // ---- Until the peers have the whole log -----------------------------------

  lemma {:induction false} CatchUp(c: ClusterState, boot: Bootstrap, p: NodeId, q: NodeId) returns (c': ClusterState)
    requires Inv(c, boot) && Ready(c, p, q) && q in c.nodes[p].nextIndex
    ensures Inv(c', boot) && LeadsTo(c, c') && OnlyMove(c, c', {p, q}) && Ready(c', p, q)
    ensures |c.nodes[p].log| > 0 && LeadsOn(c.nodes[p], c'.nodes[p], q)
    ensures OnlyCall(c, c', p, q) && c'.nodes[q].term == c'.nodes[p].term
    ensures UpToDatePeer(c'.nodes[p], q) && (!UpToDatePeer(c.nodes[p], q) ==> EndCommitted(c'.nodes[p]))
    decreases c.nodes[p].nextIndex[q]
  {
    var d := Round(c, boot, p, q);
    if UpToDatePeer(d.nodes[p], q) && (!UpToDatePeer(c.nodes[p], q) ==> EndCommitted(d.nodes[p])) {
      c' := d;
    } else {
      c' := CatchUp(d, boot, p, q);
      GoOn(c, d, c');
    }
  }

  /** A peer in the leader's term that matches the end of its log has that log. */
  lemma CaughtUpLog(c: ClusterState, boot: Bootstrap, p: NodeId, q: NodeId)
    requires Inv(c, boot) && p in c.nodes && q in c.nodes && p != q && |c.nodes[p].log| > 0
    requires c.nodes[p].role == Leader && c.nodes[q].term == c.nodes[p].term && UpToDatePeer(c.nodes[p], q)
    ensures c.nodes[q].log == c.nodes[p].log
  {
    var s, f := c.nodes[p], c.nodes[q];
    AloneInCluster(c, boot, p);
    AloneInCluster(c, boot, q);
    assert PeerInv(c.hist, s, q);
    LeaderOwns(c.hist, boot, p, s, LastIndex(s.log));
    assert LeaderOk(c.hist, boot.Keys, s.term);
    FollowsLeader(c.hist, boot, q, f, s.term);
  }

  ghost predicate AllReady(c: ClusterState, p: NodeId, qs: set<NodeId>) {
    p in c.nodes && c.nodes[p].role == Leader && forall q | q in qs :: Ready(c, p, q)
  }

  /** Peers that already match the end of the log, and peers that do not yet. */
  ghost predicate Split(s: NodeState, done: set<NodeId>, rest: set<NodeId>) {
    && |s.log| > 0
    && (forall q | q in done :: UpToDatePeer(s, q)) && (forall q | q in rest :: !UpToDatePeer(s, q))
  }

  lemma MajorityCommits(s: NodeState, boot: Bootstrap, p: NodeId, done: set<NodeId>)
    requires ConfigInv(boot, p, s) && Split(s, done, {}) && p !in done && IsQuorum(boot.Keys, done + {p})
    requires LastTerm(s.log) == s.term && EndCommitted(s) && s.commit < |s.log|
    ensures s.commit == LastIndex(s.log)
  {
    var last := LastIndex(s.log);
    assert done <= AckedBy(s, last);
    SubsetSize(done, AckedBy(s, last));
    assert |done + {p}| == |done| + 1;
  }

  lemma ReadyToCatchUp(c: ClusterState, boot: Bootstrap, p: NodeId, q: NodeId)
    requires Inv(c, boot) && Ready(c, p, q)
    ensures q in c.nodes[p].nextIndex
  {
    AloneInCluster(c, boot, p);
  }

  lemma StandingOf(c: ClusterState, boot: Bootstrap, p: NodeId)
    requires Inv(c, boot) && p in c.nodes
    ensures ConfigInv(boot, p, c.nodes[p]) && |c.nodes[p].log| > 0 && c.nodes[p].commit < |c.nodes[p].log|
  {
    AloneInCluster(c, boot, p);
  }

  lemma SplitMoves(s: NodeState, s': NodeState, q: NodeId, done: set<NodeId>, rest: set<NodeId>)
    requires Split(s, done, rest) && LeadsOn(s, s', q) && UpToDatePeer(s', q)
    ensures Split(s', done + {q}, rest - {q})
  {
  }

  lemma StillReady(c: ClusterState, d: ClusterState, p: NodeId, q: NodeId, qs: set<NodeId>)
    requires AllReady(c, p, qs) && OnlyMove(c, d, {p, q}) && LeadsOn(c.nodes[p], d.nodes[p], q)
    requires p !in qs && Ready(d, p, q)
    ensures AllReady(d, p, qs)
  {
    forall x | x in qs ensures Ready(d, p, x) { assert Ready(c, p, x); }
  }

  lemma {:induction false} CatchUpAll(c: ClusterState, boot: Bootstrap, p: NodeId, done: set<NodeId>, rest: set<NodeId>)
    returns (c': ClusterState)
    requires Inv(c, boot) && AllReady(c, p, done + rest) && rest != {} && p !in done && p !in rest && done !! rest
    requires Split(c.nodes[p], done, rest) && LastTerm(c.nodes[p].log) == c.nodes[p].term
    requires IsQuorum(boot.Keys, done + rest + {p})
    ensures Inv(c', boot) && LeadsTo(c, c') && AllReady(c', p, done + rest)
    ensures OnlyMove(c, c', rest + {p}) && OnlyCallsOf(c, c', p)
    ensures var (s, s') := (c.nodes[p], c'.nodes[p]);
            s'.role == Leader && s'.term == s.term && s'.log == s.log && s'.commit == LastIndex(s.log)
    decreases rest
  {
    var q := Pick(rest);
    assert Ready(c, p, q);
    ReadyToCatchUp(c, boot, p, q);
    var d := CatchUp(c, boot, p, q);
    var done', rest' := done + {q}, rest - {q};
    assert done' + rest' == done + rest;
    SplitMoves(c.nodes[p], d.nodes[p], q, done, rest);
    StillReady(c, d, p, q, done + rest);
    assert OnlyMove(c, d, rest + {p}) && OnlyCallsOf(c, d, p);
    if rest' == {} {
      c' := d;
      StandingOf(d, boot, p);
      assert done' == done + rest;
      MajorityCommits(d.nodes[p], boot, p, done');
    } else {
      c' := CatchUpAll(d, boot, p, done', rest');
      GoOn(c, d, c');
    }
  }

  /** A leader that can reach a majority commits whatever command it is given next. */
  lemma SubmitAndCommit(c: ClusterState, boot: Bootstrap, p: NodeId, qs: set<NodeId>, cmd: Command) returns (c': ClusterState)
    requires Inv(c, boot) && AllReady(c, p, qs) && qs != {} && p !in qs && IsQuorum(boot.Keys, qs + {p})
    ensures Inv(c', boot) && LeadsTo(c, c') && AllReady(c', p, qs)
    ensures OnlyMove(c, c', qs + {p}) && OnlyCallsOf(c, c', p)
    ensures var (s, s') := (c.nodes[p], c'.nodes[p]);
            && s'.role == Leader && s'.term == s.term && s'.log == s.log + [Entry(Normal, s.term, cmd)]
            && s'.commit == LastIndex(s'.log)
  {
    StandingOf(c, boot, p);
    var d := Take(c, boot, ClientSubmits(p, cmd));
    forall q | q in qs ensures Ready(d, p, q) && !UpToDatePeer(d.nodes[p], q) {
      assert Ready(c, p, q);
      PeerLogs(c, boot, p, q);
    }
    assert {} + qs == qs && {} + qs + {p} == qs + {p};
    c' := CatchUpAll(d, boot, p, {}, qs);
    GoOn(c, d, c');
  }

  // ---- Elections ------------------------------------------------------------

  ghost predicate Connected(c: ClusterState, qs: set<NodeId>) {
    forall p, q | p in qs && q in qs && p != q ::
      p in c.nodes && q in c.nodes[p].peers && c.nodes[p].peers[q].client.Some?
  }

  /** Vote goroutines that are done belong to candidacies of the past. */
  ghost predicate BallotsPast(c: ClusterState) {
    forall b | b in c.ballotsDone :: b.candidate in c.nodes && b.term <= c.nodes[b.candidate].term
  }

  /** The node as a candidate of term `t` that has counted its own vote. */
  function Stood(s: NodeState, t: Term): NodeState {
    s.(role := Candidate, term := t, votedFor := s.id, votesReceived := 1, votesNeeded := QuorumSize(|s.voters|))
  }

  lemma NotLeading(c: ClusterState, boot: Bootstrap, p: NodeId) returns (c': ClusterState)
    requires Inv(c, boot) && p in c.nodes && |boot| >= 2
    ensures Inv(c', boot) && LeadsTo(c, c') && OnlyMove(c, c', {p}) && c'.ballotsDone == c.ballotsDone
    ensures NoCalls(c, c') && c'.nodes[p].role != Leader
    ensures c'.nodes[p] == c.nodes[p] || c'.nodes[p] == BecomeFollower(c.nodes[p], c.nodes[p].term)
  {
    StandingOf(c, boot, p);
    if c.nodes[p].role == Leader {
      assert (c.nodes[p].voters - {p}) * {} == {};
      c' := Take(c, boot, QuorumCheck(p, {}));
    } else {
      c' := c;
      StayPut(c);
    }
  }

  /** A candidate whose requests are out and whose vote goroutines still wait for their replies. */
  ghost predicate Standing(c: ClusterState, p: NodeId) {
    && p in c.nodes && c.nodes[p].role == Candidate && |c.nodes[p].log| > 0
    && (forall q | q in VoteRecipients(c.nodes[p]) :: VoteCall(p, q, VoteRequest(c.nodes[p])) in c.voteCalls)
    && (forall q :: Ballot(p, c.nodes[p].term, q) !in c.ballotsDone)
  }

  lemma StandOnce(c: ClusterState, boot: Bootstrap, p: NodeId) returns (c': ClusterState)
    requires Inv(c, boot) && p in c.nodes && c.nodes[p].role != Leader
    requires forall q, t | t > c.nodes[p].term :: Ballot(p, t, q) !in c.ballotsDone
    ensures Inv(c', boot) && LeadsTo(c, c') && OnlyMove(c, c', {p}) && c'.ballotsDone == c.ballotsDone
    ensures NoCalls(c, c') && Standing(c', p) && c'.nodes[p] == Stood(c.nodes[p], c.nodes[p].term + 1)
  {
    StandingOf(c, boot, p);
    SubsetSize({p}, c.nodes[p].voters);
    c' := Take(c, boot, ElectionTimeout(p));
  }

  /** A node that keeps timing out gets to any term. */
  lemma {:induction false} Stand(c: ClusterState, boot: Bootstrap, p: NodeId, t: Term) returns (c': ClusterState)
    requires Inv(c, boot) && p in c.nodes && c.nodes[p].role != Leader && c.nodes[p].term < t
    requires forall q, u | u > c.nodes[p].term :: Ballot(p, u, q) !in c.ballotsDone
    ensures Inv(c', boot) && LeadsTo(c, c') && OnlyMove(c, c', {p})
    ensures NoCalls(c, c') && Standing(c', p) && c'.nodes[p] == Stood(c.nodes[p], t)
    decreases t - c.nodes[p].term
  {
    var d := StandOnce(c, boot, p);
    if d.nodes[p].term == t {
      c' := d;
    } else {
      c' := Stand(d, boot, p, t);
      GoOn(c, d, c');
    }
  }

  /** What a voter must be like to vote for the candidate. */
  ghost predicate WouldVote(c: ClusterState, p: NodeId, q: NodeId)
    requires p in c.nodes && |c.nodes[p].log| > 0
  {
    var s := c.nodes[p];
    && q in c.nodes && q != p && q in VoteRecipients(s)
    && c.nodes[q].term < s.term
    && |c.nodes[q].log| > 0 && UpToDate(LastIndex(s.log), LastTerm(s.log), c.nodes[q].log)
  }

  lemma Granted(f: NodeState, a: VoteArgs)
    requires |f.log| > 0 && f.term < a.term && f.id in f.voters && UpToDate(a.lastIndex, a.lastTerm, f.log)
    ensures var (f', reply) := HandleVote(f, a, false); reply == VoteReply(a.term, true) && f'.term == a.term && f'.log == f.log
  {
  }

  /** The request is delivered to the voter, whose leader has fallen silent. */
  lemma AskVote(c: ClusterState, boot: Bootstrap, p: NodeId, q: NodeId) returns (c': ClusterState, a: VoteAnswer)
    requires Inv(c, boot) && p in c.nodes && |c.nodes[p].log| > 0 && WouldVote(c, p, q)
    requires VoteCall(p, q, VoteRequest(c.nodes[p])) in c.voteCalls
    ensures Inv(c', boot) && LeadsTo(c, c') && OnlyMove(c, c', {q})
    ensures c'.voteCalls == c.voteCalls && c'.ballotsDone == c.ballotsDone && NoCalls(c, c')
    ensures c'.nodes[q].term == c.nodes[p].term && c'.nodes[q].log == c.nodes[q].log
    ensures a in c'.voteAnswers && a.call == VoteCall(p, q, VoteRequest(c.nodes[p]))
    ensures a.reply == VoteReply(c.nodes[p].term, true)
  {
    StandingOf(c, boot, q);
    var m := VoteCall(p, q, VoteRequest(c.nodes[p]));
    Granted(c.nodes[q], m.args);
    a := VoteAnswer(m, HandleVote(c.nodes[q], m.args, false).1);
    c' := Take(c, boot, VoteArrives(m, false));
  }

  lemma CountVote(c: ClusterState, boot: Bootstrap, a: VoteAnswer) returns (c': ClusterState)
    requires Inv(c, boot) && a in c.voteAnswers && a.call.src in c.nodes && BallotOf(a.call) !in c.ballotsDone
    ensures Inv(c', boot) && LeadsTo(c, c')
    ensures c'.nodes == c.nodes[a.call.src := HandleVoteReply(c.nodes[a.call.src], a.call.args.term, a.reply)]
    ensures c'.voteCalls == c.voteCalls && c'.ballotsDone == c.ballotsDone + {BallotOf(a.call)} && NoCalls(c, c')
  {
    StandingOf(c, boot, a.call.src);
    c' := Take(c, boot, VoteReplyArrives(a));
  }

  /** The candidate has asked these voters, would get their votes and has not counted them. */
  ghost predicate Asking(c: ClusterState, p: NodeId, qs: set<NodeId>) {
    && p in c.nodes && c.nodes[p].role == Candidate && |c.nodes[p].log| > 0
    && forall q | q in qs ::
         && WouldVote(c, p, q) && VoteCall(p, q, VoteRequest(c.nodes[p])) in c.voteCalls
         && Ballot(p, c.nodes[p].term, q) !in c.ballotsDone
  }

  ghost function AfterOneVote(s: NodeState): NodeState {
    var s1 := s.(votesReceived := s.votesReceived + 1);
    if s1.votesReceived == s.votesNeeded then BecomeLeader(s1) else s1
  }

  /** One vote: the candidate has won with it, or counts on. */
  lemma OneVote(c: ClusterState, boot: Bootstrap, p: NodeId, q: NodeId, qs: set<NodeId>) returns (c': ClusterState)
    requires Inv(c, boot) && Asking(c, p, qs) && q in qs
    ensures Inv(c', boot) && LeadsTo(c, c') && OnlyMove(c, c', {p, q})
    ensures c'.nodes[q].term == c.nodes[p].term && c'.nodes[q].log == c.nodes[q].log
    ensures c'.nodes[p] == AfterOneVote(c.nodes[p]) && NoCalls(c, c')
    ensures c'.voteCalls == c.voteCalls && c'.ballotsDone == c.ballotsDone + {Ballot(p, c.nodes[p].term, q)}
  {
    var d, a := AskVote(c, boot, p, q);
    c' := CountVote(d, boot, a);
    GoOn(c, d, c');
    VoteCounts(c.nodes[p]);
  }

  lemma VoteCounts(s: NodeState)
    requires s.role == Candidate
    ensures HandleVoteReply(s, s.term, VoteReply(s.term, true)) == AfterOneVote(s)
  {
  }

  lemma StillAsking(c: ClusterState, d: ClusterState, p: NodeId, q: NodeId, qs: set<NodeId>)
    requires Asking(c, p, qs) && q in qs && OnlyMove(c, d, {p, q}) && d.voteCalls == c.voteCalls
    requires d.ballotsDone == c.ballotsDone + {Ballot(p, c.nodes[p].term, q)}
    requires d.nodes[p] == c.nodes[p].(votesReceived := c.nodes[p].votesReceived + 1)
    ensures Asking(d, p, qs - {q})
  {
    assert VoteRequest(d.nodes[p]) == VoteRequest(c.nodes[p]);
    assert VoteRecipients(d.nodes[p]) == VoteRecipients(c.nodes[p]);
    forall x | x in qs - {q} ensures WouldVote(d, p, x) { assert WouldVote(c, p, x); }
  }

  /** The voters have the logs they had, and are not in a later term than the candidate. */
  ghost predicate StandBehind(c: ClusterState, c': ClusterState, p: NodeId, qs: set<NodeId>)
    requires p in c.nodes
  {
    forall x | x in qs ::
      x in c.nodes && x in c'.nodes && c'.nodes[x].term <= c.nodes[p].term && c'.nodes[x].log == c.nodes[x].log
  }

  lemma VotersBehind(c: ClusterState, d: ClusterState, p: NodeId, q: NodeId, qs: set<NodeId>)
    requires Asking(c, p, qs) && q in qs && OnlyMove(c, d, {p, q}) && q in d.nodes
    requires d.nodes[q].term == c.nodes[p].term && q in c.nodes && d.nodes[q].log == c.nodes[q].log
    ensures StandBehind(c, d, p, qs)
  {
    forall x | x in qs
      ensures x in c.nodes && x in d.nodes && d.nodes[x].term <= c.nodes[p].term && d.nodes[x].log == c.nodes[x].log
    {
      assert WouldVote(c, p, x);
    }
  }

  ghost function Winner(s: NodeState): NodeState {
    BecomeLeader(s.(votesReceived := s.votesNeeded))
  }

  /** The candidate leads the term it stood in, and the voters are not beyond it. */
  ghost predicate Elects(c: ClusterState, c': ClusterState, p: NodeId, qs: set<NodeId>)
    requires p in c.nodes
  {
    && OnlyMove(c, c', qs + {p}) && NoCalls(c, c') && c'.voteCalls == c.voteCalls
    && c'.nodes[p] == Winner(c.nodes[p])
    && StandBehind(c, c', p, qs)
  }

  lemma ElectsToo(c: ClusterState, d: ClusterState, e: ClusterState, p: NodeId, q: NodeId, qs: set<NodeId>)
    requires p in c.nodes && p in d.nodes && q in qs && p !in qs && StandBehind(c, d, p, qs)
    requires OnlyMove(c, d, {p, q}) && NoCalls(c, d) && d.voteCalls == c.voteCalls && Elects(d, e, p, qs - {q})
    requires d.nodes[p] == c.nodes[p].(votesReceived := d.nodes[p].votesReceived)
    ensures Elects(c, e, p, qs)
  {
    forall x | x in qs
      ensures x in c.nodes && x in e.nodes && e.nodes[x].term <= c.nodes[p].term && e.nodes[x].log == c.nodes[x].log
    {
      assert x in d.nodes && d.nodes[x].log == c.nodes[x].log;
    }
  }

  /** With enough voters that would vote for it, a candidate becomes leader. */
  lemma {:induction false} GatherVotes(c: ClusterState, boot: Bootstrap, p: NodeId, qs: set<NodeId>)
    returns (c': ClusterState)
    requires Inv(c, boot) && Asking(c, p, qs) && p !in qs
    requires c.nodes[p].votesReceived < c.nodes[p].votesNeeded <= c.nodes[p].votesReceived + |qs|
    ensures Inv(c', boot) && LeadsTo(c, c') && Elects(c, c', p, qs)
    decreases |qs|
  {
    var q := Pick(qs);
    var d := OneVote(c, boot, p, q, qs);
    var s1 := c.nodes[p].(votesReceived := c.nodes[p].votesReceived + 1);
    VotersBehind(c, d, p, q, qs);
    if s1.votesReceived == s1.votesNeeded {
      c' := d;
    } else {
      StillAsking(c, d, p, q, qs);
      c' := GatherVotes(d, boot, p, qs - {q});
      GoOn(c, d, c');
      ElectsToo(c, d, c', p, q, qs);
    }
  }

  lemma {:induction false} MostUpToDate(c: ClusterState, boot: Bootstrap, qs: set<NodeId>) returns (p: NodeId)
    requires Inv(c, boot) && qs <= c.nodes.Keys && qs != {}
    ensures p in qs && |c.nodes[p].log| > 0
    ensures forall q | q in qs :: |c.nodes[q].log| > 0
              && UpToDate(LastIndex(c.nodes[p].log), LastTerm(c.nodes[p].log), c.nodes[q].log)
    decreases qs
  {
    var q := Pick(qs);
    StandingOf(c, boot, q);
    p := q;
    if qs - {q} != {} {
      var r := MostUpToDate(c, boot, qs - {q});
      if UpToDate(LastIndex(c.nodes[r].log), LastTerm(c.nodes[r].log), c.nodes[q].log) { p := r; }
    }
    forall x | x in qs
      ensures |c.nodes[x].log| > 0 && UpToDate(LastIndex(c.nodes[p].log), LastTerm(c.nodes[p].log), c.nodes[x].log)
    {
      if x != q { assert x in qs - {q}; }
    }
  }

  lemma {:induction false} HighestTerm(c: ClusterState, qs: set<NodeId>) returns (t: Term)
    requires qs <= c.nodes.Keys
    ensures forall q | q in qs :: c.nodes[q].term <= t
    decreases qs
  {
    t := 0;
    if qs != {} {
      var q := Pick(qs);
      t := HighestTerm(c, qs - {q});
      if t < c.nodes[q].term { t := c.nodes[q].term; }
    }
  }

  /** A node whose log is the most up-to-date of a majority stands for election beyond their terms. */
  lemma Candidacy(c: ClusterState, boot: Bootstrap, qs: set<NodeId>, p: NodeId, t: Term) returns (c': ClusterState)
    requires Inv(c, boot) && |boot| >= 2 && qs <= boot.Keys && Connected(c, qs) && BallotsPast(c)
    requires p in qs && |c.nodes[p].log| > 0
    requires forall q | q in qs :: |c.nodes[q].log| > 0
               && UpToDate(LastIndex(c.nodes[p].log), LastTerm(c.nodes[p].log), c.nodes[q].log)
    requires forall q | q in qs :: c.nodes[q].term < t
    ensures Inv(c', boot) && LeadsTo(c, c') && OnlyMove(c, c', {p}) && NoCalls(c, c')
    ensures Asking(c', p, qs - {p}) && Standing(c', p) && c'.nodes[p] == Stood(c.nodes[p], t)
  {
    StandingOf(c, boot, p);
    var d := NotLeading(c, boot, p);
    c' := Stand(d, boot, p, t);
    GoOn(c, d, c');
    forall q | q in qs - {p} ensures WouldVote(c', p, q) { assert q in c.nodes[p].peers; }
  }

  /** A node of a majority, with a log as up-to-date as any of theirs, is elected in a term beyond theirs. */
  lemma ElectNode(c: ClusterState, boot: Bootstrap, qs: set<NodeId>, p: NodeId, t: Term) returns (c': ClusterState)
    requires Inv(c, boot) && |boot| >= 2 && IsQuorum(boot.Keys, qs) && Connected(c, qs) && BallotsPast(c)
    requires p in qs && |c.nodes[p].log| > 0
    requires forall q | q in qs :: |c.nodes[q].log| > 0
               && UpToDate(LastIndex(c.nodes[p].log), LastTerm(c.nodes[p].log), c.nodes[q].log)
    requires forall q | q in qs :: c.nodes[q].term < t
    ensures Inv(c', boot) && LeadsTo(c, c') && OnlyMove(c, c', qs) && NoCalls(c, c')
    ensures c'.nodes[p] == Winner(Stood(c.nodes[p], t))
    ensures forall q | q in qs - {p} :: c'.nodes[q].log == c.nodes[q].log && c'.nodes[q].term <= t
    ensures var s := Stood(c.nodes[p], t); forall q | q in VoteRecipients(s) :: VoteCall(p, q, VoteRequest(s)) in c'.voteCalls
  {
    assert |boot.Keys| == |boot|;
    StandingOf(c, boot, p);
    var d := Candidacy(c, boot, qs, p, t);
    assert qs == (qs - {p}) + {p};
    c' := GatherVotes(d, boot, p, qs - {p});
    GoOn(c, d, c');
  }

  lemma WinnerInBounds(boot: Bootstrap, p: NodeId, s: NodeState, t: Term)
    requires ConfigInv(boot, p, s) && |s.log| > 0
    ensures var s' := Winner(Stood(s, t)); forall q | q in s'.peers :: InBounds(s', q)
  {
  }

  lemma WinnerReady(c: ClusterState, boot: Bootstrap, qs: set<NodeId>, p: NodeId, t: Term, c': ClusterState)
    requires Connected(c, qs) && p in qs && p in c.nodes && ConfigInv(boot, p, c.nodes[p]) && |c.nodes[p].log| > 0
    requires OnlyMove(c, c', qs) && c'.nodes[p] == Winner(Stood(c.nodes[p], t))
    requires forall q | q in qs - {p} :: q in c.nodes && c'.nodes[q].term <= t
    ensures AllReady(c', p, qs - {p})
  {
    WinnerInBounds(boot, p, c.nodes[p], t);
    forall q | q in qs - {p} ensures Ready(c', p, q) { assert q in c.nodes[p].peers; }
  }

  /** Whatever has happened, a majority that can communicate can elect one of its nodes. */
  lemma MajorityCanElect(c: ClusterState, boot: Bootstrap, qs: set<NodeId>) returns (c': ClusterState, p: NodeId)
    requires Inv(c, boot) && |boot| >= 2 && IsQuorum(boot.Keys, qs) && Connected(c, qs) && BallotsPast(c)
    ensures Inv(c', boot) && LeadsTo(c, c') && p in qs && AllReady(c', p, qs - {p})
  {
    p := MostUpToDate(c, boot, qs);
    var t := HighestTerm(c, qs);
    c' := ElectNode(c, boot, qs, p, t + 1);
    StandingOf(c, boot, p);
    WinnerReady(c, boot, qs, p, t + 1, c');
  }

  // ---- Applying -------------------------------------------------------------

  /** Only the applier moves. */
  predicate OnlyApplies(s: NodeState, s': NodeState) {
    s' == s.(lastApplied := s'.lastApplied, batch := s'.batch, fsm := s'.fsm)
  }

  lemma {:induction false} Drain(c: ClusterState, boot: Bootstrap, p: NodeId) returns (c': ClusterState)
    requires Inv(c, boot) && p in c.nodes && c.nodes[p].batch.Some?
    ensures Inv(c', boot) && LeadsTo(c, c') && OnlyMove(c, c', {p}) && OnlyApplies(c.nodes[p], c'.nodes[p])
    ensures c'.nodes[p].batch.None? && c'.nodes[p].lastApplied >= c.nodes[p].batch.value.upTo
    decreases var b := c.nodes[p].batch.value; |b.entries| - b.done
  {
    AloneInCluster(c, boot, p);
    if CanFinishBatch(c.nodes[p]) {
      c' := Take(c, boot, BatchFinished(p));
    } else {
      var d := Take(c, boot, EntryApplied(p));
      c' := Drain(d, boot, p);
      GoOn(c, d, c');
    }
  }

  lemma DrainAny(c: ClusterState, boot: Bootstrap, p: NodeId) returns (c': ClusterState)
    requires Inv(c, boot) && p in c.nodes
    ensures Inv(c', boot) && LeadsTo(c, c') && OnlyMove(c, c', {p}) && OnlyApplies(c.nodes[p], c'.nodes[p])
    ensures c'.nodes[p].batch.None?
  {
    if c.nodes[p].batch.Some? {
      c' := Drain(c, boot, p);
    } else {
      c' := c;
      StayPut(c);
    }
  }

  /** What is committed can be applied. */
  lemma ApplyAll(c: ClusterState, boot: Bootstrap, p: NodeId) returns (c': ClusterState)
    requires Inv(c, boot) && p in c.nodes
    ensures Inv(c', boot) && LeadsTo(c, c') && OnlyMove(c, c', {p}) && OnlyApplies(c.nodes[p], c'.nodes[p])
    ensures c'.nodes[p].lastApplied == c'.nodes[p].commit
  {
    var d := DrainAny(c, boot, p);
    AloneInCluster(d, boot, p);
    if d.nodes[p].lastApplied < d.nodes[p].commit {
      var e := Take(d, boot, BatchTaken(p));
      c' := Drain(e, boot, p);
      GoOn(d, e, c');
      AloneInCluster(c', boot, p);
    } else {
      c' := d;
      StayPut(d);
    }
    GoOn(c, d, c');
  }

  // ---- From any state of any run --------------------------------------------

  lemma BallotsStayPast(c: ClusterState, boot: Bootstrap, step: Step)
    requires Inv(c, boot) && Enabled(c, step) && BallotsPast(c)
    ensures BallotsPast(TakeStep(c, step))
  {
    var c' := TakeStep(c, step);
    forall b | b in c'.ballotsDone ensures b.candidate in c'.nodes && b.term <= c'.nodes[b.candidate].term {
      if b !in c.ballotsDone {
        var a := step.voteAnswer;
        assert VoteAnswerOk(c.hist, boot, a) && VoteCallOk(c.hist, boot, a.call);
        AloneInCluster(c, boot, a.call.src);
      }
      StepOnward(c, boot, step, b.candidate);
    }
  }

  lemma NextKeepsBallots(c: ClusterState, boot: Bootstrap, c': ClusterState)
    requires Inv(c, boot) && Next(c, c') && BallotsPast(c)
    ensures BallotsPast(c')
  {
    var step :| Enabled(c, step) && c' == TakeStep(c, step);
    BallotsStayPast(c, boot, step);
  }

  lemma {:induction false} BallotsInRun(r: seq<ClusterState>, boot: Bootstrap, i: nat)
    requires Run(r, boot) && i < |r|
    ensures BallotsPast(r[i])
  {
    if i > 0 {
      BallotsInRun(r, boot, i - 1);
      RunHasInv(r, boot, i - 1);
      assert StepAt(r, i - 1);
      NextKeepsBallots(r[i - 1], boot, r[i]);
    }
  }
}

/** Runs that end with a late reply, and what it does there: why the assumption on timing cannot be
    dropped, and what a test of the reply can and cannot tell. */
module LateRuns {
  import opened RaftTypes
  import opened Quorums
  import opened Membership
  import opened NodeSpec
  import opened Logs
  import opened Cluster
  import opened ClusterInv
  import opened Safety
  import opened Availability
  import opened LateReplies
  import opened MatchOrder
  import opened Launch

  // ---- How the runs begin ---------------------------------------------------

  /** What a leader of term `t` writes on a fresh log. */
  ghost function FirstLog(boot: Bootstrap, t: Term): Log {
    WonLog(boot, [SENTINEL], t)
  }

  lemma FirstLogsAsLong(boot: Bootstrap, t: Term, u: Term)
    ensures |FirstLog(boot, t)| == |FirstLog(boot, u)| > 1
  {
  }

  lemma LaterLog(boot: Bootstrap, log: Log, t: Term)
    requires |log| > 1
    ensures WonLog(boot, log, t) == log + [NoOp(t)]
  {
  }

  /** All but two are a majority of five or more. */
  lemma AllBut(boot: Bootstrap, out: set<NodeId>, p: NodeId)
    requires |boot| >= 5 && |out| <= 2 && p in boot && p !in out
    ensures IsQuorum(boot.Keys, (boot.Keys - out - {p}) + {p})
  {
    var q := (boot.Keys - out - {p}) + {p};
    assert q == boot.Keys - out;
    SubsetSize(boot.Keys, q + out);
    assert |q + out| <= |q| + |out|;
    assert |boot.Keys| == |boot|;
  }

  ghost predicate LeadsIn(c: ClusterState, p: NodeId, t: Term, log: Log) {
    p in c.nodes && c.nodes[p].role == Leader && c.nodes[p].term == t && c.nodes[p].log == log
  }

  ghost predicate HasLog(c: ClusterState, q: NodeId, t: Term, log: Log) {
    q in c.nodes && c.nodes[q].term == t && c.nodes[q].log == log
  }

  /** Everybody but `p`, `q` and `r`. */
  function Others(boot: Bootstrap, p: NodeId, q: NodeId, r: NodeId): set<NodeId> {
    boot.Keys - {p, q, r}
  }

  predicate Distinct(boot: Bootstrap, p: NodeId, q: NodeId, r: NodeId) {
    |boot| >= 3 && p in boot && q in boot && r in boot && p != q && r != p && r != q
  }

  /** Three nodes of a cluster that has a majority without any two of them. */
  predicate Three(boot: Bootstrap, p: NodeId, q: NodeId, r: NodeId) {
    |boot| >= 5 && p in boot && q in boot && r in boot && p != q && r != p && r != q
  }

  /** `p` is elected in term `t` without the other two: exactly what becomes of it. */
  lemma Election(c: ClusterState, boot: Bootstrap, p: NodeId, q: NodeId, r: NodeId, t: Term) returns (c': ClusterState)
    requires Alive(c, boot) && Three(boot, p, q, r)
    requires Blank(c, Others(boot, p, q, r), t) && p in c.nodes && c.nodes[p].term < t
    ensures Alive(c', boot) && LeadsTo(c, c') && NoCalls(c, c') && OnlyMove(c, c', boot.Keys - {q, r})
    ensures c'.nodes[p] == Winner(Stood(c.nodes[p], t)) && Leads(c'.nodes[p], t, WonLog(boot, c.nodes[p].log, t))
    ensures Blank(c', Others(boot, p, q, r), t + 1)
    ensures |c.nodes[p].log| > 0
    ensures var s := Stood(c.nodes[p], t); forall x | x in VoteRecipients(s) :: VoteCall(p, x, VoteRequest(s)) in c'.voteCalls
  {
    var rest := Others(boot, p, q, r);
    assert boot.Keys - {q, r} - {p} == rest && rest + {p} == boot.Keys - {q, r};
    AllBut(boot, {q, r}, p);
    c' := Elect(c, boot, p, rest, t);
  }

  lemma ElectWithout(c: ClusterState, boot: Bootstrap, p: NodeId, q: NodeId, r: NodeId, t: Term) returns (c': ClusterState)
    requires Alive(c, boot) && Three(boot, p, q, r)
    requires Blank(c, Others(boot, p, q, r), t) && p in c.nodes && c.nodes[p].term < t
    ensures Alive(c', boot) && LeadsTo(c, c') && NoCalls(c, c') && OnlyMove(c, c', boot.Keys - {q, r})
    ensures LeadsIn(c', p, t, WonLog(boot, c.nodes[p].log, t)) && MatchOf(c'.nodes[p], q) == 0
    ensures Blank(c', Others(boot, p, q, r), t + 1)
  {
    c' := Election(c, boot, p, q, r, t);
  }

  /** `p` leads the first term, `q` has its log, and nobody else has heard of it. */
  lemma FirstTerm(boot: Bootstrap, p: NodeId, q: NodeId) returns (c0: ClusterState, c: ClusterState)
    requires Startable(boot) && |boot| >= 5 && p in boot && q in boot && p != q
    ensures Init(c0, boot) && LeadsTo(c0, c) && Alive(c, boot)
    ensures LeadsIn(c, p, 1, FirstLog(boot, 1)) && HasLog(c, q, 1, FirstLog(boot, 1))
    ensures Blank(c, boot.Keys - {p, q}, 2)
  {
    c0 := Start(boot);
    var rest := boot.Keys - {q} - {p};
    assert boot.Keys - {p, q} == rest;
    AllBut(boot, {q}, p);
    var c1 := Elect(c0, boot, p, rest, 1);
    assert Blank(c1, rest, 2) && c1.nodes[q] == c0.nodes[q];
    c := BringUp(c1, boot, p, q);
    assert Blank(c, rest, 2);
    GoOn(c0, c1, c);
  }

  lemma GrownMatches(log: Log, es: seq<Entry>)
    ensures Matching(log, log + es)
  {
    forall i | 0 <= i < |log| && i < |log + es| && log[i].term == (log + es)[i].term
      ensures log[..i + 1] == (log + es)[..i + 1]
    {
    }
  }

  lemma TailMerged(log: Log, es: seq<Entry>, prev: LogIndex)
    requires prev < |log| && es != []
    ensures MergeEntries(log, prev, (log + es)[prev + 1..]) == log + es
  {
    var l := log + es;
    GrownMatches(log, es);
    assert l[prev] == log[prev];
    MergeGivesLonger(log, l, prev);
    assert |l| > |log|;
  }

  lemma AcceptedTail(s: NodeState, a: AppendArgs)
    requires a.prevIndex < |s.log|
    ensures AcceptEntries(s, a).log == MergeEntries(s.log, a.prevIndex, a.entries) && AcceptEntries(s, a).term == s.term
  {
    var r := Merged(s, a);
    MergeKeepsStanding(s, a);
    assert FollowCommit(r, a) == r.(commit := FollowCommit(r, a).commit);
  }

  lemma AcceptedOutcome(f: NodeState, a: AppendArgs)
    requires |f.log| > 0 && f.term == a.term && Accepts(f.log, a.prevIndex, a.prevTerm)
    ensures var (f', reply) := HandleAppend(f, a);
            f'.log == MergeEntries(f.log, a.prevIndex, a.entries) && f'.term == a.term && reply == AppendReply(a.term, true, 0, 0)
  {
    AcceptedTail(Heed(f, a), a);
  }

  lemma TakesTail(f: NodeState, a: AppendArgs, log: Log, es: seq<Entry>)
    requires f.log == log && f.term == a.term && a.prevIndex < |log| && a.prevTerm == log[a.prevIndex].term && es != []
    requires a.entries == (log + es)[a.prevIndex + 1..]
    ensures var (f', reply) := HandleAppend(f, a);
            f'.term == a.term && f'.log == log + es && reply == AppendReply(a.term, true, 0, 0)
  {
    TailMerged(log, es, a.prevIndex);
    AcceptedOutcome(f, a);
  }

  /** A request for a peer whose log ends where the leader's did before its last entries. */
  lemma TakesTheLast(s: NodeState, q: NodeId, f: NodeState, log: Log, es: seq<Entry>)
    requires InBounds(s, q) && s.nextIndex[q] <= |log| && s.log == log + es && f.log == log && f.term == s.term && es != []
    ensures var a := AppendRequest(s, q);
            var (f', reply) := HandleAppend(f, a);
            f'.term == s.term && f'.log == s.log && reply == AppendReply(s.term, true, 0, 0) && Reach(a) == |s.log| - 1
  {
    var a := AppendRequest(s, q);
    assert s.log[a.prevIndex] == log[a.prevIndex];
    TakesTail(f, a, log, es);
  }

  /** The answer to a request of term `t` that reached `n` was an acknowledgement. */
  predicate Acked(a: AppendAnswer, t: Term, n: LogIndex) {
    a.call.args.term == t && Reach(a.call.args) == n && a.reply == AppendReply(t, true, 0, 0)
  }

  /** The leader sends its last entries to a peer, which takes them over and acknowledges them. */
  lemma AskToTake(c: ClusterState, boot: Bootstrap, p: NodeId, q: NodeId, t: Term, log: Log, es: seq<Entry>)
    returns (c': ClusterState, a: AppendAnswer)
    requires Alive(c, boot) && p != q && LeadsIn(c, p, t, log + es) && HasLog(c, q, t, log) && es != []
    requires InBounds(c.nodes[p], q) && c.nodes[p].nextIndex[q] <= |log|
    ensures Alive(c', boot) && LeadsTo(c, c') && OnlyMove(c, c', {p, q}) && OnlyCall(c, c', p, q)
    ensures LeadsIn(c', p, t, log + es) && HasLog(c', q, t, log + es)
    ensures Waits(c', p, q, a) && Acked(a, t, |log + es| - 1)
  {
    ReadyToSend(c, boot, p, q);
    c', a := Ask(c, boot, p, q);
    TakesTheLast(c.nodes[p], q, c.nodes[q], log, es);
  }

  /** `p` leads the first term, `q` has taken over a command, and its answer is still to be processed. */
  ghost predicate Unanswered(c: ClusterState, boot: Bootstrap, p: NodeId, q: NodeId, cmd: Command, a: AppendAnswer) {
    var log := FirstLog(boot, 1) + [Entry(Normal, 1, cmd)];
    && HasLog(c, p, 1, log) && HasLog(c, q, 1, log) && Waits(c, p, q, a)
    && Acked(a, 1, |FirstLog(boot, 1)|)
  }

  lemma AnswerOut(boot: Bootstrap, p: NodeId, q: NodeId, cmd: Command)
    returns (c0: ClusterState, c: ClusterState, a: AppendAnswer)
    requires Startable(boot) && |boot| >= 5 && p in boot && q in boot && p != q
    ensures Init(c0, boot) && LeadsTo(c0, c) && Alive(c, boot) && Unanswered(c, boot, p, q, cmd, a)
    ensures Blank(c, boot.Keys - {p, q}, 2)
  {
    var c1, c2;
    c0, c1 := FirstTerm(boot, p, q);
    IndexInBounds(c1, boot, p, q);
    c2 := Give(c1, boot, p, cmd);
    GoOn(c0, c1, c2);
    c, a := AskToTake(c2, boot, p, q, 1, FirstLog(boot, 1), [Entry(Normal, 1, cmd)]);
    GoOn(c0, c2, c);
  }

  lemma ReadyToSend(c: ClusterState, boot: Bootstrap, p: NodeId, q: NodeId)
    requires Alive(c, boot) && p in c.nodes && q in c.nodes && p != q
    requires c.nodes[p].role == Leader && c.nodes[q].term <= c.nodes[p].term
    ensures Ready(c, p, q)
  {
    IndexInBounds(c, boot, p, q);
  }

  /** Next, `r` is elected by nodes that have heard of nothing. */
  lemma Usurped(boot: Bootstrap, p: NodeId, q: NodeId, r: NodeId, cmd: Command)
    returns (c0: ClusterState, c: ClusterState, a: AppendAnswer)
    requires Startable(boot) && Three(boot, p, q, r)
    ensures Init(c0, boot) && LeadsTo(c0, c) && Alive(c, boot) && Unanswered(c, boot, p, q, cmd, a)
    ensures LeadsIn(c, r, 2, FirstLog(boot, 2)) && Blank(c, Others(boot, p, q, r), 3)
  {
    var c1;
    c0, c1, a := AnswerOut(boot, p, q, cmd);
    assert Others(boot, r, p, q) == Others(boot, p, q, r);
    assert Blank(c1, Others(boot, r, p, q), 2) && r in boot.Keys - {p, q};
    c := ElectWithout(c1, boot, r, p, q, 2);
    GoOn(c0, c1, c);
  }

  /** Of `p` and `r` the one that leads brings the other to its log, while the answer from `q` waits. */
  lemma OneFollows(c: ClusterState, boot: Bootstrap, p: NodeId, q: NodeId, r: NodeId, l: NodeId, f: NodeId, t: Term, a: AppendAnswer)
    returns (c': ClusterState)
    requires Alive(c, boot) && Three(boot, p, q, r) && ((l == p && f == r) || (l == r && f == p))
    requires l in c.nodes && f in c.nodes && c.nodes[l].role == Leader && c.nodes[f].term <= c.nodes[l].term
    requires Blank(c, Others(boot, p, q, r), t) && Waits(c, p, q, a)
    ensures Alive(c', boot) && LeadsTo(c, c') && Waits(c', p, q, a) && Blank(c', Others(boot, p, q, r), t)
    ensures LeadsIn(c', l, c.nodes[l].term, c.nodes[l].log) && HasLog(c', f, c.nodes[l].term, c.nodes[l].log)
    ensures |c.nodes[l].log| > 0 && UpToDatePeer(c'.nodes[l], f) && MatchOf(c'.nodes[l], q) == MatchOf(c.nodes[l], q)
    ensures q in c.nodes && q in c'.nodes && c'.nodes[q] == c.nodes[q]
  {
    c' := BringUp(c, boot, l, f);
    OneSideMoved(c, c', boot, p, q, r, l, f, t, a);
  }

  lemma OneSideMoved(c: ClusterState, c': ClusterState, boot: Bootstrap, p: NodeId, q: NodeId, r: NodeId, l: NodeId, f: NodeId,
                     t: Term, a: AppendAnswer)
    requires Three(boot, p, q, r) && ((l == p && f == r) || (l == r && f == p)) && q in c.nodes
    requires OnlyMove(c, c', {l, f}) && OnlyCall(c, c', l, f) && Blank(c, Others(boot, p, q, r), t) && Waits(c, p, q, a)
    ensures Waits(c', p, q, a) && Blank(c', Others(boot, p, q, r), t) && q in c'.nodes && c'.nodes[q] == c.nodes[q]
  {
  }

  /** `p` is brought to the log of `r`, its own being cut, and is elected in the next term. */
  lemma Returns(c: ClusterState, boot: Bootstrap, p: NodeId, q: NodeId, r: NodeId, t: Term, log: Log, a: AppendAnswer)
    returns (c': ClusterState)
    requires Alive(c, boot) && Three(boot, p, q, r)
    requires p in c.nodes && c.nodes[p].term <= t && LeadsIn(c, r, t, log) && |log| > 1
    requires Blank(c, Others(boot, p, q, r), t + 1) && Waits(c, p, q, a)
    ensures Alive(c', boot) && LeadsTo(c, c') && Waits(c', p, q, a) && Blank(c', Others(boot, p, q, r), t + 2)
    ensures LeadsIn(c', p, t + 1, log + [NoOp(t + 1)]) && MatchOf(c'.nodes[p], q) == 0
    ensures r in c'.nodes && c'.nodes[r].term == t
    ensures q in c.nodes && q in c'.nodes && c'.nodes[q] == c.nodes[q]
  {
    var c1 := OneFollows(c, boot, p, q, r, r, p, t + 1, a);
    c' := ElectWithout(c1, boot, p, q, r, t + 1);
    LaterLog(boot, log, t + 1);
    GoOn(c, c1, c');
  }

  // ---- Two late acknowledgements that look the same -------------------------

  lemma IsAsked(c: ClusterState, boot: Bootstrap, p: NodeId, q: NodeId, t: Term)
    requires Alive(c, boot) && p in boot && q in boot && p != q
    ensures p in c.nodes && q in VoteRecipients(Stood(c.nodes[p], t))
  {
    AloneInCluster(c, boot, p);
  }

  /** `p` is elected in term 3, and `q` hears of the election. */
  lemma ElectedAndHeard(c: ClusterState, boot: Bootstrap, p: NodeId, q: NodeId, r: NodeId, a: AppendAnswer)
    returns (c': ClusterState)
    requires Alive(c, boot) && Three(boot, p, q, r) && Waits(c, p, q, a)
    requires Blank(c, Others(boot, p, q, r), 3) && p in c.nodes && q in c.nodes && c.nodes[p].term < 3 && c.nodes[q].term < 3
    ensures LeadsTo(c, c') && Alive(c', boot) && Waits(c', p, q, a) && |c.nodes[p].log| > 0
    ensures p in c'.nodes && c'.nodes[p] == Winner(Stood(c.nodes[p], 3)) && Leads(c'.nodes[p], 3, WonLog(boot, c.nodes[p].log, 3))
    ensures HasLog(c', q, 3, c.nodes[q].log)
  {
    IsAsked(c, boot, p, q, 3);
    var c1 := Election(c, boot, p, q, r, 3);
    c' := Hear(c1, boot, VoteCall(p, q, VoteRequest(Stood(c.nodes[p], 3))));
    GoOn(c, c1, c');
  }

  /** A late acknowledgement that may come in, from a peer that is in the leader's term. */
  ghost predicate LateAckComes(c: ClusterState, p: NodeId, q: NodeId, a: AppendAnswer) {
    && a.call.src == p && a.call.dst == q && p in c.nodes && q in c.nodes && a.reply.success
    && Enabled(c, AppendReplyArrives(a)) && IsLate(c.nodes[p], a) && c.nodes[q].term == c.nodes[p].term
  }

  /** Once it is processed the match index is sound: the peer has the leader's log that far. */
  ghost predicate MatchSoundAfter(c: ClusterState, p: NodeId, q: NodeId, a: AppendAnswer)
    requires LateAckComes(c, p, q, a)
  {
    var d := TakeStep(c, AppendReplyArrives(a));
    AgreeTo(d.nodes[p].log, d.nodes[q].log, MatchOf(d.nodes[p], q))
  }

  lemma LateAckMatches(c: ClusterState, p: NodeId, q: NodeId, a: AppendAnswer, t: Term, log: Log)
    requires p in c.nodes && q in c.nodes && p != q && Waits(c, p, q, a) && Leads(c.nodes[p], t, log)
    requires c.nodes[q].term == t && a.reply.success && a.reply.term <= a.call.args.term < t
    requires 0 < Reach(a.call.args) < |log| && log[Reach(a.call.args)].term != t
    ensures LateAckComes(c, p, q, a)
    ensures MatchSoundAfter(c, p, q, a) <==> AgreeTo(log, c.nodes[q].log, Reach(a.call.args))
  {
  }

  /** `p` leads again, having kept its log, and the answer is still to come. */
  lemma LateAckOut(c: ClusterState, boot: Bootstrap, p: NodeId, q: NodeId, r: NodeId, log: Log, a: AppendAnswer)
    returns (c': ClusterState)
    requires Alive(c, boot) && Three(boot, p, q, r) && Waits(c, p, q, a) && Blank(c, Others(boot, p, q, r), 3)
    requires HasLog(c, p, 1, log) && |log| > 1 && q in c.nodes && c.nodes[q].term < 3
    requires a.reply == AppendReply(1, true, 0, 0) && a.call.args.term == 1
    requires 0 < Reach(a.call.args) < |log| && log[Reach(a.call.args)].term == 1
    ensures LeadsTo(c, c') && Alive(c', boot) && LateAckComes(c', p, q, a) && c'.nodes[p] == Winner(Stood(c.nodes[p], 3))
    ensures LeadsIn(c', p, 3, log + [NoOp(3)]) && MatchOf(c'.nodes[p], q) == 0 && HasLog(c', q, 3, c.nodes[q].log)
    ensures MatchSoundAfter(c', p, q, a) <==> AgreeTo(log + [NoOp(3)], c.nodes[q].log, Reach(a.call.args))
  {
    LaterLog(boot, log, 3);
    c' := ElectedAndHeard(c, boot, p, q, r, a);
    LateAckMatches(c', p, q, a, 3, log + [NoOp(3)]);
  }

  /** The same after `q` was brought to the log of `r`, which is too short. */
  lemma Lost(c: ClusterState, boot: Bootstrap, p: NodeId, q: NodeId, r: NodeId, log: Log, a: AppendAnswer)
    returns (c': ClusterState)
    requires Alive(c, boot) && Three(boot, p, q, r) && Waits(c, p, q, a) && Blank(c, Others(boot, p, q, r), 3)
    requires HasLog(c, p, 1, log) && |log| > 1 && q in c.nodes && c.nodes[q].term < 3
    requires a.reply == AppendReply(1, true, 0, 0) && a.call.args.term == 1
    requires 0 < Reach(a.call.args) < |log| && log[Reach(a.call.args)].term == 1
    requires LeadsIn(c, r, 2, FirstLog(boot, 2)) && c.nodes[q].term <= 2 && |FirstLog(boot, 2)| <= Reach(a.call.args)
    ensures LeadsTo(c, c') && Alive(c', boot) && LateAckComes(c', p, q, a) && c'.nodes[p] == Winner(Stood(c.nodes[p], 3))
    ensures c'.nodes[q].log == FirstLog(boot, 2) && LeadsIn(c', p, 3, log + [NoOp(3)]) && MatchOf(c'.nodes[p], q) == 0
    ensures !MatchSoundAfter(c', p, q, a)
  {
    var d := BringUp(c, boot, r, q);
    assert Waits(d, p, q, a) && Blank(d, Others(boot, p, q, r), 3) && d.nodes[p] == c.nodes[p];
    c' := LateAckOut(d, boot, p, q, r, log, a);
    GoOn(c, d, c');
  }

  lemma PrefixAgrees(log: Log, es: seq<Entry>, n: LogIndex)
    requires n < |log|
    ensures AgreeTo(log + es, log, n)
  {
  }

  /** No test of the leader's state, the request and the reply tells the sound late acknowledgements from the
      others: in every cluster of five or more there are two runs that end with the same leader and the same
      answer to come, from a peer that in one of them still has what it acknowledged and in the other has not. */
  lemma NoTestTells(boot: Bootstrap, p: NodeId, q: NodeId, r: NodeId, cmd: Command)
    returns (u: seq<ClusterState>, v: seq<ClusterState>, a: AppendAnswer)
    requires Startable(boot) && Three(boot, p, q, r)
    ensures Run(u, boot) && Run(v, boot)
    ensures var (c, d) := (u[|u| - 1], v[|v| - 1]);
            && LateAckComes(c, p, q, a) && LateAckComes(d, p, q, a) && c.nodes[p] == d.nodes[p]
            && MatchSoundAfter(c, p, q, a) && !MatchSoundAfter(d, p, q, a)
  {
    var c0, c1;
    c0, c1, a := Usurped(boot, p, q, r, cmd);
    var mine := FirstLog(boot, 1) + [Entry(Normal, 1, cmd)];
    FirstLogsAsLong(boot, 1, 2);
    var c := LateAckOut(c1, boot, p, q, r, mine, a);
    PrefixAgrees(mine, [NoOp(3)], Reach(a.call.args));
    GoOn(c0, c1, c);
    u := RunTo(boot, c0, c);
    var d := Lost(c1, boot, p, q, r, mine, a);
    GoOn(c0, c1, d);
    v := RunTo(boot, c0, d);
  }

  /** But a test need not refuse all late ones: what `Vouched` lets in is sound, and some of it is late. */
  lemma VouchedMayBeLate(boot: Bootstrap, p: NodeId, q: NodeId, cmd: Command)
    returns (run: seq<ClusterState>, a: AppendAnswer)
    requires Startable(boot) && |boot| >= 5 && p in boot && q in boot && p != q
    ensures Run(run, boot)
    ensures var c := run[|run| - 1]; LateAckComes(c, p, q, a) && Vouched(c.nodes[p], a.call.args)
  {
    var c0, c1;
    c0, c1, a := AnswerOut(boot, p, q, cmd);
    var mine := FirstLog(boot, 1) + [Entry(Normal, 1, cmd)];
    var rest := boot.Keys - {q} - {p};
    assert rest == boot.Keys - {p, q};
    AllBut(boot, {q}, p);
    IsAsked(c1, boot, p, q, 2);
    var c2 := Elect(c1, boot, p, rest, 2);
    assert Waits(c2, p, q, a) && c2.nodes[q] == c1.nodes[q];
    LaterLog(boot, mine, 2);
    var c := Hear(c2, boot, VoteCall(p, q, VoteRequest(Stood(c1.nodes[p], 2))));
    LateAckMatches(c, p, q, a, 2, mine + [NoOp(2)]);
    GoOn(c0, c1, c2);
    GoOn(c0, c2, c);
    run := RunTo(boot, c0, c);
  }

  // ---- A probe that is not above what is matched ----------------------------

  /** The peer refuses and points to the end of its log. */
  lemma RefusesAtEnd(s: NodeState, q: NodeId, f: NodeState)
    requires InBounds(s, q) && |f.log| > 0 && f.term <= s.term && s.nextIndex[q] > |f.log|
    ensures var (f', reply) := HandleAppend(f, AppendRequest(s, q));
            f'.log == f.log && f'.term == s.term && reply == AppendReply(s.term, false, |f.log|, 0)
  {
  }

  /** The late acknowledgement is processed. */
  lemma TakeLateAck(c: ClusterState, boot: Bootstrap, p: NodeId, q: NodeId, a: AppendAnswer, log: Log) returns (d: ClusterState)
    requires Alive(c, boot) && LateAckComes(c, p, q, a) && p != q && LeadsIn(c, p, 3, log) && MatchOf(c.nodes[p], q) == 0
    requires Reach(a.call.args) > 0
    ensures Next(c, d) && Alive(d, boot) && LeadsIn(d, p, 3, log) && q in d.nodes && d.nodes[q] == c.nodes[q]
    ensures MatchOf(d.nodes[p], q) == Reach(a.call.args)
    ensures q in d.nodes[p].nextIndex && d.nodes[p].nextIndex[q] == Reach(a.call.args) + 1
  {
    d := TakeStep(c, AppendReplyArrives(a));
    StandingOf(c, boot, p);
    StepKeepsAlive(c, boot, AppendReplyArrives(a));
  }

  /** A peer whose log ends where the probe begins refuses, and the probe goes back to what was matched. */
  lemma ProbeFallsBack(c: ClusterState, boot: Bootstrap, p: NodeId, q: NodeId, log: Log, n: LogIndex) returns (c': ClusterState)
    requires Alive(c, boot) && LeadsIn(c, p, 3, log) && q in c.nodes && p != q && c.nodes[q].term <= 3
    requires n > 0 && |c.nodes[q].log| == n && MatchOf(c.nodes[p], q) == n
    requires q in c.nodes[p].nextIndex && c.nodes[p].nextIndex[q] == n + 1
    ensures LeadsTo(c, c') && p in c'.nodes && !InOrder(c'.nodes[p])
  {
    ReadyToSend(c, boot, p, q);
    var c1, a := Ask(c, boot, p, q);
    RefusesAtEnd(c.nodes[p], q, c.nodes[q]);
    c' := Process(c1, boot, a);
    AloneInCluster(c1, boot, p);
    GoOn(c, c1, c');
  }

  /** In every cluster of five or more there is a run, from its start, in which a leader comes to probe a peer no
      higher than it matches it. */
  lemma LateAckBreaksOrder(boot: Bootstrap, p: NodeId, q: NodeId, r: NodeId, cmd: Command) returns (run: seq<ClusterState>)
    requires Startable(boot) && Three(boot, p, q, r)
    ensures Run(run, boot) && p in run[|run| - 1].nodes && !InOrder(run[|run| - 1].nodes[p])
  {
    var c0, c1, a;
    c0, c1, a := Usurped(boot, p, q, r, cmd);
    var mine := FirstLog(boot, 1) + [Entry(Normal, 1, cmd)];
    FirstLogsAsLong(boot, 1, 2);
    var c2 := Lost(c1, boot, p, q, r, mine, a);
    GoOn(c0, c1, c2);
    run := RunTo(boot, c0, c2);
    var c3 := TakeLateAck(c2, boot, p, q, a, mine + [NoOp(3)]);
    RunGrowsBy(run, boot, c3);
    var c4 := ProbeFallsBack(c3, boot, p, q, mine + [NoOp(3)], Reach(a.call.args));
    run := RunGoesOn(run + [c3], boot, c4);
  }

  // ---- A late rejection -----------------------------------------------------

  ghost predicate At(c: ClusterState, x: NodeId, log: Log, t: Term) {
    x in c.nodes && c.nodes[x].log == log && |log| > 0 && c.nodes[x].term < t
  }

  /** Three nodes with these logs, in terms below `t`, and the others as they were launched. */
  ghost predicate Stage(c: ClusterState, boot: Bootstrap, p: NodeId, q: NodeId, r: NodeId, lp: Log, lq: Log, lr: Log, t: Term) {
    && Alive(c, boot) && Blank(c, Others(boot, p, q, r), t)
    && At(c, p, lp, t) && At(c, q, lq, t) && At(c, r, lr, t)
  }

  lemma Permuted(boot: Bootstrap, p: NodeId, q: NodeId, r: NodeId)
    ensures Others(boot, q, p, r) == Others(boot, r, q, p) == Others(boot, r, p, q) == Others(boot, p, q, r)
  {
  }

  /** `w` is elected by all but `o`. */
  lemma Win(c: ClusterState, boot: Bootstrap, w: NodeId, o: NodeId, z: NodeId, lw: Log, lo: Log, lz: Log, t: Term)
    returns (c': ClusterState)
    requires Stage(c, boot, w, o, z, lw, lo, lz, t) && Distinct(boot, w, o, z) && UpToDate(LastIndex(lw), LastTerm(lw), lz)
    ensures Stage(c', boot, w, o, z, WonLog(boot, lw, t), lo, lz, t + 1)
    ensures LeadsTo(c, c') && NoCalls(c, c') && Leads(c'.nodes[w], t, WonLog(boot, lw, t))
  {
    var qs := boot.Keys - {o};
    assert boot.Keys == qs + {o} && |boot.Keys| == |boot|;
    forall x | x in qs ensures |c.nodes[x].log| > 0 && UpToDate(LastIndex(lw), LastTerm(lw), c.nodes[x].log) {
      assert x == w || x == z || x in Others(boot, w, o, z);
    }
    forall x | x in qs ensures c.nodes[x].term < t {
      assert x == w || x == z || x in Others(boot, w, o, z);
    }
    c' := ElectNode(c, boot, qs, w, t);
    StandingOf(c, boot, w);
    WinnerLeads(boot, w, c.nodes[w], t);
    LivesOn(c, boot, c');
  }

  /** The leader of the term before brings `f` to its log. */
  lemma Copy(c: ClusterState, boot: Bootstrap, l: NodeId, o: NodeId, f: NodeId, ll: Log, lo: Log, lf: Log, t: Term)
    returns (c': ClusterState)
    requires Stage(c, boot, l, o, f, ll, lo, lf, t + 1) && Distinct(boot, l, o, f)
    requires c.nodes[l].role == Leader && c.nodes[l].term == t
    ensures Stage(c', boot, l, o, f, ll, lo, ll, t + 1) && LeadsTo(c, c') && OnlyCall(c, c', l, f)
  {
    c' := BringUp(c, boot, l, f);
  }

  lemma GiveOne(c: ClusterState, boot: Bootstrap, l: NodeId, o: NodeId, z: NodeId, ll: Log, lo: Log, lz: Log, cmd: Command, t: Term)
    returns (c': ClusterState)
    requires Stage(c, boot, l, o, z, ll, lo, lz, t + 1) && Distinct(boot, l, o, z)
    requires c.nodes[l].role == Leader && c.nodes[l].term == t
    ensures Stage(c', boot, l, o, z, ll + [Entry(Normal, t, cmd)], lo, lz, t + 1) && LeadsTo(c, c')
    ensures c'.nodes[l].role == Leader && c'.nodes[l].term == t
  {
    c' := Give(c, boot, l, cmd);
  }

  /** A log with three commands of term `t` at its end. */
  function Longer(log: Log, cmd: Command, t: Term): Log {
    log + [Entry(Normal, t, cmd)] + [Entry(Normal, t, cmd)] + [Entry(Normal, t, cmd)]
  }

  lemma GiveThree(c: ClusterState, boot: Bootstrap, l: NodeId, o: NodeId, z: NodeId, ll: Log, lo: Log, lz: Log, cmd: Command, t: Term)
    returns (c': ClusterState)
    requires Stage(c, boot, l, o, z, ll, lo, lz, t + 1) && Distinct(boot, l, o, z)
    requires c.nodes[l].role == Leader && c.nodes[l].term == t
    ensures Stage(c', boot, l, o, z, Longer(ll, cmd, t), lo, lz, t + 1) && LeadsTo(c, c')
  {
    var e := Entry(Normal, t, cmd);
    var c1 := GiveOne(c, boot, l, o, z, ll, lo, lz, cmd, t);
    var c2 := GiveOne(c1, boot, l, o, z, ll + [e], lo, lz, cmd, t);
    c' := GiveOne(c2, boot, l, o, z, ll + [e] + [e], lo, lz, cmd, t);
    GoOn(c, c1, c2);
    GoOn(c, c2, c');
  }

  /** `q` leads the first term alone. */
  lemma Loner(boot: Bootstrap, p: NodeId, q: NodeId, r: NodeId, cmd: Command) returns (c0: ClusterState, c: ClusterState)
    requires Startable(boot) && Distinct(boot, p, q, r)
    ensures Init(c0, boot) && LeadsTo(c0, c)
    ensures Stage(c, boot, q, p, r, Longer(FirstLog(boot, 1), cmd, 1), [SENTINEL], [SENTINEL], 2)
  {
    c0 := Start(boot);
    var c1 := Win(c0, boot, q, p, r, [SENTINEL], [SENTINEL], [SENTINEL], 1);
    c := GiveThree(c1, boot, q, p, r, FirstLog(boot, 1), [SENTINEL], [SENTINEL], cmd, 1);
    GoOn(c0, c1, c);
  }

  /** `r` leads the second, and `p` has its log. */
  lemma TwoLeaders(boot: Bootstrap, p: NodeId, q: NodeId, r: NodeId, cmd: Command) returns (c0: ClusterState, c: ClusterState)
    requires Startable(boot) && Distinct(boot, p, q, r)
    ensures Init(c0, boot) && LeadsTo(c0, c)
    ensures Stage(c, boot, p, q, r, FirstLog(boot, 2), Longer(FirstLog(boot, 1), cmd, 1), FirstLog(boot, 2), 3)
  {
    var c1;
    c0, c1 := Loner(boot, p, q, r, cmd);
    Permuted(boot, p, q, r);
    var c2 := Win(c1, boot, r, q, p, [SENTINEL], Longer(FirstLog(boot, 1), cmd, 1), [SENTINEL], 2);
    c := Copy(c2, boot, r, q, p, FirstLog(boot, 2), Longer(FirstLog(boot, 1), cmd, 1), [SENTINEL], 2);
    GoOn(c0, c1, c2);
    GoOn(c0, c2, c);
  }

  /** `p` leads the third and fourth terms, with a longer log than `q`. */
  lemma LongLeader(c: ClusterState, boot: Bootstrap, p: NodeId, q: NodeId, r: NodeId, first: Log, lq: Log, cmd: Command)
    returns (c': ClusterState, lp: Log)
    requires Stage(c, boot, p, q, r, first, lq, first, 3) && Distinct(boot, p, q, r) && |first| > 1 && LastTerm(first) == 2
    ensures LeadsTo(c, c') && Stage(c', boot, p, q, r, lp, lq, first, 5)
    ensures Leads(c'.nodes[p], 4, lp) && |lp| == |first| + 5
  {
    var l3 := Longer(first + [NoOp(3)], cmd, 3);
    LaterLog(boot, first, 3);
    LaterLog(boot, l3, 4);
    lp := l3 + [NoOp(4)];
    var c1 := Win(c, boot, p, q, r, first, lq, first, 3);
    var c2 := GiveThree(c1, boot, p, q, r, first + [NoOp(3)], lq, first, cmd, 3);
    c' := Win(c2, boot, p, q, r, l3, lq, first, 4);
    GoOn(c, c1, c2);
    GoOn(c, c2, c');
  }

  /** `q` is asked for more than it has, and refuses. */
  lemma RefusalOut(c: ClusterState, boot: Bootstrap, p: NodeId, q: NodeId, r: NodeId, lp: Log, lq: Log, lr: Log)
    returns (c': ClusterState, a: AppendAnswer)
    requires Stage(c, boot, p, q, r, lp, lq, lr, 5) && Distinct(boot, p, q, r) && Leads(c.nodes[p], 4, lp) && |lp| - 1 > |lq|
    ensures LeadsTo(c, c') && Stage(c', boot, p, q, r, lp, lq, lr, 5) && Waits(c', p, q, a)
    ensures a.call.args.term == 4 && a.reply == AppendReply(4, false, |lq|, 0)
  {
    ReadyToSend(c, boot, p, q);
    c', a := Ask(c, boot, p, q);
    RefusesAtEnd(c.nodes[p], q, c.nodes[q]);
  }

  /** `r` cuts the log of `p`, which is elected once more. */
  lemma ShortAgain(c: ClusterState, boot: Bootstrap, p: NodeId, q: NodeId, r: NodeId, lp: Log, lq: Log, first: Log, a: AppendAnswer)
    returns (c': ClusterState)
    requires Stage(c, boot, p, q, r, lp, lq, first, 5) && Distinct(boot, p, q, r) && Waits(c, p, q, a)
    requires |lq| > 0 && |first| > 1 && LastTerm(lq) < LastTerm(first)
    ensures LeadsTo(c, c') && Stage(c', boot, p, q, r, first + [NoOp(5)] + [NoOp(6)], lq, first + [NoOp(5)], 7)
    ensures Waits(c', p, q, a) && Leads(c'.nodes[p], 6, first + [NoOp(5)] + [NoOp(6)])
  {
    var theirs := first + [NoOp(5)];
    LaterLog(boot, first, 5);
    LaterLog(boot, theirs, 6);
    Permuted(boot, p, q, r);
    var c1 := Win(c, boot, r, p, q, first, lp, lq, 5);
    assert Waits(c1, p, q, a);
    var c2 := Copy(c1, boot, r, q, p, theirs, lq, lp, 5);
    assert Waits(c2, p, q, a);
    c' := Win(c2, boot, p, q, r, theirs, lq, theirs, 6);
    GoOn(c, c1, c2);
    GoOn(c, c2, c');
  }

  /** The leader would send to the peer, and slice past the end of its log. */
  ghost predicate SendsOutOfBounds(c: ClusterState, p: NodeId, q: NodeId) {
    p in c.nodes && CanSend(c.nodes[p], q) && !InBounds(c.nodes[p], q)
  }

  /** The rejection is processed, and its call ends. */
  lemma LateRejectionHarms(c: ClusterState, boot: Bootstrap, p: NodeId, q: NodeId, a: AppendAnswer)
    returns (d: ClusterState, e: ClusterState)
    requires Alive(c, boot) && p in boot && q in boot && p != q && Waits(c, p, q, a)
    requires p in c.nodes && c.nodes[p].role == Leader
    requires !a.reply.success && a.reply.term <= a.call.args.term < c.nodes[p].term
    requires a.reply.conflictTerm == 0 && a.reply.conflictIndex > |c.nodes[p].log|
    ensures Next(c, d) && Next(d, e) && SendsOutOfBounds(e, p, q)
  {
    StandingOf(c, boot, p);
    assert PendingOk(c.nodes, c.calls, (p, q), c.pending[(p, q)]);
    d := TakeStep(c, AppendReplyArrives(a));
    assert Enabled(c, AppendReplyArrives(a)) && Enabled(d, CallEnds(p, q));
    e := TakeStep(d, CallEnds(p, q));
  }

  /** A late rejection is to come that points past the end of the leader's log. */
  lemma LateRejectionOut(boot: Bootstrap, p: NodeId, q: NodeId, r: NodeId, cmd: Command)
    returns (c0: ClusterState, c: ClusterState, a: AppendAnswer)
    requires Startable(boot) && Distinct(boot, p, q, r)
    ensures Init(c0, boot) && LeadsTo(c0, c) && Alive(c, boot) && Waits(c, p, q, a)
    ensures p in c.nodes && c.nodes[p].role == Leader && a.call.args.term < c.nodes[p].term
    ensures !a.reply.success && a.reply.term <= a.call.args.term
    ensures a.reply.conflictTerm == 0 && a.reply.conflictIndex > |c.nodes[p].log|
  {
    var first, lq := FirstLog(boot, 2), Longer(FirstLog(boot, 1), cmd, 1);
    FirstLogsAsLong(boot, 1, 2);
    var c1, c2, lp, c3;
    c0, c1 := TwoLeaders(boot, p, q, r, cmd);
    c2, lp := LongLeader(c1, boot, p, q, r, first, lq, cmd);
    GoOn(c0, c1, c2);
    c3, a := RefusalOut(c2, boot, p, q, r, lp, lq, first);
    GoOn(c0, c2, c3);
    c := ShortAgain(c3, boot, p, q, r, lp, lq, first, a);
    GoOn(c0, c3, c);
  }

  lemma RunTwoMore(r: seq<ClusterState>, boot: Bootstrap, d: ClusterState, e: ClusterState)
    requires Run(r, boot) && Next(r[|r| - 1], d) && Next(d, e)
    ensures Run(r + [d] + [e], boot)
  {
    RunGrowsBy(r, boot, d);
    RunGrowsBy(r + [d], boot, e);
  }

  /** What a late rejection can do: in every cluster of three or more there is a run, from its start, to a
      send that is out of bounds. */
  lemma LateRejectionBreaksSend(boot: Bootstrap, p: NodeId, q: NodeId, r: NodeId, cmd: Command)
    returns (run: seq<ClusterState>)
    requires Startable(boot) && Distinct(boot, p, q, r)
    ensures Run(run, boot) && SendsOutOfBounds(run[|run| - 1], p, q)
  {
    var c0, c, a := LateRejectionOut(boot, p, q, r, cmd);
    var d, e := LateRejectionHarms(c, boot, p, q, a);
    run := RunTo(boot, c0, c);
    RunTwoMore(run, boot, d, e);
    run := run + [d] + [e];
  }
}

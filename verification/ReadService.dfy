/** A leader that has committed in its term and can reach a majority can serve a linearizable read. */
module ReadService {
  import opened RaftTypes
  import opened Quorums
  import opened Membership
  import opened NodeSpec
  import opened Cluster
  import opened ClusterInv
  import opened ReplicationSteps
  import opened CommitSteps
  import opened Availability
  import opened Service
  import opened ReadBarrier

  // ---- Going on with a read -------------------------------------------------

  ghost predicate ReadPath(rr: seq<Moment>, m: Moment, m': Moment) {
    && |rr| > 0 && rr[0] == m && rr[|rr| - 1] == m'
    && forall i {:trigger ReadStepAt(rr, i)} | 0 <= i < |rr| - 1 :: ReadStepAt(rr, i)
  }

  /** Some sequence of steps of the cluster and of the read goes from the one moment to the other. */
  ghost predicate ReadLeadsTo(m: Moment, m': Moment) {
    exists rr :: ReadPath(rr, m, m')
  }

  lemma ReadGoesOnTo(k: Moment, m: Moment, n: Moment)
    requires ReadLeadsTo(k, m) && ReadLeadsTo(m, n)
    ensures ReadLeadsTo(k, n)
  {
    var r :| ReadPath(r, k, m);
    var q :| ReadPath(q, m, n);
    var w := r + q[1..];
    forall i | 0 <= i < |w| - 1 ensures ReadStepAt(w, i) {
      if i < |r| - 1 { assert ReadStepAt(r, i); } else { assert ReadStepAt(q, i - (|r| - 1)); }
    }
    assert ReadPath(w, k, n);
  }

  lemma TakeReading(c: ClusterState, op: ReadOp, s: ReadStep) returns (m: Moment)
    requires ReadEnabled(c, op, s)
    ensures (m.cluster, m.op) == TakeReadStep(c, op, s) && ReadLeadsTo(Moment(c, op), m)
  {
    var (c', op') := TakeReadStep(c, op, s);
    m := Moment(c', op');
    assert ReadStepAt([Moment(c, op), m], 0);
    assert ReadPath([Moment(c, op), m], Moment(c, op), m);
  }

  lemma {:induction false} PathHasInv(r: seq<ClusterState>, boot: Bootstrap, i: nat)
    requires |r| > 0 && Inv(r[0], boot) && i < |r| && forall k {:trigger CalmAt(r, k)} | 0 <= k < |r| - 1 :: CalmAt(r, k)
    ensures Inv(r[i], boot)
  {
    if i > 0 {
      PathHasInv(r, boot, i - 1);
      assert CalmAt(r, i - 1);
      NextKeepsInv(r[i - 1], boot, r[i]);
    }
  }

  /** What the cluster does while a read is going on. */
  lemma Meanwhile(c: ClusterState, c': ClusterState, op: ReadOp, boot: Bootstrap)
    requires Inv(c, boot) && LeadsTo(c, c') && op.p in boot
    ensures ReadLeadsTo(Moment(c, op), Moment(c', op))
  {
    var r :| Path(r, c, c');
    var rr := seq(|r|, i requires 0 <= i < |r| => Moment(r[i], op));
    forall i | 0 <= i < |rr| - 1 ensures ReadStepAt(rr, i) {
      PathHasInv(r, boot, i);
      assert CalmAt(r, i);
      ElsewhereFollows(r[i], r[i + 1], op, boot);
    }
    assert ReadPath(rr, Moment(c, op), Moment(c', op));
  }

  lemma ElsewhereFollows(c: ClusterState, c': ClusterState, op: ReadOp, boot: Bootstrap)
    requires Inv(c, boot) && CalmNext(c, c') && op.p in boot
    ensures MayFollow(Moment(c, op), Moment(c', op))
  {
    var step :| Enabled(c, step) && !HandsLateReply(c, step) && c' == TakeStep(c, step);
    StandingOf(c, boot, op.p);
    assert ReadEnabled(c, op, Elsewhere(step));
  }

  // ---- The round ------------------------------------------------------------

  /** The round has begun, its calls are all still to be made or done, and it is not decided. */
  ghost predicate InRound(c: ClusterState, boot: Bootstrap, op: ReadOp, qs: set<NodeId>) {
    && Inv(c, boot) && op.phase == Counting && op.out == map[] && qs <= op.toStart && op.p !in qs
    && AllReady(c, op.p, qs) && c.nodes[op.p].term == op.term && op.target <= c.nodes[op.p].commit
  }

  lemma ReadBegins(c: ClusterState, boot: Bootstrap, p: NodeId, qs: set<NodeId>) returns (op: ReadOp)
    requires Inv(c, boot) && |boot| >= 2 && AllReady(c, p, qs) && p !in qs
    requires var s := c.nodes[p]; s.commit < |s.log| && s.log[s.commit].term == s.term
    ensures ReadLeadsTo(Moment(c, StartRead(p)), Moment(c, op)) && op.p == p && InRound(c, boot, op, qs)
    ensures op.target == c.nodes[p].commit && op.acks == 1 && op.quorum == QuorumSize(|boot.Keys|)
  {
    var s := c.nodes[p];
    AloneInCluster(c, boot, p);
    assert |boot.Keys| == |boot|;
    var m := TakeReading(c, StartRead(p), CaptureStep);
    var m' := TakeReading(c, m.op, BeginStep);
    ReadGoesOnTo(Moment(c, StartRead(p)), m, m');
    op := m'.op;
    forall q | q in qs ensures q in VoteRecipients(s) {
      assert Ready(c, p, q);
      AloneInCluster(c, boot, q);
    }
  }

  /** The answer of a peer that has the leader's log. */
  lemma Agreed(s: NodeState, q: NodeId, f: NodeState)
    requires InBounds(s, q) && f.log == s.log && f.term <= s.term
    ensures HandleAppend(f, AppendRequest(s, q)).1 == AppendReply(s.term, true, 0, 0)
  {
    AppendOutcomes(f, AppendRequest(s, q));
  }

  /** The peer's acknowledgement is on its way back to the call. */
  ghost predicate AckOut(c: ClusterState, p: NodeId, q: NodeId, s: NodeState, a: AppendAnswer) {
    && p in c.nodes && q in c.nodes && InBounds(s, q) && c.nodes[p] == s
    && a in c.answers && a.call.src == p && a.call.dst == q && (p, q) in c.pending && c.pending[(p, q)] == a.call
    && a.call.args == AppendRequest(s, q) && a.reply == AppendReply(s.term, true, 0, 0)
  }

  lemma CallGoesOut(c: ClusterState, boot: Bootstrap, op: ReadOp, q: NodeId)
    returns (c': ClusterState, op': ReadOp, a: AppendAnswer)
    requires Inv(c, boot) && Collecting(op) && op.out == map[] && q in op.toStart && Ready(c, op.p, q)
    requires c.nodes[q].log == c.nodes[op.p].log && !InFlight(c.nodes[op.p], q)
    ensures Inv(c', boot) && ReadLeadsTo(Moment(c, op), Moment(c', op')) && OnlyMove(c, c', {op.p, q})
    ensures AckOut(c', op.p, q, MarkSent(c.nodes[op.p], q), a) && c'.nodes[q].term == c.nodes[op.p].term
    ensures op' == op.(toStart := op.toStart - {q}, out := map[q := a.call.id])
  {
    var p := op.p;
    StandingOf(c, boot, p);
    var c1, call := SendTo(c, boot, p, q);
    var m := TakeReading(c, op, SendStep(q));
    op' := m.op;
    Agreed(c1.nodes[p], q, c.nodes[q]);
    PeerFollows(c.nodes[q], call.args);
    c', a := Deliver(c1, boot, call);
    Meanwhile(c1, c', op', boot);
    ReadGoesOnTo(Moment(c, op), m, Moment(c', op'));
  }

  lemma AckCounted(c: ClusterState, boot: Bootstrap, op: ReadOp, q: NodeId, s: NodeState, a: AppendAnswer)
    returns (c': ClusterState, op': ReadOp)
    requires Inv(c, boot) && Collecting(op) && op.out == map[q := a.call.id] && AckOut(c, op.p, q, s, a) && s.role == Leader
    requires MatchOf(s, q) < |s.log| && op.p != q
    ensures Inv(c', boot) && ReadLeadsTo(Moment(c, op), Moment(c', op')) && OnlyMove(c, c', {op.p})
    ensures LeadsOn(s, c'.nodes[op.p], q)
    ensures op' == op.(acked := op.acked + {q}, acks := op.acks + 1, out := map[], outcomes := op.outcomes + [true])
  {
    StandingOf(c, boot, op.p);
    AcceptedAdvances(s, q);
    c' := Process(c, boot, a);
    var m := TakeReading(c, op, ReplyStep(a));
    ReportsAckIff(s, q, a.call.args, a.reply);
    op' := m.op;
    assert op.out - {q} == map[];
  }

  /** A call of the round to a peer that has the leader's log is acknowledged, whether or not there was
      anything new to send, and counts. */
  lemma CallCounts(c: ClusterState, boot: Bootstrap, op: ReadOp, q: NodeId) returns (c': ClusterState, op': ReadOp)
    requires Inv(c, boot) && Collecting(op) && op.out == map[] && q in op.toStart && Ready(c, op.p, q)
    requires c.nodes[q].log == c.nodes[op.p].log && !InFlight(c.nodes[op.p], q)
    ensures Inv(c', boot) && ReadLeadsTo(Moment(c, op), Moment(c', op')) && OnlyMove(c, c', {op.p, q})
    ensures LeadsOn(c.nodes[op.p], c'.nodes[op.p], q) && c'.nodes[q].term == c.nodes[op.p].term
    ensures op' == op.(toStart := op.toStart - {q}, acked := op.acked + {q}, acks := op.acks + 1, outcomes := op.outcomes + [true])
  {
    var s := MarkSent(c.nodes[op.p], q);
    PeerLogs(c, boot, op.p, q);
    var d, op1, a := CallGoesOut(c, boot, op, q);
    c', op' := AckCounted(d, boot, op1, q, s, a);
    ReadGoesOnTo(Moment(c, op), Moment(d, op1), Moment(c', op'));
  }

  /** One peer is brought up to date, called, and counted. */
  lemma OneAck(c: ClusterState, boot: Bootstrap, op: ReadOp, qs: set<NodeId>, q: NodeId) returns (c': ClusterState, op': ReadOp)
    requires InRound(c, boot, op, qs) && op.acks < op.quorum && q in qs
    ensures ReadLeadsTo(Moment(c, op), Moment(c', op')) && InRound(c', boot, op', qs - {q})
    ensures op'.p == op.p && op'.acks == op.acks + 1 && op'.quorum == op.quorum && op'.target == op.target
  {
    var p := op.p;
    assert Ready(c, p, q);
    ReadyToCatchUp(c, boot, p, q);
    var d := CatchUp(c, boot, p, q);
    CaughtUpLog(d, boot, p, q);
    var e := FreeCall(d, boot, p, q);
    GoOn(c, d, e);
    Meanwhile(c, e, op, boot);
    c', op' := CallCounts(e, boot, op, q);
    ReadGoesOnTo(Moment(c, op), Moment(e, op), Moment(c', op'));
    OthersStayReady(c, c', p, q, qs);
  }

  lemma OthersStayReady(c: ClusterState, c': ClusterState, p: NodeId, q: NodeId, qs: set<NodeId>)
    requires AllReady(c, p, qs) && p !in qs && OnlyMove(c, c', {p, q}) && LeadsOn(c.nodes[p], c'.nodes[p], q)
    ensures AllReady(c', p, qs - {q})
  {
    forall x | x in qs - {q} ensures Ready(c', p, x) { assert Ready(c, p, x); }
  }

  /** Enough peers are counted. */
  lemma {:induction false} CollectAcks(c: ClusterState, boot: Bootstrap, op: ReadOp, qs: set<NodeId>)
    returns (c': ClusterState, op': ReadOp)
    requires InRound(c, boot, op, qs) && op.acks + |qs| >= op.quorum
    ensures ReadLeadsTo(Moment(c, op), Moment(c', op')) && InRound(c', boot, op', {}) && op'.acks >= op'.quorum
    ensures op'.p == op.p && op'.target == op.target
    decreases |qs|
  {
    if op.acks >= op.quorum {
      c', op' := c, op;
      assert ReadPath([Moment(c, op)], Moment(c, op), Moment(c, op));
    } else {
      var q := Pick(qs);
      var d, op1 := OneAck(c, boot, op, qs, q);
      c', op' := CollectAcks(d, boot, op1, qs - {q});
      ReadGoesOnTo(Moment(c, op), Moment(d, op1), Moment(c', op'));
    }
  }

  /** The node concludes the round, and applies what the read must wait for. */
  lemma Concludes(c: ClusterState, boot: Bootstrap, op: ReadOp) returns (m: Moment)
    requires InRound(c, boot, op, {}) && op.acks >= op.quorum
    ensures ReadLeadsTo(Moment(c, op), m) && m.op.p == op.p && m.op.phase == Done(op.target)
    ensures op.p in m.cluster.nodes && m.cluster.nodes[op.p].lastApplied >= op.target
  {
    StandingOf(c, boot, op.p);
    var m1 := TakeReading(c, op, ConcludeStep);
    var d := ApplyAll(c, boot, op.p);
    Meanwhile(c, d, m1.op, boot);
    m := Moment(d, m1.op);
    ReadGoesOnTo(Moment(c, op), m1, m);
  }

  // ---- Reads can be served --------------------------------------------------

  lemma ReadIsServed(c: ClusterState, boot: Bootstrap, p: NodeId, qs: set<NodeId>) returns (m: Moment)
    requires Inv(c, boot) && |boot| >= 2 && AllReady(c, p, qs) && p !in qs && IsQuorum(boot.Keys, qs + {p})
    requires var s := c.nodes[p]; s.commit < |s.log| && s.log[s.commit].term == s.term
    ensures ReadLeadsTo(Moment(c, StartRead(p)), m) && m.op.phase == Done(c.nodes[p].commit)
    ensures p in m.cluster.nodes && m.cluster.nodes[p].lastApplied >= c.nodes[p].commit
  {
    var op := ReadBegins(c, boot, p, qs);
    assert |qs + {p}| == |qs| + 1;
    var d, op1 := CollectAcks(c, boot, op, qs);
    m := Concludes(d, boot, op1);
    ReadGoesOnTo(Moment(c, StartRead(p)), Moment(c, op), Moment(d, op1));
    ReadGoesOnTo(Moment(c, StartRead(p)), Moment(d, op1), m);
  }

  /** Reads are available: in every state of every run, a leader that has committed an entry of its term and
      can reach a majority can serve a read: the round can go on to be won, with the commit index at the
      invocation, and the node to apply everything up to it, which is what the barrier waits for. */
  lemma ReadsAvailable(r: seq<ClusterState>, boot: Bootstrap, p: NodeId, qs: set<NodeId>) returns (rr: seq<Moment>)
    requires Run(r, boot) && |boot| >= 2 && AllReady(r[|r| - 1], p, qs) && p !in qs && IsQuorum(boot.Keys, qs + {p})
    requires var s := r[|r| - 1].nodes[p]; s.commit < |s.log| && s.log[s.commit].term == s.term
    ensures ReadRun(r, boot, p, rr) && rr[|rr| - 1].op.phase == Done(r[|r| - 1].nodes[p].commit)
    ensures p in rr[|rr| - 1].cluster.nodes && rr[|rr| - 1].cluster.nodes[p].lastApplied >= r[|r| - 1].nodes[p].commit
  {
    var c := r[|r| - 1];
    RunHasInv(r, boot, |r| - 1);
    var m := ReadIsServed(c, boot, p, qs);
    rr :| ReadPath(rr, Moment(c, StartRead(p)), m);
  }

  /** So any majority whose nodes can reach one another can get to a leader on which a read can be served,
      whatever has happened before. */
  lemma AnyMajorityCanRead(r: seq<ClusterState>, boot: Bootstrap, qs: set<NodeId>)
    returns (r': seq<ClusterState>, p: NodeId, rr: seq<Moment>)
    requires Run(r, boot) && |boot| >= 2 && IsQuorum(boot.Keys, qs) && Connected(r[|r| - 1], qs)
    ensures Run(r', boot) && r <= r' && p in qs && ReadRun(r', boot, p, rr) && rr[|rr| - 1].op.phase.Done?
    ensures p in rr[|rr| - 1].cluster.nodes
            && rr[|rr| - 1].cluster.nodes[p].lastApplied >= rr[|rr| - 1].op.phase.index
  {
    r', p := AnyMajorityCanCommit(r, boot, qs, Nil);
    assert qs == (qs - {p}) + {p};
    rr := ReadsAvailable(r', boot, p, qs - {p});
  }
}

/** Linearizable reads by a quorum round (the slow path of readindex.go). */
module ReadBarrier {
  import opened RaftTypes
  import opened Quorums
  import opened Membership
  import opened NodeSpec
  import opened LogHistory
  import opened Cluster
  import opened ClusterInv
  import opened CommitSteps
  import opened Safety
  import opened Progress
  import ReadRound

  datatype Phase = Waiting | Captured | Counting | Done(index: LogIndex) | NotTheLeader | NoQuorum

  /** One read in progress on node `p`. `toStart` are the peers whose goroutine has not run yet,
      `out` the calls of those that wait for a reply, `acked` the peers that were counted, `outcomes`
      what the goroutines have reported so far, out of `targets`; `self` is the node's own vote. */
  datatype ReadOp = ReadOp(
    p: NodeId, phase: Phase, term: Term, target: LogIndex, quorum: nat,
    toStart: set<NodeId>, out: map<NodeId, nat>, acked: set<NodeId>,
    acks: nat, denials: nat, possible: nat, self: nat, targets: nat, outcomes: seq<bool>)

  function StartRead(p: NodeId): ReadOp {
    ReadOp(p, Waiting, 0, 0, 0, {}, map[], {}, 0, 0, 0, 0, 0, [])
  }

  /** The loop that waits for an entry of the leader's term to be committed. */
  function Capture(op: ReadOp, s: NodeState): ReadOp
    requires s.commit < |s.log|
  {
    if s.role != Leader then op.(phase := NotTheLeader)
    else if s.log[s.commit].term == s.term then op.(phase := Captured, term := s.term, target := s.commit)
    else op
  }

  function BeginRound(op: ReadOp, s: NodeState): ReadOp {
    var targets := VoteRecipients(s);
    var self := SelfVote(s);
    var quorum := QuorumSize(|s.voters|);
    var op1 := op.(phase := Counting, quorum := quorum, toStart := targets,
                   acks := self, possible := |targets| + self, self := self, targets := |targets|);
    if self >= quorum then op1.(phase := Done(op.target)) else op1
  }

  function CountAck(op: ReadOp, q: NodeId): ReadOp {
    op.(acked := op.acked + {q}, acks := op.acks + 1, out := op.out - {q}, outcomes := op.outcomes + [true])
  }

  function CountDenial(op: ReadOp, q: NodeId): ReadOp {
    var op1 := op.(denials := op.denials + 1, out := op.out - {q}, toStart := op.toStart - {q},
                   outcomes := op.outcomes + [false]);
    if op1.possible < op1.denials + op1.quorum then op1.(phase := NoQuorum) else op1
  }

  /** Once enough peers have answered, the node must still lead the term it captured. */
  function Conclude(op: ReadOp, s: NodeState): ReadOp {
    if s.role != Leader || s.term != op.term then op.(phase := NotTheLeader)
    else op.(phase := Done(op.target))
  }

  datatype ReadStep =
    | Elsewhere(step: Step)
    | CaptureStep
    | BeginStep
    | SendStep(q: NodeId)
    | RefusedStep(q: NodeId)
    | ReplyStep(answer: AppendAnswer)
    | LostStep(q: NodeId)
    | ConcludeStep

  /** The loop goes on counting until it has a majority. */
  predicate Collecting(op: ReadOp) {
    op.phase == Counting && op.acks < op.quorum
  }

  predicate ReadEnabled(c: ClusterState, op: ReadOp, s: ReadStep) {
    op.p in c.nodes &&
    var n := c.nodes[op.p];
    n.commit < |n.log| &&
    match s
    case Elsewhere(step) => Enabled(c, step)
    case CaptureStep => op.phase == Waiting
    case BeginStep => op.phase == Captured
    case SendStep(q) => Collecting(op) && q in op.toStart && Enabled(c, SendStarts(op.p, q))
    case RefusedStep(q) => Collecting(op) && q in op.toStart && !CanSend(n, q)
    case ReplyStep(a) =>
      && Collecting(op) && a.call.src == op.p && a.call.dst in op.out && op.out[a.call.dst] == a.call.id
      && Enabled(c, AppendReplyArrives(a))
    case LostStep(q) => Collecting(op) && q in op.out
    case ConcludeStep => op.phase == Counting && op.acks >= op.quorum
  }

  ghost function TakeReadStep(c: ClusterState, op: ReadOp, s: ReadStep): (ClusterState, ReadOp)
    requires ReadEnabled(c, op, s)
  {
    var n := c.nodes[op.p];
    match s
    case Elsewhere(step) => (TakeStep(c, step), op)
    case CaptureStep => (c, Capture(op, n))
    case BeginStep => (c, BeginRound(op, n))
    case SendStep(q) =>
      (TakeStep(c, SendStarts(op.p, q)), op.(toStart := op.toStart - {q}, out := op.out[q := c.clock]))
    case RefusedStep(q) => (c, CountDenial(op, q))
    case ReplyStep(a) =>
      var ok := HandleAppendReply(n, a.call.dst, a.call.args, a.reply).1;
      (TakeStep(c, AppendReplyArrives(a)), if ok then CountAck(op, a.call.dst) else CountDenial(op, a.call.dst))
    case LostStep(q) => (c, CountDenial(op, q))
    case ConcludeStep => (c, Conclude(op, n))
  }

  // ---- What a read knows about the moment it was invoked ---------------------

  /** Since `c0` nothing was taken back, and whoever accepted a call made since then was in no
      later term at `c0` than the call's. */
  ghost predicate Since(c0: ClusterState, c: ClusterState, boot: Bootstrap) {
    && Inv(c0, boot) && Inv(c, boot) && Grows(c0.hist, c.hist) && c0.clock <= c.clock
    && (forall q | q in c0.nodes :: c0.nodes[q].term <= c.nodes[q].term)
    && (forall a | a in c.answers && a.call.id >= c0.clock && a.reply.success && a.call.dst in c0.nodes ::
          c0.nodes[a.call.dst].term <= a.call.args.term)
  }

  /** The captured index is committed in the captured term, as far as that leader has committed. */
  ghost predicate TargetOk(c0: ClusterState, c: ClusterState, op: ReadOp)
    requires op.p in c.nodes && op.p in c0.nodes
  {
    && Won(c.hist, op.p, op.term) && Own(c.hist, op.term, op.target)
    && c0.nodes[op.p].term <= op.term <= c.nodes[op.p].term
    && (op.term in c0.hist.lead ==> c0.hist.lead[op.term].commit <= op.target)
  }

  ghost predicate CommitsBelow(c0: ClusterState, n: LogIndex) {
    forall q | q in c0.nodes :: c0.nodes[q].commit <= n
  }

  /** No acked peer was, at `c0`, in a later term than the reading node is in now. */
  ghost predicate AckedInTime(c0: ClusterState, acked: set<NodeId>, term: Term) {
    forall q | q in acked :: q in c0.nodes && c0.nodes[q].term <= term
  }

  ghost predicate CountOk(c0: ClusterState, op: ReadOp, boot: Bootstrap) {
    && op.quorum == QuorumSize(|boot.Keys|)
    && op.acked <= boot.Keys && op.p !in op.acked && op.acks <= |op.acked| + 1
    && op.acked !! op.toStart && op.acked !! op.out.Keys && op.toStart !! op.out.Keys
    && op.p !in op.toStart && op.p !in op.out
    && op.toStart <= boot.Keys && op.out.Keys <= boot.Keys
    && (forall q | q in op.out :: op.out[q] >= c0.clock)
  }

  ghost predicate ReadInv(c0: ClusterState, c: ClusterState, op: ReadOp, boot: Bootstrap) {
    && op.p in c.nodes && op.p in c0.nodes && Since(c0, c, boot)
    && match op.phase
       case Waiting => op.acked == {} && op.out == map[]
       case Captured => TargetOk(c0, c, op) && op.acked == {} && op.out == map[]
       case Counting => TargetOk(c0, c, op) && CountOk(c0, op, boot) && AckedInTime(c0, op.acked, c.nodes[op.p].term)
       case Done(n) => CommitsBelow(c0, n)
       case _ => true
  }

  // ---- Steps ----------------------------------------------------------------

  lemma NewAnswersLater(c: ClusterState, boot: Bootstrap, step: Step)
    requires Inv(c, boot) && Enabled(c, step)
    ensures var c' := TakeStep(c, step);
            && c.clock <= c'.clock
            && forall a | a in c'.answers && a !in c.answers ::
                 step == AppendArrives(a.call) && (a.reply.success ==> c.nodes[a.call.dst].term <= a.call.args.term)
  {
  }

  lemma SinceStep(c0: ClusterState, c: ClusterState, boot: Bootstrap, step: Step)
    requires Since(c0, c, boot) && Enabled(c, step)
    ensures Since(c0, TakeStep(c, step), boot)
  {
    var c' := TakeStep(c, step);
    StepsKeepInv(c, boot, step);
    GrowsTransitive(c0.hist, c.hist, c'.hist);
    NewAnswersLater(c, boot, step);
    forall q | q in c0.nodes ensures c0.nodes[q].term <= c'.nodes[q].term {
      StepOnward(c, boot, step, q);
    }
  }

  lemma SinceSelf(c: ClusterState, boot: Bootstrap)
    requires Inv(c, boot)
    ensures Since(c, c, boot)
  {
    forall a | a in c.answers ensures a.call.id < c.clock {
      assert AppendAnswerOk(c.hist, boot, a);
      assert AppendCallOk(c.hist, boot, a.call);
    }
  }

  lemma TargetKept(c0: ClusterState, c: ClusterState, c': ClusterState, op: ReadOp)
    requires op.p in c.nodes && op.p in c0.nodes && op.p in c'.nodes && TargetOk(c0, c, op)
    requires Grows(c.hist, c'.hist) && c.nodes[op.p].term <= c'.nodes[op.p].term
    ensures TargetOk(c0, c', op)
  {
  }

  lemma ElsewhereKeepsReadInv(c0: ClusterState, c: ClusterState, op: ReadOp, boot: Bootstrap, step: Step)
    requires ReadInv(c0, c, op, boot) && Enabled(c, step)
    ensures ReadInv(c0, TakeStep(c, step), op, boot)
  {
    var c' := TakeStep(c, step);
    SinceStep(c0, c, boot, step);
    StepsKeepInv(c, boot, step);
    StepOnward(c, boot, step, op.p);
    if op.phase == Captured || op.phase == Counting {
      TargetKept(c0, c, c', op);
    }
  }

  lemma CaptureOk(c0: ClusterState, c: ClusterState, op: ReadOp, boot: Bootstrap)
    requires ReadInv(c0, c, op, boot) && op.phase == Waiting && c.nodes[op.p].commit < |c.nodes[op.p].log|
    ensures ReadInv(c0, c, Capture(op, c.nodes[op.p]), boot)
  {
    var s := c.nodes[op.p];
    AloneInCluster(c, boot, op.p);
    if s.role == Leader && s.log[s.commit].term == s.term {
      assert LeaderOk(c.hist, boot.Keys, s.term);
    }
  }

  // ---- A quorum round covers what was committed ------------------------------

  /** A quorum that was in no later term than `t` when the read was invoked leaves room for no
      commitment by a later leader; earlier ones are in the log of the leader of `t`. */
  lemma QuorumCoversCommit(c0: ClusterState, c: ClusterState, boot: Bootstrap, op: ReadOp, quorum: set<NodeId>, q: NodeId)
    requires Since(c0, c, boot) && op.p in c.nodes && op.p in c0.nodes && q in c0.nodes && TargetOk(c0, c, op)
    requires IsQuorum(boot.Keys, quorum) && AckedInTime(c0, quorum, op.term)
    ensures c0.nodes[q].commit <= op.target
  {
    var s := c0.nodes[q];
    AloneInCluster(c0, boot, q);
    if s.commit > 0 {
      var w: Term :| CommittedIn(c0.hist, s.log, s.commit, w) && w <= s.term;
      assert LeaderOk(c0.hist, boot.Keys, w);
      LateLeaderExcluded(c0, boot, quorum, w, c0.hist.lead[w].commit, op.term);
      EarlierCommitBelow(c0.hist, c.hist, boot.Keys, w, op.term, op.target);
    }
  }

  /** An own entry of the leader of `t` is beyond whatever earlier leaders have committed. */
  lemma EarlierCommitBelow(g0: Hist, g: Hist, voters: set<NodeId>, w: Term, t: Term, target: LogIndex)
    requires HistInv(g0, voters) && HistInv(g, voters) && Grows(g0, g)
    requires w in g0.lead && w <= t && Own(g, t, target)
    requires t in g0.lead ==> g0.lead[t].commit <= target
    ensures g0.lead[w].commit <= target
  {
    assert LeaderOk(g0, voters, w);
    var n := g0.lead[w].commit;
    if w < t && n > 0 {
      ChosenGrows(g0, g, voters, w, n);
      LeaderCompleteness(g, voters, w, n, t);
    }
  }

  lemma LateLeaderExcluded(c0: ClusterState, boot: Bootstrap, quorum: set<NodeId>, w: Term, n: LogIndex, t: Term)
    requires Inv(c0, boot) && Chosen(c0.hist, boot.Keys, w, n)
    requires IsQuorum(boot.Keys, quorum) && AckedInTime(c0, quorum, t)
    ensures w <= t
  {
    var r := QuorumMember(boot.Keys, AcceptorsOf(c0.hist, boot.Keys, w, n), quorum);
    AloneInCluster(c0, boot, r);
  }

  lemma QuorumCovers(c0: ClusterState, c: ClusterState, boot: Bootstrap, op: ReadOp)
    requires Since(c0, c, boot) && op.p in c.nodes && op.p in c0.nodes && TargetOk(c0, c, op)
    requires op.acked <= boot.Keys && op.p !in op.acked && |op.acked| + 1 >= QuorumSize(|boot.Keys|)
    requires AckedInTime(c0, op.acked, op.term)
    ensures CommitsBelow(c0, op.target)
  {
    forall q | q in c0.nodes ensures c0.nodes[q].commit <= op.target {
      QuorumCoversCommit(c0, c, boot, op, op.acked + {op.p}, q);
    }
  }

  lemma BeginOk(c0: ClusterState, c: ClusterState, op: ReadOp, boot: Bootstrap)
    requires ReadInv(c0, c, op, boot) && op.phase == Captured
    ensures ReadInv(c0, c, BeginRound(op, c.nodes[op.p]), boot)
  {
    var s := c.nodes[op.p];
    AloneInCluster(c, boot, op.p);
    if SelfVote(s) >= QuorumSize(|s.voters|) {
      QuorumCovers(c0, c, boot, op);
    }
  }

  lemma ConcludeOk(c0: ClusterState, c: ClusterState, op: ReadOp, boot: Bootstrap)
    requires ReadInv(c0, c, op, boot) && op.phase == Counting && op.acks >= op.quorum
    ensures ReadInv(c0, c, Conclude(op, c.nodes[op.p]), boot)
  {
    var s := c.nodes[op.p];
    if s.role == Leader && s.term == op.term {
      QuorumCovers(c0, c, boot, op);
    }
  }

  lemma DenialOk(c0: ClusterState, c: ClusterState, op: ReadOp, boot: Bootstrap, q: NodeId)
    requires ReadInv(c0, c, op, boot) && op.phase == Counting
    ensures ReadInv(c0, c, CountDenial(op, q), boot)
  {
  }

  /** A peer that answered a call of this read was in no later term when the read was invoked. */
  lemma AckCounts(c0: ClusterState, op: ReadOp, boot: Bootstrap, q: NodeId)
    requires CountOk(c0, op, boot) && q in op.out
    ensures CountOk(c0, CountAck(op, q), boot)
  {
  }

  lemma SendCounts(c0: ClusterState, op: ReadOp, boot: Bootstrap, q: NodeId, id: nat)
    requires CountOk(c0, op, boot) && q in op.toStart && id >= c0.clock
    ensures CountOk(c0, op.(toStart := op.toStart - {q}, out := op.out[q := id]), boot)
  {
  }

  lemma AckOk(c0: ClusterState, c: ClusterState, op: ReadOp, boot: Bootstrap, q: NodeId)
    requires ReadInv(c0, c, op, boot) && op.phase == Counting && q in op.out && q in c0.nodes
    requires c0.nodes[q].term <= c.nodes[op.p].term
    ensures ReadInv(c0, c, CountAck(op, q), boot)
  {
    AckCounts(c0, op, boot, q);
  }

  lemma SendOk(c0: ClusterState, c: ClusterState, op: ReadOp, boot: Bootstrap, q: NodeId, id: nat)
    requires ReadInv(c0, c, op, boot) && op.phase == Counting && q in op.toStart && id >= c0.clock
    ensures ReadInv(c0, c, op.(toStart := op.toStart - {q}, out := op.out[q := id]), boot)
  {
    SendCounts(c0, op, boot, q, id);
  }

  /** The goroutine reports success exactly if the node still leads and was acknowledged in no later term,
      whether or not the acknowledgement says anything new. */
  lemma ReportsAckIff(s: NodeState, q: NodeId, a: AppendArgs, reply: AppendReply)
    requires |s.log| > 0
    ensures HandleAppendReply(s, q, a, reply).1 <==> s.role == Leader && reply.success && reply.term <= s.term
  {
  }

  /** A peer that acknowledges a call of this read was in no later term when the read was invoked. */
  lemma AckedTerm(c0: ClusterState, c: ClusterState, op: ReadOp, boot: Bootstrap, a: AppendAnswer)
    requires Since(c0, c, boot) && CountOk(c0, op, boot) && op.p in c.nodes && a.call.dst in op.out
    requires a in c.answers && op.out[a.call.dst] == a.call.id && a.reply.success && a.reply.term <= c.nodes[op.p].term
    ensures a.call.dst in c0.nodes && c0.nodes[a.call.dst].term <= c.nodes[op.p].term
  {
    assert AppendAnswerOk(c.hist, boot, a);
  }

  lemma ReplyOk(c0: ClusterState, c: ClusterState, op: ReadOp, boot: Bootstrap, a: AppendAnswer)
    requires ReadInv(c0, c, op, boot) && ReadEnabled(c, op, ReplyStep(a))
    ensures var (c', op') := TakeReadStep(c, op, ReplyStep(a)); ReadInv(c0, c', op', boot)
  {
    var n, q := c.nodes[op.p], a.call.dst;
    ElsewhereKeepsReadInv(c0, c, op, boot, AppendReplyArrives(a));
    var c' := TakeStep(c, AppendReplyArrives(a));
    if HandleAppendReply(n, q, a.call.args, a.reply).1 {
      ReportsAckIff(n, q, a.call.args, a.reply);
      AckedTerm(c0, c, op, boot, a);
      StepOnward(c, boot, AppendReplyArrives(a), op.p);
      AckOk(c0, c', op, boot, q);
    } else {
      DenialOk(c0, c', op, boot, q);
    }
  }

  lemma ReadStepKeepsInv(c0: ClusterState, c: ClusterState, op: ReadOp, boot: Bootstrap, s: ReadStep)
    requires ReadInv(c0, c, op, boot) && ReadEnabled(c, op, s)
    ensures var (c', op') := TakeReadStep(c, op, s); ReadInv(c0, c', op', boot)
  {
    match s
    case Elsewhere(step) => ElsewhereKeepsReadInv(c0, c, op, boot, step);
    case CaptureStep => CaptureOk(c0, c, op, boot);
    case BeginStep => BeginOk(c0, c, op, boot);
    case SendStep(q) =>
      ElsewhereKeepsReadInv(c0, c, op, boot, SendStarts(op.p, q));
      SendOk(c0, TakeStep(c, SendStarts(op.p, q)), op, boot, q, c.clock);
    case RefusedStep(q) => DenialOk(c0, c, op, boot, q);
    case ReplyStep(a) => ReplyOk(c0, c, op, boot, a);
    case LostStep(q) => DenialOk(c0, c, op, boot, q);
    case ConcludeStep => ConcludeOk(c0, c, op, boot);
  }

  // ---- Runs with a read -----------------------------------------------------

  datatype Moment = Moment(cluster: ClusterState, op: ReadOp)

  ghost predicate MayFollow(m: Moment, m': Moment) {
    exists s :: ReadEnabled(m.cluster, m.op, s) && (m'.cluster, m'.op) == TakeReadStep(m.cluster, m.op, s)
  }

  ghost predicate ReadStepAt(rr: seq<Moment>, i: nat)
    requires i + 1 < |rr|
  {
    MayFollow(rr[i], rr[i + 1])
  }

  /** Node `p` invokes a read at the end of the run `r`; `rr` is what follows. */
  ghost predicate ReadRun(r: seq<ClusterState>, boot: Bootstrap, p: NodeId, rr: seq<Moment>) {
    && Run(r, boot) && |rr| > 0
    && rr[0].cluster == r[|r| - 1] && p in rr[0].cluster.nodes && rr[0].op == StartRead(p)
    && forall i {:trigger ReadStepAt(rr, i)} | 0 <= i < |rr| - 1 :: ReadStepAt(rr, i)
  }

  lemma {:induction false} ReadRunHasInv(r: seq<ClusterState>, boot: Bootstrap, p: NodeId, rr: seq<Moment>, k: nat)
    requires ReadRun(r, boot, p, rr) && k < |rr|
    ensures rr[k].op.p == p && ReadInv(rr[0].cluster, rr[k].cluster, rr[k].op, boot)
  {
    if k == 0 {
      ReadStarts(r, boot, p, rr[0]);
    } else {
      ReadRunHasInv(r, boot, p, rr, k - 1);
      assert ReadStepAt(rr, k - 1);
      ReadGoesOn(rr[0].cluster, rr[k - 1], rr[k], boot);
    }
  }

  lemma ReadStarts(r: seq<ClusterState>, boot: Bootstrap, p: NodeId, m: Moment)
    requires Run(r, boot) && m.cluster == r[|r| - 1] && p in m.cluster.nodes && m.op == StartRead(p)
    ensures ReadInv(m.cluster, m.cluster, m.op, boot)
  {
    RunHasInv(r, boot, |r| - 1);
    SinceSelf(m.cluster, boot);
  }

  lemma SameReader(c: ClusterState, op: ReadOp, s: ReadStep)
    requires ReadEnabled(c, op, s)
    ensures TakeReadStep(c, op, s).1.p == op.p
  {
  }

  lemma ReadGoesOn(c0: ClusterState, m: Moment, m': Moment, boot: Bootstrap)
    requires ReadInv(c0, m.cluster, m.op, boot) && MayFollow(m, m')
    ensures m'.op.p == m.op.p && ReadInv(c0, m'.cluster, m'.op, boot)
  {
    var s :| ReadEnabled(m.cluster, m.op, s) && (m'.cluster, m'.op) == TakeReadStep(m.cluster, m.op, s);
    ReadStepKeepsInv(c0, m.cluster, m.op, boot, s);
    SameReader(m.cluster, m.op, s);
  }

  // ---- The round is the counting loop ---------------------------------------

  ghost function RoundVerdict(op: ReadOp): ReadRound.Outcome {
    ReadRound.Verdict(op.outcomes, op.targets, op.self, op.quorum)
  }

  ghost predicate CountsOutcomes(op: ReadOp) {
    && op.acks == op.self + ReadRound.Successes(op.outcomes) && op.denials == ReadRound.Denials(op.outcomes)
    && op.possible == op.self + op.targets
    && |op.outcomes| + |op.toStart| + |op.out.Keys| == op.targets && op.toStart !! op.out.Keys
  }

  /** The read stands where the counting loop would on the outcomes reported so far. */
  ghost predicate RoundOk(op: ReadOp) {
    match op.phase
    case Counting => CountsOutcomes(op) && RoundVerdict(op) == if op.acks >= op.quorum then ReadRound.Reached else ReadRound.Waiting
    case Done(n) => |op.outcomes| <= op.targets && RoundVerdict(op) == ReadRound.Reached && n == op.target
    case NoQuorum => |op.outcomes| <= op.targets && RoundVerdict(op) == ReadRound.NoQuorum
    case NotTheLeader => true
    case _ => op.outcomes == [] && op.out == map[] && op.denials == 0
  }

  lemma OneMoreOutcome(votes: seq<bool>, v: bool)
    ensures ReadRound.Successes(votes + [v]) == ReadRound.Successes(votes) + if v then 1 else 0
  {
    assert (votes + [v])[..|votes|] == votes;
  }

  lemma OneFewer(s: set<NodeId>, q: NodeId)
    ensures |s - {q}| == |s| - if q in s then 1 else 0
  {
    if q !in s { assert s - {q} == s; }
  }

  lemma AckKeepsRound(op: ReadOp, q: NodeId)
    requires RoundOk(op) && Collecting(op) && q in op.out
    ensures RoundOk(CountAck(op, q))
  {
    OneMoreOutcome(op.outcomes, true);
    OneFewer(op.out.Keys, q);
    assert CountAck(op, q).out.Keys == op.out.Keys - {q};
  }

  lemma DenialKeepsRound(op: ReadOp, q: NodeId)
    requires RoundOk(op) && Collecting(op) && (q in op.out || q in op.toStart)
    ensures RoundOk(CountDenial(op, q))
  {
    OneMoreOutcome(op.outcomes, false);
    OneFewer(op.out.Keys, q);
    OneFewer(op.toStart, q);
    assert CountDenial(op, q).out.Keys == op.out.Keys - {q};
  }

  lemma SendKeepsRound(op: ReadOp, q: NodeId, id: nat)
    requires RoundOk(op) && Collecting(op) && q in op.toStart
    ensures RoundOk(op.(toStart := op.toStart - {q}, out := op.out[q := id]))
  {
    OneFewer(op.toStart, q);
    assert op.out[q := id].Keys == op.out.Keys + {q};
  }

  lemma BeginsRound(op: ReadOp, s: NodeState)
    requires RoundOk(op) && op.phase == Captured
    ensures RoundOk(BeginRound(op, s))
  {
  }

  lemma ReadStepKeepsRound(c: ClusterState, op: ReadOp, s: ReadStep)
    requires RoundOk(op) && ReadEnabled(c, op, s)
    ensures RoundOk(TakeReadStep(c, op, s).1)
  {
    match s
    case BeginStep => BeginsRound(op, c.nodes[op.p]);
    case SendStep(q) => SendKeepsRound(op, q, c.clock);
    case RefusedStep(q) => DenialKeepsRound(op, q);
    case LostStep(q) => DenialKeepsRound(op, q);
    case ReplyStep(a) =>
      AckKeepsRound(op, a.call.dst);
      DenialKeepsRound(op, a.call.dst);
    case _ =>
  }

  /** A read is won, given up or still counting exactly as the counting loop says it is on what the
      goroutines have reported so far, in whatever order they did. */
  lemma {:induction false} RoundFollowsLoop(r: seq<ClusterState>, boot: Bootstrap, p: NodeId, rr: seq<Moment>, k: nat)
    requires ReadRun(r, boot, p, rr) && k < |rr|
    ensures RoundOk(rr[k].op)
  {
    if k > 0 {
      RoundFollowsLoop(r, boot, p, rr, k - 1);
      assert ReadStepAt(rr, k - 1);
      RoundGoesOn(rr[k - 1], rr[k]);
    }
  }

  lemma RoundGoesOn(m: Moment, m': Moment)
    requires RoundOk(m.op) && MayFollow(m, m')
    ensures RoundOk(m'.op)
  {
    var s :| ReadEnabled(m.cluster, m.op, s) && (m'.cluster, m'.op) == TakeReadStep(m.cluster, m.op, s);
    ReadStepKeepsRound(m.cluster, m.op, s);
  }

  // ---- What a read promises -------------------------------------------------

  /** The index a read returns is at least every commit index there was when it was invoked. */
  lemma ReadIndexCoversCommits(r: seq<ClusterState>, boot: Bootstrap, p: NodeId, rr: seq<Moment>, k: nat, q: NodeId)
    requires ReadRun(r, boot, p, rr) && k < |rr| && rr[k].op.phase.Done? && q in rr[0].cluster.nodes
    ensures rr[0].cluster.nodes[q].commit <= rr[k].op.phase.index
  {
    ReadRunHasInv(r, boot, p, rr, k);
  }

  /** Linearizability of the read barrier: once the returned index is applied on the reading node,
      its state machine has been given everything any node had committed at the invocation. */
  lemma BarrierIsLinearizable(r: seq<ClusterState>, boot: Bootstrap, p: NodeId, rr: seq<Moment>, k: nat, q: NodeId)
    requires ReadRun(r, boot, p, rr) && k < |rr| && rr[k].op.phase.Done? && q in rr[0].cluster.nodes
    requires p in rr[k].cluster.nodes && rr[k].cluster.nodes[p].lastApplied >= rr[k].op.phase.index
    ensures var (s, t) := (rr[0].cluster.nodes[q], rr[k].cluster.nodes[p]);
            && s.commit < |s.log|
            && CommandsOf(s.log[1..s.commit + 1]) <= t.fsm
            && s.fsm <= t.fsm
  {
    ReadRunHasInv(r, boot, p, rr, k);
    var c0, c := rr[0].cluster, rr[k].cluster;
    ApplyInvHandsOver(c0, boot, q);
    ApplyInvHandsOver(c, boot, p);
    CommittedSurvives(c0, c, boot, q, p);
    HandedOverBoth(c0.nodes[q], c.nodes[p]);
  }

  lemma CommittedStillThere(g0: Hist, g: Hist, boot: Bootstrap, s: NodeState, t: NodeState)
    requires Grows(g0, g) && HistInv(g, boot.Keys)
    requires LogOk(g0, s.log) && s.commit < |s.log| && Committed(g0, s.log, s.commit, s.term)
    requires LogOk(g, t.log) && t.commit < |t.log| && Committed(g, t.log, t.commit, t.term)
    requires s.commit <= t.commit
    ensures s.log[..s.commit + 1] == t.log[..s.commit + 1]
  {
    LogOkGrows(g0, g, s.log);
    CommittedGrows(g0, g, s.log, s.commit, s.term, s.term);
    AgreeUpTo(g, boot.Keys, s, t, s.commit);
  }

  lemma StoredAndCommitted(c: ClusterState, boot: Bootstrap, p: NodeId)
    requires Inv(c, boot) && p in c.nodes
    ensures var s := c.nodes[p]; LogOk(c.hist, s.log) && s.commit < |s.log| && Committed(c.hist, s.log, s.commit, s.term)
  {
    AloneInCluster(c, boot, p);
  }

  lemma CommittedSurvives(c0: ClusterState, c: ClusterState, boot: Bootstrap, q: NodeId, p: NodeId)
    requires Since(c0, c, boot) && q in c0.nodes && p in c.nodes && c0.nodes[q].commit <= c.nodes[p].commit
    ensures var (s, t) := (c0.nodes[q], c.nodes[p]);
            s.commit < |s.log| && s.commit < |t.log| && s.log[..s.commit + 1] == t.log[..s.commit + 1]
  {
    StoredAndCommitted(c0, boot, q);
    StoredAndCommitted(c, boot, p);
    CommittedStillThere(c0.hist, c.hist, boot, c0.nodes[q], c.nodes[p]);
  }

  lemma HandedOverBoth(s: NodeState, t: NodeState)
    requires HandedOver(s) && HandedOver(t) && s.commit <= t.lastApplied
    requires s.log[..s.commit + 1] == t.log[..s.commit + 1]
    ensures CommandsOf(s.log[1..s.commit + 1]) <= t.fsm && s.fsm <= t.fsm
  {
    CommandsAgree(s.log, t.log, s.commit, s.commit, AppliedUpTo(t));
    CommandsAgree(s.log, t.log, AppliedUpTo(s), s.commit, AppliedUpTo(t));
  }
}

/** A cluster of Raft nodes and the network between them, as a transition system.
    Requests and replies may be lost, delayed, reordered or duplicated. */
module Cluster {
  import opened RaftTypes
  import opened Membership
  import opened NodeSpec
  import opened LogHistory

  datatype VoteCall = VoteCall(src: NodeId, dst: NodeId, args: VoteArgs)

  datatype VoteAnswer = VoteAnswer(call: VoteCall, reply: VoteReply)

  /** The goroutine that waits for one peer's vote in one election. */
  datatype Ballot = Ballot(candidate: NodeId, term: Term, voter: NodeId)

  /** `id` tells calls with equal arguments apart; `sentMatch` records the match index the
      leader had for the peer when it sent the call. Nodes read neither. */
  datatype AppendCall = AppendCall(id: nat, src: NodeId, dst: NodeId, args: AppendArgs, sentMatch: LogIndex)

  datatype AppendAnswer = AppendAnswer(call: AppendCall, reply: AppendReply)

  /** Messages are never removed: what is lost is never delivered, what is delivered may be
      delivered again. A reply is processed at most once: `ballotsDone` are the vote goroutines
      that got theirs, `pending` are the append calls that still wait for theirs. */
  datatype ClusterState = ClusterState(
    nodes: map<NodeId, NodeState>,
    voteCalls: set<VoteCall>,
    voteAnswers: set<VoteAnswer>,
    ballotsDone: set<Ballot>,
    clock: nat,
    calls: set<AppendCall>,
    answers: set<AppendAnswer>,
    pending: map<(NodeId, NodeId), AppendCall>,
    hist: Hist)

  datatype Step =
    | ElectionTimeout(p: NodeId)
    | VoteArrives(voteCall: VoteCall, inContact: bool)
    | VoteReplyArrives(voteAnswer: VoteAnswer)
    | ClientSubmits(p: NodeId, command: Command)
    | SendStarts(p: NodeId, q: NodeId)
    | AppendArrives(call: AppendCall)
    | AppendReplyArrives(answer: AppendAnswer)
    | CallEnds(p: NodeId, q: NodeId)
    | QuorumCheck(p: NodeId, live: set<NodeId>)
    | BatchTaken(p: NodeId)
    | EntryApplied(p: NodeId)
    | BatchFinished(p: NodeId)

  function BallotOf(m: VoteCall): Ballot {
    Ballot(m.src, m.args.term, m.dst)
  }

  /** The node whose critical section the step runs. */
  function Actor(s: Step): NodeId {
    match s
    case VoteArrives(m, _) => m.dst
    case VoteReplyArrives(a) => a.call.src
    case AppendArrives(m) => m.dst
    case AppendReplyArrives(a) => a.call.src
    case _ => s.p
  }

  /** What can happen next, as the code has it. A send whose slice is out of bounds panics, and does not happen. */
  predicate Possible(c: ClusterState, s: Step) {
    Actor(s) in c.nodes &&
    var n := c.nodes[Actor(s)];
    |n.log| > 0 &&
    match s
    case ElectionTimeout(p) => MayStartElection(n)
    case VoteArrives(m, _) => m in c.voteCalls
    case VoteReplyArrives(a) => a in c.voteAnswers && BallotOf(a.call) !in c.ballotsDone
    case ClientSubmits(p, _) => n.role == Leader
    case SendStarts(p, q) => CanSend(n, q) && InBounds(n, q)
    case AppendArrives(m) => m in c.calls
    case AppendReplyArrives(a) =>
      && a in c.answers
      && (a.call.src, a.call.dst) in c.pending && c.pending[(a.call.src, a.call.dst)] == a.call
    case CallEnds(p, q) => InFlight(n, q)
    case QuorumCheck(p, live) => n.role == Leader
    case BatchTaken(p) => CanTakeBatch(n)
    case EntryApplied(p) => CanApplyOne(n)
    case BatchFinished(p) => CanFinishBatch(n)
  }

  /** The last index the request reaches in its leader's log. */
  function Reach(a: AppendArgs): LogIndex {
    a.prevIndex + |a.entries|
  }

  /** The leader is handed the reply to a request from an earlier leadership of its own, and takes it
      for one of this leadership. */
  predicate IsLate(s: NodeState, a: AppendAnswer) {
    s.role == Leader && s.term != a.call.args.term && a.reply.term <= s.term
  }

  /** A late acknowledgement does no harm to what is committed if it does not reach the leader's own entries. */
  predicate InTime(s: NodeState, a: AppendAnswer) {
    IsLate(s, a) && a.reply.success ==> var n := Reach(a.call.args); n < |s.log| && s.log[n].term != s.term
  }

  /** The one assumption on timing: late acknowledgements that may do harm do not come in. */
  predicate Enabled(c: ClusterState, s: Step) {
    Possible(c, s) && (s.AppendReplyArrives? ==> InTime(c.nodes[Actor(s)], s.answer))
  }

  // ---- Recording what happens -----------------------------------------------

  function RecordVote(g: Hist, t: Term, p: NodeId, c: NodeId): Hist {
    g.(votes := g.votes[(t, p) := c])
  }

  function RecordCandidacy(g: Hist, t: Term, p: NodeId, log: Log): Hist {
    RecordVote(g.(adv := g.adv[(t, p) := log]), t, p, p)
  }

  function RecordWin(g: Hist, t: Term, p: NodeId, base: Log, log: Log): Hist {
    g.(lead := g.lead[t := Leadership(p, base, log, 0)],
       acc := g.acc[(t, p) := if |log| > 0 then |log| - 1 else 0])
  }

  function AfterVote(g: Hist, s: NodeState, reply: VoteReply): Hist {
    if reply.granted then RecordVote(g, s.term, s.id, s.votedFor) else g
  }

  /** `s` became `s'` on a vote reply. */
  function AfterVoteReply(g: Hist, s: NodeState, s': NodeState): Hist {
    if s.role != Leader && s'.role == Leader then RecordWin(g, s.term, s.id, s.log, s'.log) else g
  }

  function RecordAppend(g: Hist, t: Term, p: NodeId, log: Log): Hist
    requires t in g.lead && |log| > 0
  {
    g.(lead := g.lead[t := g.lead[t].(log := log)], acc := g.acc[(t, p) := |log| - 1])
  }

  function RecordAccept(g: Hist, t: Term, p: NodeId, n: LogIndex): Hist {
    if Accepted(g, t, p, n) then g else g.(acc := g.acc[(t, p) := n])
  }

  function RecordCommit(g: Hist, t: Term, n: LogIndex): Hist
    requires t in g.lead
  {
    g.(lead := g.lead[t := g.lead[t].(commit := n)])
  }

  function AfterAppend(g: Hist, m: AppendCall, reply: AppendReply): Hist {
    if reply.success then RecordAccept(g, m.args.term, m.dst, m.args.prevIndex + |m.args.entries|) else g
  }

  function AfterCommit(g: Hist, s: NodeState, s': NodeState): Hist {
    if s'.commit > s.commit && s.term in g.lead then RecordCommit(g, s.term, s'.commit) else g
  }

  function RecordLate(g: Hist, s: NodeState, a: AppendAnswer): Hist
    requires |s.log| > 0
  {
    if !IsLate(s, a) then g
    else if a.reply.success then g.(late := g.late[(s.term, a.call.dst) := a.call.args.term])
    else if BackoffIndex(s.log, a.reply) > |s.log| then g.(over := g.over + {(s.term, a.call.dst)})
    else g
  }

  function AfterAppendReply(g: Hist, s: NodeState, s': NodeState, a: AppendAnswer): Hist
    requires |s.log| > 0
  {
    AfterCommit(RecordLate(g, s, a), s, s')
  }

  // ---- Steps ----------------------------------------------------------------

  ghost function TakeStep(c: ClusterState, s: Step): ClusterState
    requires Possible(c, s)
  {
    var n := c.nodes[Actor(s)];
    match s
    case ElectionTimeout(p) =>
      var n' := StartElection(n);
      c.(nodes := c.nodes[p := n'],
         voteCalls := c.voteCalls + (set q | q in VoteRecipients(n') :: VoteCall(p, q, VoteRequest(n'))),
         hist := RecordCandidacy(c.hist, n'.term, p, n'.log))

    case VoteArrives(m, inContact) =>
      var (n', reply) := HandleVote(n, m.args, inContact);
      c.(nodes := c.nodes[m.dst := n'],
         voteAnswers := c.voteAnswers + {VoteAnswer(m, reply)},
         hist := AfterVote(c.hist, n', reply))

    case VoteReplyArrives(a) =>
      var p := a.call.src;
      var n' := HandleVoteReply(n, a.call.args.term, a.reply);
      c.(nodes := c.nodes[p := n'],
         ballotsDone := c.ballotsDone + {BallotOf(a.call)},
         hist := AfterVoteReply(c.hist, n, n'))

    case ClientSubmits(p, cmd) =>
      var n' := Submit(n, cmd);
      c.(nodes := c.nodes[p := n'],
         hist := if n.term in c.hist.lead then RecordAppend(c.hist, n.term, p, n'.log) else c.hist)

    case SendStarts(p, q) =>
      var call := AppendCall(c.clock, p, q, AppendRequest(n, q), MatchOf(n, q));
      c.(nodes := c.nodes[p := MarkSent(n, q)],
         clock := c.clock + 1,
         calls := c.calls + {call},
         pending := c.pending[(p, q) := call])

    case AppendArrives(m) =>
      var (n', reply) := HandleAppend(n, m.args);
      c.(nodes := c.nodes[m.dst := n'],
         answers := c.answers + {AppendAnswer(m, reply)},
         hist := AfterAppend(c.hist, m, reply))

    case AppendReplyArrives(a) =>
      var (p, q) := (a.call.src, a.call.dst);
      var n' := HandleAppendReply(n, q, a.call.args, a.reply).0;
      c.(nodes := c.nodes[p := n'],
         pending := c.pending - {(p, q)},
         hist := AfterAppendReply(c.hist, n, n', a))

    case CallEnds(p, q) =>
      c.(nodes := c.nodes[p := EndCall(n, q)], pending := c.pending - {(p, q)})

    case QuorumCheck(p, live) =>
      c.(nodes := c.nodes[p := StepDown(n, live)])

    case BatchTaken(p) => c.(nodes := c.nodes[p := TakeBatch(n)])
    case EntryApplied(p) => c.(nodes := c.nodes[p := ApplyOne(n)])
    case BatchFinished(p) => c.(nodes := c.nodes[p := FinishBatch(n)])
  }

  ghost predicate Unused(boot: Bootstrap, p: NodeId, s: NodeState) {
    s == NewNode(p, boot, s.hasFactory)
  }

  ghost predicate Init(c: ClusterState, boot: Bootstrap) {
    && NO_NODE !in boot
    && c.nodes.Keys == boot.Keys
    && (forall p {:trigger Unused(boot, p, c.nodes[p])} | p in c.nodes :: Unused(boot, p, c.nodes[p]))
    && c == ClusterState(c.nodes, {}, {}, {}, 0, {}, {}, map[], EMPTY_HIST)
  }

  ghost predicate Next(c: ClusterState, c': ClusterState) {
    exists s :: Enabled(c, s) && c' == TakeStep(c, s)
  }

  ghost predicate StepAt(r: seq<ClusterState>, i: nat)
    requires i + 1 < |r|
  {
    Next(r[i], r[i + 1])
  }

  /** A run of the cluster that `boot` describes. */
  ghost predicate Run(r: seq<ClusterState>, boot: Bootstrap) {
    |r| > 0 && Init(r[0], boot) && forall i {:trigger StepAt(r, i)} | 0 <= i < |r| - 1 :: StepAt(r, i)
  }
}

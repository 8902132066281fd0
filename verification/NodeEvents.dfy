/** Everything that can happen to one node, in any order and with any arguments: what its
    peers, its clients, its timers and its applier do to it, reconfiguration included. */
module NodeEvents {
  import opened RaftTypes
  import opened NodeSpec

  datatype Event =
    | ElectionDue
    | VoteAsked(voteArgs: VoteArgs, inContact: bool)
    | VoteAnswered(electionTerm: Term, voteReply: VoteReply)
    | AppendAsked(args: AppendArgs)
    | AppendAnswered(peer: NodeId, args: AppendArgs, reply: AppendReply)
    | CallStarted(peer: NodeId)
    | CallEnded(peer: NodeId)
    | Submitted(command: Command)
    | NodeAdded(id: NodeId, addr: string)
    | NodeRemoved(id: NodeId)
    | OwnRemovalApplied
    | PromoterTicked(id: NodeId, threshold: int)
    | QuorumChecked(live: set<NodeId>)
    | BatchTaken
    | EntryApplied
    | BatchFinished

  ghost function React(s: NodeState, e: Event): NodeState
    requires |s.log| > 0
  {
    match e
    case ElectionDue => if MayStartElection(s) then StartElection(s) else s
    case VoteAsked(a, inContact) => HandleVote(s, a, inContact).0
    case VoteAnswered(t, reply) => HandleVoteReply(s, t, reply)
    case AppendAsked(a) => HandleAppend(s, a).0
    case AppendAnswered(p, a, reply) => HandleAppendReply(s, p, a, reply).0
    case CallStarted(p) => if CanSend(s, p) then MarkSent(s, p) else s
    case CallEnded(p) => EndCall(s, p)
    case Submitted(c) => Submit(s, c)
    case NodeAdded(id, addr) => AddNode(s, id, addr).0
    case NodeRemoved(id) => RemoveMember(s, id).0
    case OwnRemovalApplied => BecomeFollower(s, s.term)
    case PromoterTicked(id, threshold) => PromoteTick(s, id, threshold).0
    case QuorumChecked(live) => StepDown(s, live)
    case BatchTaken => if CanTakeBatch(s) then TakeBatch(s) else s
    case EntryApplied => if CanApplyOne(s) then ApplyOne(s) else s
    case BatchFinished => if CanFinishBatch(s) then FinishBatch(s) else s
  }
}

/** The values Raft nodes store and exchange (types.go, config_log.go). */
module RaftTypes {
  type Term = nat
  type LogIndex = nat
  type NodeId = int

  /** The id that means "nobody". */
  const NO_NODE: NodeId := -1

  datatype Option<+T> = None | Some(value: T)

  datatype EntryType = Normal | AddLearner | AddVoter | RemoveNode

  /** The bytes of an entry. `Nil` is a nil slice. The two configuration payloads
      stand for their JSON encodings, `Data` for every other byte string. */
  datatype Command =
    | Nil
    | Data(bytes: seq<int>)
    | ConfigAdd(id: NodeId, addr: string)
    | ConfigRemove(id: NodeId)

  datatype Entry = Entry(etype: EntryType, term: Term, command: Command)

  type Log = seq<Entry>

  /** Slot 0 of every log: real entries start at index 1. */
  const SENTINEL := Entry(Normal, 0, Nil)

  function LastIndex(log: Log): LogIndex
    requires |log| > 0
  {
    |log| - 1
  }

  function LastTerm(log: Log): Term
    requires |log| > 0
  {
    log[|log| - 1].term
  }

  /** Decoding is lenient, as JSON decoding is: a removal payload read as an
      addition yields its id and an empty address. */
  function DecodeConfigAdd(c: Command): Option<(NodeId, string)> {
    match c
    case ConfigAdd(id, addr) => Some((id, addr))
    case ConfigRemove(id) => Some((id, ""))
    case _ => None
  }

  function DecodeConfigRemove(c: Command): Option<NodeId> {
    match c
    case ConfigAdd(id, _) => Some(id)
    case ConfigRemove(id) => Some(id)
    case _ => None
  }

  predicate ChangesMembership(t: EntryType) {
    t == AddLearner || t == AddVoter || t == RemoveNode
  }

  datatype VoteArgs = VoteArgs(term: Term, candidate: NodeId, lastIndex: LogIndex, lastTerm: Term)

  datatype VoteReply = VoteReply(term: Term, granted: bool)

  datatype AppendArgs = AppendArgs(
    term: Term, leader: NodeId, prevIndex: LogIndex, prevTerm: Term,
    entries: seq<Entry>, leaderCommit: LogIndex)

  datatype AppendReply = AppendReply(
    term: Term, success: bool, conflictIndex: LogIndex, conflictTerm: Term)
}

/** One Raft node as a value, and the effect of each of its lock-held critical sections.
    `RaftNode.Raft` implements these functions in place; `Cluster` composes them. */
module NodeSpec {
  import opened RaftTypes
  import opened Membership
  import opened Quorums
  import opened Maps

  datatype Role = Follower | Candidate | Leader

  /** The stub a peer factory builds for an address. */
  datatype Client = Client(id: NodeId, addr: string)

  datatype Peer = Peer(client: Option<Client>, role: PeerRole)

  /** What the applier took under the lock; the first `done` entries have been handed over. */
  datatype Batch = Batch(base: LogIndex, upTo: LogIndex, entries: seq<Entry>, done: nat)

  datatype NodeState = NodeState(
    id: NodeId,
    bootstrap: Bootstrap,
    hasFactory: bool,
    role: Role,
    term: Term,
    votedFor: NodeId,
    log: Log,
    commit: LogIndex,
    lastApplied: LogIndex,
    nextIndex: map<NodeId, LogIndex>,
    matchIndex: map<NodeId, LogIndex>,
    inFlight: map<NodeId, bool>,
    hint: NodeId,
    active: set<NodeId>,
    voters: set<NodeId>,
    addrs: map<NodeId, string>,
    peers: map<NodeId, Peer>,
    votesReceived: nat,
    votesNeeded: nat,
    batch: Option<Batch>,
    fsm: seq<Command>)

  /** Go maps read as zero where they hold nothing. */
  function MatchOf(s: NodeState, p: NodeId): LogIndex {
    if p in s.matchIndex then s.matchIndex[p] else 0
  }

  function InFlight(s: NodeState, p: NodeId): bool {
    p in s.inFlight && s.inFlight[p]
  }

  // ---- state.go -------------------------------------------------------------

  function BecomeFollower(s: NodeState, term: Term): NodeState {
    s.(role := Follower, term := term, votedFor := NO_NODE)
  }

  /** Starting an election also fixes the votes it needs and counts the node's own. */
  function StartElection(s: NodeState): NodeState {
    s.(role := Candidate, term := s.term + 1, votedFor := s.id,
       votesReceived := if s.id in s.voters then 1 else 0,
       votesNeeded := QuorumSize(|s.voters|))
  }

  function NoOp(term: Term): Entry {
    Entry(Normal, term, Nil)
  }

  /** What a node that wins in `term` writes: the founding block on a fresh log, then a no-op. */
  ghost function LeaderPreamble(boot: Bootstrap, log: Log, term: Term): seq<Entry> {
    (if |log| == 1 && boot != map[] then FoundingBlock(boot, term) else []) + [NoOp(term)]
  }

  /** The map with the value `v` for each of the keys `ps`. */
  ghost function Assign(base: map<NodeId, LogIndex>, ps: set<NodeId>, v: LogIndex): (m: map<NodeId, LogIndex>)
    ensures m.Keys == base.Keys + ps && forall p | p in m :: m[p] == if p in ps then v else base[p]
  {
    MapExists(base.Keys + ps, p => if p in base && p !in ps then base[p] else v);
    var m: map<NodeId, LogIndex> :| m.Keys == base.Keys + ps && forall p | p in m :: m[p] == if p in ps then v else base[p];
    m
  }

  ghost function BecomeLeader(s: NodeState): NodeState {
    if s.role == Leader then s
    else
      var log := s.log + LeaderPreamble(s.bootstrap, s.log, s.term);
      var others := s.peers.Keys - {s.id};
      s.(role := Leader, hint := s.id, log := log,
         nextIndex := Assign(s.nextIndex, others, |log| - 1),
         matchIndex := Assign(s.matchIndex, others, 0))
  }

  // ---- election.go ----------------------------------------------------------

  predicate MayStartElection(s: NodeState) {
    s.role != Leader && |s.voters| > 0 && s.id in s.voters
  }

  function VoteRecipients(s: NodeState): set<NodeId> {
    set p | p in s.peers && p != s.id && p in s.voters && s.peers[p].client.Some?
  }

  function VoteRequest(s: NodeState): VoteArgs
    requires |s.log| > 0
  {
    VoteArgs(s.term, s.id, LastIndex(s.log), LastTerm(s.log))
  }

  ghost function HandleVoteReply(s: NodeState, electionTerm: Term, reply: VoteReply): NodeState {
    if s.role != Candidate || s.term != electionTerm then s
    else if reply.term > electionTerm then BecomeFollower(s, reply.term)
    else if !reply.granted then s
    else
      var s1 := s.(votesReceived := s.votesReceived + 1);
      if s1.votesReceived == s1.votesNeeded then BecomeLeader(s1) else s1
  }

  // ---- service.go -----------------------------------------------------------

  predicate UpToDate(lastIndex: LogIndex, lastTerm: Term, log: Log)
    requires |log| > 0
  {
    lastTerm > LastTerm(log) || (lastTerm == LastTerm(log) && lastIndex >= LastIndex(log))
  }

  /** Requests of older terms are refused, and so are newer ones while the node's leader is in
      contact: `inContact` says whether it was heard from within the minimum election timeout. */
  predicate Disregards(s: NodeState, a: VoteArgs, inContact: bool) {
    a.term < s.term || (a.term > s.term && s.hint != NO_NODE && s.hint != a.candidate && inContact)
  }

  function HearCandidate(s: NodeState, a: VoteArgs): NodeState {
    if a.term > s.term then BecomeFollower(s, a.term) else s
  }

  predicate GrantsTo(s: NodeState, a: VoteArgs)
    requires |s.log| > 0
  {
    && s.id in s.voters
    && (s.votedFor == NO_NODE || s.votedFor == a.candidate)
    && UpToDate(a.lastIndex, a.lastTerm, s.log)
  }

  function HandleVote(s: NodeState, a: VoteArgs, inContact: bool): (NodeState, VoteReply)
    requires |s.log| > 0
  {
    if Disregards(s, a, inContact) then (s, VoteReply(s.term, false))
    else
      var s1 := HearCandidate(s, a);
      if GrantsTo(s1, a) then (s1.(votedFor := a.candidate), VoteReply(s1.term, true))
      else (s1, VoteReply(s1.term, false))
  }

  /** How many of the entries, from the `k`th on, the log already holds with the same terms. */
  function AgreeFrom(log: Log, prev: LogIndex, es: seq<Entry>, k: nat): (n: nat)
    requires k <= |es|
    ensures k <= n <= |es|
    ensures n > k ==> prev + n < |log|
    ensures forall i | prev + 1 + k <= i < prev + 1 + n :: log[i].term == es[i - prev - 1].term
    ensures n < |es| ==> prev + 1 + n >= |log| || log[prev + 1 + n].term != es[n].term
    decreases |es| - k
  {
    if k < |es| && prev + 1 + k < |log| && log[prev + 1 + k].term == es[k].term
    then AgreeFrom(log, prev, es, k + 1)
    else k
  }

  /** The log after the truncate-or-append loop: unchanged if it holds all the entries already,
      otherwise cut at the first disagreement and continued with the rest of them. */
  function MergeEntries(log: Log, prev: LogIndex, es: seq<Entry>): Log
    requires prev < |log|
  {
    var n := AgreeFrom(log, prev, es, 0);
    if n == |es| then log else log[..prev + 1 + n] + es[n..]
  }

  predicate Truncates(log: Log, prev: LogIndex, es: seq<Entry>) {
    var n := AgreeFrom(log, prev, es, 0);
    n < |es| && prev + 1 + n < |log|
  }

  predicate NeedsRebuild(log: Log, prev: LogIndex, es: seq<Entry>) {
    Truncates(log, prev, es) || exists e | e in es :: ChangesMembership(e.etype)
  }

  /** The first index of the run of equal terms that ends at `i`, but never below 1. */
  function ConflictStart(log: Log, i: LogIndex): (c: LogIndex)
    requires i < |log|
    ensures c <= i && (i >= 1 ==> c >= 1)
    ensures forall j | c <= j <= i :: log[j].term == log[i].term
    ensures c > 1 ==> log[c - 1].term != log[i].term
  {
    if i > 1 && log[i - 1].term == log[i].term then ConflictStart(log, i - 1) else i
  }

  function Accepts(log: Log, prev: LogIndex, prevTerm: Term): bool {
    prev < |log| && log[prev].term == prevTerm
  }

  function ConflictReply(log: Log, term: Term, prev: LogIndex): AppendReply
    requires |log| > 0
  {
    if prev > LastIndex(log) then AppendReply(term, false, LastIndex(log) + 1, 0)
    else AppendReply(term, false, ConflictStart(log, prev), log[prev].term)
  }

  /** The entries are merged in; the configuration is rebuilt if it may have changed. */
  ghost function Merged(s: NodeState, a: AppendArgs): NodeState
    requires a.prevIndex < |s.log|
  {
    var s1 := s.(log := MergeEntries(s.log, a.prevIndex, a.entries));
    if NeedsRebuild(s.log, a.prevIndex, a.entries) then Rebuild(s1) else s1
  }

  function FollowCommit(s: NodeState, a: AppendArgs): NodeState {
    var lastNew := a.prevIndex + |a.entries|;
    if a.leaderCommit > s.commit
    then s.(commit := if a.leaderCommit <= lastNew then a.leaderCommit else lastNew)
    else s
  }

  /** Merging touches the log and the configuration only. */
  lemma MergeKeepsStanding(s: NodeState, a: AppendArgs)
    requires a.prevIndex < |s.log|
    ensures var r := Merged(s, a);
            && r.log == MergeEntries(s.log, a.prevIndex, a.entries)
            && r.id == s.id && r.bootstrap == s.bootstrap && r.hasFactory == s.hasFactory && r.hint == s.hint
            && r.role == s.role && r.term == s.term && r.votedFor == s.votedFor && r.commit == s.commit
            && r.lastApplied == s.lastApplied && r.batch == s.batch && r.fsm == s.fsm
  {
    RebuildKeepsStanding(s.(log := MergeEntries(s.log, a.prevIndex, a.entries)));
  }

  lemma RebuildKeepsStanding(s: NodeState)
    ensures var r := Rebuild(s);
            && r.log == s.log && r.id == s.id && r.bootstrap == s.bootstrap && r.hasFactory == s.hasFactory && r.hint == s.hint
            && r.role == s.role && r.term == s.term && r.votedFor == s.votedFor && r.commit == s.commit
            && r.lastApplied == s.lastApplied && r.batch == s.batch && r.fsm == s.fsm
  {
  }

  /** A request that passes the consistency check. */
  ghost function AcceptEntries(s: NodeState, a: AppendArgs): NodeState
    requires a.prevIndex < |s.log|
  {
    FollowCommit(Merged(s, a), a)
  }

  /** A request that is not from an older term makes the node follow its sender. */
  function Heed(s: NodeState, a: AppendArgs): NodeState {
    (if a.term > s.term then BecomeFollower(s, a.term) else s).(hint := a.leader)
  }

  ghost function HandleAppend(s: NodeState, a: AppendArgs): (NodeState, AppendReply)
    requires |s.log| > 0
  {
    if a.term < s.term then (s, AppendReply(s.term, false, 0, 0))
    else
      var s1 := Heed(s, a);
      if !Accepts(s1.log, a.prevIndex, a.prevTerm) then (s1, ConflictReply(s1.log, s1.term, a.prevIndex))
      else (AcceptEntries(s1, a), AppendReply(s1.term, true, 0, 0))
  }

  // ---- membership.go --------------------------------------------------------

  /** A peer whose address did not change keeps its client. */
  function RebuiltPeer(s: NodeState, id: NodeId, m: Member): Peer {
    if m.addr != "" then
      if id in s.addrs && s.addrs[id] == m.addr && id in s.peers && s.peers[id].client.Some?
      then Peer(s.peers[id].client, m.role)
      else Peer(if s.hasFactory then Some(Client(id, m.addr)) else None, m.role)
    else Peer(if id in s.peers then s.peers[id].client else None, m.role)
  }

  ghost function RebuiltPeers(s: NodeState, m: Members): (peers: map<NodeId, Peer>)
    ensures peers.Keys == m.Keys - {s.id} && forall p | p in peers :: peers[p] == RebuiltPeer(s, p, m[p])
  {
    MapExists(m.Keys - {s.id}, p => if p in m then RebuiltPeer(s, p, m[p]) else Peer(None, Voter));
    var peers: map<NodeId, Peer> :|
      peers.Keys == m.Keys - {s.id} && forall p | p in peers :: peers[p] == RebuiltPeer(s, p, m[p]);
    peers
  }

  /** The nodes whose indices are dropped when the members change. */
  function Departed(known: set<NodeId>, members: set<NodeId>, self: NodeId): set<NodeId> {
    set p | p in known && (p !in members || p == self)
  }

  /** The members that get new indices. */
  function Newcomers(known: set<NodeId>, members: set<NodeId>, self: NodeId): set<NodeId> {
    set p | p in members && p != self && p !in known
  }

  ghost function RebuildAs(s: NodeState, m: Members): NodeState {
    var gone := Departed(s.nextIndex.Keys, m.Keys, s.id);
    var added := Newcomers(s.nextIndex.Keys, m.Keys, s.id);
    s.(active := m.Keys,
       voters := VotersOf(m),
       addrs := AddrsOf(m),
       peers := RebuiltPeers(s, m),
       nextIndex := Assign(s.nextIndex - gone, added, |s.log|),
       matchIndex := Assign(s.matchIndex - gone, added, 0))
  }

  ghost function Rebuild(s: NodeState): NodeState {
    RebuildAs(s, Replay(s.bootstrap, s.log))
  }

  predicate PendingVoterChange(s: NodeState) {
    exists i :: s.commit < i < |s.log| && (s.log[i].etype == AddVoter || s.log[i].etype == RemoveNode)
  }

  predicate PendingMembership(s: NodeState) {
    exists i :: s.commit < i < |s.log| && ChangesMembership(s.log[i].etype)
  }

  datatype AdminError = NotLeader | ChangeInProgress | AlreadyMember | NotMember

  ghost function AppendConfig(s: NodeState, t: EntryType, c: Command): NodeState {
    Rebuild(s.(log := s.log + [Entry(t, s.term, c)]))
  }

  ghost function AddNode(s: NodeState, id: NodeId, addr: string): (NodeState, Option<AdminError>) {
    if s.role != Leader then (s, Some(NotLeader))
    else if PendingVoterChange(s) then (s, Some(ChangeInProgress))
    else if id in s.active then (s, Some(AlreadyMember))
    else (AppendConfig(s, AddLearner, ConfigAdd(id, addr)), None)
  }

  ghost function RemoveMember(s: NodeState, id: NodeId): (NodeState, Option<AdminError>) {
    if s.role != Leader then (s, Some(NotLeader))
    else if id !in s.active then (s, Some(NotMember))
    else if PendingMembership(s) then (s, Some(ChangeInProgress))
    else (AppendConfig(s, EntryType.RemoveNode, ConfigRemove(id)), None)
  }

  datatype PromoteOutcome = GiveUp | TryLater | Promoted

  /** One tick of the catch-up promoter of `target`. */
  ghost function PromoteTick(s: NodeState, target: NodeId, threshold: int): (NodeState, PromoteOutcome)
    requires |s.log| > 0
  {
    if s.role != Leader then (s, GiveUp)
    else if target !in s.peers || s.peers[target].role != Learner then (s, GiveUp)
    else if PendingVoterChange(s) then (s, TryLater)
    else if LastIndex(s.log) - MatchOf(s, target) >= threshold then (s, TryLater)
    else
      var addr := if target in s.addrs then s.addrs[target] else "";
      (AppendConfig(s, AddVoter, ConfigAdd(target, addr)), Promoted)
  }

  // ---- raft.go --------------------------------------------------------------

  ghost function NewNode(id: NodeId, boot: Bootstrap, hasFactory: bool): NodeState {
    Rebuild(NodeState(id, boot, hasFactory, Follower, 0, NO_NODE, [SENTINEL], 0, 0,
                      map[], map[], map[], NO_NODE, {}, {}, map[], map[], 0, 0, None, []))
  }

  function Submit(s: NodeState, c: Command): NodeState {
    if s.role != Leader then s else s.(log := s.log + [Entry(Normal, s.term, c)])
  }

  // ---- replication.go -------------------------------------------------------

  predicate CanSend(s: NodeState, p: NodeId) {
    s.role == Leader && p in s.peers && s.peers[p].client.Some? && !InFlight(s, p)
  }

  /** The slice expressions of the send path are in bounds for this peer. */
  predicate InBounds(s: NodeState, p: NodeId) {
    p in s.nextIndex && 1 <= s.nextIndex[p] <= |s.log|
  }

  /** The request for a peer: everything from its next index on. */
  function AppendRequest(s: NodeState, p: NodeId): AppendArgs
    requires InBounds(s, p)
  {
    var next := s.nextIndex[p];
    AppendArgs(s.term, s.id, next - 1, s.log[next - 1].term, s.log[next..], s.commit)
  }

  function MarkSent(s: NodeState, p: NodeId): NodeState {
    s.(inFlight := s.inFlight[p := true])
  }

  function EndCall(s: NodeState, p: NodeId): NodeState {
    s.(inFlight := s.inFlight[p := false])
  }

  /** The greatest index in 1..i whose entry has the term; the scan gives up at a smaller term. */
  function FindLast(log: Log, term: Term, i: LogIndex): (r: Option<LogIndex>)
    requires i < |log|
    ensures r.Some? ==> 1 <= r.value <= i && log[r.value].term == term
    ensures r.Some? ==> forall j | r.value < j <= i :: log[j].term > term
  {
    if i < 1 then None
    else if log[i].term == term then Some(i)
    else if log[i].term < term then None
    else FindLast(log, term, i - 1)
  }

  function BackoffIndex(log: Log, reply: AppendReply): (next: LogIndex)
    requires |log| > 0
    ensures next >= 1
  {
    var found := if reply.conflictTerm == 0 then None else FindLast(log, reply.conflictTerm, LastIndex(log));
    var next := if found.Some? then found.value + 1 else reply.conflictIndex;
    if next < 1 then 1 else next
  }

  function AckedBy(s: NodeState, n: LogIndex): set<NodeId> {
    set p | p in s.voters && p != s.id && MatchOf(s, p) >= n
  }

  function SelfVote(s: NodeState): nat {
    if s.id in s.voters then 1 else 0
  }

  predicate Committable(s: NodeState, n: LogIndex) {
    && n < |s.log|
    && s.log[n].term == s.term
    && SelfVote(s) + |AckedBy(s, n)| >= QuorumSize(|s.voters|)
  }

  /** The commit index once the indices up to `n` have been looked at. */
  function CommitScan(s: NodeState, n: LogIndex): (c: LogIndex)
    requires n < |s.log|
    ensures c == s.commit || (s.commit < c <= n && Committable(s, c))
    ensures forall i | s.commit < i <= n && Committable(s, i) :: i <= c
  {
    if n <= s.commit then s.commit
    else if Committable(s, n) then n
    else CommitScan(s, n - 1)
  }

  function UpdateCommit(s: NodeState): NodeState
    requires |s.log| > 0
  {
    s.(commit := CommitScan(s, LastIndex(s.log)))
  }

  /** The reply half of a call; the flag is what the sending goroutine reports. */
  function HandleAppendReply(s: NodeState, p: NodeId, a: AppendArgs, reply: AppendReply): (NodeState, bool)
    requires |s.log| > 0
  {
    if s.role != Leader then (s, false)
    else if reply.term > s.term then (BecomeFollower(s, reply.term), false)
    else if reply.success then
      var m := a.prevIndex + |a.entries|;
      if m > MatchOf(s, p) then
        (UpdateCommit(s.(matchIndex := s.matchIndex[p := m], nextIndex := s.nextIndex[p := m + 1])), true)
      else (s, true)
    else (s.(nextIndex := s.nextIndex[p := BackoffIndex(s.log, reply)]), false)
  }

  function CommandsOf(es: seq<Entry>): seq<Command> {
    if es == [] then []
    else
      var e := es[|es| - 1];
      CommandsOf(es[..|es| - 1])
      + if !ChangesMembership(e.etype) && e.command != Nil then [e.command] else []
  }

  predicate CanTakeBatch(s: NodeState) {
    s.batch.None? && s.lastApplied < s.commit < |s.log|
  }

  function TakeBatch(s: NodeState): NodeState
    requires CanTakeBatch(s)
  {
    s.(batch := Some(Batch(s.lastApplied, s.commit, s.log[s.lastApplied + 1..s.commit + 1], 0)))
  }

  predicate CanApplyOne(s: NodeState) {
    s.batch.Some? && s.batch.value.done < |s.batch.value.entries|
  }

  /** One entry goes to the state machine, without the lock. */
  function ApplyOne(s: NodeState): NodeState
    requires CanApplyOne(s)
  {
    var b := s.batch.value;
    s.(fsm := s.fsm + CommandsOf([b.entries[b.done]]), batch := Some(b.(done := b.done + 1)))
  }

  predicate CanFinishBatch(s: NodeState) {
    s.batch.Some? && s.batch.value.done == |s.batch.value.entries|
  }

  function FinishBatch(s: NodeState): NodeState
    requires CanFinishBatch(s)
  {
    var upTo := s.batch.value.upTo;
    s.(batch := None, lastApplied := if upTo > s.lastApplied then upTo else s.lastApplied)
  }

  // ---- run.go ---------------------------------------------------------------

  /** `live` are the peers whose last acknowledgement is within the liveness window. */
  function StepDown(s: NodeState, live: set<NodeId>): NodeState {
    if s.role == Leader && SelfVote(s) + |(s.voters - {s.id}) * live| < QuorumSize(|s.voters|)
    then BecomeFollower(s, s.term)
    else s
  }
}

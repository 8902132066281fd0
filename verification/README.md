# Raft consensus engine: a verified model

This project models the consensus engine in `raft-consensus/internal/raft` and proves what it is
for: one leader a term, logs that match, committed entries that stay, state machines that agree,
reads that see every committed write, and a configuration that is always the one the log stands for.

The engine follows Raft (Ongaro and Ousterhout, "In Search of an Understandable Consensus
Algorithm", 2014), but not to the letter, and the proofs follow the engine:

- A leader that steps down within its term forgets whom it voted for. Election Safety survives
  because its own no-op entry makes it refuse every candidate of that term
  (`Safety.ExLeaderNeverVotes`, `NodeLimits.SteppedDownVotesAgainIff`).
- A candidate or leader that receives an AppendEntries request of its own term keeps its role. That
  its log is left alone depends on Election Safety (`Safety.LeaderAppendOnly`, `Safety.WinnerKeptItsLog`).
- Every request carries the whole rest of the leader's log, which is why a follower's commit index
  never goes back (`Safety.RequestsCoverTheirCommit`, `NodeLimits.CommitGoesBackIff`).
- The reply handler does not compare the term of the request with its own. A reply that outlives the
  leadership that sent the request is taken for one of a later leadership of the same node.

- A reply to a node that was removed while its call was out leaves indices for it behind. If the node is
  added again, the leader holds it to have what it acknowledged before (`Administration.ComesBackMatched`);
  a node starts afresh as long as no such answer came in (`Administration.AddedStartsAfresh`).

What follows from the term that is not compared is worked out exactly:

- Clusters of up to four nodes need no assumption on timing. The safety properties hold of all their runs,
  whatever late replies come in (`FewNodes`).
- From five nodes on one assumption is needed, `InTime` in `Cluster.Enabled`, which all theorems about runs
  carry: a late acknowledgement that is processed does not reach the entries of the leader's own term.
  Without it one late acknowledgement leaves two nodes with different committed entries at one index in
  every cluster of odd size (`LateSplits.LateAckSplitsCluster`), and two do in every cluster of even size
  (`LateSplits.LateAcksSplitEvenCluster`). And it excludes nothing of value: an acknowledgement it excludes
  is never about what the peer has, unless the peer is in a later term (`LateCalls.ExcludedAckNeverSound`).
- All other late replies may come in. A late acknowledgement then changes nothing that is committed
  (`LateReplies.LateAckCommitsNothing`), but can leave a match index that is not sound, and no test of what
  the leader knows tells those that do from the others (`LateRuns.NoTestTells`). It can also leave a peer
  matched as high as it is probed, in every cluster of five or more (`LateRuns.LateAckBreaksOrder`); in
  smaller ones every probe is above the match index (`MatchOrder.ProbesAboveMatches`).
- A late rejection never harms safety, but in any cluster of three or more it can put the next index past
  the end of the log, where the next send panics (`LateRuns.LateRejectionBreaksSend`). `Safety.SlicesInBounds`
  holds of a peer until the leader is handed such a rejection from it.

To compare the terms, as the handler does not, would be enough in clusters of every size, and so would a
test that lets some late acknowledgements in (`LateReplies.VouchedAckSound`). `RPCTimeout` below
`MinElectionTimeout` is meant to keep late replies out, which the values in `test_cluster.go:263-265` do and
the production defaults in `config.go:28-30` do not.

## How it is laid out

| file | content |
|---|---|
| `Types`, `Maps`, `Quorums`, `Membership` | entries and messages, maps, majorities, the configuration a log stands for |
| `NodeSpec`, `Logs` | one node as a value, and the effect of each lock-held critical section |
| `RaftNode` | the same critical sections in place, with the loops of the implementation, each proved to have that effect |
| `LogHistory` | what a run has done so far; why a set that meets every majority keeps an entry (Leader Completeness) |
| `Cluster`, `ClusterInv`, `HistorySteps`, `ClusterSteps`, `ReplicationSteps`, `CommitSteps` | nodes and network as a transition system, its invariant, and that every step keeps it |
| `Safety`, `Progress`, `Backoff` | theorems over every run: safety, what never goes back, the fast back-off |
| `Founding`, `Hints`, `LeaderContact` | what every log begins with, whom a node takes for the leader, and how it stays with it |
| `Availability`, `Service`, `ReadService` | no reachable state is a dead end: a connected majority can elect, catch up, commit and apply on all its nodes, and read |
| `LateReplies`, `LateCalls` | replies that outlive the leadership that sent their requests: which of them do no harm, and that the excluded ones are never sound |
| `MatchOrder`, `FewNodes` | clusters of up to four nodes: what holds with no assumption on timing |
| `Launch`, `LateRuns`, `LateSplits` | runs from the start of a cluster to late replies that do harm |
| `ReadBarrier`, `ReadRound` | the read index by a quorum round |
| `NodeEvents`, `Configuration`, `Administration` | any sequence of events on one node, reconfiguration included: the cached configuration, one change at a time, what a change comes to |
| `NodeLimits` | exactly when a step, taken alone, keeps what it should |
| `Futures`, `FutureTable` | waiting for an index to be applied |

In the transition system requests and replies may be lost, delayed, reordered and duplicated; each
call processes at most one reply. Timers, elapsed time and which peers answered lately are free
choices of the environment. A run is any sequence of steps from the initial state; there is no bound
on its length, on the number of nodes or on anything else.

## Model

| member | source | states |
|---|---|---|
| `Safety.ElectionSafety` | raft-consensus/internal/raft/state.go:9-71 | in all of a run at most one node leads a term, although stepping down within a term clears the vote |
| `Safety.ExLeaderNeverVotes` | raft-consensus/internal/raft/service.go:141-164 | a node that has led a term grants no vote in it afterwards, whoever asks |
| `Safety.LeaderAppendOnly` | raft-consensus/internal/raft/service.go:30-34 | while a node leads a term its log only grows at the end |
| `Safety.WinnerKeptItsLog` | raft-consensus/internal/raft/election.go:8-36 | a candidate that wins still has exactly the log it advertised, and continues it |
| `Safety.LogMatching` | raft-consensus/internal/raft/service.go:38-89 | any two logs of a run, at any times, that have an entry of one term are identical up to the lower of the two; a term starts at the same index everywhere |
| `Safety.LogMatchesRequest` | raft-consensus/internal/raft/replication.go:29-49 | the same between a log and the entries of any request, even one still under way |
| `Safety.LeadersHaveCommitted` | raft-consensus/internal/raft/replication.go:155-183 | Leader Completeness: what any node has committed is in the log of every leader of a later term |
| `LogHistory.LeaderCompleteness` | raft-consensus/internal/raft/replication.go:161-183 | an entry of the leader's own term stored by a majority is in the log every later leader was elected with |
| `LogHistory.BlockingSetKeeps` | raft-consensus/internal/raft/replication.go:161-183 | so is one stored by any set of nodes that has a member in every majority, committed or not |
| `Safety.StateMachineSafety` | raft-consensus/internal/raft/replication.go:155-237 | two nodes, at any times, have the same entries up to any index both have committed |
| `Safety.AppliedExactly` | raft-consensus/internal/raft/replication.go:190-237 | the state machine has been given the commands at exactly those indices in 1..applied that hold a normal entry with a command, in increasing order and once each, even between two entries of a batch |
| `Safety.AppliedSequencesAgree` | raft-consensus/internal/raft/replication.go:212-229 | of any two state machines one has been given a prefix of what the other has |
| `Safety.MatchIndexSound` | raft-consensus/internal/raft/replication.go:107-118 | a peer in the leader's term has the leader's log up to its match index; in a cluster of five or more, if the leader was handed a late acknowledgement of that peer, only once the match index reaches the leader's own entries |
| `Safety.OnlyLateRepliesAreLate` | raft-consensus/internal/raft/replication.go:89-107 | a leader counts as having been handed a late acknowledgement, or a late rejection that points past its log, only when it processes one, to a request of another term |
| `Safety.SlicesInBounds` | raft-consensus/internal/raft/replication.go:29-49 | in every leader each peer has 1 <= nextIndex and a match index within the log; nextIndex <= last index + 1, so that no slice expression goes out of bounds, unless the leader was handed a late rejection of that peer that points past its log, and matchIndex < nextIndex unless it was handed a late acknowledgement of that peer |
| `Safety.RequestsCoverTheirCommit` | raft-consensus/internal/raft/service.go:91-97 | every request reaches as far as the commit index it announces |
| `Safety.MembershipConstant` | raft-consensus/internal/raft/state.go:39-55 | the founding entries leave every node's configuration the bootstrap cluster |
| `Founding.FoundedInRun` | raft-consensus/internal/raft/state.go:39-55 | in every run every log with an entry, every log ever advertised, led with or offered, begins with the founding entries, ids increasing, of one term |
| `Founding.JoinerLearnsFounders` | raft-consensus/internal/raft/membership.go:14-53 | a node with no bootstrap cluster reads every such log as the founders' cluster |
| `Hints.HintNamesALeader` | raft-consensus/internal/raft/service.go:30-34 | the hint names a node that led a term no later than its owner's; a leader names itself, and a node that took entries over in its term names the leader of the term |
| `Hints.HintIsKept` | raft-consensus/internal/raft/state.go:9-19 | a node that has heard of a leader keeps a hint whatever it becomes |
| `LeaderContact.VoteIff` | raft-consensus/internal/raft/service.go:107-167 | when a vote request is refused without effect, when it is granted, and all of the state it leaves |
| `LeaderContact.ContactKeepsTerm` | raft-consensus/internal/raft/service.go:119-128 | in any state, a request that comes in while another leader is in contact never changes the node's term or role |
| `LeaderContact.HeardLeaderStays` | raft-consensus/internal/raft/service.go:119-128 | as long as followers that meet every majority have heard their leader whenever they are asked for a vote, and neither they nor it time out, they stay with it in its term and nobody is elected in a later one |
| `LeaderContact.RequestEndsOfficeIff` | raft-consensus/internal/raft/service.go:20-34 | an append request of a later term ends whatever the node was, one of its own term leaves its role, an older one leaves everything; the sender becomes the hint |
| `LeaderContact.LeaderLearns` | raft-consensus/internal/raft/replication.go:101-105 | a leader that exchanges a request with a node of a later term is a follower in that term |
| `LeaderContact.CandidateLearns` | raft-consensus/internal/raft/election.go:73-76 | so is a candidate that asks such a node |
| `LeaderContact.ElectionEndsIff` | raft-consensus/internal/raft/election.go:69-86 | a candidate's election ends exactly with a reply of a later term or with the vote that completes the majority |
| `Progress.NodesGoOnward` | raft-consensus/internal/raft/service.go:91-97 | no node's term, commit index, applied index or applied commands ever go back |
| `Progress.CommittedEntriesStay` | raft-consensus/internal/raft/service.go:66-89 | no entry at or below a node's commit index is ever truncated or replaced |
| `Progress.MatchIndicesGrow` | raft-consensus/internal/raft/replication.go:107-114 | match indices never decrease during a leadership |
| `Progress.LeadsThroughout` | raft-consensus/internal/raft/state.go:30-33 | a node that leads a term at two points of a run led it all the time between them |
| `Progress.LoneNodeNeverLeads` | raft-consensus/internal/raft/election.go:81-86 | the only voter of a cluster never becomes leader, because only vote replies are counted |
| `Progress.OneCallAtATime` | raft-consensus/internal/raft/replication.go:24-28 | while a call to a peer is marked as out, no other is made to it |
| `CommitSteps.StepsKeepInv` | raft-consensus/internal/raft/replication.go:8-188 | every step of the cluster keeps the invariant, and what the history records only grows |
| `CommitSteps.InitHasInv` | raft-consensus/internal/raft/raft.go:83-136 | a cluster of new nodes has the invariant |
| `ClusterSteps.UpToDateCarries` | raft-consensus/internal/raft/service.go:147-155 | whoever passes the up-to-date check advertised a log that carries what the voter took over, unless an earlier leader already missed it |
| `ClusterSteps.VoteCounted` | raft-consensus/internal/raft/election.go:69-86 | a counted reply is a vote another voter gave this candidacy and was not counted before, so the count never exceeds the votes given |
| `CommitSteps.CommittableIsChosen` | raft-consensus/internal/raft/replication.go:161-183 | what passes the commit rule is stored by a majority, in the term of the leader |
| `Backoff.BackoffExact` | raft-consensus/internal/raft/replication.go:120-141 | a rejected probe is followed by a strictly lower one, not below the end of the common prefix; if the leader has the conflicting term the next probe is exactly there and is accepted |
| `Backoff.MeetsWhereLogsPart` | raft-consensus/internal/raft/service.go:42-64 | repeated probing ends exactly at the end of the common prefix, unless it began below it |
| `Backoff.ReconciliationBounded` | raft-consensus/internal/raft/replication.go:120-141 | probing is rejected at most 1 + (number of distinct terms in the follower's log) times |
| `Backoff.Reconciles` | raft-consensus/internal/raft/service.go:66-89 | the first accepted probe leaves the leader's log a prefix of the follower's |
| `Backoff.RunLogsCompatible` | raft-consensus/internal/raft/service.go:38-89 | any two logs of a run are logs these results hold of |
| `Backoff.RunBacksOff` | raft-consensus/internal/raft/replication.go:120-141 | every rejection a leader of a run processes in the leadership that sent the request backs off as above, whatever the follower's log has become since |
| `Logs.MergeGivesLonger` | raft-consensus/internal/raft/service.go:66-89 | the truncate-or-append loop leaves the follower's log if it extends the offered one, and exactly the offered one otherwise |
| `ReadBarrier.ReadIndexCoversCommits` | raft-consensus/internal/raft/readindex.go:31-131 | the index a quorum round returns is at least every commit index any node had at the invocation |
| `ReadBarrier.BarrierIsLinearizable` | raft-consensus/internal/raft/readindex.go:149-159 | once it is applied, the reader's state machine has been given everything any node had committed or applied at the invocation |
| `ReadRound.CollectVotes` | raft-consensus/internal/raft/readindex.go:88-130 | the counting loop, which may stop early, comes to the verdict of all the votes: won exactly if they make a majority, given up exactly if a call failed and the others cannot make one, waiting otherwise |
| `ReadRound.VerdictIff` | raft-consensus/internal/raft/readindex.go:88-130 | a round is won exactly if the successes and the own vote make a majority, and given up exactly if a call has failed and no outcome of the rest could make one |
| `ReadRound.VerdictStands` | raft-consensus/internal/raft/readindex.go:103-127 | once there is a verdict nothing that comes in later changes it |
| `ReadBarrier.RoundFollowsLoop` | raft-consensus/internal/raft/readindex.go:72-130 | in every run with a read, it is won, given up or still counting exactly as that loop says on what the goroutines have reported so far |
| `ReadBarrier.ReportsAckIff` | raft-consensus/internal/raft/replication.go:84-117 | a call is reported as acknowledged exactly if the node still leads and the reply is a success of no later term, whether or not it moves the match index |
| `Availability.MajorityCanElect` | raft-consensus/internal/raft/election.go:8-107 | from every reachable state such a majority can elect one of its nodes, and none of the others is in a later term |
| `Availability.SubmitAndCommit` | raft-consensus/internal/raft/replication.go:8-188 | a leader that can reach a majority commits the next command, whatever its match indices and the peers' logs are, if those peers are probed within its log |
| `Availability.CatchUp` | raft-consensus/internal/raft/replication.go:89-144 | rounds with one peer that is probed within the log end with the leader's whole log there, and with its last entry committed if a majority now has it |
| `Availability.ApplyAll` | raft-consensus/internal/raft/replication.go:190-237 | what is committed can be applied, whatever the applier is in the middle of |
| `Service.AnyMajorityCanCommit` | raft-consensus/internal/raft/raft.go:138-171 | after every run of two nodes or more, any majority whose nodes can reach one another can go on, with no late reply being handed to anybody, to elect one of them, and every one of them to commit and apply its log up to any new command, which is the last its state machine was given |
| `Service.FollowsCommit` | raft-consensus/internal/raft/replication.go:42-49 | a peer that has the leader's log, and is sent whatever request is due, ends with the greater of the two commit indices |
| `Service.FollowAll` | raft-consensus/internal/raft/service.go:91-97 | the leader of a committed log can bring any peers it can reach to having and having committed the same |
| `ReadService.ReadsAvailable` | raft-consensus/internal/raft/readindex.go:31-131 | after every run of two nodes or more, a leader that has committed in its term and can reach a majority, which it probes within its log, can win a read round with its commit index at the invocation, and apply what the read waits for |
| `ReadService.AnyMajorityCanRead` | raft-consensus/internal/raft/readindex.go:149-159 | so any majority whose nodes can reach one another can get to a leader on which a read is served |
| `NodeLimits.CommitScanExact` | raft-consensus/internal/raft/replication.go:155-183 | the commit index ends at the greatest later index of the current term held by a majority of voters, learners excluded, and where it was if there is none |
| `NodeLimits.StaysLeaderIff` | raft-consensus/internal/raft/run.go:39-63 | a leader stays in office exactly if a majority of the voters has answered within the window |
| `NodeLimits.SteppedDownVotesAgainIff` | raft-consensus/internal/raft/run.go:59-62 | a leader that stepped down in its term would vote in it again exactly for an up-to-date candidate |
| `NodeLimits.CommitGoesBackIff` | raft-consensus/internal/raft/service.go:91-97 | a follower's commit index goes back exactly if the request announces more than it covers and covers less than is committed |
| `NodeLimits.AckKeepsIndicesIff` | raft-consensus/internal/raft/replication.go:107-118 | an acknowledgement keeps the leader's indices in bounds exactly if it reaches no further than the leader's log or what is matched |
| `NodeLimits.RejectionKeepsIndicesIff` | raft-consensus/internal/raft/replication.go:120-141 | a rejection keeps them in order and in bounds exactly if the last entry of the conflicting term the scan finds is not below what is matched, or, if it finds none, the index the peer points to is above what is matched and not past the log |
| `LateReplies.NothingLeftToCommit` | raft-consensus/internal/raft/replication.go:155-188 | in every state of every run of two nodes or more a leader has committed whatever its match indices allow |
| `LateReplies.LateAckCommitsNothing` | raft-consensus/internal/raft/replication.go:107-118 | an acknowledgement from an earlier leadership that does not reach the leader's own entries changes nothing that is committed |
| `LateReplies.FewNeedNoTiming` | raft-consensus/internal/raft/replication.go:107-118 | in a cluster of up to four nodes every step that the code allows satisfies the assumption on timing |
| `LateReplies.VouchedAckSound` | raft-consensus/internal/raft/replication.go:107-114 | an acknowledgement to a request of the leader's own term, or of an entry it still has if it has entries of every term since, is about the log the peer has now |
| `LateReplies.ZeroHintFindsNothingMatched` | raft-consensus/internal/raft/replication.go:120-141 | a rejection that points to index 0 is taken for one of the leader's term only if it is late, and then nothing is matched for that peer |
| `LateCalls.ExcludedAckNeverSound` | raft-consensus/internal/raft/replication.go:107-114 | an acknowledgement the assumption on timing excludes is never about the log of the peer, if that is in no later term: while a call of an earlier leadership is out, nothing of this one has been sent to the peer |
| `MatchOrder.ProbesAboveMatches` | raft-consensus/internal/raft/replication.go:107-141 | in a cluster of up to four nodes every leader of every run has matchIndex < nextIndex for every peer |
| `FewNodes.AnyRunIsRun` | raft-consensus/internal/raft/replication.go:89-144 | in a cluster of up to four nodes every run, late replies included, is one of those the theorems are about |
| `FewNodes.ElectionSafety` | raft-consensus/internal/raft/state.go:9-71 | Election Safety for them, with no assumption on timing |
| `FewNodes.LogMatching` | raft-consensus/internal/raft/service.go:38-89 | Log Matching likewise |
| `FewNodes.LeadersHaveCommitted` | raft-consensus/internal/raft/replication.go:155-183 | Leader Completeness likewise |
| `FewNodes.StateMachineSafety` | raft-consensus/internal/raft/replication.go:155-237 | State Machine Safety likewise |
| `FewNodes.IndicesSound` | raft-consensus/internal/raft/replication.go:107-141 | likewise every match index is sound for a peer in the leader's term, and every probe above it |
| `LateRuns.NoTestTells` | raft-consensus/internal/raft/replication.go:107-114 | in any cluster of five or more two runs end with the same leader state and the same late acknowledgement to come, after which the match index is sound in the one and not in the other |
| `LateRuns.VouchedMayBeLate` | raft-consensus/internal/raft/replication.go:107-114 | some of what `VouchedAckSound` allows is late, so the test it states is weaker than comparing terms |
| `LateRuns.LateRejectionBreaksSend` | raft-consensus/internal/raft/replication.go:37-49 | a run of any cluster of three or more, from its start, to a state in which a leader may send and the slice begins past the end of its log, after a late rejection |
| `LateRuns.LateAckBreaksOrder` | raft-consensus/internal/raft/replication.go:120-141 | a run of any cluster of five or more, from its start, to a leader that probes a peer no higher than it matches it |
| `LateSplits.LateAckSplitsCluster` | raft-consensus/internal/raft/replication.go:107-118 | a run of any cluster of five, seven or any greater odd number of nodes, from its start, after which one late acknowledgement makes two nodes commit different entries at one index |
| `LateSplits.LateAcksSplitEvenCluster` | raft-consensus/internal/raft/replication.go:107-118 | the same for any even number of nodes from six on and two late acknowledgements |
| `Configuration.Outcome` | raft-consensus/internal/raft/membership.go:14-119 | after any sequence of events, members, voters, addresses, peer roles and clients are the replay of bootstrap and the whole log |
| `Configuration.SkippedRebuild` | raft-consensus/internal/raft/service.go:82-88 | where the append loop skips the rebuild the replay is unchanged |
| `Configuration.RebuildAskedIff` | raft-consensus/internal/raft/service.go:66-89 | the append loop asks for a rebuild exactly when an entry it was given changes the membership or the new log does not continue the old |
| `Configuration.PreambleKeepsReplay` | raft-consensus/internal/raft/state.go:39-68 | the founding block and the no-op of a new leader leave the replay unchanged |
| `Configuration.OneStepReconfiguration` | raft-consensus/internal/raft/membership.go:121-138 | when AddNode, RemoveNode or the promoter appends, the voters of the committed prefix and of the new log differ by at most one, and their majorities meet, if learners were new members when added |
| `Configuration.EventKeepsLearnersFresh` | raft-consensus/internal/raft/raft.go:184-198 | that they were is kept by every event, an append request if it carries the rest of such a log |
| `Configuration.EveryReconfigurationOneStep` | raft-consensus/internal/raft/membership.go:121-138 | so in any sequence of events in which append requests come from such logs, with what the node has committed, every reconfiguration is one step |
| `Administration.VotersByLastWord` | raft-consensus/internal/raft/membership.go:14-70 | after any sequence of events, whether somebody is a voter, a member or a peer goes by the last entry of the log about it, and by the bootstrap cluster if there is none |
| `Administration.AskedIff` | raft-consensus/internal/raft/election.go:23-30 | candidates and reads call exactly the other voters that can be reached |
| `Administration.RemovedIff` | raft-consensus/internal/raft/raft.go:214-226 | a removal is admitted exactly by a leader of a member with no membership change uncommitted, and which error it gives otherwise |
| `Administration.RemovedIsOut` | raft-consensus/internal/raft/raft.go:230-238 | a removed node is no member, voter or peer and has no indices left; every other is as it was, client and indices included |
| `Administration.AddedIff` | raft-consensus/internal/raft/raft.go:179-190 | an addition is admitted exactly by a leader of a node that is no member, with no voter change uncommitted, and which error it gives otherwise |
| `Administration.AddedIsLearner` | raft-consensus/internal/raft/raft.go:192-204 | an added node is a learner at the address given and reached there; the voters and every other node are as they were |
| `Administration.PromotedIff` | raft-consensus/internal/raft/membership.go:162-184 | a learner is promoted exactly when it lags by less than the threshold and no voter change is uncommitted; when the promoter gives up |
| `Administration.PromotedIsVoter` | raft-consensus/internal/raft/membership.go:185-200 | a promoted learner is a voter at its old address with the client and indices it had; every other is as it was |
| `Administration.IndicesStayIff` | raft-consensus/internal/raft/membership.go:101-118 | the indices remain those of the peers in every event but one: an answer of a node that is no peer any more |
| `Administration.AddedStartsAfresh` | raft-consensus/internal/raft/membership.go:109-118 | whatever has happened before, an added node is probed from the end of the log and matched nowhere, if no such answer came in |
| `Administration.ComesBackMatched` | raft-consensus/internal/raft/replication.go:107-114 | a sequence of events in every cluster of two after which a removed node is added again and held to have what it acknowledged before |
| `Membership.JoinerAgreesWithFounder` | raft-consensus/internal/raft/state.go:39-55 | a joiner with empty bootstrap reads every log that begins with the founding block as a founder does |
| `Membership.ReplaySplit` | raft-consensus/internal/raft/membership.go:22-53 | replaying a longer log continues from the configuration of its prefix |
| `Membership.LastWordDecides` | raft-consensus/internal/raft/membership.go:22-53 | who is a member, where and as what, goes by the last entry that adds or removes the node, and by the bootstrap cluster if there is none |
| `Quorums.QuorumsMeet` | raft-consensus/internal/raft/util.go:36-42 | majorities of voter sets at most one node apart share a node |
| `Futures.NobodyStranded` | raft-consensus/internal/raft/futures.go:12-60 | in every interleaving: waiters' futures stay in the table, a future is signalled exactly when its index is applied and once, and none is left that nobody waits on |
| `Futures.WaiterSignalled` | raft-consensus/internal/raft/futures.go:22-33 | finishing a batch signals every waiter up to its end |
| `Futures.ErrorForgottenIff` | raft-consensus/internal/raft/futures.go:45-52 | a recorded apply error is forgotten exactly when its last waiter leaves or the batch ends with nobody waiting |
| `Futures.ErrorStays` | raft-consensus/internal/raft/replication.go:222-226 | as long as somebody waits for the index, the error stays to be found |
| `Futures.ErrorLost` | raft-consensus/internal/raft/futures.go:35-60 | a run of the waiting machine, possible step by step, in which a waiter that comes after the others gave up is told of success although the command failed |
| `FutureTable.WaiterTable.GetFuture` | raft-consensus/internal/raft/futures.go:12-20 | finds or adds the future of an index, and leaves the others where they are |
| `FutureTable.WaiterTable.ResolveFutures` | raft-consensus/internal/raft/futures.go:22-33 | the loop closes each due channel, closes none twice, and deletes those nobody waits on |
| `FutureTable.WaiterTable.RegisterWaiter` | raft-consensus/internal/raft/futures.go:35-43 | a waiter joins the future of its index unless the index is applied |
| `FutureTable.WaiterTable.UnregisterWaiter` | raft-consensus/internal/raft/futures.go:45-52 | what a goroutine gives back is the future it was given when it registered, which is still the table's for its index whatever happened since, and the last to do so deletes it |
| `FutureTable.WaiterTable.RecordApplyError` | raft-consensus/internal/raft/replication.go:222-226 | the applier leaves an error in the future of the index |
| `FutureTable.WaiterTable.FinishBatch` | raft-consensus/internal/raft/replication.go:231-235 | the applied index advances and the futures up to it are resolved |
| `RaftNode.Raft.constructor` | raft-consensus/internal/raft/raft.go:83-136 | a new node: follower of term 0, sentinel log, configuration rebuilt from bootstrap |
| `RaftNode.Raft.BecomeFollower` | raft-consensus/internal/raft/state.go:9-19 | role, term and vote, and nothing else |
| `RaftNode.Raft.BecomeCandidate` | raft-consensus/internal/raft/state.go:21-28 | next term, vote for itself |
| `RaftNode.Raft.BecomeLeader` | raft-consensus/internal/raft/state.go:30-71 | founding block on a fresh log, indices reset, no-op appended |
| `RaftNode.SortedBootstrapIds` | raft-consensus/internal/raft/state.go:73-80 | the keys of the bootstrap cluster in increasing order |
| `RaftNode.Raft.ElectionTick` | raft-consensus/internal/raft/run.go:20-27 | one tick: a leader looks for its quorum; the term goes up exactly if the node, a voter that is not leader and whose timer has run out, stands for election, and then it asks every voter it can reach |
| `RaftNode.Raft.StartElection` | raft-consensus/internal/raft/election.go:8-36 | candidacy, votes needed, whom to ask and with which last entry |
| `RaftNode.Raft.OnVoteReply` | raft-consensus/internal/raft/election.go:69-86 | counting a vote, winning on the exact majority, stepping down on a later term |
| `RaftNode.Raft.RequestVote` | raft-consensus/internal/raft/service.go:107-167 | all branches of the vote handler, state and reply |
| `RaftNode.Raft.AppendEntries` | raft-consensus/internal/raft/service.go:17-105 | all branches of the append handler, state and reply |
| `RaftNode.Raft.ConflictIndex` | raft-consensus/internal/raft/service.go:55-59 | the loop finds the first index of the conflicting term's run, not below 1 |
| `RaftNode.Raft.AppendNewEntries` | raft-consensus/internal/raft/service.go:66-89 | the loop cuts at the first disagreement only, and asks for a rebuild exactly when the log was cut or a configuration entry came |
| `RaftNode.Raft.RebuildVolatilePeers` | raft-consensus/internal/raft/membership.go:14-119 | replay, caches, peers and indices |
| `RaftNode.Raft.ReplayMembers` | raft-consensus/internal/raft/membership.go:15-53 | the replay loop computes the configuration of the log |
| `RaftNode.Raft.NewPeers` | raft-consensus/internal/raft/membership.go:72-97 | which peers keep their client and which get a new one |
| `RaftNode.Raft.UpdateIndices` | raft-consensus/internal/raft/membership.go:101-118 | indices of nodes that left are dropped, new members start at the end of the log |
| `RaftNode.Raft.HasPendingAddVoterOrRemove` | raft-consensus/internal/raft/membership.go:121-129 | true exactly if an uncommitted entry adds a voter or removes a node |
| `RaftNode.Raft.HasPendingMembershipCommit` | raft-consensus/internal/raft/membership.go:131-138 | true exactly if an uncommitted entry changes the membership |
| `RaftNode.Raft.PromoterTick` | raft-consensus/internal/raft/membership.go:162-202 | one tick of the catch-up promoter, all branches |
| `RaftNode.Raft.Submit` | raft-consensus/internal/raft/raft.go:138-160 | a leader appends the command and reports where; others refuse |
| `RaftNode.Raft.AddNode` | raft-consensus/internal/raft/raft.go:173-206 | guards in order, then a learner entry |
| `RaftNode.Raft.RemoveMember` | raft-consensus/internal/raft/raft.go:208-240 | guards in order, then a removal entry |
| `RaftNode.Raft.BeginAppend` | raft-consensus/internal/raft/replication.go:8-51 | at most one call a peer; the request is the whole rest of the log after the probe |
| `RaftNode.Raft.EndAppend` | raft-consensus/internal/raft/replication.go:52-56 | the end of a call, by a deferred section of its own, frees the peer for the next one, and nothing else |
| `RaftNode.Raft.OnAppendReply` | raft-consensus/internal/raft/replication.go:89-144 | match, commit, back-off or step down, and what is reported |
| `RaftNode.Raft.BackOff` | raft-consensus/internal/raft/replication.go:120-141 | the downward scan finds the last entry of the conflicting term or gives up at a smaller one |
| `RaftNode.Raft.UpdateCommitIndex` | raft-consensus/internal/raft/replication.go:155-188 | the ascending loop ends at the greatest committable index |
| `RaftNode.Raft.CountMatches` | raft-consensus/internal/raft/replication.go:166-177 | the loop counts each voter that has the entry once |
| `RaftNode.Raft.TakeBatch` | raft-consensus/internal/raft/replication.go:204-210 | the snapshot of committed entries not yet applied |
| `RaftNode.Raft.ApplyBatch` | raft-consensus/internal/raft/replication.go:212-229 | the loop hands over the commands of the batch in order |
| `RaftNode.Raft.FinishBatch` | raft-consensus/internal/raft/replication.go:231-235 | the applied index never goes back |
| `RaftNode.Raft.MaybeStepDownLeader` | raft-consensus/internal/raft/run.go:39-63 | the live count and the step down within the term |

## Left out

- The lease fast path of ReadIndex and its freshness test (`readindex.go:12-22`, `133-147`): it compares wall-clock stamps of different nodes.
- Membership changes in the transition system: the theorems about runs have constant voters. The engine does not require a leader to have committed an entry of its own term before a change, so they do not extend to changes as they stand; the configuration results hold of single nodes with any sequence of changes.
- The step down of a removed leader (`raft.go:246-249`) in the transition system; it is an event of `NodeEvents`.
- Late acknowledgements that `InTime` excludes do not come in in runs of five nodes or more; see above. What follows once one has come in is shown for the runs of `LateSplits` only.
- The crash of a node that panics: a send whose slice would be out of bounds (`LateRuns.LateRejectionBreaksSend`) does not happen in runs.
- What a nil error of SubmitAndWait means for the submitted command: it waits for the index and does not compare the term (`raft.go:162-171`).
- Restart: term, vote and log are never stored, so a stopped node does not come back. Snapshots and client sessions are not implemented.
- Liveness: timers and randomised timeouts are free choices here. `Service` and `ReadService` show that a majority can always go on, not that it will.
- Sharing of memory between a log and requests under way (`replication.go:34`, `service.go:75`): messages are values here.
- The JSON form of configuration payloads: encoding never fails here, a payload decodes to what was encoded, a removal read as an addition has an empty address, and other bytes do not decode.
- Widths of machine integers: indices and terms are unbounded here.
- A peer factory that returns no client, and a node without a state machine.
- ReadIndex: its waits are steps of a machine (`ReadBarrier.ReadOp`) and the counting loop a method over the sequence of outcomes; the goroutines between them are not objects.
- The in-flight flag is cleared by a step of its own after the reply is processed (`replication.go:52-56`), as it is under a lock of its own.
- ApplyBatch: states the loop without interference; that other sections run between two entries is covered by `ApplyNext` and the steps of the transition system.
- Logging, configuration defaults, the leader hint query, Stop, and the packages `internal/network`, `internal/kv`, `internal/storage`, `cmd`.

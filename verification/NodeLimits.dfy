/** What single steps of a node do and do not guarantee on their own, exactly. */
module NodeLimits {
  import opened RaftTypes
  import opened Quorums
  import opened NodeSpec

  // ---- Counting -------------------------------------------------------------

  /** A majority of the voters, the leader included if it is one, have entry `n` by its indices. */
  ghost predicate HeldByMajority(s: NodeState, n: LogIndex) {
    IsQuorum(s.voters, set p | p in s.voters && (p == s.id || MatchOf(s, p) >= n))
  }

  lemma CountIsMajority(s: NodeState, n: LogIndex)
    ensures SelfVote(s) + |AckedBy(s, n)| >= QuorumSize(|s.voters|) <==> HeldByMajority(s, n)
  {
    var held := set p | p in s.voters && (p == s.id || MatchOf(s, p) >= n);
    if s.id in s.voters {
      assert held == AckedBy(s, n) + {s.id};
    } else {
      assert held == AckedBy(s, n);
    }
  }

  /** Commit scan exactness: the commit index ends at the greatest later index whose entry is of the
      current term and held by a majority of voters, and where it was if there is none. */
  lemma CommitScanExact(s: NodeState)
    requires |s.log| > 0
    ensures var c := UpdateCommit(s).commit;
            && s.commit <= c
            && (s.commit < c ==> c < |s.log| && s.log[c].term == s.term && HeldByMajority(s, c))
            && forall n | c < n < |s.log| && s.log[n].term == s.term :: !HeldByMajority(s, n)
  {
    forall n | 0 <= n < |s.log| ensures Committable(s, n) <==> s.log[n].term == s.term && HeldByMajority(s, n) {
      CountIsMajority(s, n);
    }
  }

  /** A leader stays in office exactly if a majority of the voters, itself included if it is one,
      has answered within the window. */
  lemma StaysLeaderIff(s: NodeState, live: set<NodeId>)
    requires s.role == Leader
    ensures StepDown(s, live).role == Leader <==> IsQuorum(s.voters, s.voters * (live + {s.id}))
  {
    var q := s.voters * (live + {s.id});
    var others := (s.voters - {s.id}) * live;
    if s.id in s.voters {
      assert q == others + {s.id};
    } else {
      assert q == others;
    }
  }

  // ---- One vote a term is not a local property ------------------------------

  /** A leader that stepped down within its term would vote again in it, for any candidate whose log
      is up to date: what keeps elections safe is that its own no-op makes no candidate's log so. */
  lemma SteppedDownVotesAgainIff(s: NodeState, live: set<NodeId>, a: VoteArgs, inContact: bool)
    requires |s.log| > 0 && s.role == Leader && StepDown(s, live).role == Follower && a.term == s.term
    ensures HandleVote(StepDown(s, live), a, inContact).1.granted
            <==> s.id in s.voters && UpToDate(a.lastIndex, a.lastTerm, s.log)
  {
  }

  // ---- Following the commit index -------------------------------------------

  /** A follower's commit index goes back exactly when the request announces a greater one than the
      follower's but reaches less far than the follower has committed. */
  lemma CommitGoesBackIff(s: NodeState, a: AppendArgs)
    requires a.prevIndex < |s.log|
    ensures AcceptEntries(s, a).commit < s.commit <==> a.prevIndex + |a.entries| < s.commit < a.leaderCommit
    ensures a.leaderCommit <= a.prevIndex + |a.entries| ==>
              AcceptEntries(s, a).commit == if s.commit < a.leaderCommit then a.leaderCommit else s.commit
  {
    MergeKeepsStanding(s, a);
  }

  // ---- Replies that outlive their leadership --------------------------------

  /** Every peer's indices are in order and in bounds. */
  ghost predicate IndicesOk(s: NodeState) {
    forall q | q in s.peers :: InBounds(s, q) && MatchOf(s, q) < s.nextIndex[q]
  }

  lemma OthersKeepIndices(s: NodeState, s': NodeState, p: NodeId)
    requires IndicesOk(s) && p in s.peers && s'.log == s.log && s'.peers == s.peers && p in s'.nextIndex
    requires s'.nextIndex == s.nextIndex[p := s'.nextIndex[p]] && forall q | q != p :: MatchOf(s', q) == MatchOf(s, q)
    ensures IndicesOk(s') <==> InBounds(s', p) && MatchOf(s', p) < s'.nextIndex[p]
  {
    forall q | q in s.peers && q != p ensures InBounds(s', q) && MatchOf(s', q) < s'.nextIndex[q] {
      assert InBounds(s, q);
    }
  }

  /** An acknowledgement keeps a leader's indices in bounds exactly if it reaches no further than
      what is matched or than the leader's log. The reply handler does not check this, nor the term
      of the request, so only replies to requests of the same leadership are sure to. */
  lemma AckKeepsIndicesIff(s: NodeState, p: NodeId, a: AppendArgs, reply: AppendReply)
    requires |s.log| > 0 && s.role == Leader && IndicesOk(s) && p in s.peers
    requires reply.success && reply.term <= s.term
    ensures IndicesOk(HandleAppendReply(s, p, a, reply).0)
            <==> a.prevIndex + |a.entries| <= MatchOf(s, p) || a.prevIndex + |a.entries| < |s.log|
  {
    var s' := HandleAppendReply(s, p, a, reply).0;
    if a.prevIndex + |a.entries| > MatchOf(s, p) { OthersKeepIndices(s, s', p); }
  }

  /** The last entry of a term in a log, among those the back-off looks for. */
  predicate LastOfTerm(log: Log, term: Term, i: LogIndex) {
    1 <= i < |log| && log[i].term == term && forall j | i < j < |log| :: log[j].term > term
  }

  lemma {:induction false} FindsLastOfTerm(log: Log, term: Term, n: LogIndex)
    requires n < |log| && forall j | n < j < |log| :: log[j].term > term
    ensures FindLast(log, term, n).Some? ==> LastOfTerm(log, term, FindLast(log, term, n).value)
    ensures forall i: LogIndex | LastOfTerm(log, term, i) :: FindLast(log, term, n) == Some(i)
  {
    if n >= 1 && log[n].term > term { FindsLastOfTerm(log, term, n - 1); }
  }

  /** A rejection keeps them in order and in bounds exactly if it makes the leader probe above what is
      matched and not past its log: if the scan finds the conflicting term, its last entry must not be
      matched already; if not, the index the peer points to must be neither matched nor past the end.
      Nothing checks this either: a rejection that the peer sent before the leader's log was cut can break
      the bound (`LateRuns.LateRejectionBreaksSend`). One that points to 0 would break the order, but finds
      nothing matched in any run (`LateReplies.ZeroHintFindsNothingMatched`). */
  lemma RejectionKeepsIndicesIff(s: NodeState, p: NodeId, a: AppendArgs, reply: AppendReply)
    requires |s.log| > 0 && s.role == Leader && IndicesOk(s) && p in s.peers
    requires !reply.success && reply.term <= s.term
    ensures (forall i: LogIndex :: !LastOfTerm(s.log, reply.conflictTerm, i)) || reply.conflictTerm == 0 ==>
              (IndicesOk(HandleAppendReply(s, p, a, reply).0) <==>
                 if reply.conflictIndex == 0 then MatchOf(s, p) == 0 else MatchOf(s, p) < reply.conflictIndex <= |s.log|)
    ensures forall i: LogIndex | LastOfTerm(s.log, reply.conflictTerm, i) && reply.conflictTerm > 0 ::
              (IndicesOk(HandleAppendReply(s, p, a, reply).0) <==> MatchOf(s, p) <= i)
  {
    var s' := HandleAppendReply(s, p, a, reply).0;
    FindsLastOfTerm(s.log, reply.conflictTerm, LastIndex(s.log));
    OthersKeepIndices(s, s', p);
  }
}

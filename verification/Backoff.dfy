/** The fast back-off: how a leader finds the point where a follower's log agrees with its own
    (the conflict hint of service.go and the index update of replication.go). */
module Backoff {
  import opened RaftTypes
  import opened Quorums
  import opened Membership
  import opened NodeSpec
  import opened Logs
  import opened LogHistory
  import opened Cluster
  import opened ClusterInv
  import opened CommitSteps
  import opened Safety

  // ---- Logs that can occur together -----------------------------------------

  ghost predicate Ascending(a: Log) {
    forall i, j | 0 <= i <= j < |a| :: a[i].term <= a[j].term
  }

  /** Where `b` has a term that `a` has at `i`, at `i` or later, the two agree up to `i`. */
  ghost predicate MatchesUpTo(a: Log, b: Log) {
    forall i, j | 0 <= i <= j && i < |a| && j < |b| && a[i].term == b[j].term ::
      i < |b| && a[..i + 1] == b[..i + 1]
  }

  ghost predicate Compatible(a: Log, b: Log) {
    && |a| > 0 && |b| > 0 && a[0] == b[0] == SENTINEL
    && Ascending(a) && Ascending(b) && MatchesUpTo(a, b) && MatchesUpTo(b, a)
    && (forall i | 0 < i < |b| :: b[i].term > 0)
  }

  /** The number of entries, the sentinel included, that the logs share. */
  function CommonPrefix(a: Log, b: Log): (k: nat)
    ensures k <= |a| && k <= |b|
    ensures a[..k] == b[..k]
    ensures k < |a| && k < |b| ==> a[k] != b[k]
  {
    if a == [] || b == [] || a[0] != b[0] then 0
    else
      var k := CommonPrefix(a[1..], b[1..]);
      assert a[..k + 1] == [a[0]] + a[1..][..k];
      assert b[..k + 1] == [b[0]] + b[1..][..k];
      k + 1
  }

  lemma Pointwise(a: Log, b: Log, k: nat)
    requires k <= |a| && k <= |b| && a[..k] == b[..k]
    ensures forall i | 0 <= i < k :: a[i] == b[i]
  {
    forall i | 0 <= i < k ensures a[i] == b[i] {
      assert a[i] == a[..k][i] == b[..k][i];
    }
  }

  lemma PrefixIsCommon(a: Log, b: Log, k: nat)
    requires k <= |a| && k <= |b| && a[..k] == b[..k]
    ensures CommonPrefix(a, b) >= k
  {
    Pointwise(a, b, k);
  }

  lemma SameTermSameEntry(a: Log, b: Log)
    requires MatchesUpTo(a, b)
    ensures forall i, j | 0 <= i <= j && i < |a| && j < |b| && a[i].term == b[j].term :: i < |b| && a[i] == b[i]
  {
    forall i, j | 0 <= i <= j && i < |a| && j < |b| && a[i].term == b[j].term
      ensures i < |b| && a[i] == b[i]
    {
      Pointwise(a, b, i + 1);
    }
  }

  // ---- One rejected probe ---------------------------------------------------

  /** The leader's next index after the follower `f` rejected the probe before `next`. */
  function AfterRejection(leader: Log, f: Log, next: LogIndex): LogIndex
    requires 1 <= next <= |leader| && |f| > 0
  {
    BackoffIndex(leader, ConflictReply(f, 0, next - 1))
  }

  predicate ProbeAccepted(leader: Log, f: Log, next: LogIndex)
    requires 1 <= next <= |leader|
  {
    Accepts(f, next - 1, leader[next - 1].term)
  }

  /** The term of the follower's entry at the probe occurs in the leader's log. */
  ghost predicate ConflictTermKnown(leader: Log, f: Log, next: LogIndex)
    requires 1 <= next
  {
    next - 1 < |f| && exists i :: 0 < i < |leader| && leader[i].term == f[next - 1].term
  }

  lemma {:induction false} FindLastFinds(log: Log, term: Term, i: LogIndex, k: LogIndex)
    requires Ascending(log) && 1 <= k <= i < |log| && log[k].term == term
    ensures FindLast(log, term, i).Some? && FindLast(log, term, i).value >= k
    decreases i
  {
    if log[i].term != term {
      FindLastFinds(log, term, i - 1, k);
    }
  }

  /** The leader's last entry of the conflicting term lies before the probe and is in the
      follower's log, where it is the last one they share. */
  lemma KnownTermIndex(leader: Log, f: Log, next: LogIndex) returns (i: LogIndex)
    requires Compatible(leader, f) && 1 <= next <= |leader| && !ProbeAccepted(leader, f, next)
    requires ConflictTermKnown(leader, f, next)
    ensures FindLast(leader, f[next - 1].term, LastIndex(leader)) == Some(i)
    ensures 1 <= i < next - 1 && leader[i].term == f[next - 1].term
    ensures leader[..i + 1] == f[..i + 1]
  {
    var ct := f[next - 1].term;
    var k :| 0 < k < |leader| && leader[k].term == ct;
    FindLastFinds(leader, ct, LastIndex(leader), k);
    i := FindLast(leader, ct, LastIndex(leader)).value;
    SameTermSameEntry(f, leader);
    assert leader[i].term == f[next - 1].term;
  }

  /** If the leader knows the conflicting term, its next probe is at the end of the common prefix. */
  lemma KnownTermMeets(leader: Log, f: Log, next: LogIndex)
    requires Compatible(leader, f) && 1 <= next <= |leader| && !ProbeAccepted(leader, f, next)
    requires ConflictTermKnown(leader, f, next)
    ensures AfterRejection(leader, f, next) == CommonPrefix(leader, f) < next
    ensures ProbeAccepted(leader, f, AfterRejection(leader, f, next))
  {
    var i := KnownTermIndex(leader, f, next);
    var n := CommonPrefix(leader, f);
    PrefixIsCommon(leader, f, i + 1);
    Pointwise(leader, f, n);
    assert f[i].term <= f[i + 1].term <= f[next - 1].term;
    assert f[i + 1].term == f[next - 1].term;
  }

  /** Otherwise the leader skips the follower's whole run of that term, which it cannot share. */
  lemma UnknownTermSkipped(leader: Log, f: Log, next: LogIndex)
    requires Compatible(leader, f) && 1 <= next <= |leader| && next - 1 < |f| && !ProbeAccepted(leader, f, next)
    requires !ConflictTermKnown(leader, f, next)
    ensures AfterRejection(leader, f, next) == ConflictStart(f, next - 1)
    ensures CommonPrefix(leader, f) <= AfterRejection(leader, f, next) < next
  {
    var prev := next - 1;
    var c := ConflictStart(f, prev);
    var n := CommonPrefix(leader, f);
    assert FindLast(leader, f[prev].term, LastIndex(leader)).None?;
    Pointwise(leader, f, n);
    assert f[c].term == f[prev].term;
    assert forall i | 0 < i < n :: f[i] == leader[i] && f[i].term != f[prev].term;
  }

  /** The back-off is exact: a rejected probe is followed by a strictly lower one that does not go
      below the end of the common prefix; and if the leader has the conflicting term at all, the
      next probe is at the end of the common prefix and is accepted. */
  lemma BackoffExact(leader: Log, f: Log, next: LogIndex)
    requires Compatible(leader, f) && 1 <= next <= |leader| && !ProbeAccepted(leader, f, next)
    ensures var n := AfterRejection(leader, f, next);
            && 1 <= n < next && CommonPrefix(leader, f) <= n
            && (ConflictTermKnown(leader, f, next) ==> n == CommonPrefix(leader, f) && ProbeAccepted(leader, f, n))
  {
    if next - 1 < |f| {
      if ConflictTermKnown(leader, f, next) {
        KnownTermMeets(leader, f, next);
      } else {
        UnknownTermSkipped(leader, f, next);
      }
    }
  }

  // ---- Repeated probing -----------------------------------------------------

  /** How many probes from `next` on are rejected. */
  ghost function Rejections(leader: Log, f: Log, next: LogIndex): nat
    requires Compatible(leader, f) && 1 <= next <= |leader|
    decreases next
  {
    if ProbeAccepted(leader, f, next) then 0
    else
      BackoffExact(leader, f, next);
      1 + Rejections(leader, f, AfterRejection(leader, f, next))
  }

  /** The next index of the first accepted probe. */
  ghost function MeetingPoint(leader: Log, f: Log, next: LogIndex): (n: LogIndex)
    requires Compatible(leader, f) && 1 <= next <= |leader|
    ensures 1 <= n <= next && ProbeAccepted(leader, f, n)
    decreases next
  {
    if ProbeAccepted(leader, f, next) then next
    else
      BackoffExact(leader, f, next);
      MeetingPoint(leader, f, AfterRejection(leader, f, next))
  }

  /** Probing ends exactly where the logs part, unless it began below that point. */
  lemma {:induction false} MeetsWhereLogsPart(leader: Log, f: Log, next: LogIndex)
    requires Compatible(leader, f) && 1 <= next <= |leader|
    ensures MeetingPoint(leader, f, next) == if next <= CommonPrefix(leader, f) then next else CommonPrefix(leader, f)
    decreases next
  {
    if ProbeAccepted(leader, f, next) {
      assert leader[..next] == f[..next];
      PrefixIsCommon(leader, f, next);
    } else {
      BackoffExact(leader, f, next);
      AcceptedIfCommon(leader, f, next);
      MeetsWhereLogsPart(leader, f, AfterRejection(leader, f, next));
    }
  }

  lemma AcceptedIfCommon(leader: Log, f: Log, next: LogIndex)
    requires Compatible(leader, f) && 1 <= next <= |leader|
    ensures next <= CommonPrefix(leader, f) ==> ProbeAccepted(leader, f, next)
  {
    Pointwise(leader, f, CommonPrefix(leader, f));
  }

  /** The terms of the entries below `n`. */
  function TermsIn(f: Log, n: nat): set<Term>
    requires n <= |f|
  {
    set i | 0 < i < n :: f[i].term
  }

  lemma TermsInGrow(f: Log, n: nat, m: nat)
    requires n <= m <= |f|
    ensures |TermsIn(f, n)| <= |TermsIn(f, m)|
  {
    SubsetSize(TermsIn(f, n), TermsIn(f, m));
  }

  /** Below the run of a term there is one term fewer. */
  lemma OneTermFewer(f: Log, prev: LogIndex)
    requires Ascending(f) && 1 <= prev < |f|
    ensures |TermsIn(f, ConflictStart(f, prev))| < |TermsIn(f, prev + 1)|
  {
    var c, ct := ConflictStart(f, prev), f[prev].term;
    var below, all := TermsIn(f, c), TermsIn(f, prev + 1);
    assert ct in all;
    forall t | t in below ensures t in all - {ct} {
      var i :| 0 < i < c && f[i].term == t;
      assert f[i].term <= f[c - 1].term <= f[c].term == ct;
    }
    SubsetSize(below, all - {ct});
  }

  lemma {:induction false} RejectionsBounded(leader: Log, f: Log, next: LogIndex)
    requires Compatible(leader, f) && 1 <= next <= |leader| && next <= |f|
    ensures Rejections(leader, f, next) <= |TermsIn(f, next)|
    decreases next
  {
    if !ProbeAccepted(leader, f, next) {
      OneTermFewer(f, next - 1);
      BackoffExact(leader, f, next);
      if !ConflictTermKnown(leader, f, next) {
        UnknownTermSkipped(leader, f, next);
        RejectionsBounded(leader, f, AfterRejection(leader, f, next));
      }
    }
  }

  /** Bounded reconciliation: probing a follower is rejected at most once for the length of its
      log and once for each distinct term in it. */
  lemma ReconciliationBounded(leader: Log, f: Log, next: LogIndex)
    requires Compatible(leader, f) && 1 <= next <= |leader|
    ensures Rejections(leader, f, next) <= 1 + |TermsIn(f, |f|)|
  {
    if next <= |f| {
      RejectionsBounded(leader, f, next);
      TermsInGrow(f, next, |f|);
    } else {
      BackoffExact(leader, f, next);
      assert AfterRejection(leader, f, next) == |f|;
      RejectionsBounded(leader, f, |f|);
    }
  }

  /** The follower's log once it has taken what a probe from `n` carries. */
  function AfterAccepted(leader: Log, f: Log, n: LogIndex): Log
    requires 1 <= n <= |leader| && n <= |f|
  {
    MergeEntries(f, n - 1, leader[n..])
  }

  lemma MergeExtends(leader: Log, f: Log, n: LogIndex)
    requires Compatible(leader, f) && 1 <= n <= |leader| && ProbeAccepted(leader, f, n)
    ensures leader <= AfterAccepted(leader, f, n)
  {
    assert Matching(f, leader);
    MergeGivesLonger(f, leader, n - 1);
  }

  /** The first accepted probe leaves the leader's log as a prefix of the follower's. */
  lemma Reconciles(leader: Log, f: Log, next: LogIndex)
    requires Compatible(leader, f) && 1 <= next <= |leader|
    ensures leader <= AfterAccepted(leader, f, MeetingPoint(leader, f, next))
  {
    MergeExtends(leader, f, MeetingPoint(leader, f, next));
  }

  // ---- In a run -------------------------------------------------------------

  lemma OkLogsCompatible(g: Hist, voters: set<NodeId>, a: Log, b: Log)
    requires HistInv(g, voters) && LogOk(g, a) && LogOk(g, b)
    ensures Compatible(a, b)
  {
    forall i, j | 0 <= i <= j < |a| ensures a[i].term <= a[j].term { TermsAscend(g, voters, a, i, j); }
    forall i, j | 0 <= i <= j < |b| ensures b[i].term <= b[j].term { TermsAscend(g, voters, b, i, j); }
    OkLogsMatch(g, a, b);
    OkLogsMatch(g, b, a);
    forall i | 0 < i < |b| ensures b[i].term > 0 {
      assert EntryOk(g, b, i) && LeaderOk(g, voters, b[i].term);
    }
  }

  lemma OkLogsMatch(g: Hist, a: Log, b: Log)
    requires LogOk(g, a) && LogOk(g, b)
    ensures MatchesUpTo(a, b)
  {
    forall i, j | 0 <= i <= j && i < |a| && j < |b| && a[i].term == b[j].term
      ensures i < |b| && a[..i + 1] == b[..i + 1]
    {
      LogsMatch(g, a, b, i, j);
    }
  }

  /** Any two logs of a run, at whatever times, are logs the back-off is exact for. */
  lemma RunLogsCompatible(r: seq<ClusterState>, boot: Bootstrap, i: nat, a: NodeId, j: nat, b: NodeId)
    requires Run(r, boot) && i < |r| && j < |r| && a in r[i].nodes && b in r[j].nodes
    ensures Compatible(r[i].nodes[a].log, r[j].nodes[b].log)
  {
    var g := r[|r| - 1].hist;
    LogInRun(r, boot, i, a, g);
    LogInRun(r, boot, j, b, g);
    OkLogsCompatible(g, boot.Keys, r[i].nodes[a].log, r[j].nodes[b].log);
  }

  /** While a call is pending, its sender's next index for the peer is the one it was sent with. */
  lemma PendingProbe(c: ClusterState, boot: Bootstrap, m: AppendCall)
    requires Inv(c, boot) && m.src in c.nodes && c.nodes[m.src].role == Leader
    requires (m.src, m.dst) in c.pending && c.pending[(m.src, m.dst)] == m
    requires c.nodes[m.src].term == m.args.term
    ensures var s := c.nodes[m.src];
            && m.dst in s.nextIndex && s.nextIndex[m.dst] == m.args.prevIndex + 1 <= |s.log|
            && s.log[m.args.prevIndex].term == m.args.prevTerm
  {
    assert PendingOk(c.nodes, c.calls, (m.src, m.dst), m);
    assert AppendCallOk(c.hist, boot, m);
    AloneInCluster(c, boot, m.src);
  }

  /** What a leader's index for a peer goes back to when the peer with log `f` rejected it. */
  ghost predicate BacksOff(s: NodeState, s': NodeState, q: NodeId, f: Log)
    requires InBounds(s, q) && |f| > 0
  {
    var (next, common) := (s.nextIndex[q], CommonPrefix(s.log, f));
    && q in s'.nextIndex && s'.log == s.log
    && 1 <= s'.nextIndex[q] < next && common <= s'.nextIndex[q]
    && (ConflictTermKnown(s.log, f, next) ==> s'.nextIndex[q] == common)
  }

  lemma RejectionBacksOff(s: NodeState, q: NodeId, a: AppendArgs, f: Log)
    requires InBounds(s, q) && s.role == Leader && s.term == a.term && Compatible(s.log, f)
    requires s.nextIndex[q] == a.prevIndex + 1 && s.log[a.prevIndex].term == a.prevTerm
    requires !Accepts(f, a.prevIndex, a.prevTerm)
    ensures BacksOff(s, HandleAppendReply(s, q, a, ConflictReply(f, a.term, a.prevIndex)).0, q, f)
  {
    BackoffExact(s.log, f, s.nextIndex[q]);
    RejectedIndex(s, q, a, f);
  }

  lemma RejectedIndex(s: NodeState, q: NodeId, a: AppendArgs, f: Log)
    requires |s.log| > 0 && |f| > 0 && s.role == Leader && s.term == a.term
    ensures HandleAppendReply(s, q, a, ConflictReply(f, a.term, a.prevIndex)).0
            == s.(nextIndex := s.nextIndex[q := BackoffIndex(s.log, ConflictReply(f, a.term, a.prevIndex))])
  {
  }

  /** Every rejection a leader processes in the leadership that sent the request makes its next probe
      strictly lower, but not lower than the common prefix of its log and the log that was probed. */
  lemma RunBacksOff(r: seq<ClusterState>, boot: Bootstrap, i: nat, j: nat, m: AppendCall, reply: AppendReply)
    requires Run(r, boot) && i < |r| && j < |r| && m.dst in r[i].nodes && m.src in r[j].nodes
    requires |r[i].nodes[m.dst].log| > 0 && reply == HandleAppend(r[i].nodes[m.dst], m.args).1
    requires !reply.success && reply.term == m.args.term
    requires Enabled(r[j], AppendReplyArrives(AppendAnswer(m, reply))) && r[j].nodes[m.src].role == Leader
    requires r[j].nodes[m.src].term == m.args.term
    ensures var s := r[j].nodes[m.src];
            InBounds(s, m.dst)
            && BacksOff(s, HandleAppendReply(s, m.dst, m.args, reply).0, m.dst, r[i].nodes[m.dst].log)
  {
    RunHasInv(r, boot, j);
    PendingProbe(r[j], boot, m);
    RunLogsCompatible(r, boot, j, m.src, i, m.dst);
    assert reply == ConflictReply(r[i].nodes[m.dst].log, m.args.term, m.args.prevIndex);
    RejectionBacksOff(r[j].nodes[m.src], m.dst, m.args, r[i].nodes[m.dst].log);
  }
}

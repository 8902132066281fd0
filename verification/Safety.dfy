/** The Raft safety properties, over every run of a cluster with constant membership. */
module Safety {
  import opened RaftTypes
  import opened Quorums
  import opened Membership
  import opened NodeSpec
  import opened LogHistory
  import opened Cluster
  import opened ClusterInv
  import opened ClusterSteps
  import opened ReplicationSteps
  import opened CommitSteps

  // ---- Runs -----------------------------------------------------------------

  lemma StepGrows(r: seq<ClusterState>, boot: Bootstrap, i: nat)
    requires Run(r, boot) && i + 1 < |r|
    ensures Grows(r[i].hist, r[i + 1].hist)
  {
    RunHasInv(r, boot, i);
    assert StepAt(r, i);
    NextKeepsInv(r[i], boot, r[i + 1]);
  }

  lemma {:induction false} RunGrows(r: seq<ClusterState>, boot: Bootstrap, i: nat, j: nat)
    requires Run(r, boot) && i <= j < |r|
    ensures Grows(r[i].hist, r[j].hist)
    decreases j - i
  {
    if i < j {
      RunGrows(r, boot, i, j - 1);
      StepGrows(r, boot, j - 1);
      GrowsTransitive(r[i].hist, r[j - 1].hist, r[j].hist);
    }
  }

  /** Two states in a row, with the same nodes. */
  lemma SameNodes(r: seq<ClusterState>, boot: Bootstrap, i: nat, p: NodeId)
    requires Run(r, boot) && i + 1 < |r| && p in r[i + 1].nodes
    ensures Inv(r[i], boot) && Next(r[i], r[i + 1]) && p in r[i].nodes
  {
    RunHasInv(r, boot, i);
    RunHasInv(r, boot, i + 1);
    assert StepAt(r, i);
  }

  lemma RunPrefix(r: seq<ClusterState>, boot: Bootstrap, n: nat)
    requires Run(r, boot) && 0 < n <= |r|
    ensures Run(r[..n], boot)
  {
    forall i | 0 <= i < n - 1 ensures StepAt(r[..n], i) { assert StepAt(r, i); }
  }

  lemma GrowsTransitive(a: Hist, b: Hist, c: Hist)
    requires Grows(a, b) && Grows(b, c)
    ensures Grows(a, c)
  {
  }

  /** What holds at any point of a run, together with the history at the end of the run. */
  lemma NodeInRun(r: seq<ClusterState>, boot: Bootstrap, i: nat, p: NodeId) returns (g: Hist)
    requires Run(r, boot) && i < |r| && p in r[i].nodes
    ensures g == r[|r| - 1].hist && Grows(r[i].hist, g) && HistInv(g, boot.Keys)
    ensures HistInv(r[i].hist, boot.Keys) && NodeInv(r[i].hist, boot, p, r[i].nodes[p])
    ensures var s := r[i].nodes[p]; LogOk(g, s.log) && Committed(g, s.log, s.commit, s.term)
  {
    g := r[|r| - 1].hist;
    NodeAt(r, boot, i, p);
    RunHasInv(r, boot, |r| - 1);
    RunGrows(r, boot, i, |r| - 1);
    StandsLater(r[i].hist, g, boot, p, r[i].nodes[p]);
  }

  lemma NodeAt(r: seq<ClusterState>, boot: Bootstrap, i: nat, p: NodeId)
    requires Run(r, boot) && i < |r| && p in r[i].nodes
    ensures HistInv(r[i].hist, boot.Keys) && NodeInv(r[i].hist, boot, p, r[i].nodes[p])
  {
    RunHasInv(r, boot, i);
    AloneInCluster(r[i], boot, p);
  }

  lemma StandsLater(g: Hist, h: Hist, boot: Bootstrap, p: NodeId, s: NodeState)
    requires HistInv(g, boot.Keys) && NodeInv(g, boot, p, s) && Grows(g, h)
    ensures LogOk(h, s.log) && Committed(h, s.log, s.commit, s.term)
  {
    LogOkGrows(g, h, s.log);
    CommittedGrows(g, h, s.log, s.commit, s.term, s.term);
  }

  /** The part of it that is about logs only. */
  lemma LogInRun(r: seq<ClusterState>, boot: Bootstrap, i: nat, p: NodeId, g: Hist)
    requires Run(r, boot) && i < |r| && p in r[i].nodes && g == r[|r| - 1].hist
    ensures HistInv(g, boot.Keys)
    ensures var s := r[i].nodes[p];
            LogOk(g, s.log) && s.commit < |s.log| && Committed(g, s.log, s.commit, s.term)
  {
    var h := NodeInRun(r, boot, i, p);
  }

  // ---- Elections ------------------------------------------------------------

  /** Election Safety: in all of a run at most one node leads a term, although a leader
      that steps down within its term forgets whom it voted for. */
  lemma ElectionSafety(r: seq<ClusterState>, boot: Bootstrap, i: nat, a: NodeId, j: nat, b: NodeId)
    requires Run(r, boot) && i < |r| && j < |r| && a in r[i].nodes && b in r[j].nodes
    requires r[i].nodes[a].role == Leader && r[j].nodes[b].role == Leader
    requires r[i].nodes[a].term == r[j].nodes[b].term
    ensures a == b
  {
    var g := NodeInRun(r, boot, i, a);
    var h := NodeInRun(r, boot, j, b);
  }

  /** A node that has led a term never votes in it again, although it forgets that it voted for
      itself when it steps down: its own no-op makes it refuse every candidate of the term. */
  lemma ExLeaderNeverVotes(r: seq<ClusterState>, boot: Bootstrap, i: nat, j: nat, p: NodeId, m: VoteCall, inContact: bool)
    requires Run(r, boot) && i <= j < |r| && p in r[i].nodes && p in r[j].nodes
    requires r[i].nodes[p].role == Leader && r[j].nodes[p].term == r[i].nodes[p].term
    requires m in r[j].voteCalls && m.dst == p && m.args.term == r[j].nodes[p].term
    ensures |r[j].nodes[p].log| > 0 && !HandleVote(r[j].nodes[p], m.args, inContact).1.granted
  {
    var s, g := r[j].nodes[p], r[j].hist;
    LeaderInRun(r, boot, i, p);
    RunGrows(r, boot, i, j);
    RunHasInv(r, boot, j);
    AloneInCluster(r[j], boot, p);
    assert VoteCallOk(g, boot, m);
    assert AdvOk(g, s.term, m.src);
    ExLeaderRefuses(g, boot, p, s, g.adv[(s.term, m.src)], m.args.lastIndex);
  }

  /** Leader Append-Only: while a node leads a term its log only grows at the end. */
  lemma LeaderAppendOnly(r: seq<ClusterState>, boot: Bootstrap, i: nat, j: nat, p: NodeId)
    requires Run(r, boot) && i <= j < |r| && p in r[i].nodes && p in r[j].nodes
    requires r[i].nodes[p].role == Leader && r[j].nodes[p].role == Leader
    requires r[i].nodes[p].term == r[j].nodes[p].term
    ensures r[i].nodes[p].log <= r[j].nodes[p].log
  {
    var g := NodeInRun(r, boot, i, p);
    g := NodeInRun(r, boot, j, p);
    RunGrows(r, boot, i, j);
  }

  lemma AdvertisedAt(r: seq<ClusterState>, boot: Bootstrap, i: nat, j: nat, p: NodeId)
    requires Run(r, boot) && i < j < |r| && p in r[i].nodes
    requires Enabled(r[i], ElectionTimeout(p)) && r[i + 1] == TakeStep(r[i], ElectionTimeout(p))
    ensures var t := r[i].nodes[p].term + 1; (t, p) in r[j].hist.adv && r[j].hist.adv[(t, p)] == r[i].nodes[p].log
  {
    var t := r[i].nodes[p].term + 1;
    RunGrows(r, boot, i + 1, j);
    assert (t, p) in r[i + 1].hist.adv && r[i + 1].hist.adv[(t, p)] == r[i].nodes[p].log;
  }

  lemma WonWith(r: seq<ClusterState>, boot: Bootstrap, j: nat, p: NodeId)
    requires Run(r, boot) && j + 1 < |r| && p in r[j].nodes && p in r[j + 1].nodes
    requires r[j].nodes[p].role == Candidate && r[j + 1].nodes[p].role == Leader
    requires r[j + 1].nodes[p].term == r[j].nodes[p].term
    ensures var (t, g) := (r[j].nodes[p].term, r[j].hist);
            (t, p) in g.adv && r[j].nodes[p].log == g.adv[(t, p)] && g.adv[(t, p)] < r[j + 1].nodes[p].log
  {
    var t := r[j].nodes[p].term;
    var g := NodeInRun(r, boot, j, p);
    g := NodeInRun(r, boot, j + 1, p);
    RunGrows(r, boot, j, j + 1);
    assert LeaderOk(r[j + 1].hist, boot.Keys, t);
    assert t in r[j].hist.lead ==> Won(r[j].hist, p, t);
  }

  /** A node that stood for election at step `i` and wins that term at step `j` still has the log
      it advertised when it asked for votes. */
  lemma WinnerKeptItsLog(r: seq<ClusterState>, boot: Bootstrap, i: nat, j: nat, p: NodeId)
    requires Run(r, boot) && i < j && j + 1 < |r| && p in r[i].nodes
    requires Enabled(r[i], ElectionTimeout(p)) && r[i + 1] == TakeStep(r[i], ElectionTimeout(p))
    requires p in r[j].nodes && r[j].nodes[p].role == Candidate && r[j].nodes[p].term == r[i].nodes[p].term + 1
    requires p in r[j + 1].nodes && r[j + 1].nodes[p].role == Leader
    requires r[j + 1].nodes[p].term == r[j].nodes[p].term
    ensures r[j].nodes[p].log == r[i].nodes[p].log
    ensures r[i].nodes[p].log < r[j + 1].nodes[p].log
  {
    AdvertisedAt(r, boot, i, j, p);
    WonWith(r, boot, j, p);
  }

  // ---- Logs -----------------------------------------------------------------

  /** Log Matching: if any two logs of a run, at whatever times, have an entry of the same term,
      at `m` in one and at `n >= m` in the other, they are identical up to `m`. With `m == n` this
      is the usual statement; with `m < n` it says that a term starts at the same index everywhere. */
  lemma LogMatching(r: seq<ClusterState>, boot: Bootstrap, i: nat, a: NodeId, j: nat, b: NodeId, m: LogIndex, n: LogIndex)
    requires Run(r, boot) && i < |r| && j < |r| && a in r[i].nodes && b in r[j].nodes
    requires m <= n && m < |r[i].nodes[a].log| && n < |r[j].nodes[b].log|
    requires r[i].nodes[a].log[m].term == r[j].nodes[b].log[n].term
    ensures m < |r[j].nodes[b].log| && r[i].nodes[a].log[..m + 1] == r[j].nodes[b].log[..m + 1]
  {
    var g := NodeInRun(r, boot, i, a);
    var h := NodeInRun(r, boot, j, b);
    LogsMatch(g, r[i].nodes[a].log, r[j].nodes[b].log, m, n);
  }

  lemma SameSlice(f: Log, l: Log, k: nat, m: nat, es: seq<Entry>)
    requires k <= m < |f| && m < |l| && f[..m + 1] == l[..m + 1]
    requires es == l[k + 1..m + 1]
    ensures f[k] == l[k] && f[k + 1..m + 1] == es
  {
    assert f[k + 1..m + 1] == f[..m + 1][k + 1..];
    assert l[k + 1..m + 1] == l[..m + 1][k + 1..];
    assert f[k] == f[..m + 1][k] && l[k] == l[..m + 1][k];
  }

  lemma RequestContent(g: Hist, boot: Bootstrap, m: AppendCall)
    requires HistInv(g, boot.Keys) && AppendCallOk(g, boot, m)
    ensures LogOk(g, g.lead[m.args.term].log)
  {
    assert LeaderOk(g, boot.Keys, m.args.term);
  }

  lemma RequestInRun(r: seq<ClusterState>, boot: Bootstrap, j: nat, call: AppendCall)
    requires Run(r, boot) && j < |r| && call in r[j].calls
    ensures AppendCallOk(r[|r| - 1].hist, boot, call)
  {
    RunHasInv(r, boot, j);
    RunGrows(r, boot, j, |r| - 1);
    assert AppendCallOk(r[j].hist, boot, call);
    AppendCallKept(r[j].hist, r[|r| - 1].hist, boot, call);
  }

  /** The same between a log and the entries a request carries, even one still under way. */
  lemma LogMatchesRequest(r: seq<ClusterState>, boot: Bootstrap, i: nat, a: NodeId, j: nat, call: AppendCall, m: LogIndex)
    requires Run(r, boot) && i < |r| && j < |r| && a in r[i].nodes && call in r[j].calls
    requires call.args.prevIndex < m <= Reach(call.args) && m < |r[i].nodes[a].log|
    requires r[i].nodes[a].log[m].term == call.args.entries[m - call.args.prevIndex - 1].term
    ensures r[i].nodes[a].log[call.args.prevIndex].term == call.args.prevTerm
    ensures r[i].nodes[a].log[call.args.prevIndex + 1..m + 1] == call.args.entries[..m - call.args.prevIndex]
  {
    var g, k := r[|r| - 1].hist, call.args.prevIndex;
    LogInRun(r, boot, i, a, g);
    RequestInRun(r, boot, j, call);
    RequestContent(g, boot, call);
    var l := g.lead[call.args.term].log;
    LogsMatch(g, r[i].nodes[a].log, l, m, m);
    SameSlice(r[i].nodes[a].log, l, k, m, call.args.entries[..m - k]);
  }

  // ---- Commitment -----------------------------------------------------------

  /** Leader Completeness: what any node has committed in a term is in the log of every leader of
      a later term, and from then on in that of the leader of the same term. */
  lemma LeadersHaveCommitted(r: seq<ClusterState>, boot: Bootstrap, i: nat, a: NodeId, j: nat, b: NodeId)
    requires Run(r, boot) && i < |r| && j < |r| && a in r[i].nodes && b in r[j].nodes
    requires r[j].nodes[b].role == Leader
    requires r[i].nodes[a].term < r[j].nodes[b].term || (r[i].nodes[a].term == r[j].nodes[b].term && i <= j)
    ensures var s := r[i].nodes[a]; s.commit < |s.log| && s.log[..s.commit + 1] <= r[j].nodes[b].log
  {
    var s, u := r[i].nodes[a], r[j].nodes[b].term;
    LeaderInRun(r, boot, j, b);
    if s.term < u {
      var g := r[|r| - 1].hist;
      LogInRun(r, boot, i, a, g);
      RunGrows(r, boot, j, |r| - 1);
      LaterBaseHasCommitted(g, boot.Keys, s.log, s.commit, s.term, u);
    } else {
      RunPrefix(r, boot, j + 1);
      LogInRun(r[..j + 1], boot, i, a, r[j].hist);
      LeaderHasCommitted(r[j].hist, boot.Keys, s.log, s.commit, u);
    }
  }

  lemma LaterBaseHasCommitted(g: Hist, voters: set<NodeId>, log: Log, c: LogIndex, term: Term, u: Term)
    requires HistInv(g, voters) && Committed(g, log, c, term) && term < u && u in g.lead
    requires LogOk(g, log) && c < |log|
    ensures log[..c + 1] <= g.lead[u].base
  {
    assert LeaderOk(g, voters, u);
    if c > 0 {
      var t: Term :| CommittedIn(g, log, c, t) && t <= term;
      assert LeaderOk(g, voters, t);
      var n := g.lead[t].commit;
      LeaderCompleteness(g, voters, t, n, u);
      assert log[..c + 1] == g.lead[t].log[..n + 1][..c + 1];
    } else {
      assert g.lead[u].base[0] == g.lead[u].log[0];
    }
  }

  lemma LeaderInRun(r: seq<ClusterState>, boot: Bootstrap, j: nat, b: NodeId)
    requires Run(r, boot) && j < |r| && b in r[j].nodes && r[j].nodes[b].role == Leader
    ensures var u := r[j].nodes[b].term;
            Won(r[j].hist, b, u) && r[j].nodes[b].log == r[j].hist.lead[u].log && r[j].hist.lead[u].base <= r[j].nodes[b].log
  {
    var g := NodeInRun(r, boot, j, b);
    assert LeaderOk(r[j].hist, boot.Keys, r[j].nodes[b].term);
  }

  /** State Machine Safety: two nodes, at whatever times, have the same entries up to any index
      that both have committed. */
  lemma StateMachineSafety(r: seq<ClusterState>, boot: Bootstrap, i: nat, a: NodeId, j: nat, b: NodeId, n: LogIndex)
    requires Run(r, boot) && i < |r| && j < |r| && a in r[i].nodes && b in r[j].nodes
    requires n <= r[i].nodes[a].commit && n <= r[j].nodes[b].commit
    ensures n < |r[i].nodes[a].log| && n < |r[j].nodes[b].log|
    ensures r[i].nodes[a].log[..n + 1] == r[j].nodes[b].log[..n + 1]
  {
    var g := r[|r| - 1].hist;
    LogInRun(r, boot, i, a, g);
    LogInRun(r, boot, j, b, g);
    AgreeUpTo(g, boot.Keys, r[i].nodes[a], r[j].nodes[b], n);
  }

  lemma AgreeUpTo(g: Hist, voters: set<NodeId>, s: NodeState, t: NodeState, n: LogIndex)
    requires HistInv(g, voters) && LogOk(g, s.log) && LogOk(g, t.log)
    requires Committed(g, s.log, s.commit, s.term) && Committed(g, t.log, t.commit, t.term)
    requires n <= s.commit < |s.log| && n <= t.commit < |t.log|
    ensures s.log[..n + 1] == t.log[..n + 1]
  {
    var top := if s.term <= t.term then t.term else s.term;
    CommittedGrows(g, g, s.log, s.commit, s.term, top);
    CommittedGrows(g, g, t.log, t.commit, t.term, top);
    var c := if s.commit <= t.commit then s.commit else t.commit;
    if s.commit <= t.commit {
      CommittedLogsAgree(g, voters, s.log, s.commit, t.log, t.commit, top);
    } else {
      CommittedLogsAgree(g, voters, t.log, t.commit, s.log, s.commit, top);
    }
    assert s.log[..n + 1] == s.log[..c + 1][..n + 1];
    assert t.log[..n + 1] == t.log[..c + 1][..n + 1];
  }

  lemma {:induction false} CommandsOfPrefix(es: seq<Entry>, k: nat)
    requires k <= |es|
    ensures CommandsOf(es[..k]) <= CommandsOf(es)
    decreases |es|
  {
    if k < |es| {
      CommandsOfPrefix(es[..|es| - 1], k);
      assert es[..|es| - 1][..k] == es[..k];
    } else {
      assert es[..k] == es;
    }
  }

  /** Logs that agree up to `n` have handed over the same commands up to any index below. */
  lemma CommandsAgree(f: Log, l: Log, k: LogIndex, n: LogIndex, m: LogIndex)
    requires k <= n <= m && n < |f| && m < |l| && f[..n + 1] == l[..n + 1]
    ensures CommandsOf(f[1..k + 1]) <= CommandsOf(l[1..m + 1])
  {
    var es := l[1..m + 1];
    assert f[1..k + 1] == f[..n + 1][1..k + 1];
    assert es[..k] == l[..n + 1][1..k + 1];
    CommandsOfPrefix(es, k);
  }

  /** How far a node's state machine has got, whether or not a batch is in progress. */
  function AppliedUpTo(s: NodeState): LogIndex {
    match s.batch
    case None => s.lastApplied
    case Some(b) => b.base + b.done
  }

  /** The state machine has been given the commands of the entries up to the applied index,
      in order and once each. */
  predicate HandedOver(s: NodeState) {
    && s.lastApplied <= AppliedUpTo(s) <= s.commit < |s.log|
    && s.fsm == CommandsOf(s.log[1..AppliedUpTo(s) + 1])
  }

  lemma ApplyInvHandsOver(c: ClusterState, boot: Bootstrap, p: NodeId)
    requires Inv(c, boot) && p in c.nodes
    ensures HandedOver(c.nodes[p])
  {
    AloneInCluster(c, boot, p);
  }

  /** `at` are, in order, the indices up to `n` of the entries that carry a client's command, and `cs` those commands. */
  ghost predicate CommandsAt(log: Log, n: LogIndex, at: seq<LogIndex>, cs: seq<Command>)
    requires n < |log|
  {
    && (forall j, k | 0 <= j < k < |at| :: at[j] < at[k])
    && (forall i :: i in at <==> 1 <= i <= n && log[i].etype == Normal && log[i].command != Nil)
    && |cs| == |at| && (forall k | 0 <= k < |at| :: at[k] <= n && cs[k] == log[at[k]].command)
  }

  lemma CommandCounted(log: Log, n: LogIndex, at: seq<LogIndex>, cs: seq<Command>)
    requires n + 1 < |log| && CommandsAt(log, n, at, cs)
    ensures var e := log[n + 1];
            if e.etype == Normal && e.command != Nil then CommandsAt(log, n + 1, at + [n + 1], cs + [e.command])
            else CommandsAt(log, n + 1, at, cs)
  {
    assert forall k | 0 <= k < |at| :: at[k] in at;
    var e := log[n + 1];
    if e.etype == Normal && e.command != Nil {
      forall i ensures i in at + [n + 1] <==> 1 <= i <= n + 1 && log[i].etype == Normal && log[i].command != Nil {
        assert i in at + [n + 1] <==> i in at || i == n + 1;
      }
    }
  }

  lemma {:induction false} CommandsFound(log: Log, n: LogIndex) returns (at: seq<LogIndex>)
    requires n < |log|
    ensures CommandsAt(log, n, at, CommandsOf(log[1..n + 1]))
  {
    if n == 0 {
      at := [];
      assert log[1..1] == [];
    } else {
      at := CommandsFound(log, n - 1);
      CommandCounted(log, n - 1, at, CommandsOf(log[1..n]));
      CommandsOfOneMore(log, 1, n);
      OneCommand(log[n]);
      if log[n].etype == Normal && log[n].command != Nil { at := at + [n]; }
    }
  }

  lemma OneCommand(e: Entry)
    ensures CommandsOf([e]) == if e.etype == Normal && e.command != Nil then [e.command] else []
  {
    assert [e][..0] == [];
  }

  /** Apply exactness, in every state of every run: the state machine has been given the commands at exactly
      the indices up to the applied one that carry a client's command, in order and once each. */
  lemma AppliedExactly(r: seq<ClusterState>, boot: Bootstrap, i: nat, a: NodeId) returns (at: seq<LogIndex>)
    requires Run(r, boot) && i < |r| && a in r[i].nodes
    ensures HandedOver(r[i].nodes[a])
    ensures var s := r[i].nodes[a]; CommandsAt(s.log, AppliedUpTo(s), at, s.fsm)
  {
    RunHasInv(r, boot, i);
    ApplyInvHandsOver(r[i], boot, a);
    at := CommandsFound(r[i].nodes[a].log, AppliedUpTo(r[i].nodes[a]));
  }

  /** No two state machines ever disagree: one has been given a prefix of what the other has. */
  lemma AppliedSequencesAgree(r: seq<ClusterState>, boot: Bootstrap, i: nat, a: NodeId, j: nat, b: NodeId)
    requires Run(r, boot) && i < |r| && j < |r| && a in r[i].nodes && b in r[j].nodes
    requires AppliedUpTo(r[i].nodes[a]) <= AppliedUpTo(r[j].nodes[b])
    ensures r[i].nodes[a].fsm <= r[j].nodes[b].fsm
  {
    var s, t := r[i].nodes[a], r[j].nodes[b];
    var n := AppliedUpTo(s);
    RunHasInv(r, boot, i);
    RunHasInv(r, boot, j);
    ApplyInvHandsOver(r[i], boot, a);
    ApplyInvHandsOver(r[j], boot, b);
    StateMachineSafety(r, boot, i, a, j, b, n);
    CommandsAgree(s.log, t.log, n, n, AppliedUpTo(t));
  }

  // ---- Indices --------------------------------------------------------------

  /** The leader's match index for `q` counts: it reaches the leader's own entries, or the leader was not
      handed a late acknowledgement of `q`, or the cluster has at most four nodes. */
  ghost predicate MatchCounts(g: Hist, boot: Bootstrap, s: NodeState, q: NodeId) {
    || (s.term, q) !in g.late || |boot| <= 4
    || (MatchOf(s, q) < |s.log| && s.log[MatchOf(s, q)].term == s.term)
  }

  predicate AgreeTo(l: Log, f: Log, n: LogIndex) {
    n < |l| && n < |f| && l[..n + 1] == f[..n + 1]
  }

  /** matchIndex soundness: a peer in the leader's term has the leader's log up to its match index. */
  lemma MatchIndexSound(r: seq<ClusterState>, boot: Bootstrap, i: nat, p: NodeId, q: NodeId)
    requires Run(r, boot) && i < |r| && p in r[i].nodes && q in r[i].nodes && q != p
    requires r[i].nodes[p].role == Leader && r[i].nodes[q].term == r[i].nodes[p].term
    requires MatchCounts(r[i].hist, boot, r[i].nodes[p], q)
    ensures AgreeTo(r[i].nodes[p].log, r[i].nodes[q].log, MatchOf(r[i].nodes[p], q))
  {
    var s, f, g := r[i].nodes[p], r[i].nodes[q], r[i].hist;
    RunHasInv(r, boot, i);
    AloneInCluster(r[i], boot, p);
    AloneInCluster(r[i], boot, q);
    MatchedPrefix(g, boot, p, s, q, f);
  }

  lemma MatchedPrefix(g: Hist, boot: Bootstrap, p: NodeId, s: NodeState, q: NodeId, f: NodeState)
    requires HistInv(g, boot.Keys) && NodeInv(g, boot, p, s) && NodeInv(g, boot, q, f) && q in boot && q != p
    requires s.role == Leader && f.term == s.term && MatchCounts(g, boot, s, q)
    ensures AgreeTo(s.log, f.log, MatchOf(s, q))
  {
    var n := MatchOf(s, q);
    assert PeerInv(g, s, q);
    if Accepted(g, s.term, q, n) {
      FollowsLeader(g, boot, q, f, s.term);
    } else if n > 0 {
      LeaderOwns(g, boot, p, s, n);
      assert MatchOk(g, s.term, q, n) && (s.term, q) in g.late;
      EarlierAckKept(g, boot, s.term, q, f, g.late[(s.term, q)], n);
    }
  }

  lemma LeaderOwns(g: Hist, boot: Bootstrap, p: NodeId, s: NodeState, n: LogIndex)
    requires HistInv(g, boot.Keys) && NodeInv(g, boot, p, s) && s.role == Leader && n < |s.log|
    ensures s.term in g.lead && g.lead[s.term].who == p && s.log == g.lead[s.term].log
    ensures n < |g.lead[s.term].base| <==> s.log[n].term != s.term
    ensures n < |g.lead[s.term].base| ==> s.log[n].term < s.term
  {
    assert LeaderOk(g, boot.Keys, s.term);
  }

  /** In a cluster of at most four, a leader and one peer that took over its log have a member in
      every majority. */
  lemma FewBlock(g: Hist, boot: Bootstrap, t: Term, q: NodeId, n: LogIndex)
    requires HistInv(g, boot.Keys) && |boot| <= 4 && Own(g, t, n) && Accepted(g, t, q, n)
    requires q in boot && g.lead[t].who in boot && g.lead[t].who != q
    ensures Blocks(boot.Keys, AcceptorsOf(g, boot.Keys, t, n))
  {
    assert LeaderOk(g, boot.Keys, t);
    SubsetSize({q, g.lead[t].who}, AcceptorsOf(g, boot.Keys, t, n));
    assert |boot.Keys| == |boot|;
  }

  lemma EarlierAckKept(g: Hist, boot: Bootstrap, u: Term, q: NodeId, f: NodeState, t: Term, n: LogIndex)
    requires HistInv(g, boot.Keys) && NodeInv(g, boot, q, f) && q in boot && u in g.lead && t < u && |boot| <= 4
    requires Own(g, t, n) && Accepted(g, t, q, n) && g.lead[t].who in boot && g.lead[t].who != q
    ensures AgreeTo(g.lead[u].log, f.log, n)
  {
    FewBlock(g, boot, t, q, n);
    assert LeaderOk(g, boot.Keys, u);
    BlockingSetKeeps(g, boot.Keys, t, n, u);
    assert Carries(g, t, n, f.log, LastTerm(f.log) + 1);
    forall w | w in g.lead && t < w ensures g.lead[t].log[..n + 1] <= g.lead[w].base {
      BlockingSetKeeps(g, boot.Keys, t, n, w);
    }
  }

  /** Nothing a node does with its log goes out of bounds: sending, receiving and applying. */
  lemma SlicesInBounds(r: seq<ClusterState>, boot: Bootstrap, i: nat, p: NodeId)
    requires Run(r, boot) && i < |r| && p in r[i].nodes
    ensures var s := r[i].nodes[p];
            && |s.log| > 0 && s.commit < |s.log|
            && (s.role == Leader ==> forall q | q in s.peers ::
                  && q in s.nextIndex && 1 <= s.nextIndex[q] && MatchOf(s, q) < |s.log|
                  && ((s.term, q) !in r[i].hist.over ==> InBounds(s, q))
                  && ((s.term, q) !in r[i].hist.late ==> MatchOf(s, q) < s.nextIndex[q]))
  {
    var g := NodeInRun(r, boot, i, p);
    var s := r[i].nodes[p];
    if s.role == Leader {
      forall q | q in s.peers
        ensures q in s.nextIndex && 1 <= s.nextIndex[q] && MatchOf(s, q) < |s.log|
        ensures (s.term, q) !in r[i].hist.over ==> InBounds(s, q)
        ensures (s.term, q) !in r[i].hist.late ==> MatchOf(s, q) < s.nextIndex[q]
      {
        assert PeerInv(r[i].hist, s, q);
      }
    }
  }

  lemma OthersAreNotLate(c: ClusterState, step: Step)
    requires Enabled(c, step) && !step.AppendReplyArrives?
    ensures TakeStep(c, step).hist.late == c.hist.late && TakeStep(c, step).hist.over == c.hist.over
  {
  }

  lemma LateChanges(c: ClusterState, step: Step)
    requires Enabled(c, step)
    ensures TakeStep(c, step).hist.late != c.hist.late ==>
              step.AppendReplyArrives? && IsLate(c.nodes[Actor(step)], step.answer) && step.answer.reply.success
    ensures TakeStep(c, step).hist.over != c.hist.over ==>
              && step.AppendReplyArrives? && IsLate(c.nodes[Actor(step)], step.answer) && !step.answer.reply.success
              && BackoffIndex(c.nodes[Actor(step)].log, step.answer.reply) > |c.nodes[Actor(step)].log|
  {
    if step.AppendReplyArrives? { AnswerCases(c, step.answer); } else { OthersAreNotLate(c, step); }
  }

  /** A leader counts as having been handed a late acknowledgement, or a late rejection that points past the
      end of its log, only once it was. */
  lemma OnlyLateRepliesAreLate(r: seq<ClusterState>, boot: Bootstrap, i: nat)
    requires Run(r, boot) && i + 1 < |r|
    requires r[i + 1].hist.late != r[i].hist.late || r[i + 1].hist.over != r[i].hist.over
    ensures exists a :: Enabled(r[i], AppendReplyArrives(a)) && IsLate(r[i].nodes[a.call.src], a)
              && r[i + 1] == TakeStep(r[i], AppendReplyArrives(a))
              && (r[i + 1].hist.late != r[i].hist.late ==> a.reply.success)
              && (r[i + 1].hist.over != r[i].hist.over ==>
                    !a.reply.success && BackoffIndex(r[i].nodes[a.call.src].log, a.reply) > |r[i].nodes[a.call.src].log|)
  {
    assert StepAt(r, i);
    var step :| Enabled(r[i], step) && r[i + 1] == TakeStep(r[i], step);
    LateChanges(r[i], step);
    assert step == AppendReplyArrives(step.answer);
  }

  /** Every request reaches as far as the commit index it announces, so a follower never has to
      settle for less than that index. */
  lemma RequestsCoverTheirCommit(r: seq<ClusterState>, boot: Bootstrap, i: nat, m: AppendCall)
    requires Run(r, boot) && i < |r| && m in r[i].calls
    ensures m.args.leaderCommit <= m.args.prevIndex + |m.args.entries|
  {
    RunHasInv(r, boot, i);
    assert AppendCallOk(r[i].hist, boot, m);
  }

  /** Without reconfiguration requests every node's configuration stays the bootstrap cluster. */
  lemma MembershipConstant(r: seq<ClusterState>, boot: Bootstrap, i: nat, p: NodeId)
    requires Run(r, boot) && i < |r| && p in r[i].nodes
    ensures var s := r[i].nodes[p];
            && s.voters == boot.Keys && s.peers.Keys == boot.Keys - {p}
            && Replay(boot, s.log) == BootMembers(boot)
  {
    var g := NodeInRun(r, boot, i, p);
    PlainLogKeepsBootstrap(boot, r[i].nodes[p].log);
  }
}

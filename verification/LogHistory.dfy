/** What a run has done so far, as far as logs and votes are concerned, and why it keeps
    committed entries. The history is never read by a node: it only states properties. */
module LogHistory {
  import opened RaftTypes
  import opened Quorums
  import opened NodeSpec
  import opened Logs

  /** A term that has had a leader: who it was, the log it was elected with, that log
      continued by the leader's own appends, and how far the leader has committed by counting. */
  datatype Leadership = Leadership(who: NodeId, base: Log, log: Log, commit: LogIndex)

  /** `adv` holds the log of every candidacy, `votes` every vote granted, `acc` the greatest
      index up to which a node has taken over the log of the leader of a term. `late` holds, for the
      leader of a term and a peer, the earlier term of a request whose acknowledgement it was handed;
      `over` that it was handed a rejection of such a request that pointed past the end of its log. */
  datatype Hist = Hist(
    lead: map<Term, Leadership>,
    adv: map<(Term, NodeId), Log>,
    votes: map<(Term, NodeId), NodeId>,
    acc: map<(Term, NodeId), LogIndex>,
    late: map<(Term, NodeId), Term>,
    over: set<(Term, NodeId)>)

  const EMPTY_HIST := Hist(map[], map[], map[], map[], map[], {})

  predicate Voted(g: Hist, t: Term, p: NodeId, c: NodeId) {
    (t, p) in g.votes && g.votes[(t, p)] == c
  }

  predicate Accepted(g: Hist, t: Term, p: NodeId, n: LogIndex) {
    (t, p) in g.acc && n <= g.acc[(t, p)]
  }

  function VotersFor(g: Hist, voters: set<NodeId>, t: Term, c: NodeId): set<NodeId> {
    set p | p in voters && Voted(g, t, p, c)
  }

  function AcceptorsOf(g: Hist, voters: set<NodeId>, t: Term, n: LogIndex): set<NodeId> {
    set p | p in voters && Accepted(g, t, p, n)
  }

  /** Index `n` of the leader log of term `t` was written by that leader. */
  predicate Own(g: Hist, t: Term, n: LogIndex) {
    t in g.lead && |g.lead[t].base| <= n < |g.lead[t].log|
  }

  /** The leader log of `t` up to `n` is stored by a majority, and `n` is an entry of term `t`. */
  ghost predicate Chosen(g: Hist, voters: set<NodeId>, t: Term, n: LogIndex) {
    Own(g, t, n) && IsQuorum(voters, AcceptorsOf(g, voters, t, n))
  }

  // ---- Logs made of leader logs ---------------------------------------------

  predicate EntryOk(g: Hist, log: Log, i: LogIndex)
    requires i < |log|
  {
    var t := log[i].term;
    Own(g, t, i) && log[..i + 1] == g.lead[t].log[..i + 1]
  }

  /** Up to each of its entries, the log is the log of the leader of that entry's term. */
  ghost predicate LogOk(g: Hist, log: Log) {
    |log| > 0 && log[0] == SENTINEL && forall i {:trigger EntryOk(g, log, i)} | 1 <= i < |log| :: EntryOk(g, log, i)
  }

  ghost predicate TermsBelow(log: Log, t: Term) {
    forall i | 0 <= i < |log| :: log[i].term < t
  }

  ghost predicate LeaderOk(g: Hist, voters: set<NodeId>, t: Term)
    requires t in g.lead
  {
    var l := g.lead[t];
    && t >= 1
    && LogOk(g, l.log)
    && 1 <= |l.base| < |l.log|
    && l.base <= l.log
    && TermsBelow(l.base, t)
    && (forall i | |l.base| <= i < |l.log| :: l.log[i].term == t)
    && (l.commit == 0 || Chosen(g, voters, t, l.commit))
    && (t, l.who) in g.adv && g.adv[(t, l.who)] == l.base
    && IsQuorum(voters, VotersFor(g, voters, t, l.who))
    && (t, l.who) in g.acc && g.acc[(t, l.who)] == |l.log| - 1
  }

  ghost predicate AdvOk(g: Hist, t: Term, c: NodeId) {
    (t, c) in g.adv ==> t >= 1 && LogOk(g, g.adv[(t, c)]) && TermsBelow(g.adv[(t, c)], t)
  }

  ghost predicate VoteOk(g: Hist, voters: set<NodeId>, t: Term, p: NodeId) {
    (t, p) in g.votes ==> p in voters && g.votes[(t, p)] in voters && (t, g.votes[(t, p)]) in g.adv
  }

  ghost predicate AccOk(g: Hist, voters: set<NodeId>, t: Term, p: NodeId) {
    (t, p) in g.acc ==> p in voters && Own(g, t, g.acc[(t, p)])
  }

  /** Some leader between `t` and `u` was elected with a log that misses `n`. */
  ghost predicate Diverged(g: Hist, t: Term, n: LogIndex, u: Term)
    requires Own(g, t, n)
  {
    exists w :: w in g.lead && t < w < u && !(g.lead[t].log[..n + 1] <= g.lead[w].base)
  }

  /** The log has everything up to `n`, unless a leader below term `u` already missed it. */
  ghost predicate Carries(g: Hist, t: Term, n: LogIndex, log: Log, u: Term)
    requires Own(g, t, n)
  {
    g.lead[t].log[..n + 1] <= log || Diverged(g, t, n, u)
  }

  /** A node that took over (t, n) and later voted in `u` voted for a log that carries it. */
  ghost predicate VotesCarry(g: Hist) {
    forall u, p, c, t, n ::
      Voted(g, u, p, c) && Accepted(g, t, p, n) && Own(g, t, n) && t < u && (u, c) in g.adv
      ==> Carries(g, t, n, g.adv[(u, c)], u)
  }

  ghost predicate HistInv(g: Hist, voters: set<NodeId>) {
    && (forall t {:trigger LeaderOk(g, voters, t)} | t in g.lead :: LeaderOk(g, voters, t))
    && (forall t, c :: AdvOk(g, t, c))
    && (forall t, p :: VoteOk(g, voters, t, p))
    && (forall t, p :: AccOk(g, voters, t, p))
    && VotesCarry(g)
  }

  // ---- Growth ---------------------------------------------------------------

  ghost predicate Grows(g: Hist, h: Hist) {
    && (forall t | t in g.lead ::
          && t in h.lead
          && h.lead[t].who == g.lead[t].who && h.lead[t].base == g.lead[t].base
          && g.lead[t].log <= h.lead[t].log && g.lead[t].commit <= h.lead[t].commit)
    && (forall k | k in g.adv :: k in h.adv && h.adv[k] == g.adv[k])
    && (forall k | k in g.votes :: k in h.votes && h.votes[k] == g.votes[k])
    && (forall k | k in g.acc :: k in h.acc && g.acc[k] <= h.acc[k])
    && (forall k | k in g.late :: k in h.late) && g.over <= h.over
  }

  lemma LogOkGrows(g: Hist, h: Hist, log: Log)
    requires Grows(g, h) && LogOk(g, log)
    ensures LogOk(h, log)
  {
    forall i | 1 <= i < |log| ensures EntryOk(h, log, i) {
      assert EntryOk(g, log, i);
    }
  }

  lemma ChosenGrows(g: Hist, h: Hist, voters: set<NodeId>, t: Term, n: LogIndex)
    requires Grows(g, h) && Chosen(g, voters, t, n)
    ensures Chosen(h, voters, t, n)
  {
    SubsetSize(AcceptorsOf(g, voters, t, n), AcceptorsOf(h, voters, t, n));
  }

  lemma ElectedGrows(g: Hist, h: Hist, voters: set<NodeId>, t: Term, c: NodeId)
    requires Grows(g, h) && IsQuorum(voters, VotersFor(g, voters, t, c))
    ensures IsQuorum(voters, VotersFor(h, voters, t, c))
  {
    SubsetSize(VotersFor(g, voters, t, c), VotersFor(h, voters, t, c));
  }

  lemma CarriesGrows(g: Hist, h: Hist, t: Term, n: LogIndex, log: Log, u: Term)
    requires Grows(g, h) && Own(g, t, n) && Own(h, t, n) && Carries(g, t, n, log, u)
    ensures Carries(h, t, n, log, u)
  {
    assert g.lead[t].log[..n + 1] == h.lead[t].log[..n + 1];
    if Diverged(g, t, n, u) {
      var w :| w in g.lead && t < w < u && !(g.lead[t].log[..n + 1] <= g.lead[w].base);
      assert w in h.lead && !(h.lead[t].log[..n + 1] <= h.lead[w].base);
    }
  }

  // ---- Facts about logs -----------------------------------------------------

  lemma LogOkPrefix(g: Hist, log: Log, k: nat)
    requires LogOk(g, log) && 1 <= k <= |log|
    ensures LogOk(g, log[..k])
  {
    forall i | 1 <= i < k ensures EntryOk(g, log[..k], i) {
      assert EntryOk(g, log, i);
      assert log[..k][..i + 1] == log[..i + 1];
    }
  }

  /** Strong log matching: two logs with an entry of the same term, at `i` in one and at
      `j >= i` in the other, are the same up to `i`. */
  lemma LogsMatch(g: Hist, a: Log, b: Log, i: LogIndex, j: LogIndex)
    requires LogOk(g, a) && LogOk(g, b)
    requires i <= j && i < |a| && j < |b| && a[i].term == b[j].term
    ensures i < |b| && a[..i + 1] == b[..i + 1]
  {
    if i == 0 {
      assert a[..1] == b[..1];
    } else {
      assert EntryOk(g, a, i) && EntryOk(g, b, j);
      assert b[..i + 1] == b[..j + 1][..i + 1];
    }
  }

  /** Terms never decrease along a log. */
  lemma TermsAscend(g: Hist, voters: set<NodeId>, log: Log, i: LogIndex, j: LogIndex)
    requires HistInv(g, voters) && LogOk(g, log) && i <= j < |log|
    ensures log[i].term <= log[j].term
  {
    if 1 <= j {
      assert EntryOk(g, log, j);
      var t := log[j].term;
      assert LeaderOk(g, voters, t);
      assert log[i] == log[..j + 1][i] == g.lead[t].log[i];
    }
  }

  /** A log whose last entry has term `t` starts with the log the leader of `t` was elected with. */
  lemma StartsWithBase(g: Hist, voters: set<NodeId>, log: Log)
    requires HistInv(g, voters) && LogOk(g, log) && LastTerm(log) >= 1
    ensures LastTerm(log) in g.lead && g.lead[LastTerm(log)].base <= log
  {
    assert |log| > 1;
    assert EntryOk(g, log, |log| - 1);
    assert LeaderOk(g, voters, LastTerm(log));
    assert log[..|log|] == log;
  }

  // ---- Leader Completeness --------------------------------------------------

  /** What a set of nodes has taken over that has a member in every majority is in the log of every
      later leader. */
  lemma {:induction false} BlockingSetKeeps(g: Hist, voters: set<NodeId>, t: Term, n: LogIndex, u: Term)
    requires HistInv(g, voters) && Own(g, t, n) && Blocks(voters, AcceptorsOf(g, voters, t, n))
    requires t < u && u in g.lead
    ensures g.lead[t].log[..n + 1] <= g.lead[u].base
    decreases u
  {
    assert LeaderOk(g, voters, u);
    var c := g.lead[u].who;
    var p := BlockMember(voters, AcceptorsOf(g, voters, t, n), VotersFor(g, voters, u, c));
    assert Voted(g, u, p, c) && Accepted(g, t, p, n);
    assert Carries(g, t, n, g.adv[(u, c)], u);
    forall w | w in g.lead && t < w < u ensures g.lead[t].log[..n + 1] <= g.lead[w].base {
      BlockingSetKeeps(g, voters, t, n, w);
    }
  }

  /** An entry committed by counting is in the log of every later leader. */
  lemma LeaderCompleteness(g: Hist, voters: set<NodeId>, t: Term, n: LogIndex, u: Term)
    requires HistInv(g, voters) && Chosen(g, voters, t, n)
    requires t < u && u in g.lead
    ensures g.lead[t].log[..n + 1] <= g.lead[u].base
  {
    BlockingSetKeeps(g, voters, t, n, u);
  }

  /** Hence two chosen prefixes never contradict each other. */
  lemma ChosenPrefixesAgree(g: Hist, voters: set<NodeId>, t: Term, n: LogIndex, u: Term)
    requires HistInv(g, voters) && Chosen(g, voters, t, n)
    requires t <= u && u in g.lead
    ensures g.lead[t].log[..n + 1] <= g.lead[u].log
  {
    assert LeaderOk(g, voters, u);
    if t < u {
      LeaderCompleteness(g, voters, t, n, u);
    }
  }

  /** The log's first `c` entries are committed by a leader of a term up to `term`. */
  ghost predicate Committed(g: Hist, log: Log, c: LogIndex, term: Term) {
    c == 0 || exists t: Term :: CommittedIn(g, log, c, t) && t <= term
  }

  ghost predicate CommittedIn(g: Hist, log: Log, c: LogIndex, t: Term) {
    t in g.lead && c <= g.lead[t].commit && c < |g.lead[t].log| && c < |log|
    && log[..c + 1] == g.lead[t].log[..c + 1]
  }

  lemma CommittedGrows(g: Hist, h: Hist, log: Log, c: LogIndex, term: Term, term': Term)
    requires Grows(g, h) && Committed(g, log, c, term) && term <= term'
    ensures Committed(h, log, c, term')
  {
    if c > 0 {
      var t: Term :| CommittedIn(g, log, c, t) && t <= term;
      assert g.lead[t].log[..c + 1] == h.lead[t].log[..c + 1];
      assert CommittedIn(h, log, c, t);
    }
  }

  /** What a node of a term up to `u` has committed is in the log of the leader of `u`. */
  lemma LeaderHasCommitted(g: Hist, voters: set<NodeId>, log: Log, c: LogIndex, u: Term)
    requires HistInv(g, voters) && Committed(g, log, c, u) && u in g.lead
    requires |log| > 0 && log[0] == SENTINEL
    ensures c < |log| && log[..c + 1] <= g.lead[u].log
  {
    assert LeaderOk(g, voters, u);
    if c > 0 {
      var t: Term :| CommittedIn(g, log, c, t) && t <= u;
      assert LeaderOk(g, voters, t);
      ChosenPrefixesAgree(g, voters, t, g.lead[t].commit, u);
      assert log[..c + 1] == g.lead[t].log[..g.lead[t].commit + 1][..c + 1];
    }
  }

  lemma LeadersAgreeOnCommits(g: Hist, voters: set<NodeId>, t: Term, u: Term, c: LogIndex)
    requires HistInv(g, voters) && t in g.lead && u in g.lead && t <= u
    requires 0 < c <= g.lead[t].commit && c < |g.lead[t].log|
    ensures c < |g.lead[u].log| && g.lead[t].log[..c + 1] == g.lead[u].log[..c + 1]
  {
    assert LeaderOk(g, voters, t);
    var n := g.lead[t].commit;
    ChosenPrefixesAgree(g, voters, t, n, u);
    assert g.lead[t].log[..c + 1] == g.lead[t].log[..n + 1][..c + 1];
  }

  /** Two committed prefixes agree as far as both go. */
  lemma CommittedLogsAgree(g: Hist, voters: set<NodeId>, a: Log, c: LogIndex, b: Log, d: LogIndex, term: Term)
    requires HistInv(g, voters) && Committed(g, a, c, term) && Committed(g, b, d, term)
    requires |a| > 0 && |b| > 0 && a[0] == b[0] == SENTINEL
    requires c <= d
    ensures c < |a| && d < |b| && a[..c + 1] == b[..c + 1]
  {
    if c > 0 {
      var t: Term :| CommittedIn(g, a, c, t) && t <= term;
      var u: Term :| CommittedIn(g, b, d, u) && u <= term;
      if t <= u {
        LeadersAgreeOnCommits(g, voters, t, u, c);
      } else {
        LeadersAgreeOnCommits(g, voters, u, t, c);
      }
      assert b[..c + 1] == b[..d + 1][..c + 1];
      assert g.lead[u].log[..c + 1] == g.lead[u].log[..d + 1][..c + 1];
    }
  }

  // ---- The truncate-or-append loop on matching logs -------------------------

  /** A follower that passes the consistency check ends with the longer of its own log and the
      leader's, if one extends the other, and with the leader's otherwise. */
  lemma MergeTakesOver(g: Hist, f: Log, m: Log, prev: LogIndex)
    requires LogOk(g, f) && LogOk(g, m)
    requires prev < |m| && prev < |f| && f[prev].term == m[prev].term
    ensures MergeEntries(f, prev, m[prev + 1..]) == if m <= f then f else m
  {
    forall i | 0 <= i < |f| && i < |m| && f[i].term == m[i].term ensures f[..i + 1] == m[..i + 1] {
      LogsMatch(g, f, m, i, i);
    }
    MergeGivesLonger(f, m, prev);
  }
}

/** Each way the history grows keeps what it says about leaders, votes and logs. */
module HistorySteps {
  import opened RaftTypes
  import opened Quorums
  import opened Membership
  import opened LogHistory
  import opened Cluster
  import opened ClusterInv

  lemma LeaderKept(g: Hist, h: Hist, voters: set<NodeId>, t: Term)
    requires Grows(g, h) && t in g.lead && LeaderOk(g, voters, t)
    requires h.lead[t] == g.lead[t] && h.acc[(t, g.lead[t].who)] == g.acc[(t, g.lead[t].who)]
    ensures LeaderOk(h, voters, t)
  {
    var l := g.lead[t];
    LogOkGrows(g, h, l.log);
    ElectedGrows(g, h, voters, t, l.who);
    if l.commit > 0 {
      ChosenGrows(g, h, voters, t, l.commit);
    }
  }

  lemma AdvKept(g: Hist, h: Hist, t: Term, c: NodeId)
    requires Grows(g, h) && AdvOk(g, t, c) && (t, c) in g.adv
    ensures AdvOk(h, t, c)
  {
    LogOkGrows(g, h, g.adv[(t, c)]);
  }

  /** A vote and an acceptance that are both old still fit together. */
  lemma OldVoteCarries(g: Hist, h: Hist, voters: set<NodeId>, u: Term, p: NodeId, c: NodeId, t: Term, n: LogIndex)
    requires HistInv(g, voters) && Grows(g, h)
    requires Voted(g, u, p, c) && Accepted(g, t, p, n) && t < u && Own(h, t, n)
    ensures (u, c) in g.adv && Carries(h, t, n, h.adv[(u, c)], u)
  {
    assert VoteOk(g, voters, u, p) && AccOk(g, voters, t, p);
    assert Own(g, t, n);
    assert Carries(g, t, n, g.adv[(u, c)], u);
    CarriesGrows(g, h, t, n, g.adv[(u, c)], u);
  }

  /** Candidacies and votes stay in order as long as nobody takes over a log after voting
      in a later term. */
  lemma BallotsKept(g: Hist, h: Hist, voters: set<NodeId>)
    requires HistInv(g, voters) && Grows(g, h) && h.adv == g.adv && h.votes == g.votes
    requires forall u, t, p | (u, p) in g.votes && (t, p) in h.acc && t < u ::
               (t, p) in g.acc && g.acc[(t, p)] == h.acc[(t, p)]
    ensures forall t, c :: AdvOk(h, t, c)
    ensures forall t, p :: VoteOk(h, voters, t, p)
    ensures VotesCarry(h)
  {
    forall t: Term, c: NodeId ensures AdvOk(h, t, c) { if (t, c) in h.adv { AdvKept(g, h, t, c); } }
    forall t, p ensures VoteOk(h, voters, t, p) { assert VoteOk(g, voters, t, p); }
    forall u, p, c, t, n: LogIndex |
      Voted(h, u, p, c) && Accepted(h, t, p, n) && Own(h, t, n) && t < u && (u, c) in h.adv
      ensures Carries(h, t, n, h.adv[(u, c)], u)
    {
      OldVoteCarries(g, h, voters, u, p, c, t, n);
    }
  }

  lemma VoteRecorded(g: Hist, voters: set<NodeId>, u: Term, p: NodeId, c: NodeId)
    requires HistInv(g, voters) && p in voters && c in voters && (u, c) in g.adv
    requires (u, p) in g.votes ==> g.votes[(u, p)] == c
    requires forall t: Term, n: LogIndex :: Accepted(g, t, p, n) && Own(g, t, n) && t < u ==> Carries(g, t, n, g.adv[(u, c)], u)
    ensures HistInv(RecordVote(g, u, p, c), voters) && GrowsBy(g, RecordVote(g, u, p, c), p)
  {
    var h := RecordVote(g, u, p, c);
    assert Grows(g, h);
    forall t | t in h.lead ensures LeaderOk(h, voters, t) { LeaderKept(g, h, voters, t); }
    forall t: Term, q: NodeId ensures AdvOk(h, t, q) { if (t, q) in h.adv { AdvKept(g, h, t, q); } }
    forall t, q ensures VoteOk(h, voters, t, q) { assert VoteOk(g, voters, t, q); }
    forall t, q ensures AccOk(h, voters, t, q) { assert AccOk(g, voters, t, q); }
    forall u', p', c', t, n: LogIndex |
      Voted(h, u', p', c') && Accepted(h, t, p', n) && Own(h, t, n) && t < u' && (u', c') in h.adv
      ensures Carries(h, t, n, h.adv[(u', c')], u')
    {
      assert Accepted(g, t, p', n) && Own(g, t, n);
      if Voted(g, u', p', c') {
        OldVoteCarries(g, h, voters, u', p', c', t, n);
      } else {
        CarriesGrows(g, h, t, n, g.adv[(u, c)], u);
      }
    }
  }

  lemma AdvRecorded(g: Hist, voters: set<NodeId>, u: Term, p: NodeId, log: Log)
    requires HistInv(g, voters)
    requires u >= 1 && LogOk(g, log) && TermsBelow(log, u) && (u, p) !in g.adv
    ensures HistInv(g.(adv := g.adv[(u, p) := log]), voters)
  {
    var a := g.(adv := g.adv[(u, p) := log]);
    assert Grows(g, a);
    LogOkGrows(g, a, log);
    forall t | t in a.lead ensures LeaderOk(a, voters, t) { LeaderKept(g, a, voters, t); }
    forall t: Term, q: NodeId ensures AdvOk(a, t, q) {
      assert AdvOk(g, t, q);
      if (t, q) in g.adv { AdvKept(g, a, t, q); }
    }
    forall t, q ensures VoteOk(a, voters, t, q) { assert VoteOk(g, voters, t, q); }
    forall t, q ensures AccOk(a, voters, t, q) { assert AccOk(g, voters, t, q); }
    forall u', p', c', t, n: LogIndex |
      Voted(a, u', p', c') && Accepted(a, t, p', n) && Own(a, t, n) && t < u' && (u', c') in a.adv
      ensures Carries(a, t, n, a.adv[(u', c')], u')
    {
      OldVoteCarries(g, a, voters, u', p', c', t, n);
    }
  }

  /** What the candidate took over its own log carries. */
  lemma OwnVoteCarries(g: Hist, a: Hist, voters: set<NodeId>, u: Term, p: NodeId, log: Log)
    requires HistInv(g, voters) && a == g.(adv := g.adv[(u, p) := log]) && (u, p) !in g.adv
    requires LogOk(g, log) && TermsBelow(log, u) && CarryInv(g, p, log)
    ensures forall t: Term, n: LogIndex :: Accepted(a, t, p, n) && Own(a, t, n) && t < u ==> Carries(a, t, n, log, u)
  {
    assert Grows(g, a);
    forall t: Term, n: LogIndex | Accepted(a, t, p, n) && Own(a, t, n) && t < u ensures Carries(a, t, n, log, u) {
      assert Accepted(g, t, p, n) && Own(g, t, n);
      CarriesGrows(g, a, t, n, log, LastTerm(log) + 1);
    }
  }

  lemma CandidacyRecorded(g: Hist, boot: Bootstrap, u: Term, p: NodeId, log: Log)
    requires HistInv(g, boot.Keys) && PlainHist(g, boot) && p in boot
    requires u >= 1 && LogOk(g, log) && TermsBelow(log, u) && PlainLog(boot, log)
    requires (u, p) !in g.adv && (u, p) !in g.votes
    requires CarryInv(g, p, log)
    ensures HistInv(RecordCandidacy(g, u, p, log), boot.Keys) && PlainHist(RecordCandidacy(g, u, p, log), boot)
    ensures GrowsBy(g, RecordCandidacy(g, u, p, log), p)
  {
    var a := g.(adv := g.adv[(u, p) := log]);
    AdvRecorded(g, boot.Keys, u, p, log);
    OwnVoteCarries(g, a, boot.Keys, u, p, log);
    VoteRecorded(a, boot.Keys, u, p, p);
  }

  /** A node that has not voted beyond `t` may take over more of the log of the leader of `t`. */
  lemma AcceptRecorded(g: Hist, boot: Bootstrap, t: Term, p: NodeId, n: LogIndex)
    requires HistInv(g, boot.Keys) && PlainHist(g, boot) && p in boot && Own(g, t, n)
    requires forall u | (u, p) in g.votes :: u <= t
    ensures HistInv(RecordAccept(g, t, p, n), boot.Keys) && PlainHist(RecordAccept(g, t, p, n), boot)
    ensures GrowsBy(g, RecordAccept(g, t, p, n), p)
  {
    var voters := boot.Keys;
    var h := RecordAccept(g, t, p, n);
    assert LeaderOk(g, voters, t);
    assert Grows(g, h);
    if Accepted(g, t, p, n) {
    } else {
      forall t' | t' in h.lead ensures LeaderOk(h, voters, t') { LeaderKept(g, h, voters, t'); }
      forall t', q ensures AccOk(h, voters, t', q) { assert AccOk(g, voters, t', q); }
      BallotsKept(g, h, voters);
    }
  }

  /** Only the leadership of term `t` has changed. */
  lemma OneLeadChanges(g: Hist, h: Hist, boot: Bootstrap, t: Term)
    requires HistInv(g, boot.Keys) && PlainHist(g, boot) && Grows(g, h) && h.adv == g.adv && h.votes == g.votes
    requires t in h.lead && LeaderOk(h, boot.Keys, t) && PlainLog(boot, h.lead[t].log)
    requires forall u | u in h.lead && u != t :: u in g.lead && h.lead[u] == g.lead[u]
    requires forall k | k in h.acc && k.0 != t :: k in g.acc && h.acc[k] == g.acc[k]
    requires forall q :: AccOk(h, boot.Keys, t, q)
    requires forall u, q | (u, q) in g.votes && (t, q) in h.acc && t < u :: (t, q) in g.acc && g.acc[(t, q)] == h.acc[(t, q)]
    ensures HistInv(h, boot.Keys) && PlainHist(h, boot)
  {
    var voters := boot.Keys;
    forall u | u in h.lead ensures LeaderOk(h, voters, u) {
      if u != t {
        assert LeaderOk(g, voters, u);
        LeaderKept(g, h, voters, u);
      }
    }
    forall u, q ensures AccOk(h, voters, u, q) { assert AccOk(g, voters, u, q); }
    BallotsKept(g, h, voters);
  }

  /** A leader's log made of what it was elected with and of entries of its own is in order. */
  lemma OwnLogOk(g: Hist, h: Hist, t: Term, l: Leadership)
    requires Grows(g, h) && t in h.lead && h.lead[t] == l && 1 <= |l.base| < |l.log| && l.base <= l.log && LogOk(g, l.base)
    requires l.log[0] == SENTINEL && forall i | |l.base| <= i < |l.log| :: l.log[i].term == t
    ensures LogOk(h, l.log)
  {
    LogOkGrows(g, h, l.base);
    forall i | 1 <= i < |l.log| ensures EntryOk(h, l.log, i) {
      if i < |l.base| {
        assert EntryOk(h, l.base, i);
        assert l.log[..i + 1] == l.base[..i + 1];
      }
    }
  }

  /** The leader log of term `t` becomes longer, or starts, by the doing of its leader `p`. */
  lemma LeadRecorded(g: Hist, h: Hist, boot: Bootstrap, t: Term, p: NodeId, l: Leadership)
    requires HistInv(g, boot.Keys) && PlainHist(g, boot)
    requires |l.log| > 0 && h == g.(lead := g.lead[t := l], acc := g.acc[(t, p) := |l.log| - 1])
    requires Grows(g, h) && l.who == p && p in boot
    requires forall u | (u, p) in g.votes :: u <= t
    requires t >= 1 && l.log[0] == SENTINEL && PlainLog(boot, l.log)
    requires 1 <= |l.base| < |l.log| && l.base <= l.log && LogOk(g, l.base) && TermsBelow(l.base, t)
    requires forall i | |l.base| <= i < |l.log| :: l.log[i].term == t
    requires (t, p) in g.adv && g.adv[(t, p)] == l.base
    requires IsQuorum(boot.Keys, VotersFor(g, boot.Keys, t, p))
    requires l.commit == 0 || (t in g.lead && g.lead[t].commit == l.commit)
    ensures HistInv(h, boot.Keys) && PlainHist(h, boot) && GrowsBy(g, h, p)
  {
    var voters := boot.Keys;
    OwnLogOk(g, h, t, l);
    ElectedGrows(g, h, voters, t, p);
    if l.commit > 0 {
      assert LeaderOk(g, voters, t);
      ChosenGrows(g, h, voters, t, l.commit);
    }
    assert LeaderOk(h, voters, t);
    forall q ensures AccOk(h, voters, t, q) { assert AccOk(g, voters, t, q); }
    OneLeadChanges(g, h, boot, t);
  }

  lemma CommitRecorded(g: Hist, boot: Bootstrap, t: Term, n: LogIndex)
    requires HistInv(g, boot.Keys) && PlainHist(g, boot) && Chosen(g, boot.Keys, t, n) && g.lead[t].commit <= n
    ensures HistInv(RecordCommit(g, t, n), boot.Keys) && PlainHist(RecordCommit(g, t, n), boot)
    ensures GrowsBy(g, RecordCommit(g, t, n), g.lead[t].who)
  {
    var voters := boot.Keys;
    var h := RecordCommit(g, t, n);
    assert Grows(g, h);
    ChosenGrows(g, h, voters, t, n);
    assert LeaderOk(g, voters, t);
    LogOkGrows(g, h, g.lead[t].log);
    ElectedGrows(g, h, voters, t, g.lead[t].who);
    forall q ensures AccOk(h, voters, t, q) { assert AccOk(g, voters, t, q); }
    OneLeadChanges(g, h, boot, t);
  }

  /** That a leader was handed a late reply says nothing about logs and votes. */
  lemma LateRecorded(g: Hist, h: Hist, boot: Bootstrap)
    requires HistInv(g, boot.Keys) && PlainHist(g, boot) && h == g.(late := h.late, over := h.over) && Grows(g, h)
    ensures HistInv(h, boot.Keys) && PlainHist(h, boot)
  {
    var voters := boot.Keys;
    forall t | t in h.lead ensures LeaderOk(h, voters, t) { LeaderKept(g, h, voters, t); }
    forall t, p ensures AccOk(h, voters, t, p) { assert AccOk(g, voters, t, p); }
    BallotsKept(g, h, voters);
  }
}

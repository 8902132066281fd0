/** Whom a node takes for the leader: the hint it gives to clients and goes by when asked for a vote. */
module Hints {
  import opened RaftTypes
  import opened Membership
  import opened NodeSpec
  import opened LogHistory
  import opened Cluster
  import opened ClusterInv
  import opened CommitSteps
  import opened LeaderContact

  /** The hint names a node that has led a term, no later than the node's own. A leader names itself, and a
      node that has taken entries over in its term names the leader of the term. */
  ghost predicate HintOk(g: Hist, p: NodeId, s: NodeState) {
    && (s.hint != NO_NODE ==> exists t: Term :: t <= s.term && Won(g, s.hint, t))
    && (s.role == Leader ==> s.hint == p)
    && ((s.term, p) in g.acc ==> Won(g, s.hint, s.term))
  }

  ghost predicate HintsOk(c: ClusterState) {
    forall p {:trigger HintOk(c.hist, p, c.nodes[p])} | p in c.nodes :: HintOk(c.hist, p, c.nodes[p])
  }

  /** The history of one node's takeovers is its own doing. */
  ghost predicate TakeoversOf(g: Hist, h: Hist, p: NodeId) {
    forall k | k in h.acc && k !in g.acc :: k.1 == p
  }

  lemma OthersTakeNothingOver(c: ClusterState, boot: Bootstrap, step: Step)
    requires Inv(c, boot) && Enabled(c, step)
    ensures TakeoversOf(c.hist, TakeStep(c, step).hist, Actor(step))
  {
    StandingFor(c, boot, step);
  }

  lemma HintStands(g: Hist, h: Hist, p: NodeId, s: NodeState, s': NodeState)
    requires HintOk(g, p, s) && TermInv(g, p, s.term) && Grows(g, h) && s'.hint == s.hint && s.term <= s'.term
    requires (s'.role == Leader ==> s.role == Leader) && h.acc.Keys == g.acc.Keys
    ensures HintOk(h, p, s')
  {
    if s.hint != NO_NODE {
      var t: Term :| t <= s.term && Won(g, s.hint, t);
      assert t <= s'.term && Won(h, s'.hint, t);
    }
  }

  lemma NewHint(h: Hist, p: NodeId, s: NodeState)
    requires Won(h, s.hint, s.term) && (s.role == Leader ==> s.hint == p)
    ensures HintOk(h, p, s)
  {
  }

  // ---- Steps ----------------------------------------------------------------

  lemma StandingFor(c: ClusterState, boot: Bootstrap, step: Step)
    requires Inv(c, boot) && Enabled(c, step)
    ensures Grows(c.hist, TakeStep(c, step).hist)
    ensures c.nodes[Actor(step)].id == Actor(step) && TermInv(c.hist, Actor(step), c.nodes[Actor(step)].term)
  {
    AloneInCluster(c, boot, Actor(step));
    StepsKeepInv(c, boot, step);
  }

  /** A vote reply that makes its candidate leader is recorded as a win; any other records no takeover. */
  lemma VoteReplyOutcome(c: ClusterState, a: VoteAnswer)
    requires Enabled(c, VoteReplyArrives(a)) && c.nodes[a.call.src].id == a.call.src
    ensures var c' := TakeStep(c, VoteReplyArrives(a));
            && a.call.src in c'.nodes
            && var (s, s') := (c.nodes[a.call.src], c'.nodes[a.call.src]);
            if s.role != Leader && s'.role == Leader then Won(c'.hist, s'.hint, s'.term) && s'.hint == a.call.src
            else s'.hint == s.hint && s.term <= s'.term && (s'.role == Leader ==> s.role == Leader)
                 && c'.hist.acc.Keys == c.hist.acc.Keys
  {
  }

  lemma VoteReplyHint(c: ClusterState, boot: Bootstrap, a: VoteAnswer)
    requires Inv(c, boot) && Enabled(c, VoteReplyArrives(a)) && HintOk(c.hist, a.call.src, c.nodes[a.call.src])
    ensures var c' := TakeStep(c, VoteReplyArrives(a)); HintOk(c'.hist, a.call.src, c'.nodes[a.call.src])
  {
    var p, c' := a.call.src, TakeStep(c, VoteReplyArrives(a));
    var s, s' := c.nodes[p], c'.nodes[p];
    StandingFor(c, boot, VoteReplyArrives(a));
    VoteReplyOutcome(c, a);
    if s.role != Leader && s'.role == Leader {
      NewHint(c'.hist, p, s');
    } else {
      HintStands(c.hist, c'.hist, p, s, s');
    }
  }

  lemma AppendHint(c: ClusterState, boot: Bootstrap, m: AppendCall)
    requires Inv(c, boot) && Enabled(c, AppendArrives(m)) && HintOk(c.hist, m.dst, c.nodes[m.dst])
    ensures var c' := TakeStep(c, AppendArrives(m)); HintOk(c'.hist, m.dst, c'.nodes[m.dst])
  {
    var p, c' := m.dst, TakeStep(c, AppendArrives(m));
    var s, s' := c.nodes[p], c'.nodes[p];
    AloneInCluster(c, boot, p);
    assert AppendCallOk(c.hist, boot, m);
    StepsKeepInv(c, boot, AppendArrives(m));
    RequestEndsOfficeIff(s, m.args);
    if m.args.term >= s.term {
      AppendWon(c, boot, m);
      NewHint(c'.hist, p, s');
    } else {
      HintStands(c.hist, c'.hist, p, s, s');
    }
  }

  /** The sender of a request was elected in its term; a node that leads that term is the sender. */
  lemma AppendWon(c: ClusterState, boot: Bootstrap, m: AppendCall)
    requires Inv(c, boot) && Enabled(c, AppendArrives(m)) && m.args.term >= c.nodes[m.dst].term
    ensures var c' := TakeStep(c, AppendArrives(m));
            && Won(c'.hist, m.args.leader, m.args.term)
            && (c.nodes[m.dst].role == Leader && c.nodes[m.dst].term == m.args.term ==> m.args.leader == m.dst)
  {
    AloneInCluster(c, boot, m.dst);
    assert AppendCallOk(c.hist, boot, m);
    StepsKeepInv(c, boot, AppendArrives(m));
  }

  lemma AnswerHint(c: ClusterState, boot: Bootstrap, a: AppendAnswer)
    requires Inv(c, boot) && Enabled(c, AppendReplyArrives(a)) && HintOk(c.hist, a.call.src, c.nodes[a.call.src])
    ensures var c' := TakeStep(c, AppendReplyArrives(a)); HintOk(c'.hist, a.call.src, c'.nodes[a.call.src])
  {
    var p, c' := a.call.src, TakeStep(c, AppendReplyArrives(a));
    StandingFor(c, boot, AppendReplyArrives(a));
    AnswerKeepsHint(c.nodes[p], a.call.dst, a.call.args, a.reply);
    HintStands(c.hist, c'.hist, p, c.nodes[p], c'.nodes[p]);
  }

  lemma AnswerKeepsHint(s: NodeState, q: NodeId, a: AppendArgs, reply: AppendReply)
    requires |s.log| > 0
    ensures var s' := HandleAppendReply(s, q, a, reply).0;
            s'.hint == s.hint && s.term <= s'.term && (s'.role == Leader ==> s.role == Leader)
  {
  }

  lemma VoteHint(c: ClusterState, boot: Bootstrap, m: VoteCall, inContact: bool)
    requires Inv(c, boot) && Enabled(c, VoteArrives(m, inContact)) && HintOk(c.hist, m.dst, c.nodes[m.dst])
    ensures var c' := TakeStep(c, VoteArrives(m, inContact)); HintOk(c'.hist, m.dst, c'.nodes[m.dst])
  {
    var p, c' := m.dst, TakeStep(c, VoteArrives(m, inContact));
    StandingFor(c, boot, VoteArrives(m, inContact));
    VoteIff(c.nodes[p], m.args, inContact);
    HintStands(c.hist, c'.hist, p, c.nodes[p], c'.nodes[p]);
  }

  predicate Received(step: Step) {
    step.VoteArrives? || step.VoteReplyArrives? || step.AppendArrives? || step.AppendReplyArrives?
  }

  lemma QuietHint(c: ClusterState, boot: Bootstrap, step: Step)
    requires Inv(c, boot) && Enabled(c, step) && !Received(step) && HintOk(c.hist, Actor(step), c.nodes[Actor(step)])
    ensures Actor(step) in TakeStep(c, step).nodes
    ensures var c' := TakeStep(c, step); HintOk(c'.hist, Actor(step), c'.nodes[Actor(step)])
  {
    var p, c' := Actor(step), TakeStep(c, step);
    StandingFor(c, boot, step);
    QuietKeepsTakeovers(c, boot, step);
    QuietKeepsHint(c, step);
    HintStands(c.hist, c'.hist, p, c.nodes[p], c'.nodes[p]);
  }

  lemma QuietKeepsHint(c: ClusterState, step: Step)
    requires Enabled(c, step) && !Received(step)
    ensures Actor(step) in TakeStep(c, step).nodes
    ensures var (s, s') := (c.nodes[Actor(step)], TakeStep(c, step).nodes[Actor(step)]);
            s'.hint == s.hint && s.term <= s'.term && (s'.role == Leader ==> s.role == Leader)
  {
  }

  lemma QuietKeepsTakeovers(c: ClusterState, boot: Bootstrap, step: Step)
    requires Inv(c, boot) && Enabled(c, step) && !Received(step)
    ensures TakeStep(c, step).hist.acc.Keys == c.hist.acc.Keys
  {
    AloneInCluster(c, boot, Actor(step));
    if step.ClientSubmits? && c.nodes[step.p].term in c.hist.lead {
      assert LeaderOk(c.hist, boot.Keys, c.nodes[step.p].term);
    }
  }

  lemma StepKeepsHints(c: ClusterState, boot: Bootstrap, step: Step)
    requires Inv(c, boot) && HintsOk(c) && Enabled(c, step)
    ensures HintsOk(TakeStep(c, step))
  {
    var c', p := TakeStep(c, step), Actor(step);
    assert HintOk(c.hist, p, c.nodes[p]);
    if step.VoteArrives? {
      VoteHint(c, boot, step.voteCall, step.inContact);
    } else if step.VoteReplyArrives? {
      VoteReplyHint(c, boot, step.voteAnswer);
    } else if step.AppendArrives? {
      AppendHint(c, boot, step.call);
    } else if step.AppendReplyArrives? {
      AnswerHint(c, boot, step.answer);
    } else {
      QuietHint(c, boot, step);
    }
    StepsKeepInv(c, boot, step);
    OthersStand(c, step);
    OthersTakeNothingOver(c, boot, step);
    forall q | q in c'.nodes ensures HintOk(c'.hist, q, c'.nodes[q]) {
      if q != p { OtherHint(c.hist, c'.hist, p, q, c.nodes[q]); }
    }
  }

  lemma OtherHint(g: Hist, h: Hist, p: NodeId, q: NodeId, s: NodeState)
    requires HintOk(g, q, s) && Grows(g, h) && TakeoversOf(g, h, p) && q != p
    ensures HintOk(h, q, s)
  {
    if s.hint != NO_NODE {
      var t: Term :| t <= s.term && Won(g, s.hint, t);
      assert Won(h, s.hint, t);
    }
    if (s.term, q) in h.acc { assert (s.term, q).1 != p; }
  }

  lemma NextKeepsHints(c: ClusterState, boot: Bootstrap, c': ClusterState)
    requires Inv(c, boot) && HintsOk(c) && Next(c, c')
    ensures HintsOk(c')
  {
    var step :| Enabled(c, step) && c' == TakeStep(c, step);
    StepKeepsHints(c, boot, step);
  }

  lemma {:induction false} HintsInRun(r: seq<ClusterState>, boot: Bootstrap, i: nat)
    requires Run(r, boot) && i < |r|
    ensures HintsOk(r[i])
  {
    if i == 0 {
      forall p | p in r[0].nodes ensures HintOk(r[0].hist, p, r[0].nodes[p]) { assert Unused(boot, p, r[0].nodes[p]); }
    } else {
      HintsInRun(r, boot, i - 1);
      RunHasInv(r, boot, i - 1);
      assert StepAt(r, i - 1);
      NextKeepsHints(r[i - 1], boot, r[i]);
    }
  }

  // ---- In every run ---------------------------------------------------------

  /** In every state of every run, whoever a node takes for the leader has led a term no later than the node's
      own, a leader takes itself for it, and a node that has taken entries over in its term takes the leader of
      that term for it, which whoever leads the term is. */
  lemma HintNamesALeader(r: seq<ClusterState>, boot: Bootstrap, i: nat, p: NodeId, q: NodeId)
    requires Run(r, boot) && i < |r| && p in r[i].nodes && q in r[i].nodes
    ensures var (s, g) := (r[i].nodes[p], r[i].hist);
            && (s.hint != NO_NODE ==> exists t: Term :: t <= s.term && Won(g, s.hint, t))
            && (s.role == Leader ==> s.hint == p)
            && ((s.term, p) in g.acc && r[i].nodes[q].role == Leader && r[i].nodes[q].term == s.term ==> s.hint == q)
  {
    RunHasInv(r, boot, i);
    HintsInRun(r, boot, i);
    assert HintOk(r[i].hist, p, r[i].nodes[p]);
    AloneInCluster(r[i], boot, q);
  }

  lemma StepKeepsHint(c: ClusterState, boot: Bootstrap, step: Step)
    requires Inv(c, boot) && Enabled(c, step) && c.nodes[Actor(step)].hint != NO_NODE
    ensures Actor(step) in TakeStep(c, step).nodes && TakeStep(c, step).nodes[Actor(step)].hint != NO_NODE
  {
    var s := c.nodes[Actor(step)];
    AloneInCluster(c, boot, Actor(step));
    if step.VoteArrives? {
      VoteIff(s, step.voteCall.args, step.inContact);
    } else if step.AppendArrives? {
      assert AppendCallOk(c.hist, boot, step.call);
      RequestEndsOfficeIff(s, step.call.args);
    } else if step.AppendReplyArrives? {
      AnswerKeepsHint(s, step.answer.call.dst, step.answer.call.args, step.answer.reply);
    } else if step.VoteReplyArrives? {
      VoteReplyKeepsHint(s, step.voteAnswer.call.args.term, step.voteAnswer.reply);
    } else {
      QuietKeepsHint(c, step);
    }
  }

  lemma VoteReplyKeepsHint(s: NodeState, t: Term, reply: VoteReply)
    ensures var s' := HandleVoteReply(s, t, reply); s'.hint == s.hint || (s'.hint == s.id && s'.role == Leader)
  {
  }

  lemma HintKeptOnce(r: seq<ClusterState>, boot: Bootstrap, i: nat, p: NodeId)
    requires Run(r, boot) && i + 1 < |r| && p in r[i].nodes && r[i].nodes[p].hint != NO_NODE
    ensures p in r[i + 1].nodes && r[i + 1].nodes[p].hint != NO_NODE
  {
    RunHasInv(r, boot, i);
    assert StepAt(r, i);
    var step :| Enabled(r[i], step) && r[i + 1] == TakeStep(r[i], step);
    OthersStand(r[i], step);
    if Actor(step) == p { StepKeepsHint(r[i], boot, step); }
  }

  /** A node that has heard of a leader never forgets that there is one, whatever it becomes. */
  lemma {:induction false} HintIsKept(r: seq<ClusterState>, boot: Bootstrap, i: nat, j: nat, p: NodeId)
    requires Run(r, boot) && i <= j < |r| && p in r[i].nodes && r[i].nodes[p].hint != NO_NODE
    ensures p in r[j].nodes && r[j].nodes[p].hint != NO_NODE
    decreases j - i
  {
    if i < j {
      HintIsKept(r, boot, i, j - 1, p);
      HintKeptOnce(r, boot, j - 1, p);
    }
  }
}

/** The entries every log begins with, by which a node that joins with no cluster of its own learns of the
    founders. */
module Founding {
  import opened RaftTypes
  import opened Quorums
  import opened Membership
  import opened NodeSpec
  import opened LogHistory
  import opened Cluster
  import opened ClusterInv
  import opened ReplicationSteps
  import opened CommitSteps
  import opened LeaderContact
  import Configuration

  /** The log is empty but for the sentinel, or begins with the founding block, written in one term. */
  ghost predicate Founded(boot: Bootstrap, log: Log) {
    |log| == 1 || (|log| > 1 && [SENTINEL] + FoundingBlock(boot, log[1].term) <= log)
  }

  ghost predicate FoundedLead(boot: Bootstrap, l: Leadership) {
    Founded(boot, l.base) && Founded(boot, l.log)
  }

  /** So do the logs nodes have, stood with and led with, and what requests offer. */
  ghost predicate AllFounded(c: ClusterState, boot: Bootstrap) {
    && (forall p | p in c.nodes :: Founded(boot, c.nodes[p].log))
    && (forall k | k in c.hist.adv :: Founded(boot, c.hist.adv[k]))
    && (forall t | t in c.hist.lead :: FoundedLead(boot, c.hist.lead[t]))
    && (forall m | m in c.calls :: OffersFounded(c.hist, boot, m))
  }

  ghost predicate OffersFounded(g: Hist, boot: Bootstrap, m: AppendCall) {
    m.args.term in g.lead && Reach(m.args) < |g.lead[m.args.term].log| && Founded(boot, Offered(g, m.args))
  }

  // ---- Logs that grow -------------------------------------------------------

  lemma FoundedExtends(boot: Bootstrap, log: Log, es: seq<Entry>)
    requires Founded(boot, log) && |log| > 1
    ensures Founded(boot, log + es)
  {
    assert (log + es)[1] == log[1];
  }

  lemma FirstLogFounded(boot: Bootstrap, term: Term)
    requires boot != map[]
    ensures Founded(boot, [SENTINEL] + LeaderPreamble(boot, [SENTINEL], term))
  {
    var block := FoundingBlock(boot, term);
    SortedNotEmpty(boot);
    assert block[0] in block;
    FoundingIsPlain(boot, term);
    var log := [SENTINEL] + LeaderPreamble(boot, [SENTINEL], term);
    assert log == [SENTINEL] + block + [NoOp(term)];
    assert log[1] == block[0];
  }

  lemma SortedNotEmpty(boot: Bootstrap)
    requires boot != map[]
    ensures SortedIds(boot.Keys) != []
  {
    assert boot.Keys != {};
    var x := Pick(boot.Keys);
    assert x in SortedIds(boot.Keys);
  }

  lemma WinnerFounded(boot: Bootstrap, log: Log, term: Term)
    requires Founded(boot, log) && boot != map[] && log[0] == SENTINEL
    ensures Founded(boot, log + LeaderPreamble(boot, log, term))
  {
    if |log| == 1 {
      assert log == [SENTINEL];
      FirstLogFounded(boot, term);
    } else {
      FoundedExtends(boot, log, LeaderPreamble(boot, log, term));
    }
  }

  // ---- Steps ----------------------------------------------------------------

  lemma NodeFounded(c: ClusterState, boot: Bootstrap, p: NodeId)
    requires Inv(c, boot) && AllFounded(c, boot) && p in c.nodes
    ensures Founded(boot, c.nodes[p].log) && LogOk(c.hist, c.nodes[p].log) && c.nodes[p].bootstrap == boot && boot != map[]
  {
    AloneInCluster(c, boot, p);
  }

  lemma WonLogFounded(c: ClusterState, boot: Bootstrap, a: VoteAnswer)
    requires Inv(c, boot) && AllFounded(c, boot) && Enabled(c, VoteReplyArrives(a))
    ensures Founded(boot, HandleVoteReply(c.nodes[a.call.src], a.call.args.term, a.reply).log)
  {
    var s := c.nodes[a.call.src];
    NodeFounded(c, boot, a.call.src);
    WinnerFounded(boot, s.log, s.term);
    Configuration.VoteReplyOutcomes(s, a.call.args.term, a.reply);
  }

  lemma TakenOverFounded(c: ClusterState, boot: Bootstrap, m: AppendCall)
    requires Inv(c, boot) && AllFounded(c, boot) && Enabled(c, AppendArrives(m))
    ensures Founded(boot, HandleAppend(c.nodes[m.dst], m.args).0.log)
  {
    var s := c.nodes[m.dst];
    NodeFounded(c, boot, m.dst);
    assert AppendCallOk(c.hist, boot, m) && OffersFounded(c.hist, boot, m);
    Configuration.AppendedLog(s, m.args);
    if m.args.term >= s.term && Accepts(s.log, m.args.prevIndex, m.args.prevTerm) { MergeOk(c.hist, boot, m, s.log); }
  }

  lemma SubmittedFounded(c: ClusterState, boot: Bootstrap, p: NodeId, cmd: Command)
    requires Inv(c, boot) && AllFounded(c, boot) && Enabled(c, ClientSubmits(p, cmd))
    ensures Founded(boot, Submit(c.nodes[p], cmd).log)
  {
    var s := c.nodes[p];
    NodeFounded(c, boot, p);
    AloneInCluster(c, boot, p);
    assert LeaderOk(c.hist, boot.Keys, s.term);
    FoundedExtends(boot, s.log, [Entry(Normal, s.term, cmd)]);
  }

  predicate ChangesLog(step: Step) {
    step.VoteReplyArrives? || step.AppendArrives? || step.ClientSubmits?
  }

  lemma OthersKeepLog(c: ClusterState, step: Step)
    requires Enabled(c, step) && !ChangesLog(step)
    ensures Actor(step) in TakeStep(c, step).nodes
    ensures TakeStep(c, step).nodes[Actor(step)].log == c.nodes[Actor(step)].log
  {
    if step.VoteArrives? {
      VoteIff(c.nodes[Actor(step)], step.voteCall.args, step.inContact);
    } else if step.AppendReplyArrives? {
      AnswerKeepsLog(c.nodes[Actor(step)], step.answer.call.dst, step.answer.call.args, step.answer.reply);
    } else {
      QuietKeepsLog(c, step);
    }
  }

  lemma AnswerKeepsLog(s: NodeState, q: NodeId, a: AppendArgs, reply: AppendReply)
    requires |s.log| > 0
    ensures HandleAppendReply(s, q, a, reply).0.log == s.log
  {
  }

  lemma QuietKeepsLog(c: ClusterState, step: Step)
    requires Enabled(c, step) && !ChangesLog(step) && !step.VoteArrives? && !step.AppendReplyArrives?
    ensures Actor(step) in TakeStep(c, step).nodes
    ensures TakeStep(c, step).nodes[Actor(step)].log == c.nodes[Actor(step)].log
  {
  }

  lemma ActorFounded(c: ClusterState, boot: Bootstrap, step: Step)
    requires Inv(c, boot) && AllFounded(c, boot) && Enabled(c, step)
    ensures Actor(step) in TakeStep(c, step).nodes && Founded(boot, TakeStep(c, step).nodes[Actor(step)].log)
  {
    NodeFounded(c, boot, Actor(step));
    if step.VoteReplyArrives? {
      WonLogFounded(c, boot, step.voteAnswer);
    } else if step.AppendArrives? {
      TakenOverFounded(c, boot, step.call);
    } else if step.ClientSubmits? {
      SubmittedFounded(c, boot, step.p, step.command);
    } else {
      OthersKeepLog(c, step);
    }
  }

  lemma IdOf(c: ClusterState, boot: Bootstrap, p: NodeId)
    requires Inv(c, boot) && p in c.nodes
    ensures c.nodes[p].id == p
  {
    AloneInCluster(c, boot, p);
  }

  /** A candidacy that the step records is with the actor's log. */
  lemma NewCandidacies(c: ClusterState, step: Step)
    requires Enabled(c, step)
    ensures forall k | k in TakeStep(c, step).hist.adv && !(k in c.hist.adv && TakeStep(c, step).hist.adv[k] == c.hist.adv[k]) ::
              TakeStep(c, step).hist.adv[k] == c.nodes[Actor(step)].log
  {
  }

  /** A leadership that the step records has the logs the actor had and has. */
  ghost predicate LeadsWith(g: Hist, l: Leadership, t: Term, s: NodeState, s': NodeState) {
    && (l.log == s'.log || (t in g.lead && l.log == g.lead[t].log))
    && (l.base == s.log || (t in g.lead && l.base == g.lead[t].base))
  }

  lemma NewLeaderships(c: ClusterState, step: Step)
    requires Enabled(c, step) && c.nodes[Actor(step)].id == Actor(step)
    ensures Actor(step) in TakeStep(c, step).nodes
    ensures forall t | t in TakeStep(c, step).hist.lead ::
              LeadsWith(c.hist, TakeStep(c, step).hist.lead[t], t, c.nodes[Actor(step)], TakeStep(c, step).nodes[Actor(step)])
  {
    if !step.VoteReplyArrives? && !step.ClientSubmits? && !step.AppendReplyArrives? {
      OthersKeepLeads(c, step);
    }
  }

  lemma OthersKeepLeads(c: ClusterState, step: Step)
    requires Enabled(c, step) && !step.VoteReplyArrives? && !step.ClientSubmits? && !step.AppendReplyArrives?
    ensures Actor(step) in TakeStep(c, step).nodes && TakeStep(c, step).hist.lead == c.hist.lead
  {
  }

  lemma CandidaciesFounded(c: ClusterState, boot: Bootstrap, step: Step)
    requires Inv(c, boot) && AllFounded(c, boot) && Enabled(c, step)
    ensures forall k | k in TakeStep(c, step).hist.adv :: Founded(boot, TakeStep(c, step).hist.adv[k])
  {
    NodeFounded(c, boot, Actor(step));
    NewCandidacies(c, step);
  }

  lemma LeadershipsFounded(c: ClusterState, boot: Bootstrap, step: Step)
    requires Inv(c, boot) && AllFounded(c, boot) && Enabled(c, step)
    ensures forall t | t in TakeStep(c, step).hist.lead :: FoundedLead(boot, TakeStep(c, step).hist.lead[t])
  {
    var g, h := c.hist, TakeStep(c, step).hist;
    IdOf(c, boot, Actor(step));
    NodeFounded(c, boot, Actor(step));
    ActorFounded(c, boot, step);
    NewLeaderships(c, step);
    forall t | t in h.lead ensures FoundedLead(boot, h.lead[t]) {
      if t in g.lead { assert FoundedLead(boot, g.lead[t]); }
      assert LeadsWith(g, h.lead[t], t, c.nodes[Actor(step)], TakeStep(c, step).nodes[Actor(step)]);
    }
  }

  lemma OfferKept(g: Hist, h: Hist, boot: Bootstrap, m: AppendCall)
    requires OffersFounded(g, boot, m) && Grows(g, h)
    ensures OffersFounded(h, boot, m)
  {
    assert g.lead[m.args.term].log <= h.lead[m.args.term].log;
    assert Offered(h, m.args) == Offered(g, m.args);
  }

  lemma SentFounded(c: ClusterState, boot: Bootstrap, p: NodeId, q: NodeId)
    requires Inv(c, boot) && AllFounded(c, boot) && Enabled(c, SendStarts(p, q))
    ensures var s := c.nodes[p]; OffersFounded(c.hist, boot, AppendCall(c.clock, p, q, AppendRequest(s, q), MatchOf(s, q)))
  {
    var s := c.nodes[p];
    NodeFounded(c, boot, p);
    AloneInCluster(c, boot, p);
    var a := AppendRequest(s, q);
    assert Reach(a) == |s.log| - 1 && s.log[..|s.log|] == s.log;
    assert Offered(c.hist, a) == s.log;
  }

  lemma OnlySendsCall(c: ClusterState, step: Step, m: AppendCall)
    requires Enabled(c, step) && m in TakeStep(c, step).calls && m !in c.calls
    ensures step.SendStarts?
    ensures var s := c.nodes[step.p]; m == AppendCall(c.clock, step.p, step.q, AppendRequest(s, step.q), MatchOf(s, step.q))
  {
  }

  lemma StepKeepsFounded(c: ClusterState, boot: Bootstrap, step: Step)
    requires Inv(c, boot) && AllFounded(c, boot) && Enabled(c, step)
    ensures AllFounded(TakeStep(c, step), boot)
  {
    var c' := TakeStep(c, step);
    StepsKeepInv(c, boot, step);
    ActorFounded(c, boot, step);
    CandidaciesFounded(c, boot, step);
    LeadershipsFounded(c, boot, step);
    OthersStand(c, step);
    forall m | m in c'.calls ensures OffersFounded(c'.hist, boot, m) {
      if m !in c.calls {
        OnlySendsCall(c, step, m);
        SentFounded(c, boot, step.p, step.q);
      }
      OfferKept(c.hist, c'.hist, boot, m);
    }
  }

  lemma NextKeepsFounded(c: ClusterState, boot: Bootstrap, c': ClusterState)
    requires Inv(c, boot) && AllFounded(c, boot) && Next(c, c')
    ensures AllFounded(c', boot)
  {
    var step :| Enabled(c, step) && c' == TakeStep(c, step);
    StepKeepsFounded(c, boot, step);
  }

  // ---- In every run ---------------------------------------------------------

  /** In every state of every run, a log that has any entry begins with the founding entries of the cluster. */
  lemma {:induction false} FoundedInRun(r: seq<ClusterState>, boot: Bootstrap, i: nat)
    requires Run(r, boot) && i < |r|
    ensures AllFounded(r[i], boot)
  {
    if i == 0 {
      forall p | p in r[0].nodes ensures Founded(boot, r[0].nodes[p].log) { assert Unused(boot, p, r[0].nodes[p]); }
    } else {
      FoundedInRun(r, boot, i - 1);
      RunHasInv(r, boot, i - 1);
      assert StepAt(r, i - 1);
      NextKeepsFounded(r[i - 1], boot, r[i]);
    }
  }

  /** So a node that was started with no cluster of its own and has any such log of any run works with the
      cluster the founders were started with. */
  lemma JoinerLearnsFounders(r: seq<ClusterState>, boot: Bootstrap, i: nat, p: NodeId)
    requires Run(r, boot) && i < |r| && p in r[i].nodes && |r[i].nodes[p].log| > 1
    ensures [SENTINEL] + FoundingBlock(boot, r[i].nodes[p].log[1].term) <= r[i].nodes[p].log
    ensures Replay(map[], r[i].nodes[p].log) == Replay(boot, r[i].nodes[p].log) == BootMembers(boot)
  {
    var log := r[i].nodes[p].log;
    FoundedInRun(r, boot, i);
    RunHasInv(r, boot, i);
    AloneInCluster(r[i], boot, p);
    PlainLogKeepsBootstrap(boot, log);
    var head := [SENTINEL] + FoundingBlock(boot, log[1].term);
    assert log == head + log[|head|..];
    JoinerAgreesWithFounder(boot, log[1].term, log[|head|..]);
  }
}

/** Late acknowledgements that split a cluster of five or more: why the assumption on timing is there. */
module LateSplits {
  import opened RaftTypes
  import opened Quorums
  import opened Membership
  import opened NodeSpec
  import opened Cluster
  import opened ClusterInv
  import opened CommitSteps
  import opened Availability
  import opened Launch
  import opened LateRuns

  // ---- One acknowledgement, in a cluster of odd size ------------------------

  lemma SubsetOfSize(s: set<NodeId>, n: nat) returns (t: set<NodeId>)
    requires n <= |s|
    ensures t <= s && |t| == n
    decreases n
  {
    t := {};
    if n > 0 {
      var x := Pick(s);
      t := SubsetOfSize(s - {x}, n - 1);
      t := t + {x};
    }
  }

  /** Answers to `p`, but for those from `ps`, go on waiting. */
  ghost predicate StillWait(c: ClusterState, c': ClusterState, p: NodeId, ps: set<NodeId>) {
    forall y, a {:trigger Waits(c', p, y, a)} | y !in ps && Waits(c, p, y, a) :: Waits(c', p, y, a)
  }

  lemma StillWaitTwice(c: ClusterState, d: ClusterState, e: ClusterState, p: NodeId, ps: set<NodeId>, qs: set<NodeId>)
    requires StillWait(c, d, p, ps) && StillWait(d, e, p, qs)
    ensures StillWait(c, e, p, ps + qs)
  {
    forall y, a | y !in ps + qs && Waits(c, p, y, a) ensures Waits(e, p, y, a) { assert Waits(d, p, y, a); }
  }

  /** The leader has brought these up to its log; answers from the others go on waiting. */
  ghost predicate Followed(c: ClusterState, c': ClusterState, p: NodeId, ps: set<NodeId>, n: LogIndex)
    requires p in c.nodes
  {
    && OnlyMove(c, c', ps + {p})
    && StillWait(c, c', p, ps)
    && forall x :: MatchOf(c'.nodes[p], x) == if x in ps then n else MatchOf(c.nodes[p], x)
  }

  lemma FollowedToo(c: ClusterState, d: ClusterState, c': ClusterState, p: NodeId, x: NodeId, ps: set<NodeId>, n: LogIndex)
    requires p in c.nodes && Followed(c, d, p, {x}, n) && Followed(d, c', p, ps - {x}, n) && x in ps
    ensures Followed(c, c', p, ps, n)
  {
    StillWaitTwice(c, d, c', p, {x}, ps - {x});
    assert {x} + (ps - {x}) == ps;
  }

  lemma BlankAside(c: ClusterState, c': ClusterState, moved: set<NodeId>, rest: set<NodeId>, t: Term)
    requires Blank(c, rest, t) && OnlyMove(c, c', moved) && moved !! rest
    ensures Blank(c', rest, t)
  {
  }

  /** So it has led on to this state. */
  ghost predicate LedOn(c: ClusterState, c': ClusterState, boot: Bootstrap, p: NodeId, ps: set<NodeId>, t: Term, log: Log) {
    && p in c.nodes && |log| > 0 && Alive(c', boot) && LeadsTo(c, c') && LeadsIn(c', p, t, log)
    && Followed(c, c', p, ps, |log| - 1)
  }

  lemma LedOnToo(c: ClusterState, d: ClusterState, c': ClusterState, boot: Bootstrap, p: NodeId, x: NodeId, ps: set<NodeId>,
                 t: Term, log: Log)
    requires x in ps && LedOn(c, d, boot, p, {x}, t, log) && LedOn(d, c', boot, p, ps - {x}, t, log)
    ensures LedOn(c, c', boot, p, ps, t, log)
  {
    FollowedToo(c, d, c', p, x, ps, |log| - 1);
    GoOn(c, d, c');
  }

  lemma RestStand(c: ClusterState, d: ClusterState, p: NodeId, x: NodeId, ps: set<NodeId>, t: Term)
    requires OnlyMove(c, d, {p, x}) && p !in ps && forall y | y in ps :: y in c.nodes && c.nodes[y].term <= t
    ensures forall y | y in ps - {x} :: y in d.nodes && d.nodes[y].term <= t
  {
  }

  lemma OneIsFollowed(c: ClusterState, boot: Bootstrap, p: NodeId, x: NodeId, ps: set<NodeId>, t: Term, log: Log)
    returns (c': ClusterState)
    requires Alive(c, boot) && LeadsIn(c, p, t, log) && x in ps && p !in ps && |log| > 0
    requires forall y | y in ps :: y in c.nodes && c.nodes[y].term <= t
    ensures LedOn(c, c', boot, p, {x}, t, log)
    ensures forall y | y in ps - {x} :: y in c'.nodes && c'.nodes[y].term <= t
  {
    c' := BringUp(c, boot, p, x);
    RestStand(c, c', p, x, ps, t);
  }

  /** The leader brings all of these up to its log. */
  lemma {:induction false} AllFollow(c: ClusterState, boot: Bootstrap, p: NodeId, ps: set<NodeId>, t: Term, log: Log)
    returns (c': ClusterState)
    requires Alive(c, boot) && LeadsIn(c, p, t, log) && p !in ps && |log| > 0
    requires forall x | x in ps :: x in c.nodes && c.nodes[x].term <= t
    ensures LedOn(c, c', boot, p, ps, t, log)
    decreases ps
  {
    if ps == {} {
      c' := c;
      StayPut(c);
    } else {
      var x := Pick(ps);
      var d := OneIsFollowed(c, boot, p, x, ps, t, log);
      c' := AllFollow(d, boot, p, ps - {x}, t, log);
      LedOnToo(c, d, c', boot, p, x, ps, t, log);
    }
  }

  /** `q` is elected in term `t` by these. */
  lemma WinsOver(c: ClusterState, boot: Bootstrap, p: NodeId, q: NodeId, vs: set<NodeId>, log: Log, t: Term)
    returns (c': ClusterState)
    requires Alive(c, boot) && |boot| >= 2 && IsQuorum(boot.Keys, vs + {q}) && q !in vs && p !in vs && p != q
    requires p in c.nodes && At(c, q, log, t) && |log| > 1 && forall x | x in vs :: Under(c, x, q, t)
    ensures Alive(c', boot) && LeadsTo(c, c') && p in c'.nodes && c'.nodes[p] == c.nodes[p] && StillWait(c, c', p, {})
    ensures q in c'.nodes && c'.nodes[q].role == Leader && log < c'.nodes[q].log
    ensures forall x | x in vs :: x in c'.nodes && c'.nodes[x].term <= c'.nodes[q].term
  {
    c' := Wins(c, boot, q, vs, t);
    LaterLog(boot, log, t);
  }

  /** `q` is elected in term `t` by these, and commits, and with it what it once took over. */
  lemma CommitsOver(c: ClusterState, boot: Bootstrap, p: NodeId, q: NodeId, vs: set<NodeId>, log: Log, t: Term)
    returns (c': ClusterState)
    requires Alive(c, boot) && |boot| >= 2 && IsQuorum(boot.Keys, vs + {q}) && q !in vs && vs != {} && p !in vs && p != q
    requires p in c.nodes && At(c, q, log, t) && |log| > 1 && forall x | x in vs :: Under(c, x, q, t)
    ensures Inv(c', boot) && LeadsTo(c, c') && p in c'.nodes && c'.nodes[p] == c.nodes[p]
    ensures StillWait(c, c', p, {})
    ensures q in c'.nodes && log < c'.nodes[q].log && |log| <= c'.nodes[q].commit < |c'.nodes[q].log|
  {
    var c1 := WinsOver(c, boot, p, q, vs, log, t);
    c' := LeaderCommits(c1, boot, p, q, vs);
    StillWaitTwice(c, c1, c', p, {}, {});
    GoOn(c, c1, c');
  }

  lemma LeaderCommits(c: ClusterState, boot: Bootstrap, p: NodeId, q: NodeId, vs: set<NodeId>) returns (c': ClusterState)
    requires Alive(c, boot) && IsQuorum(boot.Keys, vs + {q}) && q !in vs && vs != {} && q in c.nodes
    requires c.nodes[q].role == Leader && forall x | x in vs :: x in c.nodes && c.nodes[x].term <= c.nodes[q].term
    requires p in c.nodes && p != q && p !in vs
    ensures Inv(c', boot) && LeadsTo(c, c') && p in c'.nodes && c'.nodes[p] == c.nodes[p] && StillWait(c, c', p, {})
    ensures q in c'.nodes && c.nodes[q].log < c'.nodes[q].log && |c.nodes[q].log| <= c'.nodes[q].commit < |c'.nodes[q].log|
  {
    forall x | x in vs ensures Ready(c, q, x) { IndexInBounds(c, boot, q, x); }
    c' := SubmitAndCommit(c, boot, q, vs, Nil);
    RoundsOfAnother(c, c', p, q, vs);
  }

  lemma RoundsOfAnother(c: ClusterState, c': ClusterState, p: NodeId, q: NodeId, vs: set<NodeId>)
    requires p in c.nodes && p != q && p !in vs && OnlyMove(c, c', vs + {q}) && OnlyCallsOf(c, c', q)
    ensures p in c'.nodes && c'.nodes[p] == c.nodes[p] && StillWait(c, c', p, {})
  {
  }

  /** With the acknowledgement a majority seems to have what one node fewer has. */
  lemma FalseMajority(s: NodeState, boot: Bootstrap, p: NodeId, q: NodeId, ps: set<NodeId>, a: AppendAnswer, n: LogIndex)
    requires ConfigInv(boot, p, s) && ps <= boot.Keys && q in boot && p !in ps && q !in ps && p != q
    requires |ps| + 2 >= QuorumSize(|boot.Keys|)
    requires s.role == Leader && n < |s.log| && s.log[n].term == s.term && Reach(a.call.args) == n > MatchOf(s, q)
    requires (forall x | x in ps :: MatchOf(s, x) == n) && a.reply.success && a.reply.term <= s.term
    ensures var s' := HandleAppendReply(s, q, a.call.args, a.reply).0;
            n <= s'.commit && s'.log == s.log && (s.commit < |s.log| ==> s'.commit < |s.log|)
  {
    var s1 := s.(matchIndex := s.matchIndex[q := n], nextIndex := s.nextIndex[q := n + 1]);
    assert |ps + {q}| == |ps| + 1;
    SubsetSize(ps + {q}, AckedBy(s1, n));
    assert Committable(s1, n);
  }

  /** Both nodes have committed index `n`, and have different entries there. */
  predicate CommittedApart(s: NodeState, f: NodeState, n: LogIndex) {
    n <= s.commit < |s.log| && n <= f.commit < |f.log| && s.log[n] != f.log[n]
  }

  /** The harm is done when the acknowledgement is processed. */
  ghost predicate Splits(c: ClusterState, a: AppendAnswer, n: LogIndex) {
    && Possible(c, AppendReplyArrives(a)) && a.reply.success && !Enabled(c, AppendReplyArrives(a))
    && var (p, q, d) := (a.call.src, a.call.dst, TakeStep(c, AppendReplyArrives(a)));
    p in d.nodes && q in d.nodes && CommittedApart(d.nodes[p], d.nodes[q], n)
  }

  /** An acknowledgement that reaches the leader's own entries may come, but not in time. */
  lemma AckMayCome(c: ClusterState, p: NodeId, q: NodeId, a: AppendAnswer, n: LogIndex)
    requires Waits(c, p, q, a) && p in c.nodes && c.nodes[p].role == Leader && Reach(a.call.args) == n
    requires a.reply.success && a.reply.term <= a.call.args.term < c.nodes[p].term
    requires n < |c.nodes[p].log| && c.nodes[p].log[n].term == c.nodes[p].term
    ensures Possible(c, AppendReplyArrives(a)) && !Enabled(c, AppendReplyArrives(a))
    ensures var d := TakeStep(c, AppendReplyArrives(a));
            && d.nodes == c.nodes[p := HandleAppendReply(c.nodes[p], q, a.call.args, a.reply).0]
            && d.answers == c.answers && d.pending == c.pending - {(p, q)}
  {
    AnswerCases(c, a);
  }

  lemma LateAckSplits(c: ClusterState, boot: Bootstrap, p: NodeId, q: NodeId, ps: set<NodeId>, a: AppendAnswer, n: LogIndex)
    requires p in c.nodes && ConfigInv(boot, p, c.nodes[p]) && c.nodes[p].commit < |c.nodes[p].log| && Waits(c, p, q, a)
    requires ps <= boot.Keys && q in boot && p !in ps && q !in ps && p != q && |ps| + 2 >= QuorumSize(|boot.Keys|)
    requires p in c.nodes && q in c.nodes && c.nodes[p].role == Leader
    requires a.reply.success && a.reply.term <= a.call.args.term < c.nodes[p].term && Reach(a.call.args) == n > 0
    requires n < |c.nodes[p].log| && c.nodes[p].log[n].term == c.nodes[p].term
    requires (forall x | x in ps :: MatchOf(c.nodes[p], x) == n) && MatchOf(c.nodes[p], q) == 0
    requires n <= c.nodes[q].commit < |c.nodes[q].log| && c.nodes[q].log[n].term != c.nodes[p].term
    ensures Splits(c, a, n)
  {
    AckMayCome(c, p, q, a, n);
    FalseMajority(c.nodes[p], boot, p, q, ps, a, n);
  }

  lemma Without(s: set<NodeId>, t: set<NodeId>)
    requires t <= s
    ensures |s - t| == |s| - |t|
  {
    assert s == t + (s - t);
  }

  /** All but these, divided in two: `r` and `n` others, and the rest. */
  lemma Sides(all: set<NodeId>, apart: set<NodeId>, r: NodeId, n: nat) returns (ps: set<NodeId>, bs: set<NodeId>)
    requires apart <= all && r in all && r !in apart && |apart| + 1 + n <= |all|
    ensures r in ps && ps !! bs && ps + bs == all - apart
    ensures |ps| == n + 1 && |bs| == |all| - |apart| - 1 - n
  {
    Without(all, apart);
    Without(all - apart, {r});
    var rest := all - apart - {r};
    var more := SubsetOfSize(rest, n);
    Without(rest, more);
    ps, bs := more + {r}, rest - more;
  }

  /** One less than half of the nodes on the one side, and half of them on the other. */
  lemma TwoSides(boot: Bootstrap, p: NodeId, q: NodeId, r: NodeId) returns (ps: set<NodeId>, bs: set<NodeId>)
    requires Three(boot, p, q, r) && |boot| % 2 == 1
    ensures r in ps && ps !! bs && ps + bs == boot.Keys - {p, q} && bs <= Others(boot, p, q, r)
    ensures |ps| + 2 >= QuorumSize(|boot.Keys|) && IsQuorum(boot.Keys, bs + {q}) && bs != {}
  {
    var k := |boot| / 2;
    assert |boot.Keys| == |boot| && |{p, q}| == 2;
    ps, bs := Sides(boot.Keys, {p, q}, r, k - 2);
    assert |bs + {q}| == k + 1;
  }

  /** From there on the two sides commit apart. */
  lemma OddEnd(c: ClusterState, boot: Bootstrap, p: NodeId, q: NodeId, ps: set<NodeId>, bs: set<NodeId>,
               log: Log, mine: Log, a: AppendAnswer, n: LogIndex) returns (c': ClusterState)
    requires Alive(c, boot) && |boot| >= 5 && p != q && q in boot && {p, q} !! ps + bs && ps !! bs && ps + bs <= boot.Keys
    requires |ps| + 2 >= QuorumSize(|boot.Keys|) && IsQuorum(boot.Keys, bs + {q}) && bs != {}
    requires LeadsIn(c, p, 3, log) && MatchOf(c.nodes[p], q) == 0 && Waits(c, p, q, a) && Acked(a, 1, n)
    requires Blank(c, bs, 4) && At(c, q, mine, 4) && forall x | x in ps :: x in c.nodes && c.nodes[x].term <= 3
    requires |log| == |mine| == n + 1 && n > 0 && log[n].term == 3 && mine[n].term == 1
    ensures LeadsTo(c, c') && Splits(c', a, n)
  {
    var c1 := AllFollow(c, boot, p, ps, 3, log);
    BlankAside(c, c1, ps + {p}, bs, 4);
    assert Waits(c1, p, q, a);
    c' := CommitsOver(c1, boot, p, q, bs, mine, 4);
    assert Waits(c', p, q, a) && c'.nodes[q].log[n] == mine[n];
    StandingOf(c', boot, p);
    LateAckSplits(c', boot, p, q, ps, a, n);
    GoOn(c, c1, c');
  }

  /** Why the assumption on timing is there: a run of any cluster of five, seven or any greater odd number of
      nodes that goes on, if a leader is handed one late acknowledgement that reaches its own entries, to two
      nodes that have committed different entries at one index. */
  lemma LateAckSplitsCluster(boot: Bootstrap, p: NodeId, q: NodeId, r: NodeId, cmd: Command)
    returns (run: seq<ClusterState>, a: AppendAnswer, n: LogIndex)
    requires Startable(boot) && |boot| % 2 == 1 && Three(boot, p, q, r)
    ensures Run(run, boot) && Splits(run[|run| - 1], a, n)
  {
    var c0, c1, ps, bs;
    c0, c1, a := Usurped(boot, p, q, r, cmd);
    ps, bs := TwoSides(boot, p, q, r);
    var mine, theirs := FirstLog(boot, 1) + [Entry(Normal, 1, cmd)], FirstLog(boot, 2);
    FirstLogsAsLong(boot, 1, 2);
    n := |theirs|;
    var c2 := Returns(c1, boot, p, q, r, 2, theirs, a);
    assert At(c2, q, mine, 4) && LeadsIn(c2, p, 3, theirs + [NoOp(3)]);
    var c := OddEnd(c2, boot, p, q, ps, bs, theirs + [NoOp(3)], mine, a, n);
    GoOn(c0, c1, c2);
    GoOn(c0, c2, c);
    run := RunTo(boot, c0, c);
  }

  // ---- Two acknowledgements, in a cluster of even size ----------------------

  predicate Four(boot: Bootstrap, p: NodeId, u: NodeId, q: NodeId, r: NodeId) {
    && |boot| >= 6 && p in boot && u in boot && q in boot && r in boot
    && p != u && p != q && p != r && u != q && u != r && q != r
  }

  function Rest(boot: Bootstrap, p: NodeId, u: NodeId, q: NodeId, r: NodeId): set<NodeId> {
    boot.Keys - {p, u, q, r}
  }

  /** Four nodes with these logs, in terms below `t`; the others have heard of no leader. */
  ghost predicate Cast(c: ClusterState, boot: Bootstrap, p: NodeId, u: NodeId, q: NodeId, r: NodeId,
                       lp: Log, lu: Log, lq: Log, lr: Log, t: Term) {
    && Alive(c, boot) && Blank(c, Rest(boot, p, u, q, r), t)
    && At(c, p, lp, t) && At(c, u, lu, t) && At(c, q, lq, t) && At(c, r, lr, t)
  }

  lemma GivenTwice(s: NodeState, cmd: Command)
    requires s.role == Leader
    ensures var e := Entry(Normal, s.term, cmd); Submit(Submit(s, cmd), cmd) == s.(log := s.log + [e, e])
  {
    var e := Entry(Normal, s.term, cmd);
    assert s.log + [e] + [e] == s.log + [e, e];
  }

  /** `p` leads the first term and has been given two commands that `u` does not have yet. */
  lemma TwoGiven(boot: Bootstrap, p: NodeId, u: NodeId, cmd: Command) returns (c0: ClusterState, c: ClusterState)
    requires Startable(boot) && |boot| >= 5 && p in boot && u in boot && p != u
    ensures Init(c0, boot) && LeadsTo(c0, c) && Alive(c, boot) && Blank(c, boot.Keys - {p, u}, 2)
    ensures LeadsIn(c, p, 1, FirstLog(boot, 1) + [Entry(Normal, 1, cmd), Entry(Normal, 1, cmd)])
    ensures HasLog(c, u, 1, FirstLog(boot, 1)) && InBounds(c.nodes[p], u) && c.nodes[p].nextIndex[u] <= |FirstLog(boot, 1)|
  {
    var c1;
    c0, c1 := FirstTerm(boot, p, u);
    IndexInBounds(c1, boot, p, u);
    var c2 := Give(c1, boot, p, cmd);
    GoOn(c0, c1, c2);
    c := Give(c2, boot, p, cmd);
    GoOn(c0, c2, c);
    GivenTwice(c1.nodes[p], cmd);
  }

  /** `u` has taken them over and acknowledged them. */
  lemma TwoTaken(boot: Bootstrap, p: NodeId, u: NodeId, cmd: Command)
    returns (c0: ClusterState, c: ClusterState, a: AppendAnswer)
    requires Startable(boot) && |boot| >= 5 && p in boot && u in boot && p != u
    ensures Init(c0, boot) && LeadsTo(c0, c) && Alive(c, boot) && Waits(c, p, u, a) && Acked(a, 1, |FirstLog(boot, 1)| + 1)
    ensures var mine := FirstLog(boot, 1) + [Entry(Normal, 1, cmd), Entry(Normal, 1, cmd)];
            HasLog(c, p, 1, mine) && HasLog(c, u, 1, mine)
    ensures Blank(c, boot.Keys - {p, u}, 2)
  {
    var c1;
    c0, c1 := TwoGiven(boot, p, u, cmd);
    c, a := AskToTake(c1, boot, p, u, 1, FirstLog(boot, 1), [Entry(Normal, 1, cmd), Entry(Normal, 1, cmd)]);
    BlankAside(c1, c, {p, u}, boot.Keys - {p, u}, 2);
    GoOn(c0, c1, c);
  }

  lemma FirstAck(boot: Bootstrap, p: NodeId, u: NodeId, q: NodeId, r: NodeId, cmd: Command)
    returns (c0: ClusterState, c: ClusterState, a: AppendAnswer)
    requires Startable(boot) && Four(boot, p, u, q, r)
    ensures Init(c0, boot) && LeadsTo(c0, c) && Waits(c, p, u, a) && Acked(a, 1, |FirstLog(boot, 1)| + 1)
    ensures var mine := FirstLog(boot, 1) + [Entry(Normal, 1, cmd), Entry(Normal, 1, cmd)];
            Cast(c, boot, p, u, q, r, mine, mine, [SENTINEL], [SENTINEL], 2)
  {
    c0, c, a := TwoTaken(boot, p, u, cmd);
    assert q in boot.Keys - {p, u} && r in boot.Keys - {p, u};
  }

  /** One of the four is elected by all but two: by `z` if it is not left out, and by those that have heard of no leader. */
  ghost predicate Elected(c: ClusterState, c': ClusterState, boot: Bootstrap, w: NodeId, t: Term) {
    && Alive(c', boot) && LeadsTo(c, c') && NoCalls(c, c') && w in c.nodes && w in c'.nodes && c'.nodes.Keys == c.nodes.Keys
    && Leads(c'.nodes[w], t, WonLog(boot, c.nodes[w].log, t))
    && forall x | x in c.nodes && x != w :: c'.nodes[x].log == c.nodes[x].log && (c'.nodes[x].term <= t || c'.nodes[x] == c.nodes[x])
  }

  /** A node is elected by all but two. */
  lemma ElectAllBut(c: ClusterState, boot: Bootstrap, w: NodeId, out: set<NodeId>, t: Term) returns (c': ClusterState)
    requires Alive(c, boot) && |boot| >= 5 && |out| <= 2 && w in boot && w !in out && w in c.nodes && c.nodes[w].term < t
    requires forall x | x in boot.Keys - out - {w} :: Under(c, x, w, t)
    ensures Elected(c, c', boot, w, t)
  {
    var vs := boot.Keys - out - {w};
    AllBut(boot, out, w);
    c' := Wins(c, boot, w, vs, t);
    forall x | x in c.nodes && x != w
      ensures c'.nodes[x].log == c.nodes[x].log && (c'.nodes[x].term <= t || c'.nodes[x] == c.nodes[x])
    {
      assert x in vs || x !in vs + {w};
    }
  }

  /** The same for the four: `w` is `p`, `q` or `r`. */
  lemma CastVotes(c: ClusterState, c': ClusterState, boot: Bootstrap, p: NodeId, u: NodeId, q: NodeId, r: NodeId,
                  lp: Log, lu: Log, lq: Log, lr: Log, w: NodeId, t: Term)
    requires Four(boot, p, u, q, r) && Cast(c, boot, p, u, q, r, lp, lu, lq, lr, t) && Elected(c, c', boot, w, t)
    requires w == p || w == q || w == r
    ensures Cast(c', boot, p, u, q, r, if w == p then WonLog(boot, lp, t) else lp, lu,
                 if w == q then WonLog(boot, lq, t) else lq, if w == r then WonLog(boot, lr, t) else lr, t + 1)
    ensures forall x, a {:trigger Waits(c', p, x, a)} | Waits(c, p, x, a) :: Waits(c', p, x, a)
  {
  }

  /** `r` brings `p` to its log. */
  lemma CopyToP(c: ClusterState, boot: Bootstrap, p: NodeId, u: NodeId, q: NodeId, r: NodeId,
                lp: Log, lu: Log, lq: Log, lr: Log, t: Term)
    returns (c': ClusterState)
    requires Four(boot, p, u, q, r) && Cast(c, boot, p, u, q, r, lp, lu, lq, lr, t + 1) && LeadsIn(c, r, t, lr)
    ensures Cast(c', boot, p, u, q, r, lr, lu, lq, lr, t + 1) && LeadsTo(c, c') && OnlyCall(c, c', r, p)
  {
    c' := BringUp(c, boot, r, p);
    BlankAside(c, c', {r, p}, Rest(boot, p, u, q, r), t + 1);
  }

  /** `p` brings `q` to its log. */
  lemma CopyToQ(c: ClusterState, boot: Bootstrap, p: NodeId, u: NodeId, q: NodeId, r: NodeId,
                lp: Log, lu: Log, lq: Log, lr: Log, t: Term)
    returns (c': ClusterState)
    requires Four(boot, p, u, q, r) && Cast(c, boot, p, u, q, r, lp, lu, lq, lr, t + 1) && LeadsIn(c, p, t, lp)
    ensures Cast(c', boot, p, u, q, r, lp, lu, lp, lr, t + 1) && LeadsTo(c, c') && OnlyCall(c, c', p, q)
    ensures LeadsIn(c', p, t, lp) && HasLog(c', q, t, lp)
  {
    c' := BringUp(c, boot, p, q);
    BlankAside(c, c', {p, q}, Rest(boot, p, u, q, r), t + 1);
  }

  /** `r` leads the second term, and cuts the log of `p`. */
  lemma Cut(c: ClusterState, boot: Bootstrap, p: NodeId, u: NodeId, q: NodeId, r: NodeId, mine: Log, a: AppendAnswer)
    returns (c': ClusterState)
    requires Four(boot, p, u, q, r) && Cast(c, boot, p, u, q, r, mine, mine, [SENTINEL], [SENTINEL], 2) && Waits(c, p, u, a)
    ensures LeadsTo(c, c') && Waits(c', p, u, a)
    ensures Cast(c', boot, p, u, q, r, FirstLog(boot, 2), mine, [SENTINEL], FirstLog(boot, 2), 3)
  {
    forall x | x in boot.Keys - {p, u} - {r} ensures Under(c, x, r, 2) { assert x == q || x in Rest(boot, p, u, q, r); }
    var c1 := ElectAllBut(c, boot, r, {p, u}, 2);
    CastVotes(c, c1, boot, p, u, q, r, mine, mine, [SENTINEL], [SENTINEL], r, 2);
    assert Waits(c1, p, u, a);
    c' := CopyToP(c1, boot, p, u, q, r, mine, mine, [SENTINEL], FirstLog(boot, 2), 2);
    GoOn(c, c1, c');
  }

  /** `p` leads the third term, and brings `q` to its log. */
  lemma SecondLead(c: ClusterState, boot: Bootstrap, p: NodeId, u: NodeId, q: NodeId, r: NodeId, mine: Log, first: Log, a: AppendAnswer)
    returns (c': ClusterState)
    requires Four(boot, p, u, q, r) && Cast(c, boot, p, u, q, r, first, mine, [SENTINEL], first, 3) && Waits(c, p, u, a)
    requires |first| > 1
    ensures LeadsTo(c, c') && Waits(c', p, u, a)
    ensures var log := first + [NoOp(3)];
            LeadsIn(c', p, 3, log) && HasLog(c', q, 3, log) && Cast(c', boot, p, u, q, r, log, mine, log, first, 4)
  {
    var log := first + [NoOp(3)];
    LaterLog(boot, first, 3);
    forall x | x in boot.Keys - {u} - {p} ensures Under(c, x, p, 3) { assert x == q || x == r || x in Rest(boot, p, u, q, r); }
    var c1 := ElectAllBut(c, boot, p, {u}, 3);
    CastVotes(c, c1, boot, p, u, q, r, first, mine, [SENTINEL], first, p, 3);
    assert Waits(c1, p, u, a);
    c' := CopyToQ(c1, boot, p, u, q, r, log, mine, [SENTINEL], first, 3);
    GoOn(c, c1, c');
  }

  /** `p` is given a command. */
  lemma OneMore(c: ClusterState, boot: Bootstrap, p: NodeId, u: NodeId, q: NodeId, r: NodeId,
                log: Log, mine: Log, first: Log, cmd: Command, a: AppendAnswer)
    returns (c': ClusterState)
    requires Four(boot, p, u, q, r) && Cast(c, boot, p, u, q, r, log, mine, log, first, 4) && Waits(c, p, u, a)
    requires LeadsIn(c, p, 3, log) && HasLog(c, q, 3, log) && |log| > 1
    ensures LeadsTo(c, c') && Waits(c', p, u, a) && HasLog(c', q, 3, log)
    ensures var more := log + [Entry(Normal, 3, cmd)];
            LeadsIn(c', p, 3, more) && Cast(c', boot, p, u, q, r, more, mine, log, first, 4)
    ensures InBounds(c'.nodes[p], q) && c'.nodes[p].nextIndex[q] <= |log|
  {
    ReadyToSend(c, boot, p, q);
    c' := Give(c, boot, p, cmd);
  }

  /** `q` takes over the command and acknowledges it. */
  lemma SecondAck(c: ClusterState, boot: Bootstrap, p: NodeId, u: NodeId, q: NodeId, r: NodeId,
                  log: Log, more: Log, mine: Log, first: Log, cmd: Command, a: AppendAnswer)
    returns (c': ClusterState, b: AppendAnswer)
    requires Four(boot, p, u, q, r) && Cast(c, boot, p, u, q, r, more, mine, log, first, 4) && Waits(c, p, u, a)
    requires LeadsIn(c, p, 3, more) && HasLog(c, q, 3, log) && more == log + [Entry(Normal, 3, cmd)]
    requires InBounds(c.nodes[p], q) && c.nodes[p].nextIndex[q] <= |log|
    ensures LeadsTo(c, c') && Waits(c', p, u, a) && Waits(c', p, q, b) && Acked(b, 3, |log|)
    ensures Cast(c', boot, p, u, q, r, more, mine, more, first, 4)
  {
    c', b := AskToTake(c, boot, p, q, 3, log, [Entry(Normal, 3, cmd)]);
    BlankAside(c, c', {p, q}, Rest(boot, p, u, q, r), 4);
  }

  /** `r` leads the fourth term, and cuts the log of `p` again. */
  lemma CutAgain(c: ClusterState, boot: Bootstrap, p: NodeId, u: NodeId, q: NodeId, r: NodeId,
                 more: Log, mine: Log, first: Log, a: AppendAnswer, b: AppendAnswer)
    returns (c': ClusterState)
    requires Four(boot, p, u, q, r) && Cast(c, boot, p, u, q, r, more, mine, more, first, 4) && Waits(c, p, u, a) && Waits(c, p, q, b)
    requires |mine| > 0 && |first| > 1 && LastTerm(mine) < LastTerm(first)
    ensures LeadsTo(c, c') && Waits(c', p, u, a) && Waits(c', p, q, b)
    ensures var log := first + [NoOp(4)]; Cast(c', boot, p, u, q, r, log, mine, more, log, 5)
  {
    LaterLog(boot, first, 4);
    forall x | x in boot.Keys - {p, q} - {r} ensures Under(c, x, r, 4) { assert x == u || x in Rest(boot, p, u, q, r); }
    var c1 := ElectAllBut(c, boot, r, {p, q}, 4);
    CastVotes(c, c1, boot, p, u, q, r, more, mine, more, first, r, 4);
    assert Waits(c1, p, u, a) && Waits(c1, p, q, b);
    c' := CopyToP(c1, boot, p, u, q, r, more, mine, more, first + [NoOp(4)], 4);
    GoOn(c, c1, c');
  }

  /** `p` leads the fifth term. */
  lemma ThirdLead(c: ClusterState, boot: Bootstrap, p: NodeId, u: NodeId, q: NodeId, r: NodeId,
                  log: Log, mine: Log, more: Log, a: AppendAnswer, b: AppendAnswer)
    returns (c': ClusterState)
    requires Four(boot, p, u, q, r) && Cast(c, boot, p, u, q, r, log, mine, more, log, 5) && Waits(c, p, u, a) && Waits(c, p, q, b)
    requires |log| > 1
    ensures LeadsTo(c, c') && Waits(c', p, u, a) && Waits(c', p, q, b)
    ensures LeadsIn(c', p, 5, log + [NoOp(5)]) && MatchOf(c'.nodes[p], u) == MatchOf(c'.nodes[p], q) == 0
    ensures Cast(c', boot, p, u, q, r, log + [NoOp(5)], mine, more, log, 6)
  {
    LaterLog(boot, log, 5);
    forall x | x in boot.Keys - {u, q} - {p} ensures Under(c, x, p, 5) { assert x == r || x in Rest(boot, p, u, q, r); }
    c' := ElectAllBut(c, boot, p, {u, q}, 5);
    CastVotes(c, c', boot, p, u, q, r, log, mine, more, log, p, 5);
    assert Waits(c', p, u, a) && Waits(c', p, q, b);
  }

  /** Fewer than half of the nodes on the one side, and two more than them on the other. */
  lemma TwoSidesEven(boot: Bootstrap, p: NodeId, u: NodeId, q: NodeId, r: NodeId) returns (ps: set<NodeId>, bs: set<NodeId>)
    requires Four(boot, p, u, q, r) && |boot| % 2 == 0
    ensures r in ps && ps !! bs && ps + bs == boot.Keys - {p, u, q} && bs <= Rest(boot, p, u, q, r)
    ensures |ps| + 3 >= QuorumSize(|boot.Keys|) && IsQuorum(boot.Keys, bs + {u} + {q})
  {
    var k := |boot| / 2;
    assert |boot.Keys| == |boot| && |{p, u, q}| == 3;
    ps, bs := Sides(boot.Keys, {p, u, q}, r, k - 3);
    assert |bs + {u} + {q}| == k + 1;
  }

  /** The harm is done when both acknowledgements are processed. */
  ghost predicate SplitsAfterTwo(c: ClusterState, a: AppendAnswer, b: AppendAnswer, n: LogIndex) {
    && a.reply.success && b.reply.success && a.call.src == b.call.src
    && Possible(c, AppendReplyArrives(a)) && !Enabled(c, AppendReplyArrives(a))
    && var d := TakeStep(c, AppendReplyArrives(a));
    && Possible(d, AppendReplyArrives(b)) && !Enabled(d, AppendReplyArrives(b))
    && var (p, q, e) := (b.call.src, b.call.dst, TakeStep(d, AppendReplyArrives(b)));
    p in e.nodes && q in e.nodes && CommittedApart(e.nodes[p], e.nodes[q], n)
  }

  /** What the first of them leaves. */
  lemma FirstOfTwo(s: NodeState, boot: Bootstrap, p: NodeId, u: NodeId, a: AppendAnswer, n: LogIndex)
    requires ConfigInv(boot, p, s) && u in boot && u != p && s.role == Leader && s.commit < |s.log|
    requires Reach(a.call.args) == n > MatchOf(s, u) && a.reply.success && a.reply.term <= s.term
    ensures var s' := HandleAppendReply(s, u, a.call.args, a.reply).0;
            && ConfigInv(boot, p, s') && s'.role == Leader && s'.term == s.term && s'.log == s.log && s'.commit < |s'.log|
            && forall x :: MatchOf(s', x) == if x == u then n else MatchOf(s, x)
  {
  }

  lemma TwoAcksSplit(c: ClusterState, boot: Bootstrap, p: NodeId, u: NodeId, q: NodeId, ps: set<NodeId>,
                     a: AppendAnswer, b: AppendAnswer, n: LogIndex)
    requires p in c.nodes && ConfigInv(boot, p, c.nodes[p]) && c.nodes[p].commit < |c.nodes[p].log|
    requires Waits(c, p, u, a) && Waits(c, p, q, b) && q in c.nodes
    requires ps <= boot.Keys && u in boot && q in boot && {p, u, q} !! ps && p != u && p != q && u != q
    requires |ps| + 3 >= QuorumSize(|boot.Keys|)
    requires c.nodes[p].role == Leader && c.nodes[p].term == 5 && Acked(a, 1, n) && Acked(b, 3, n)
    requires 0 < n < |c.nodes[p].log| && c.nodes[p].log[n].term == 5
    requires forall x | x in ps :: MatchOf(c.nodes[p], x) == n
    requires MatchOf(c.nodes[p], u) == MatchOf(c.nodes[p], q) == 0
    requires n <= c.nodes[q].commit < |c.nodes[q].log| && c.nodes[q].log[n].term != 5
    ensures SplitsAfterTwo(c, a, b, n)
  {
    AckMayCome(c, p, u, a, n);
    FirstOfTwo(c.nodes[p], boot, p, u, a, n);
    var d := TakeStep(c, AppendReplyArrives(a));
    assert Waits(d, p, q, b) && d.nodes[q] == c.nodes[q];
    AckMayCome(d, p, q, b, n);
    assert |ps + {u}| == |ps| + 1;
    FalseMajority(d.nodes[p], boot, p, q, ps + {u}, b, n);
  }

  /** Two terms after the first acknowledgement. */
  lemma OneOutstanding(boot: Bootstrap, p: NodeId, u: NodeId, q: NodeId, r: NodeId, cmd: Command, first: Log, mine: Log)
    returns (c0: ClusterState, c: ClusterState, a: AppendAnswer)
    requires Startable(boot) && Four(boot, p, u, q, r) && first == FirstLog(boot, 2) && |first| > 1
    requires mine == FirstLog(boot, 1) + [Entry(Normal, 1, cmd), Entry(Normal, 1, cmd)]
    ensures Init(c0, boot) && LeadsTo(c0, c) && Waits(c, p, u, a) && Acked(a, 1, |FirstLog(boot, 1)| + 1)
    ensures var log := first + [NoOp(3)];
            LeadsIn(c, p, 3, log) && HasLog(c, q, 3, log) && Cast(c, boot, p, u, q, r, log, mine, log, first, 4)
  {
    var c1;
    c0, c1, a := FirstAck(boot, p, u, q, r, cmd);
    var c2 := Cut(c1, boot, p, u, q, r, mine, a);
    GoOn(c0, c1, c2);
    c := SecondLead(c2, boot, p, u, q, r, mine, first, a);
    GoOn(c0, c2, c);
  }

  /** Two terms after the second. */
  lemma BothOutstanding(c: ClusterState, boot: Bootstrap, p: NodeId, u: NodeId, q: NodeId, r: NodeId, cmd: Command,
                        first: Log, mine: Log, a: AppendAnswer)
    returns (c': ClusterState, b: AppendAnswer)
    requires Four(boot, p, u, q, r) && Waits(c, p, u, a) && |first| > 1 && |mine| > 0 && LastTerm(mine) < LastTerm(first)
    requires var log := first + [NoOp(3)];
             LeadsIn(c, p, 3, log) && HasLog(c, q, 3, log) && Cast(c, boot, p, u, q, r, log, mine, log, first, 4)
    ensures LeadsTo(c, c') && Waits(c', p, u, a) && Waits(c', p, q, b) && Acked(b, 3, |first| + 1)
    ensures var log := first + [NoOp(4)];
            && LeadsIn(c', p, 5, log + [NoOp(5)]) && MatchOf(c'.nodes[p], u) == MatchOf(c'.nodes[p], q) == 0
            && Cast(c', boot, p, u, q, r, log + [NoOp(5)], mine, first + [NoOp(3)] + [Entry(Normal, 3, cmd)], log, 6)
  {
    var more := first + [NoOp(3)] + [Entry(Normal, 3, cmd)];
    var c1;
    var c0 := OneMore(c, boot, p, u, q, r, first + [NoOp(3)], mine, first, cmd, a);
    c1, b := SecondAck(c0, boot, p, u, q, r, first + [NoOp(3)], more, mine, first, cmd, a);
    GoOn(c, c0, c1);
    var c2 := CutAgain(c1, boot, p, u, q, r, more, mine, first, a, b);
    GoOn(c, c1, c2);
    c' := ThirdLead(c2, boot, p, u, q, r, first + [NoOp(4)], mine, more, a, b);
    GoOn(c, c2, c');
  }

  lemma BothStayAside(c: ClusterState, c': ClusterState, p: NodeId, u: NodeId, q: NodeId, ps: set<NodeId>,
                      log: Log, mine: Log, more: Log, a: AppendAnswer, b: AppendAnswer, t: Term)
    requires p in c.nodes && |log| > 0 && Followed(c, c', p, ps, |log| - 1) && {p, u, q} !! ps && p != u && p != q
    requires Waits(c, p, u, a) && Waits(c, p, q, b) && At(c, u, mine, t) && At(c, q, more, t)
    requires MatchOf(c.nodes[p], u) == MatchOf(c.nodes[p], q) == 0
    ensures Waits(c', p, u, a) && Waits(c', p, q, b) && At(c', u, mine, t) && At(c', q, more, t)
    ensures forall x | x in ps :: MatchOf(c'.nodes[p], x) == |log| - 1
    ensures MatchOf(c'.nodes[p], u) == MatchOf(c'.nodes[p], q) == 0
  {
  }

  /** `p` has one side follow it. */
  lemma OneSideFollows(c: ClusterState, boot: Bootstrap, p: NodeId, u: NodeId, q: NodeId, r: NodeId, ps: set<NodeId>, bs: set<NodeId>,
                       log: Log, mine: Log, more: Log, lr: Log, a: AppendAnswer, b: AppendAnswer)
    returns (c': ClusterState)
    requires Four(boot, p, u, q, r) && Waits(c, p, u, a) && Waits(c, p, q, b) && LeadsIn(c, p, 5, log)
    requires Cast(c, boot, p, u, q, r, log, mine, more, lr, 6) && MatchOf(c.nodes[p], u) == MatchOf(c.nodes[p], q) == 0
    requires ps !! bs && ps + bs == boot.Keys - {p, u, q} && bs <= Rest(boot, p, u, q, r)
    ensures LeadsTo(c, c') && Alive(c', boot) && Waits(c', p, u, a) && Waits(c', p, q, b) && LeadsIn(c', p, 5, log)
    ensures Blank(c', bs, 6) && At(c', u, mine, 6) && At(c', q, more, 6)
    ensures forall x | x in ps :: MatchOf(c'.nodes[p], x) == |log| - 1
    ensures MatchOf(c'.nodes[p], u) == MatchOf(c'.nodes[p], q) == 0
  {
    c' := AllFollow(c, boot, p, ps, 5, log);
    BlankAside(c, c', ps + {p}, bs, 6);
    BothStayAside(c, c', p, u, q, ps, log, mine, more, a, b, 6);
  }

  /** Nodes left blank, and one whose log ends in an earlier term, grant `q` their votes. */
  lemma BlankAndOneUnder(c: ClusterState, u: NodeId, q: NodeId, bs: set<NodeId>, mine: Log, more: Log, t: Term)
    requires Blank(c, bs, t) && At(c, u, mine, t) && At(c, q, more, t) && LastTerm(mine) < LastTerm(more)
    ensures forall x | x in bs + {u} :: Under(c, x, q, t)
  {
  }

  /** From there on the two sides commit apart. */
  lemma EvenEnd(c: ClusterState, boot: Bootstrap, p: NodeId, u: NodeId, q: NodeId, r: NodeId,
                log: Log, mine: Log, more: Log, lr: Log, a: AppendAnswer, b: AppendAnswer, n: LogIndex)
    returns (c': ClusterState)
    requires Four(boot, p, u, q, r) && |boot| % 2 == 0 && Waits(c, p, u, a) && Waits(c, p, q, b)
    requires Acked(a, 1, n) && Acked(b, 3, n) && |log| == n + 1 == |more| && n > 0 && log[n].term == 5 && more[n].term == 3
    requires LeadsIn(c, p, 5, log) && MatchOf(c.nodes[p], u) == MatchOf(c.nodes[p], q) == 0
    requires Cast(c, boot, p, u, q, r, log, mine, more, lr, 6) && LastTerm(mine) < LastTerm(more)
    ensures LeadsTo(c, c') && SplitsAfterTwo(c', a, b, n)
  {
    var ps, bs := TwoSidesEven(boot, p, u, q, r);
    var c1 := OneSideFollows(c, boot, p, u, q, r, ps, bs, log, mine, more, lr, a, b);
    var vs := bs + {u};
    assert vs + {q} == bs + {u} + {q};
    BlankAndOneUnder(c1, u, q, bs, mine, more, 6);
    c' := CommitsOver(c1, boot, p, q, vs, more, 6);
    assert Waits(c', p, u, a) && Waits(c', p, q, b) && c'.nodes[q].log[n] == more[n];
    StandingOf(c', boot, p);
    TwoAcksSplit(c', boot, p, u, q, ps, a, b, n);
    GoOn(c, c1, c');
  }

  lemma EvenLogs(boot: Bootstrap, cmd: Command)
    ensures var first, mine := FirstLog(boot, 2), FirstLog(boot, 1) + [Entry(Normal, 1, cmd), Entry(Normal, 1, cmd)];
            var more := first + [NoOp(3)] + [Entry(Normal, 3, cmd)];
            && |first| == |FirstLog(boot, 1)| > 1 && LastTerm(mine) < LastTerm(first) < LastTerm(more)
            && more[|first| + 1].term == 3 && (first + [NoOp(4)] + [NoOp(5)])[|first| + 1].term == 5
  {
    FirstLogsAsLong(boot, 1, 2);
  }

  /** In a cluster of six, eight or any greater even number of nodes two late acknowledgements do the same. */
  lemma LateAcksSplitEvenCluster(boot: Bootstrap, p: NodeId, u: NodeId, q: NodeId, r: NodeId, cmd: Command)
    returns (run: seq<ClusterState>, a: AppendAnswer, b: AppendAnswer, n: LogIndex)
    requires Startable(boot) && |boot| % 2 == 0 && Four(boot, p, u, q, r)
    ensures Run(run, boot) && SplitsAfterTwo(run[|run| - 1], a, b, n)
  {
    var first, mine := FirstLog(boot, 2), FirstLog(boot, 1) + [Entry(Normal, 1, cmd), Entry(Normal, 1, cmd)];
    var more := first + [NoOp(3)] + [Entry(Normal, 3, cmd)];
    EvenLogs(boot, cmd);
    n := |first| + 1;
    var c0, c1, c2;
    c0, c1, a := OneOutstanding(boot, p, u, q, r, cmd, first, mine);
    c2, b := BothOutstanding(c1, boot, p, u, q, r, cmd, first, mine, a);
    GoOn(c0, c1, c2);
    var c := EvenEnd(c2, boot, p, u, q, r, first + [NoOp(4)] + [NoOp(5)], mine, more, first + [NoOp(4)], a, b, n);
    GoOn(c0, c2, c);
    run := RunTo(boot, c0, c);
  }
}

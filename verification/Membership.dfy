/** The configuration a log stands for (membership.go, the founding block of state.go). */
module Membership {
  import opened RaftTypes
  import opened Quorums
  import opened Maps

  datatype PeerRole = Voter | Learner

  datatype Member = Member(addr: string, role: PeerRole)

  type Members = map<NodeId, Member>

  type Bootstrap = map<NodeId, string>

  ghost function BootMembers(boot: Bootstrap): (m: Members)
    ensures m.Keys == boot.Keys && forall id | id in boot :: m[id] == Member(boot[id], Voter)
  {
    MapExists(boot.Keys, (id: NodeId) => Member(if id in boot then boot[id] else "", Voter));
    var m: Members :| m.Keys == boot.Keys && forall id | id in boot :: m[id] == Member(boot[id], Voter);
    m
  }

  /** The effect of one log entry; an entry whose payload does not decode is skipped. */
  function ApplyEntry(m: Members, e: Entry): Members {
    match e.etype
    case Normal => m
    case AddLearner =>
      (match DecodeConfigAdd(e.command)
       case None => m
       case Some(p) => m[p.0 := Member(p.1, Learner)])
    case AddVoter =>
      (match DecodeConfigAdd(e.command)
       case None => m
       case Some(p) => m[p.0 := Member(p.1, Voter)])
    case RemoveNode =>
      (match DecodeConfigRemove(e.command)
       case None => m
       case Some(id) => m - {id})
  }

  /** Bootstrap cluster, then every entry of the log from index 1 on. */
  ghost function Replay(boot: Bootstrap, log: Log): Members {
    if |log| <= 1 then BootMembers(boot)
    else ApplyEntry(Replay(boot, log[..|log| - 1]), log[|log| - 1])
  }

  function VotersOf(m: Members): set<NodeId> {
    set id | id in m && m[id].role == Voter
  }

  ghost function AddrsOf(m: Members): (addrs: map<NodeId, string>)
    ensures addrs.Keys == m.Keys && forall id | id in m :: addrs[id] == m[id].addr
  {
    MapExists(m.Keys, id => if id in m then m[id].addr else "");
    var addrs: map<NodeId, string> :| addrs.Keys == m.Keys && forall id | id in m :: addrs[id] == m[id].addr;
    addrs
  }

  ghost predicate AllNormal(es: seq<Entry>) {
    forall e | e in es :: !ChangesMembership(e.etype)
  }

  /** Replay continues from the configuration the prefix stands for. */
  ghost function ReplayFrom(m: Members, es: seq<Entry>): Members {
    if es == [] then m else ApplyEntry(ReplayFrom(m, es[..|es| - 1]), es[|es| - 1])
  }

  lemma {:induction false} ReplaySplit(boot: Bootstrap, log: Log, es: seq<Entry>)
    requires |log| > 0
    ensures Replay(boot, log + es) == ReplayFrom(Replay(boot, log), es)
  {
    if es == [] {
      assert log + es == log;
    } else {
      var init := es[..|es| - 1];
      assert (log + es)[..|log + es| - 1] == log + init;
      ReplaySplit(boot, log, init);
    }
  }

  lemma {:induction false} NormalEntriesKeepMembers(m: Members, es: seq<Entry>)
    requires AllNormal(es)
    ensures ReplayFrom(m, es) == m
  {
    if es != [] {
      NormalEntriesKeepMembers(m, es[..|es| - 1]);
      assert es[|es| - 1] in es;
    }
  }

  // ---- The last word on a node ----------------------------------------------

  /** The entry adds or removes this node. */
  predicate Concerns(e: Entry, id: NodeId) {
    match e.etype
    case Normal => false
    case RemoveNode => DecodeConfigRemove(e.command) == Some(id)
    case _ => DecodeConfigAdd(e.command).Some? && DecodeConfigAdd(e.command).value.0 == id
  }

  predicate Unmentioned(log: Log, id: NodeId) {
    forall i | 1 <= i < |log| :: !Concerns(log[i], id)
  }

  predicate LastWord(log: Log, id: NodeId, i: LogIndex) {
    1 <= i < |log| && Concerns(log[i], id) && forall j | i < j < |log| :: !Concerns(log[j], id)
  }

  /** What the last entry about a node makes of it: nothing if it is a removal, and otherwise a member at
      the address and in the role the entry says. */
  predicate StandsAs(m: Members, id: NodeId, e: Entry)
    requires Concerns(e, id)
  {
    if e.etype == RemoveNode then id !in m
    else id in m && m[id] == Member(DecodeConfigAdd(e.command).value.1, if e.etype == AddVoter then Voter else Learner)
  }

  /** The last word decides: who is a member, where and as what, goes by the last entry about the node, and
      by the bootstrap cluster if there is none. */
  lemma {:induction false} LastWordDecides(boot: Bootstrap, log: Log, id: NodeId)
    ensures Unmentioned(log, id) ==>
              if id in boot then id in Replay(boot, log) && Replay(boot, log)[id] == Member(boot[id], Voter)
              else id !in Replay(boot, log)
    ensures forall i: LogIndex | LastWord(log, id, i) :: StandsAs(Replay(boot, log), id, log[i])
  {
    if |log| > 1 {
      var n := |log| - 1;
      var init, e := log[..n], log[n];
      LastWordDecides(boot, init, id);
      if Concerns(e, id) {
        assert StandsAs(Replay(boot, log), id, e);
        assert forall i: LogIndex | LastWord(log, id, i) :: i == n;
      } else {
        OthersUntouched(Replay(boot, init), e, id);
        assert forall i: LogIndex | LastWord(log, id, i) :: i < n && LastWord(init, id, i);
        assert Unmentioned(log, id) ==> Unmentioned(init, id);
      }
    }
  }

  lemma OthersUntouched(m: Members, e: Entry, id: NodeId)
    requires !Concerns(e, id)
    ensures var m' := ApplyEntry(m, e); (id in m' <==> id in m) && (id in m ==> m'[id] == m[id])
  {
  }

  // ---- The founding block -------------------------------------------------

  predicate Increasing(ids: seq<NodeId>) {
    forall i, j | 0 <= i < j < |ids| :: ids[i] < ids[j]
  }

  ghost predicate SortedIdsOf(ids: seq<NodeId>, s: set<NodeId>) {
    Increasing(ids) && forall id :: id in ids <==> id in s
  }

  lemma {:induction false} MinExists(s: set<NodeId>) returns (m: NodeId)
    requires s != {}
    ensures m in s && forall x | x in s :: m <= x
    decreases |s|
  {
    var x := Pick(s);
    m := x;
    if s - {x} != {} {
      var r := MinExists(s - {x});
      if r < x { m := r; }
    }
    assert s == (s - {x}) + {x};
  }

  lemma {:induction false} SortedExists(s: set<NodeId>)
    ensures exists ids :: SortedIdsOf(ids, s)
    decreases |s|
  {
    if s == {} {
      assert SortedIdsOf([], s);
    } else {
      var m := MinExists(s);
      SortedExists(s - {m});
      var rest :| SortedIdsOf(rest, s - {m});
      assert forall j | 0 <= j < |rest| :: rest[j] in rest;
      assert SortedIdsOf([m] + rest, s);
    }
  }

  lemma {:induction false} SortedUnique(a: seq<NodeId>, b: seq<NodeId>, s: set<NodeId>)
    requires SortedIdsOf(a, s) && SortedIdsOf(b, s)
    ensures a == b
    decreases |a|
  {
    assert forall i | 0 <= i < |a| :: a[i] in a;
    assert forall i | 0 <= i < |b| :: b[i] in b;
    if a != [] && b != [] {
      assert a[0] in b && b[0] in a;
      assert a[0] == b[0];
      TailSorted(a, s);
      TailSorted(b, s);
      SortedUnique(a[1..], b[1..], s - {a[0]});
    }
  }

  lemma TailSorted(a: seq<NodeId>, s: set<NodeId>)
    requires SortedIdsOf(a, s) && a != []
    ensures SortedIdsOf(a[1..], s - {a[0]})
  {
    assert a == [a[0]] + a[1..];
    assert forall i | 0 <= i < |a[1..]| :: a[1..][i] == a[i + 1];
  }

  /** The ids of a cluster in increasing order. */
  ghost function SortedIds(s: set<NodeId>): (ids: seq<NodeId>)
    ensures SortedIdsOf(ids, s)
  {
    SortedExists(s);
    var ids :| SortedIdsOf(ids, s);
    ids
  }

  function FoundingEntry(boot: Bootstrap, id: NodeId, term: Term): Entry
    requires id in boot
  {
    Entry(AddVoter, term, ConfigAdd(id, boot[id]))
  }

  function FoundingFor(boot: Bootstrap, ids: seq<NodeId>, term: Term): seq<Entry>
    requires forall id | id in ids :: id in boot
  {
    seq(|ids|, i requires 0 <= i < |ids| => assert ids[i] in ids; FoundingEntry(boot, ids[i], term))
  }

  /** The block the first leader writes: one AddVoter per bootstrap node, ids increasing. */
  ghost function FoundingBlock(boot: Bootstrap, term: Term): (es: seq<Entry>)
  {
    FoundingFor(boot, SortedIds(boot.Keys), term)
  }

  ghost predicate HoldsFounders(m: Members, m': Members, boot: Bootstrap, ids: seq<NodeId>)
    requires forall id | id in ids :: id in boot
  {
    && (forall id | id in ids :: id in m' && m'[id] == Member(boot[id], Voter))
    && (forall id | id !in ids :: (id in m' <==> id in m) && (id in m' ==> m'[id] == m[id]))
  }

  lemma {:induction false} ReplayFounding(m: Members, boot: Bootstrap, ids: seq<NodeId>, term: Term)
    requires forall id | id in ids :: id in boot
    ensures HoldsFounders(m, ReplayFrom(m, FoundingFor(boot, ids, term)), boot, ids)
  {
    if ids != [] {
      var init, last := ids[..|ids| - 1], ids[|ids| - 1];
      assert ids == init + [last];
      assert FoundingFor(boot, ids, term)[..|ids| - 1] == FoundingFor(boot, init, term);
      ReplayFounding(m, boot, init, term);
    }
  }

  /** A founder and a joiner that started with no cluster at all read every log that
      begins with the founding block as the same configuration. */
  lemma JoinerAgreesWithFounder(boot: Bootstrap, term: Term, rest: seq<Entry>)
    ensures var log := [SENTINEL] + FoundingBlock(boot, term) + rest;
            Replay(map[], log) == Replay(boot, log)
  {
    var ids := SortedIds(boot.Keys);
    var block := FoundingBlock(boot, term);
    ReplaySplit(map[], [SENTINEL], block);
    ReplaySplit(boot, [SENTINEL], block);
    ReplayFounding(BootMembers(map[]), boot, ids, term);
    ReplayFounding(BootMembers(boot), boot, ids, term);
    var x, y := ReplayFrom(BootMembers(map[]), block), ReplayFrom(BootMembers(boot), block);
    assert forall id :: id in x <==> id in ids;
    assert forall id :: id in y <==> id in ids;
    assert x == y;
    ReplaySplit(map[], [SENTINEL] + block, rest);
    ReplaySplit(boot, [SENTINEL] + block, rest);
  }

  /** An entry that leaves a founder's bootstrap configuration as it is. */
  predicate Plain(boot: Bootstrap, e: Entry) {
    match e.etype
    case Normal => true
    case AddVoter =>
      (match e.command
       case ConfigAdd(id, addr) => id in boot && boot[id] == addr
       case _ => false)
    case _ => false
  }

  ghost predicate PlainLog(boot: Bootstrap, log: Log) {
    forall e | e in log :: Plain(boot, e)
  }

  /** Without reconfiguration requests the configuration stays the bootstrap cluster. */
  lemma {:induction false} PlainLogKeepsBootstrap(boot: Bootstrap, log: Log)
    requires PlainLog(boot, log)
    ensures Replay(boot, log) == BootMembers(boot)
  {
    if |log| > 1 {
      assert forall e | e in log[..|log| - 1] :: e in log;
      PlainLogKeepsBootstrap(boot, log[..|log| - 1]);
      assert log[|log| - 1] in log;
    }
  }

  lemma FoundingIsPlain(boot: Bootstrap, term: Term)
    ensures PlainLog(boot, FoundingBlock(boot, term))
    ensures forall e | e in FoundingBlock(boot, term) :: e.term == term
  {
  }
}

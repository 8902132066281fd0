/** The loop of ReadIndex that collects the outcomes of one round of heartbeats. */
module ReadRound {

  datatype Outcome = Reached | NoQuorum | Waiting

  function Successes(votes: seq<bool>): (n: nat)
    ensures n <= |votes|
  {
    if votes == [] then 0
    else Successes(votes[..|votes| - 1]) + if votes[|votes| - 1] then 1 else 0
  }

  function Denials(votes: seq<bool>): nat {
    |votes| - Successes(votes)
  }

  lemma {:induction false} PrefixCounts(votes: seq<bool>, i: nat)
    requires i <= |votes|
    ensures Successes(votes[..i]) <= Successes(votes) && Denials(votes[..i]) <= Denials(votes)
    decreases |votes|
  {
    if i < |votes| {
      PrefixCounts(votes[..|votes| - 1], i);
      assert votes[..|votes| - 1][..i] == votes[..i];
    } else {
      assert votes[..i] == votes;
    }
  }

  /** What a round comes to, by the counts alone, with `self` of the votes being the caller's own. It is
      won if those that came in make a majority, and lost if some call failed and the others cannot make
      one. If too few peers can be called and none of the calls fails it is neither. */
  function Verdict(votes: seq<bool>, targets: nat, self: nat, quorum: nat): Outcome {
    if self + Successes(votes) >= quorum then Reached
    else if Denials(votes) > 0 && self + targets - Denials(votes) < quorum then NoQuorum
    else Waiting
  }

  /** Once there is a verdict, nothing that comes in later changes it. */
  lemma {:induction false} VerdictStands(votes: seq<bool>, i: nat, targets: nat, self: nat, quorum: nat)
    requires i <= |votes| <= targets && Verdict(votes[..i], targets, self, quorum) != Waiting
    ensures Verdict(votes, targets, self, quorum) == Verdict(votes[..i], targets, self, quorum)
  {
    PrefixCounts(votes, i);
  }

  lemma {:induction false} SuccessesCount(votes: seq<bool>)
    ensures Successes(votes) == |set k | 0 <= k < |votes| && votes[k]|
  {
    var now := set k | 0 <= k < |votes| && votes[k];
    if votes == [] {
      assert now == {};
    } else {
      var n := |votes| - 1;
      var init := votes[..n];
      SuccessesCount(init);
      var before := set k | 0 <= k < |init| && init[k];
      assert now == if votes[n] then before + {n} else before;
    }
  }

  /** The successes, the caller's own vote among them, make a majority. */
  ghost predicate Wins(votes: seq<bool>, self: nat, quorum: nat) {
    self + |set k | 0 <= k < |votes| && votes[k]| >= quorum
  }

  lemma {:induction false} AllSucceed(votes: seq<bool>, n: nat) returns (rest: seq<bool>)
    ensures |rest| == n && Successes(votes + rest) == Successes(votes) + n
    decreases n
  {
    rest := seq(n, _ => true);
    if n == 0 {
      assert votes + rest == votes;
    } else {
      var r := AllSucceed(votes, n - 1);
      rest := r + [true];
      assert (votes + rest)[..|votes + rest| - 1] == votes + r;
    }
  }

  lemma {:induction false} NoMoreThanLeft(votes: seq<bool>, rest: seq<bool>)
    ensures Successes(votes + rest) <= Successes(votes) + |rest|
    decreases |rest|
  {
    if rest == [] {
      assert votes + rest == votes;
    } else {
      var init := rest[..|rest| - 1];
      NoMoreThanLeft(votes, init);
      assert (votes + rest)[..|votes + rest| - 1] == votes + init;
    }
  }

  /** What the verdict means: the round is won if the successes so far make a majority; it is given up if some
      call has failed and whatever comes in of the rest, they cannot; and it goes on otherwise. */
  lemma VerdictIff(votes: seq<bool>, targets: nat, self: nat, quorum: nat)
    requires |votes| <= targets
    ensures Verdict(votes, targets, self, quorum) == Reached <==> Wins(votes, self, quorum)
    ensures Verdict(votes, targets, self, quorum) == NoQuorum
            <==> false in votes && forall rest: seq<bool> | |votes| + |rest| <= targets :: !Wins(votes + rest, self, quorum)
  {
    SuccessesCount(votes);
    SomeDenied(votes);
    forall rest: seq<bool> | |votes| + |rest| <= targets
      ensures Wins(votes + rest, self, quorum) ==> self + Successes(votes) + (targets - |votes|) >= quorum
    {
      SuccessesCount(votes + rest);
      NoMoreThanLeft(votes, rest);
    }
    var best := AllSucceed(votes, targets - |votes|);
    SuccessesCount(votes + best);
    assert self + Successes(votes) + (targets - |votes|) >= quorum ==> Wins(votes + best, self, quorum);
    assert votes + [] == votes;
    assert Wins(votes, self, quorum) ==> Wins(votes + [], self, quorum);
  }

  lemma {:induction false} SomeDenied(votes: seq<bool>)
    ensures Denials(votes) > 0 <==> false in votes
  {
    if votes != [] {
      SomeDenied(votes[..|votes| - 1]);
      assert votes == votes[..|votes| - 1] + [votes[|votes| - 1]];
    }
  }

  /** `votes` are the outcomes that come in before the caller gives up, in any order, of the calls to
      `targets` peers. The loop stops early, but never too early: the verdict is that of all the votes. */
  method CollectVotes(votes: seq<bool>, targets: nat, selfInCluster: bool, quorum: nat) returns (o: Outcome)
    requires |votes| <= targets
    ensures o == Verdict(votes, targets, if selfInCluster then 1 else 0, quorum)
  {
    var acks := if selfInCluster then 1 else 0;
    var denials := 0;
    var maxPossibleAcks := targets + acks;
    ghost var self := acks;
    if acks >= quorum { return Reached; }
    var i := 0;
    while i < |votes|
      invariant 0 <= i <= |votes|
      invariant acks == self + Successes(votes[..i]) < quorum
      invariant denials == Denials(votes[..i])
      invariant denials > 0 ==> maxPossibleAcks - denials >= quorum
    {
      assert votes[..i + 1][..i] == votes[..i];
      PrefixCounts(votes, i + 1);
      if votes[i] {
        acks := acks + 1;
        if acks >= quorum { return Reached; }
      } else {
        denials := denials + 1;
        if maxPossibleAcks - denials < quorum { return NoQuorum; }
      }
      i := i + 1;
    }
    assert votes[..i] == votes;
    return Waiting;
  }
}

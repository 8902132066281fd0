/** The truncate-or-append loop of service.go on logs that match. */
module Logs {
  import opened RaftTypes
  import opened NodeSpec

  /** Wherever the two logs have entries of the same term at the same index, they agree up to it. */
  ghost predicate Matching(f: Log, m: Log) {
    forall i | 0 <= i < |f| && i < |m| && f[i].term == m[i].term :: f[..i + 1] == m[..i + 1]
  }

  lemma SameUpTo(f: Log, m: Log, i: LogIndex)
    requires Matching(f, m) && i < |f| && i < |m| && f[i].term == m[i].term
    ensures f[..i + 1] == m[..i + 1]
  {
  }

  /** As far as the scan found equal terms, the logs are the same. */
  lemma SameThrough(f: Log, m: Log, prev: LogIndex, n: nat)
    requires Matching(f, m) && prev < |m| && prev < |f| && f[prev].term == m[prev].term
    requires n == AgreeFrom(f, prev, m[prev + 1..], 0)
    ensures prev + 1 + n <= |f| && prev + 1 + n <= |m| && f[..prev + 1 + n] == m[..prev + 1 + n]
  {
    if n > 0 {
      assert m[prev + 1..][n - 1] == m[prev + n];
      assert f[prev + n].term == m[prev + 1..][prev + n - prev - 1].term;
    }
    SameUpTo(f, m, prev + n);
  }

  /** Cut where the two logs part and continued with the rest of the other, a log becomes the other. */
  lemma CutAndContinued(f: Log, m: Log, k: LogIndex)
    requires k < |m| && k <= |f| && f[..k] == m[..k] && (k < |f| ==> f[k].term != m[k].term)
    ensures !(m <= f) && f[..k] + m[k..] == m
  {
  }

  lemma RestOf(m: Log, from: nat, n: nat)
    requires from + n < |m|
    ensures m[from..][n] == m[from + n] && m[from..][n..] == m[from + n..]
  {
  }

  lemma WholeOffer(f: Log, m: Log)
    requires |m| <= |f| && f[..|m|] == m[..|m|]
    ensures m <= f
  {
  }

  lemma LoopCuts(f: Log, prev: LogIndex, es: seq<Entry>, n: nat)
    requires prev < |f| && n == AgreeFrom(f, prev, es, 0)
    ensures prev + 1 + n <= |f| && MergeEntries(f, prev, es) == if n == |es| then f else f[..prev + 1 + n] + es[n..]
    ensures n < |es| && prev + 1 + n < |f| ==> f[prev + 1 + n].term != es[n].term
  {
  }

  /** A follower that passes the consistency check ends with its own log if that extends the
      offered one, and with exactly the offered log otherwise. */
  lemma MergeGivesLonger(f: Log, m: Log, prev: LogIndex)
    requires Matching(f, m) && prev < |m| && prev < |f| && f[prev].term == m[prev].term
    ensures MergeEntries(f, prev, m[prev + 1..]) == if m <= f then f else m
  {
    var n := AgreeFrom(f, prev, m[prev + 1..], 0);
    SameThrough(f, m, prev, n);
    LoopCuts(f, prev, m[prev + 1..], n);
    if prev + 1 + n < |m| {
      RestOf(m, prev + 1, n);
      CutAndContinued(f, m, prev + 1 + n);
    } else {
      WholeOffer(f, m);
    }
  }
}

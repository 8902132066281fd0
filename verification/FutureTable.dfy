/** The table of futures in place: shared future objects, reachable from the table and from the
    goroutines that wait on them. */
module FutureTable {
  import opened RaftTypes
  import opened Quorums
  import opened Futures
  import RaftNode

  /** The table once the indices in `ks` have been looked at. */
  ghost predicate ResolvedIn(fs: map<LogIndex, Future>, ks: set<LogIndex>, upTo: LogIndex, now: map<LogIndex, Future>) {
    && now.Keys == (set i | i in fs && !(i in ks && Due(i, fs[i], upTo) && fs[i].waiters == 0))
    && forall i | i in now :: now[i] == if i in ks && Due(i, fs[i], upTo) then Signalled(fs[i]) else fs[i]
  }

  function ResolvedAt(fs: map<LogIndex, Future>, i: LogIndex, upTo: LogIndex): map<LogIndex, Future>
    requires i in fs
  {
    var f := fs[i];
    if !Due(i, f, upTo) then fs
    else if f.waiters == 0 then fs - {i}
    else fs[i := Signalled(f)]
  }

  lemma ResolvedOneMore(fs: map<LogIndex, Future>, rest: set<LogIndex>, rest': set<LogIndex>, i: LogIndex, upTo: LogIndex,
                        now: map<LogIndex, Future>)
    returns (next: map<LogIndex, Future>)
    requires i in rest && rest <= fs.Keys && rest' == rest - {i} && ResolvedIn(fs, fs.Keys - rest, upTo, now)
    ensures i in now
    ensures next == ResolvedAt(now, i, upTo)
    ensures ResolvedIn(fs, fs.Keys - rest', upTo, next)
  {
    next := ResolvedAt(now, i, upTo);
  }

  lemma SmallerSet(a: set<LogIndex>, b: set<LogIndex>)
    requires a < b
    ensures |a| < |b|
  {
    assert b == a + (b - a);
  }

  lemma NoneResolved(fs: map<LogIndex, Future>, rest: set<LogIndex>, upTo: LogIndex)
    requires rest == fs.Keys
    ensures ResolvedIn(fs, fs.Keys - rest, upTo, fs)
  {
  }

  lemma AllResolved(fs: map<LogIndex, Future>, rest: set<LogIndex>, upTo: LogIndex, now: map<LogIndex, Future>)
    requires rest == {} && ResolvedIn(fs, fs.Keys - rest, upTo, now)
    ensures now == Resolve(fs, upTo)
    ensures forall i | i in fs && fs[i].waiters > 0 :: i in now
  {
  }

  lemma OneLess(t: Table, i: LogIndex, now: map<LogIndex, Future>)
    requires CanLeave(t, i) && now == t.futures[i := t.futures[i].(waiters := t.futures[i].waiters - 1)]
    ensures Unregister(t, i) == t.(futures := if now[i].waiters == 0 then now - {i} else now)
  {
    assert now - {i} == t.futures - {i};
  }

  lemma OneMore(t: Table, i: LogIndex, now: Table, f: Future)
    requires t.lastApplied < i && now == WithFuture(t, i) && i in now.futures && f == now.futures[i]
    ensures Register(t, i) == now.(futures := now.futures[i := f.(waiters := f.waiters + 1)])
  {
  }

  class IndexFuture {
    /** The index it was made for. */
    ghost const index: LogIndex

    var done: bool
    var resolved: bool
    var err: Option<Error>
    var waiters: nat

    constructor (ghost index: LogIndex)
      ensures Value() == NEW_FUTURE && this.index == index
    {
      this.index := index;
      done, resolved, err, waiters := false, false, None, 0;
    }

    ghost function Value(): Future
      reads this
    {
      Future(resolved, if done then 1 else 0, err, waiters)
    }

    /** Closing a closed channel panics. */
    method CloseDone()
      requires !done
      modifies this`done
      ensures done
    {
      done := true;
    }
  }

  class WaiterTable {
    var lastApplied: LogIndex
    var applyFutures: map<LogIndex, IndexFuture>

    /** What the goroutines that wait hold: each has the future it got, until it gives it back. */
    ghost var held: multiset<IndexFuture>

    /** No future serves two indices, and the done channel of one is closed when it is resolved. What a
        goroutine holds is the table's future for its index, and `waiters` counts those that hold it. */
    ghost predicate Valid()
      reads this`applyFutures, this`held, applyFutures.Values
    {
      && (forall i | i in applyFutures ::
            && applyFutures[i].index == i && applyFutures[i].done == applyFutures[i].resolved
            && applyFutures[i].waiters == held[applyFutures[i]])
      && (forall f | f in held :: f.index in applyFutures && applyFutures[f.index] == f)
    }

    ghost function Values(): (fs: map<LogIndex, Future>)
      reads this`applyFutures, applyFutures.Values
      ensures fs.Keys == applyFutures.Keys && forall i | i in fs :: fs[i] == applyFutures[i].Value()
    {
      ValuesExist(applyFutures.Keys);
      var fs: map<LogIndex, Future> :| fs.Keys == applyFutures.Keys && forall i | i in fs :: fs[i] == applyFutures[i].Value();
      fs
    }

    lemma {:induction false} ValuesExist(ks: set<LogIndex>)
      requires ks <= applyFutures.Keys
      ensures exists fs: map<LogIndex, Future> :: fs.Keys == ks && forall i | i in fs :: fs[i] == applyFutures[i].Value()
      decreases |ks|
    {
      var fs: map<LogIndex, Future> := map[];
      if ks != {} {
        var x := Pick(ks);
        ValuesExist(ks - {x});
        var rest: map<LogIndex, Future> :| rest.Keys == ks - {x} && forall i | i in rest :: rest[i] == applyFutures[i].Value();
        fs := rest[x := applyFutures[x].Value()];
      }
      assert fs.Keys == ks && forall i | i in fs :: fs[i] == applyFutures[i].Value();
    }

    ghost function Contents(): Table
      reads this, applyFutures.Values
    {
      Table(lastApplied, Values())
    }

    constructor ()
      ensures Valid() && Contents() == Table(0, map[]) && held == multiset{}
    {
      lastApplied, applyFutures, held := 0, map[], multiset{};
    }

    method GetFuture(index: LogIndex) returns (f: IndexFuture)
      requires Valid()
      modifies this`applyFutures
      ensures Valid() && Contents() == WithFuture(old(Contents()), index)
      ensures index in applyFutures && applyFutures[index] == f
      ensures f in old(applyFutures).Values || fresh(f)
      ensures forall j | j in old(applyFutures) :: j in applyFutures && applyFutures[j] == old(applyFutures[j])
    {
      if index in applyFutures { return applyFutures[index]; }
      f := new IndexFuture(index);
      applyFutures := applyFutures[index := f];
      assert Values() == old(Values())[index := NEW_FUTURE];
    }

    /** The first half of waitForApplied. From here on the goroutine holds the future in the table under
        its index, and every other waiter's future stays where it is. */
    method RegisterWaiter(index: LogIndex) returns (f: IndexFuture?)
      requires Valid()
      modifies this`applyFutures, this`held, applyFutures.Values
      ensures Valid() && Contents() == Register(old(Contents()), index)
      ensures f == null <==> old(lastApplied) >= index
      ensures f != null ==> index in applyFutures && applyFutures[index] == f
      ensures held == if f == null then old(held) else old(held) + multiset{f}
      ensures forall j | j in old(applyFutures) :: j in applyFutures && applyFutures[j] == old(applyFutures[j])
    {
      if lastApplied >= index { return null; }
      f := Join(index);
    }

    method Join(index: LogIndex) returns (f: IndexFuture)
      requires Valid() && lastApplied < index
      modifies this`applyFutures, this`held, applyFutures.Values
      ensures Valid() && Contents() == Register(old(Contents()), index) && held == old(held) + multiset{f}
      ensures index in applyFutures && applyFutures[index] == f
      ensures forall j | j in old(applyFutures) :: j in applyFutures && applyFutures[j] == old(applyFutures[j])
    {
      f := GetFuture(index);
      ghost var t := Contents();
      OneMore(old(Contents()), index, t, f.Value());
      AddWaiter(index, f);
      assert Contents() == t.(futures := Values());
    }

    method AddWaiter(index: LogIndex, f: IndexFuture)
      requires Valid() && index in applyFutures && applyFutures[index] == f
      modifies this`held, f`waiters
      ensures Valid() && held == old(held) + multiset{f}
      ensures f.Value() == old(f.Value()).(waiters := old(f.waiters) + 1)
      ensures Values() == old(Values())[index := f.Value()]
    {
      assert forall i | i in applyFutures && applyFutures[i] == f :: i == index;
      f.waiters, held := f.waiters + 1, held + multiset{f};
      assert Values() == old(Values())[index := f.Value()];
      assert held[f] == old(held)[f] + 1 && forall g | g != f :: held[g] == old(held)[g];
    }

    method DropWaiter(index: LogIndex, f: IndexFuture)
      requires Valid() && f in held && index == f.index
      modifies this`held, f`waiters
      ensures Valid() && held == old(held) - multiset{f} && old(f.waiters) > 0
      ensures f.Value() == old(f.Value()).(waiters := old(f.waiters) - 1)
      ensures Values() == old(Values())[index := f.Value()]
    {
      f.waiters, held := f.waiters - 1, held - multiset{f};
    }

    /** A future that nobody holds is deleted. */
    method DeleteIdle(index: LogIndex)
      requires Valid() && index in applyFutures && applyFutures[index].waiters == 0
      modifies this`applyFutures
      ensures Valid() && applyFutures == old(applyFutures) - {index} && Values() == old(Values()) - {index}
    {
      applyFutures := applyFutures - {index};
    }

    /** Its deferred half. Whatever happened since it registered, what a goroutine gives back, and what is
        deleted if nobody else holds it, is the table's future for its index. */
    method UnregisterWaiter(index: LogIndex, future: IndexFuture)
      requires Valid() && future in held && index == future.index
      modifies this`applyFutures, this`held, future`waiters
      ensures index in old(applyFutures) && old(applyFutures)[index] == future
      ensures Valid() && Contents() == Unregister(old(Contents()), index) && held == old(held) - multiset{future}
      ensures applyFutures == if future in held then old(applyFutures) else old(applyFutures) - {index}
    {
      ghost var before := Contents();
      DropWaiter(index, future);
      ghost var now := Values();
      OneLess(before, index, now);
      if future.waiters == 0 {
        DeleteIdle(index);
        assert Values() == now - {index};
      }
    }

    method RecordApplyError(index: LogIndex, error: Error)
      requires Valid()
      modifies this`applyFutures, applyFutures.Values
      ensures Valid() && Contents() == RecordError(old(Contents()), index, error)
      ensures forall j | j in old(applyFutures) :: j in applyFutures && applyFutures[j] == old(applyFutures[j])
    {
      var future := GetFuture(index);
      SetError(index, future, error);
    }

    method SetError(index: LogIndex, f: IndexFuture, error: Error)
      requires Valid() && index in applyFutures && applyFutures[index] == f
      modifies f`err
      ensures Valid() && Values() == old(Values())[index := old(f.Value()).(err := Some(error))]
    {
      f.err := Some(error);
    }

    method Signal(index: LogIndex)
      requires Valid() && index in applyFutures && !applyFutures[index].resolved
      modifies applyFutures[index]
      ensures Valid() && applyFutures[index].waiters == old(applyFutures[index].waiters)
      ensures Values() == old(Values())[index := old(applyFutures[index].Value()).(resolved := true, fired := 1)]
    {
      var f := applyFutures[index];
      f.CloseDone();
      f.resolved := true;
    }

    /** One turn of the loop below. */
    method ResolveOne(index: LogIndex, upTo: LogIndex, ghost next: map<LogIndex, Future>)
      requires Valid() && index in applyFutures && next == ResolvedAt(Values(), index, upTo)
      modifies this`applyFutures, applyFutures[index]
      ensures Valid() && Values() == next
      ensures applyFutures == old(applyFutures) || applyFutures == old(applyFutures) - {index}
    {
      var f := applyFutures[index];
      if index > upTo || f.resolved { return; }
      Signal(index);
      if f.waiters == 0 { DeleteIdle(index); }
    }

    method ResolveNext(rest: set<LogIndex>, upTo: LogIndex, ghost before: map<LogIndex, Future>)
      returns (rest': set<LogIndex>)
      requires Valid() && rest != {} && rest <= before.Keys
      requires ResolvedIn(before, before.Keys - rest, upTo, Values())
      modifies this`applyFutures, applyFutures.Values
      ensures Valid() && rest' < rest
      ensures ResolvedIn(before, before.Keys - rest', upTo, Values())
      ensures forall j | j in applyFutures :: j in old(applyFutures) && applyFutures[j] == old(applyFutures[j])
    {
      var index := RaftNode.TakeOne(rest);
      rest' := rest - {index};
      ghost var next := ResolvedOneMore(before, rest, rest', index, upTo, Values());
      assert index in Values();
      ResolveOne(index, upTo, next);
    }

    /** A future that somebody waits on stays under its index. */
    method ResolveFutures(upTo: LogIndex)
      requires Valid()
      modifies this`applyFutures, applyFutures.Values
      ensures Valid() && Values() == Resolve(old(Values()), upTo)
      ensures forall j | j in old(applyFutures) && old(applyFutures[j].waiters) > 0 ::
                j in applyFutures && applyFutures[j] == old(applyFutures[j])
    {
      ghost var all, before := applyFutures, Values();
      var rest := applyFutures.Keys;
      NoneResolved(before, rest, upTo);
      while rest != {}
        invariant rest <= before.Keys && Valid()
        invariant forall j | j in applyFutures :: j in all && applyFutures[j] == all[j]
        invariant ResolvedIn(before, before.Keys - rest, upTo, Values())
        decreases |rest|
      {
        ghost var was := rest;
        rest := ResolveNext(rest, upTo, before);
        SmallerSet(rest, was);
      }
      AllResolved(before, rest, upTo, Values());
    }

    method SetApplied(upTo: LogIndex)
      requires Valid()
      modifies this`lastApplied
      ensures Valid() && lastApplied == upTo && Values() == old(Values())
    {
      lastApplied := upTo;
    }

    /** The end of the applier's round. */
    method FinishBatch(upTo: LogIndex)
      requires Valid()
      modifies this`lastApplied, this`applyFutures, applyFutures.Values
      ensures Valid() && Contents() == Advance(old(Contents()), upTo)
      ensures forall j | j in old(applyFutures) && old(applyFutures[j].waiters) > 0 ::
                j in applyFutures && applyFutures[j] == old(applyFutures[j])
    {
      if upTo > lastApplied {
        SetApplied(upTo);
        ResolveFutures(lastApplied);
      }
    }
  }
}

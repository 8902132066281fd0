/** Waiting for an index to be applied (futures.go): who waits on what, as a machine whose steps
    interleave freely, and the table of futures in place. */
module Futures {
  import opened RaftTypes
  import opened Maps

  type Error = string

  /** `fired` counts how often the done channel was closed. */
  datatype Future = Future(resolved: bool, fired: nat, err: Option<Error>, waiters: nat)

  datatype Table = Table(lastApplied: LogIndex, futures: map<LogIndex, Future>)

  const NEW_FUTURE := Future(false, 0, None, 0)

  // ---- What each section does to the table ----------------------------------

  function WithFuture(t: Table, i: LogIndex): Table {
    if i in t.futures then t else t.(futures := t.futures[i := NEW_FUTURE])
  }

  /** A waiter for an index that is not applied yet joins its future. */
  function Register(t: Table, i: LogIndex): Table {
    if t.lastApplied >= i then t
    else
      var t1 := WithFuture(t, i);
      var f := t1.futures[i];
      t1.(futures := t1.futures[i := f.(waiters := f.waiters + 1)])
  }

  predicate CanLeave(t: Table, i: LogIndex) {
    i in t.futures && t.futures[i].waiters > 0
  }

  /** A waiter leaves, signalled or cancelled; the last one takes the future along. */
  function Unregister(t: Table, i: LogIndex): Table
    requires CanLeave(t, i)
  {
    var f := t.futures[i];
    if f.waiters == 1 then t.(futures := t.futures - {i})
    else t.(futures := t.futures[i := f.(waiters := f.waiters - 1)])
  }

  function RecordError(t: Table, i: LogIndex, e: Error): Table {
    var t1 := WithFuture(t, i);
    t1.(futures := t1.futures[i := t1.futures[i].(err := Some(e))])
  }

  predicate Due(i: LogIndex, f: Future, upTo: LogIndex) {
    i <= upTo && !f.resolved
  }

  /** A future that is due is signalled. */
  function Signalled(f: Future): Future {
    f.(resolved := true, fired := f.fired + 1)
  }

  /** The futures that are due are signalled, and those of them that nobody waits on are dropped. */
  ghost function Resolve(fs: map<LogIndex, Future>, upTo: LogIndex): (r: map<LogIndex, Future>)
    ensures r.Keys == set i | i in fs && !(Due(i, fs[i], upTo) && fs[i].waiters == 0)
    ensures forall i | i in r :: r[i] == if Due(i, fs[i], upTo) then Signalled(fs[i]) else fs[i]
  {
    var kept := set i | i in fs && !(Due(i, fs[i], upTo) && fs[i].waiters == 0);
    MapExists(kept, i => if i !in fs then NEW_FUTURE else if Due(i, fs[i], upTo) then Signalled(fs[i]) else fs[i]);
    var r: map<LogIndex, Future> :|
      r.Keys == kept && forall i | i in kept :: r[i] == if Due(i, fs[i], upTo) then Signalled(fs[i]) else fs[i];
    r
  }

  /** The applier is done with a batch. */
  ghost function Advance(t: Table, upTo: LogIndex): Table {
    if upTo > t.lastApplied then Table(upTo, Resolve(t.futures, upTo)) else t
  }

  // ---- Interleavings --------------------------------------------------------

  /** `waiting` holds an index once for every goroutine between registration and departure. */
  datatype Waits = Waits(table: Table, waiting: multiset<LogIndex>)

  datatype Event =
    | Joins(index: LogIndex)
    | Leaves(index: LogIndex)
    | ApplyFails(index: LogIndex, error: Error)
    | BatchDone(upTo: LogIndex)

  /** Entries are applied beyond `lastApplied` only. */
  predicate Possible(w: Waits, e: Event) {
    match e
    case Leaves(i) => i in w.waiting
    case ApplyFails(i, _) => i > w.table.lastApplied
    case _ => true
  }

  ghost function Happen(w: Waits, e: Event): Waits
    requires Possible(w, e) && forall i | i in w.waiting :: CanLeave(w.table, i)
  {
    match e
    case Joins(i) =>
      Waits(Register(w.table, i), if w.table.lastApplied >= i then w.waiting else w.waiting + multiset{i})
    case Leaves(i) => Waits(Unregister(w.table, i), w.waiting - multiset{i})
    case ApplyFails(i, err) => w.(table := RecordError(w.table, i, err))
    case BatchDone(upTo) => w.(table := Advance(w.table, upTo))
  }

  /** No stranded waiter: whoever waits is on a future in the table; a future is signalled exactly
      when its index is applied, and once; and no future nobody waits on is left behind. */
  ghost predicate NoneStranded(w: Waits) {
    && (forall i | i in w.waiting :: i in w.table.futures)
    && (forall i | i in w.table.futures ::
          var f := w.table.futures[i];
          && f.waiters == w.waiting[i]
          && (f.resolved <==> i <= w.table.lastApplied)
          && f.fired == (if f.resolved then 1 else 0)
          && (f.waiters == 0 ==> i > w.table.lastApplied && f.err.Some?))
  }

  lemma JoinStep(w: Waits, i: LogIndex)
    requires NoneStranded(w) && i > w.table.lastApplied
    ensures NoneStranded(Waits(Register(w.table, i), w.waiting + multiset{i}))
  {
  }

  lemma LeaveStep(w: Waits, i: LogIndex)
    requires NoneStranded(w) && i in w.waiting
    ensures CanLeave(w.table, i) && NoneStranded(Waits(Unregister(w.table, i), w.waiting - multiset{i}))
  {
  }

  lemma AdvanceStep(w: Waits, upTo: LogIndex)
    requires NoneStranded(w)
    ensures NoneStranded(w.(table := Advance(w.table, upTo)))
  {
  }

  lemma EventStrandsNobody(w: Waits, e: Event)
    requires NoneStranded(w) && Possible(w, e)
    ensures forall i | i in w.waiting :: CanLeave(w.table, i)
    ensures NoneStranded(Happen(w, e))
  {
    match e
    case Joins(i) => if i > w.table.lastApplied { JoinStep(w, i); }
    case Leaves(i) => LeaveStep(w, i);
    case ApplyFails(i, err) =>
    case BatchDone(upTo) => AdvanceStep(w, upTo);
  }

  ghost predicate MayHappen(w: Waits, e: Event, w': Waits) {
    && Possible(w, e) && (forall i | i in w.waiting :: CanLeave(w.table, i))
    && w' == Happen(w, e)
  }

  ghost predicate MayFollow(w: Waits, w': Waits) {
    exists e :: MayHappen(w, e, w')
  }

  ghost predicate WaitStepAt(r: seq<Waits>, k: nat)
    requires k + 1 < |r|
  {
    MayFollow(r[k], r[k + 1])
  }

  ghost predicate WaitRun(r: seq<Waits>) {
    && |r| > 0 && r[0] == Waits(Table(0, map[]), multiset{})
    && forall k {:trigger WaitStepAt(r, k)} | 0 <= k < |r| - 1 :: WaitStepAt(r, k)
  }

  /** In every interleaving of registrations, departures, failures and finished batches. */
  lemma {:induction false} NobodyStranded(r: seq<Waits>, k: nat)
    requires WaitRun(r) && k < |r|
    ensures NoneStranded(r[k])
  {
    if k > 0 {
      NobodyStranded(r, k - 1);
      assert WaitStepAt(r, k - 1);
      var e :| MayHappen(r[k - 1], e, r[k]);
      EventStrandsNobody(r[k - 1], e);
    }
  }

  /** Waiters are conserved: a waiter that does not leave waits on, or has been signalled. */
  lemma WaiterSignalled(w: Waits, upTo: LogIndex, i: LogIndex)
    requires NoneStranded(w) && i in w.waiting && i <= upTo
    ensures var t := Advance(w.table, upTo);
            i in t.futures && t.futures[i].fired == 1 && t.futures[i].err == w.table.futures[i].err
            && t.futures[i].waiters == w.waiting[i]
  {
  }

  // ---- Errors of the state machine ------------------------------------------

  /** An error the applier recorded for `i` is there for a waiter to find. */
  predicate Remembers(t: Table, i: LogIndex) {
    i in t.futures && t.futures[i].err.Some?
  }

  /** An error is forgotten exactly when the last waiter of its index leaves, or when the batch is
      done and nobody waits: a waiter that comes after that is told of success. */
  lemma ErrorForgottenIff(w: Waits, i: LogIndex, e: Event)
    requires NoneStranded(w) && Possible(w, e) && Remembers(w.table, i)
    ensures forall j | j in w.waiting :: CanLeave(w.table, j)
    ensures !Remembers(Happen(w, e).table, i) <==>
              || (e == Leaves(i) && w.waiting[i] == 1)
              || (e.BatchDone? && e.upTo >= i && w.waiting[i] == 0)
  {
    EventStrandsNobody(w, e);
  }

  /** As long as somebody waits for the index, the error stays. */
  lemma {:induction false} ErrorStays(r: seq<Waits>, k: nat, m: nat, i: LogIndex)
    requires WaitRun(r) && k <= m < |r| && Remembers(r[k].table, i)
    requires forall j | k <= j <= m :: i in r[j].waiting
    ensures Remembers(r[m].table, i)
    decreases m - k
  {
    if k < m {
      ErrorStays(r, k, m - 1, i);
      NobodyStranded(r, m - 1);
      assert WaitStepAt(r, m - 1);
      var e :| MayHappen(r[m - 1], e, r[m]);
      ErrorForgottenIff(r[m - 1], i, e);
      assert i in r[m].waiting && i in r[m - 1].waiting;
    }
  }

  /** A waiter of index 1 joins, the command fails, the waiter gives up, another joins, and the batch is done. */
  ghost function GivenUp(error: Error): seq<Waits> {
    var t1 := Register(Table(0, map[]), 1);
    var t2 := RecordError(t1, 1, error);
    var t4 := Register(t2.(futures := t2.futures - {1}), 1);
    [Waits(Table(0, map[]), multiset{}), Waits(t1, multiset{1}), Waits(t2, multiset{1}),
     Waits(t2.(futures := t2.futures - {1}), multiset{}), Waits(t4, multiset{1}), Waits(Advance(t4, 1), multiset{1})]
  }

  lemma GivenUpMayHappen(error: Error)
    ensures WaitRun(GivenUp(error))
  {
    var r := GivenUp(error);
    assert MayHappen(r[0], Joins(1), r[1]);
    assert MayHappen(r[1], ApplyFails(1, error), r[2]);
    assert MayHappen(r[2], Leaves(1), r[3]);
    assert MayHappen(r[3], Joins(1), r[4]);
    assert MayHappen(r[4], BatchDone(1), r[5]);
    forall k | 0 <= k < |r| - 1 ensures WaitStepAt(r, k) {}
  }

  /** But if the waiters of an index give up after its command failed, the next one is told of success: a run
      in which the error was there to be found, and at whose end a waiter has been signalled without it. */
  lemma ErrorLost(error: Error) returns (r: seq<Waits>, k: nat)
    ensures WaitRun(r) && k < |r| && Remembers(r[k].table, 1) && r[k].table.futures[1].err == Some(error)
    ensures var w := r[|r| - 1];
            && w.waiting[1] == 1 && 1 in w.table.futures
            && w.table.futures[1].fired == 1 && w.table.futures[1].err == None && w.table.lastApplied == 1
  {
    r, k := GivenUp(error), 2;
    GivenUpMayHappen(error);
  }
}

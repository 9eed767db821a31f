/**
 * The conditions under which an entry into the notify list, a Tune and a Reboot lose no wake-up are
 * exact, over all states that calm runs reach with the wait in two steps.
 */
module PoolExact {
  import opened Sums
  import opened PoolMachine
  import opened PoolInvariant
  import opened PoolWakeup
  import opened PoolGrain
  import opened PoolRuns
  import PC = PoolCapacity

  /** A calm run of a new pool ends in f. */
  ghost predicate Reachable(f: Fine) {
    exists cap: nat, xs :: cap >= 1 && CanRun(New(cap), xs) && CalmSteps(New(cap), xs) && Ends(New(cap), xs) == f
  }

  lemma Go(f: Fine, x: Step, g: Fine)
    requires Reachable(f) && CanStep(f, x) && CalmStep(f, x) && Next(f, x) == g
    ensures Reachable(g)
  {
    hide Next, CanStep, CalmStep;
    var cap: nat, xs :| cap >= 1 && CanRun(New(cap), xs) && CalmSteps(New(cap), xs) && Ends(New(cap), xs) == f;
    One(f, x);
    RunsJoin(New(cap), xs, [x]);
    assert CanRun(New(cap), xs + [x]) && CalmSteps(New(cap), xs + [x]) && Ends(New(cap), xs + [x]) == g;
  }

  /** The runs built in PoolRuns are among them. */
  lemma FromCoarse(m: nat, n: nat, s: Pool)
    requires m >= 1 && Reach(m, n, s)
    ensures Reachable(Fine(s, Nobody))
  {
    var acts :| Legal(Init(m), acts) && CalmRun(Init(m), acts) && PC.Within(Init(m), acts, m, n)
        && Exec(Init(m), acts) == s;
    var xs := CoarseIsFine(Init(m), acts);
    assert New(m) == Fine(Init(m), Nobody);
  }

  lemma ReachableIsGood(f: Fine)
    requires Reachable(f)
    ensures FineInv(f) && Wake(f.pool)
  {
    var cap: nat, xs :| cap >= 1 && CanRun(New(cap), xs) && CalmSteps(New(cap), xs) && Ends(New(cap), xs) == f;
    Start(cap);
    FineWakeRun(New(cap), xs);
  }

  // The condition on the entry is exact.

  /** Entering the notify list of an open pool loses no wake-up at the present capacity and number of workers. */
  ghost predicate EntryAlwaysSafe(cap: nat, running: nat) {
    forall f: Fine {:trigger Next(f, Enqueue)} ::
      Reachable(f) && CanStep(f, Enqueue) && !f.pool.closed && f.pool.cap == cap && f.pool.running == running
      ==> Wake(Next(f, Enqueue).pool)
  }

  /** A full pool in which one call has checked and k of the workers have left, their signals spent on nobody. */
  function LateEntry(cap: nat, k: nat): Pool
    requires k <= cap
  {
    Filled(Init(cap).(running := cap - k), cap, [Locking], Busy(cap - k) + Cached0(k))
  }

  function Cached0(k: nat): seq<Worker> { seq(k, _ => Worker(Empty, Cached)) }

  lemma ReachChecked(cap: nat)
    requires cap >= 1
    ensures Reachable(Fine(LateEntry(cap, 0), Holder(cap)))
  {
    FillNew(cap, 1, cap);
    Join(cap, 1, Init(cap).(running := cap), cap, [], Busy(cap));
    assert [] + [Locking] == [Locking];
    assert Busy(cap - 0) + Cached0(0) == Busy(cap);
    var s := LateEntry(cap, 0);
    FromCoarse(cap, 1, s);
    LastCall(cap);
    Go(Fine(s, Nobody), FindFull(cap), Fine(s, Holder(cap)));
  }

  lemma LastCall(cap: nat)
    ensures |Calls(cap, [Locking])| == cap + 1 && Calls(cap, [Locking])[cap] == Sub(Work(0), Locking)
    ensures forall i :: 0 <= i <= cap ==> !Calls(cap, [Locking])[i].phase.Waiting?
  {
  }

  /** The state while worker cap - k - 1 is on its way out. */
  function Leaver(cap: nat, k: nat, p: WorkerPhase, running: nat, owed: nat): Fine
    requires k < cap
  {
    Fine(Filled(Init(cap).(running := running, owed := owed), cap, [Locking],
                   Busy(cap - k - 1) + [Worker(Empty, p)] + Cached0(k)), Holder(cap))
  }

  lemma SetLeaver(cap: nat, k: nat, p: WorkerPhase, q: WorkerPhase)
    requires k < cap
    ensures var workers := Busy(cap - k - 1) + [Worker(Empty, p)] + Cached0(k);
      |workers| == cap && workers[cap - k - 1] == Worker(Empty, p)
      && workers[cap - k - 1 := Worker(Empty, q)] == Busy(cap - k - 1) + [Worker(Empty, q)] + Cached0(k)
  {
  }

  lemma LeaveOne(cap: nat, k: nat)
    requires k < cap && Reachable(Fine(LateEntry(cap, k), Holder(cap)))
    ensures Reachable(Fine(LateEntry(cap, k + 1), Holder(cap)))
  {
    hide Reachable;
    var w := cap - k - 1;
    assert Busy(cap - k) + Cached0(k) == Busy(w) + [Worker(Empty, Executing(0))] + Cached0(k);
    assert Busy(w) + [Worker(Empty, Cached)] + Cached0(k) == Busy(w) + Cached0(k + 1);
    SetLeaver(cap, k, Executing(0), Exiting);
    Go(Leaver(cap, k, Executing(0), cap - k, 0), Plain(Panic(w)), Leaver(cap, k, Exiting, cap - k, 0));
    LeaveCounts(cap, k);
  }

  lemma LeaveCounts(cap: nat, k: nat)
    requires k < cap && Reachable(Leaver(cap, k, Exiting, cap - k, 0))
    ensures Reachable(Leaver(cap, k, Cached, cap - k - 1, 0))
  {
    hide Reachable;
    var w := cap - k - 1;
    SetLeaver(cap, k, Exiting, Decremented);
    Go(Leaver(cap, k, Exiting, cap - k, 0), Plain(Decrement(w)), Leaver(cap, k, Decremented, w, 0));
    SetLeaver(cap, k, Decremented, Cached);
    Go(Leaver(cap, k, Decremented, w, 0), Plain(Put(w)), Leaver(cap, k, Cached, w, 1));
    LastCall(cap);
    Go(Leaver(cap, k, Cached, w, 1), Plain(Signal(cap + 1)), Leaver(cap, k, Cached, w, 0));
  }

  lemma {:induction false} ReachLate(cap: nat, k: nat)
    requires cap >= 1 && k <= cap
    ensures Reachable(Fine(LateEntry(cap, k), Holder(cap)))
  {
    hide Reachable, LateEntry;
    if k == 0 {
      ReachChecked(cap);
    } else {
      ReachLate(cap, k - 1);
      LeaveOne(cap, k - 1);
    }
  }

  /**
   * However many workers leave between a check and its entry: the submission waits, places are free,
   * no signal is owed.
   */
  lemma LateEntryLosesAWakeup(cap: nat, running: nat) returns (f: Fine)
    requires running < cap
    ensures f == Fine(LateEntry(cap, cap - running), Holder(cap))
    ensures Reachable(f) && CanStep(f, Enqueue) && !f.pool.closed && f.pool.cap == cap && f.pool.running == running
    ensures var t := Next(f, Enqueue).pool;
      Waiters(t.subs) == 1 && Free(t) == cap - running > Credit(t) == 0 && !Wake(t)
  {
    var k := cap - running;
    f := Fine(LateEntry(cap, k), Holder(cap));
    ReachLate(cap, k);
    LastCall(cap);
    SetPhase(cap, [Locking], 0, Waiting);
    assert [Locking][0 := Waiting] == Many(0, Rejected) + Many(1, Waiting);
    CountCalls(cap, 0, 1);
    BusyStays(running);
    CachedStay(k);
    SumConcat(IsLeaving, Busy(running), Cached0(k), 0);
  }

  lemma {:induction false} CachedStay(k: nat)
    ensures Leaving(Cached0(k)) == 0
  {
    if k > 0 {
      assert Cached0(k)[1..] == Cached0(k - 1);
      CachedStay(k - 1);
    }
  }

  /** Entering loses no wake-up if and only if the check would still find the pool full. */
  lemma EntryExact(cap: nat, running: nat)
    ensures EntryAlwaysSafe(cap, running) <==> cap <= running
  {
    if cap <= running {
      forall f: Fine
        | Reachable(f) && CanStep(f, Enqueue) && !f.pool.closed && f.pool.cap == cap && f.pool.running == running
        ensures Wake(Next(f, Enqueue).pool)
      {
        ReachableIsGood(f);
        FineWakeStep(f, Enqueue);
      }
    } else {
      var f := LateEntryLosesAWakeup(cap, running);
    }
  }

  // Tune.

  /** No wake-up is lost whenever a Tune that has read `capacity` stores `size` over the present `cap`. */
  ghost predicate StoreAlwaysSafe(capacity: nat, size: nat, cap: nat) {
    forall f: Fine, j: nat {:trigger Next(f, Plain(TuneStore(j)))} ::
      Reachable(f) && CanStep(f, Plain(TuneStore(j))) && f.pool.cap == cap && f.pool.tunes[j] == Loaded(capacity, size)
      ==> Wake(Next(f, Plain(TuneStore(j))).pool)
  }

  /** Capacity `cap` after two Tune calls from `capacity`, one of which has still to store `size`. */
  function Overlap(capacity: nat, size: nat, cap: nat): Pool {
    Init(capacity).(tunes := [Loaded(capacity, size), Finished], cap := cap)
  }

  lemma ReachLoads(capacity: nat, size: nat, cap: nat)
    requires 1 <= cap < capacity && size >= 1 && size != capacity
    ensures Reach(capacity, 1, Init(capacity).(tunes := [Loaded(capacity, size), Loaded(capacity, cap)]))
  {
    hide Reach, SubmissionStep, WorkerStep, PurgerStep;
    var s0 := Init(capacity);
    var s1 := s0.(tunes := [Loaded(capacity, size)]);
    Begin(capacity, 1);
    Move(capacity, 1, s0, TuneLoad(size), s1);
    Move(capacity, 1, s1, TuneLoad(cap), s0.(tunes := [Loaded(capacity, size), Loaded(capacity, cap)]));
  }

  lemma ReachOverlap(capacity: nat, size: nat, cap: nat)
    requires 1 <= cap < capacity && size >= 1 && size != capacity
    ensures Reach(capacity, 1, Overlap(capacity, size, cap))
  {
    hide Reach, SubmissionStep, WorkerStep, PurgerStep;
    ReachLoads(capacity, size, cap);
    var s := Init(capacity).(tunes := [Loaded(capacity, size), Loaded(capacity, cap)]);
    Move(capacity, 1, s, TuneStore(1), Overlap(capacity, size, cap));
  }

  /** Then the pool fills up and one more call waits. */
  function OverlapFull(capacity: nat, size: nat, cap: nat): Pool {
    Filled(Overlap(capacity, size, cap).(running := cap, waiting := 1), cap, [Waiting], Busy(cap))
  }

  lemma ReachOverlapFull(capacity: nat, size: nat, cap: nat)
    requires 1 <= cap < capacity && size >= 1 && size != capacity
    ensures Reach(capacity, 1, OverlapFull(capacity, size, cap))
  {
    hide Reach, Filled;
    var b := Overlap(capacity, size, cap);
    ReachOverlap(capacity, size, cap);
    EmptyFilled(b);
    Fill(capacity, 1, b, cap);
    Join(capacity, 1, b.(running := cap), cap, [], Busy(cap));
    assert [] + [Locking] == [Locking];
    NoRoom(capacity, 1, b.(running := cap), cap, [Locking], Busy(cap), 0);
    assert [Locking][0 := Waiting] == [Waiting];
  }

  lemma EmptyFilled(base: Pool)
    requires base.subs == [] && base.workers == [] && base.started == []
    ensures Filled(base, 0, [], Busy(0)) == base
  {
  }

  /**
   * Two Tune calls from `capacity`, to `size` and to a smaller `cap`: if the store of a size above
   * `cap` comes last it raises the capacity by more than it announces, and a submission waits in vain.
   */
  lemma OverlappingTunesLoseAWakeup(capacity: nat, size: nat, cap: nat) returns (s: Pool)
    requires 1 <= cap < capacity && cap < size && size != capacity
    ensures Reachable(Fine(s, Nobody)) && CanStep(Fine(s, Nobody), Plain(TuneStore(0)))
    ensures s.cap == cap && s.tunes[0] == Loaded(capacity, size)
    ensures var t := Apply(s, TuneStore(0));
      !t.closed && Waiters(t.subs) == 1 && Free(t) == size - cap > Credit(t) && !Wake(t)
  {
    s := OverlapFull(capacity, size, cap);
    ReachOverlapFull(capacity, size, cap);
    FromCoarse(capacity, 1, s);
    CountCalls(cap, 0, 1);
    assert Many(0, Rejected) + Many(1, Waiting) == [Waiting];
    BusyStays(cap);
    TuneDebt(Apply(s, TuneStore(0)).tunes[0]);
  }

  lemma TuneDebt(call: Tune)
    ensures Debt([call, Finished]) == RiseOf(call, 0)
  {
    SumOne(RiseOf, Finished, 0);
    assert [call, Finished][1..] == [Finished];
  }

  lemma TuneStoreExact(capacity: nat, size: nat, cap: nat)
    requires capacity >= 1 && size >= 1 && cap >= 1 && size != capacity
    ensures StoreAlwaysSafe(capacity, size, cap) <==> capacity <= cap || size <= cap
  {
    if capacity <= cap || size <= cap {
      forall f: Fine, j: nat
        | Reachable(f) && CanStep(f, Plain(TuneStore(j))) && f.pool.cap == cap
            && f.pool.tunes[j] == Loaded(capacity, size)
        ensures Wake(Next(f, Plain(TuneStore(j))).pool)
      {
        ReachableIsGood(f);
        FineWakeStep(f, Plain(TuneStore(j)));
      }
    } else {
      var s := OverlappingTunesLoseAWakeup(capacity, size, cap);
      assert !Wake(Next(Fine(s, Nobody), Plain(TuneStore(0))).pool);
    }
  }

  // Reboot.

  ghost predicate RebootAlwaysSafe(cap: nat, waiting: nat) {
    forall f: Fine {:trigger Next(f, Plain(Reboot))} ::
      Reachable(f) && CanStep(f, Plain(Reboot)) && f.pool.cap == cap && f.pool.waiting == waiting
      ==> Wake(Next(f, Plain(Reboot)).pool)
  }

  /** A full pool that is closed, with j calls parked after the broadcast and i more on their way to the lock. */
  function ClosedFull(cap: nat, j: nat, i: nat): Pool {
    Filled(Init(cap).(running := cap, closed := true, waiting := j), cap, Many(j, Waiting) + Many(i, Locking),
        Busy(cap))
  }

  lemma ReachClosed(cap: nat, n: nat)
    requires cap >= 1 && n >= 1
    ensures Reach(cap, n, ClosedFull(cap, 0, n))
  {
    hide Reach;
    var b, phases := Init(cap).(running := cap), Many(n, Locking);
    FillNew(cap, n, cap);
    JoinMany(cap, n, b, cap, Busy(cap), n);
    MoveFilled(cap, n, Filled(b, cap, phases, Busy(cap)), Close, b.(closed := true, resets := 1), cap, phases,
        Busy(cap));
    MoveFilled(cap, n, Filled(b.(closed := true, resets := 1), cap, phases, Busy(cap)), Reset,
               b.(closed := true, closers := 1), cap, phases, Busy(cap));
    assert NotifyAll(Calls(cap, phases)) == Calls(cap, phases);
    MoveFilled(cap, n, Filled(b.(closed := true, closers := 1), cap, phases, Busy(cap)), CloseBroadcast,
               b.(closed := true), cap, phases, Busy(cap));
    assert Many(0, Waiting) + phases == phases;
  }

  lemma {:induction false} ReachParked(cap: nat, n: nat, j: nat)
    requires cap >= 1 && n >= 1 && j <= n
    ensures Reach(cap, n, ClosedFull(cap, j, n - j))
  {
    hide Reach, Filled;
    if j == 0 {
      ReachClosed(cap, n);
    } else {
      var before := Many(j - 1, Waiting) + Many(n - j + 1, Locking);
      ReachParked(cap, n, j - 1);
      NoRoom(cap, n, Init(cap).(running := cap, closed := true, waiting := j - 1), cap, before, Busy(cap), j - 1);
      assert before[j - 1 := Waiting] == Many(j, Waiting) + Many(n - j, Locking);
    }
  }

  /** The same with one worker on its way out and one of the parked calls in another phase. */
  function OneLeaves(cap: nat, w: nat, p: SubPhase, x: WorkerPhase, base: Pool): Pool
    requires cap >= 1
  {
    Filled(base.(closed := true), cap, [p] + Many(w, Waiting), Busy(cap - 1) + [Worker(Empty, x)])
  }

  lemma ReachLeaving(cap: nat, w: nat)
    requires cap >= 1
    ensures Reach(cap, w + 1, OneLeaves(cap, w, Waiting, Exiting, Init(cap).(running := cap, waiting := w + 1)))
  {
    hide Reach;
    var n, phases := w + 1, [Waiting] + Many(w, Waiting);
    ReachParked(cap, n, n);
    assert phases == Many(n, Waiting) + Many(0, Locking);
    assert Busy(cap) == Busy(cap - 1) + [Worker(Empty, Executing(0))];
    var b := Init(cap).(running := cap, closed := true, waiting := n);
    SetLast(cap, Executing(0), Exiting);
    MoveFilled(cap, n, Filled(b, cap, phases, Busy(cap)), Panic(cap - 1), b, cap, phases,
        Busy(cap - 1) + [Worker(Empty, Exiting)]);
  }

  lemma ReachLess(cap: nat, w: nat)
    requires cap >= 1
    ensures Reach(cap, w + 1, OneLeaves(cap, w, Waiting, Decremented, Init(cap).(running := cap - 1, waiting := w + 1)))
  {
    hide Reach;
    var n, phases := w + 1, [Waiting] + Many(w, Waiting);
    ReachLeaving(cap, w);
    SetLast(cap, Exiting, Decremented);
    var b := Init(cap).(running := cap, closed := true, waiting := n);
    MoveFilled(cap, n, Filled(b, cap, phases, Busy(cap - 1) + [Worker(Empty, Exiting)]), Decrement(cap - 1),
               b.(running := cap - 1), cap, phases, Busy(cap - 1) + [Worker(Empty, Decremented)]);
  }

  lemma ReachWorkerGone(cap: nat, w: nat)
    requires cap >= 1
    ensures Reach(cap, w + 1,
        OneLeaves(cap, w, Waiting, Cached, Init(cap).(running := cap - 1, waiting := w + 1, owed := 1)))
  {
    hide Reach;
    var n, phases := w + 1, [Waiting] + Many(w, Waiting);
    ReachLess(cap, w);
    SetLast(cap, Decremented, Cached);
    var b := Init(cap).(running := cap - 1, closed := true, waiting := n);
    MoveFilled(cap, n, Filled(b, cap, phases, Busy(cap - 1) + [Worker(Empty, Decremented)]), Put(cap - 1),
               b.(owed := 1), cap, phases, Busy(cap - 1) + [Worker(Empty, Cached)]);
  }

  lemma SetLast(cap: nat, p: WorkerPhase, q: WorkerPhase)
    requires cap >= 1
    ensures var workers := Busy(cap - 1) + [Worker(Empty, p)];
      |workers| == cap && workers[cap - 1] == Worker(Empty, p)
      && workers[cap - 1 := Worker(Empty, q)] == Busy(cap - 1) + [Worker(Empty, q)]
  {
  }

  /** A closed pool whose purger has gone, with w calls waiting and one place free. */
  function Stranded(cap: nat, w: nat): Pool
    requires cap >= 1
  {
    OneLeaves(cap, w, Rejected, Cached, Init(cap).(running := cap - 1, waiting := w, purger := Gone))
  }

  lemma ReachWoken(cap: nat, w: nat)
    requires cap >= 1
    ensures Reach(cap, w + 1, OneLeaves(cap, w, Notified, Cached, Init(cap).(running := cap - 1, waiting := w + 1)))
  {
    hide Reach;
    var n, rest, workers := w + 1, Many(w, Waiting), Busy(cap - 1) + [Worker(Empty, Cached)];
    ReachWorkerGone(cap, w);
    var b := Init(cap).(running := cap - 1, waiting := n, closed := true);
    SetPhase(cap, [Waiting] + rest, 0, Notified);
    assert ([Waiting] + rest)[0 := Notified] == [Notified] + rest;
    MoveFilled(cap, n, Filled(b.(owed := 1), cap, [Waiting] + rest, workers), Signal(cap), b, cap, [Notified] + rest,
        workers);
  }

  lemma ReachTurnedAway(cap: nat, w: nat)
    requires cap >= 1
    ensures Reach(cap, w + 1, OneLeaves(cap, w, Rejected, Cached, Init(cap).(running := cap - 1, waiting := w)))
  {
    hide Reach;
    var n, rest, workers := w + 1, Many(w, Waiting), Busy(cap - 1) + [Worker(Empty, Cached)];
    ReachWoken(cap, w);
    var b := Init(cap).(running := cap - 1, waiting := n, closed := true);
    SetPhase(cap, [Notified] + rest, 0, Rejected);
    assert ([Notified] + rest)[0 := Rejected] == [Rejected] + rest;
    MoveFilled(cap, n, Filled(b, cap, [Notified] + rest, workers), Retry(cap), b.(waiting := w), cap,
        [Rejected] + rest, workers);
  }

  lemma ReachStranded(cap: nat, w: nat)
    requires cap >= 1
    ensures Reach(cap, w + 1, Stranded(cap, w))
  {
    hide Reach, Calls, Busy;
    var n, rest, workers := w + 1, Many(w, Waiting), Busy(cap - 1) + [Worker(Empty, Cached)];
    ReachTurnedAway(cap, w);
    var b := Init(cap).(running := cap - 1, waiting := w, closed := true);
    MoveFilled(cap, n, Filled(b, cap, [Rejected] + rest, workers), Tick, b.(purger := Gone), cap, [Rejected] + rest,
        workers);
  }

  /**
   * Reboot with submissions waiting: the signal of the last worker that left went to a submission
   * that found the pool closed, and the others wait in an open pool with a free place.
   */
  lemma RebootStrandsWaiters(cap: nat, w: nat) returns (s: Pool)
    requires cap >= 1 && w >= 1
    ensures Reachable(Fine(s, Nobody)) && CanStep(Fine(s, Nobody), Plain(Reboot)) && s.cap == cap && s.waiting == w
    ensures var t := Apply(s, Reboot);
      !t.closed && t.running == cap - 1 && Waiters(t.subs) == w && Free(t) == 1 && Credit(t) == 0 && !Wake(t)
  {
    s := Stranded(cap, w);
    ReachStranded(cap, w);
    FromCoarse(cap, w + 1, s);
    CountCalls(cap, 1, w);
    assert Many(1, Rejected) + Many(w, Waiting) == [Rejected] + Many(w, Waiting);
    BusyStays(cap - 1);
    SumAppend(IsLeaving, Busy(cap - 1), Worker(Empty, Cached), 0);
  }

  lemma RebootExact(cap: nat, waiting: nat)
    requires cap >= 1
    ensures RebootAlwaysSafe(cap, waiting) <==> waiting == 0
  {
    if waiting == 0 {
      forall f: Fine
        | Reachable(f) && CanStep(f, Plain(Reboot)) && f.pool.cap == cap && f.pool.waiting == 0
        ensures Wake(Next(f, Plain(Reboot)).pool)
      {
        ReachableIsGood(f);
        FineWakeStep(f, Plain(Reboot));
      }
    } else {
      var s := RebootStrandsWaiters(cap, waiting);
      assert !Wake(Next(Fine(s, Nobody), Plain(Reboot)).pool);
    }
  }
}

/**
 * What a lost wake-up costs. Even when entries come late or Tune calls overlap, a submission waits in
 * vain only in a pool whose workers have all left, and the next round of the purger wakes it.
 */
module PoolRescue {
  import opened Sums
  import opened PoolMachine
  import opened PoolInvariant
  import opened PoolWakeup
  import opened PoolGrain
  import PE = PoolExact
  import PW = PoolWork

  /** Idle workers are matched by woken submissions while somebody waits. */
  predicate Matched(s: Pool) { !s.closed && Waiters(s.subs) > 0 ==> |s.stack| <= Woken(s.subs) }

  lemma SubmissionMatches(s: Pool, a: Action)
    requires Matched(s) && Enabled(s, a) && MovesOneSub(a)
    ensures Matched(Apply(s, a))
  {
    hide Sum, WorkerStep, PurgerStep, ControlStep;
    CreditNonNegative(s);
    CreditNonNegative(Apply(s, a));
    QueueMoves(s, a);
  }

  lemma WorkerMatches(s: Pool, a: Action)
    requires Matched(s) && Enabled(s, a) && ByWorker(a)
    ensures Matched(Apply(s, a))
  {
    hide Sum, SubmissionStep, PurgerStep, ControlStep;
    CreditNonNegative(s);
    if a.Insert? || a.Signal? {
      SignalChanges(s.subs, a.i);
    } else if a.Decline? {
      NotifyAllChanges(s.subs, 0);
    }
  }

  lemma PurgerMatches(s: Pool, a: Action)
    requires Matched(s) && Enabled(s, a) && ByPurger(a)
    ensures Matched(Apply(s, a))
  {
    hide Sum, SubmissionStep, WorkerStep, ControlStep;
    NotifyAllChanges(s.subs, 0);
  }

  lemma ControlMatches(s: Pool, a: Action)
    requires Matched(s) && Enabled(s, a) && ByControl(a) && !a.Reboot?
    ensures Matched(Apply(s, a))
  {
    hide Sum, SubmissionStep, WorkerStep, PurgerStep;
    CreditNonNegative(s);
    NotifyAllChanges(s.subs, 0);
    if a.TuneWake? {
      SignalChanges(s.subs, a.i);
    }
  }

  lemma CallMatches(s: Pool, msg: Msg)
    requires Matched(s)
    ensures Matched(Apply(s, Call(msg)))
  {
    SumAppend(IsWaiting, s.subs, Sub(msg, Entering), 0);
    SumAppend(IsNotified, s.subs, Sub(msg, Entering), 0);
  }

  lemma MatchedStep(s: Pool, a: Action)
    requires Matched(s) && Enabled(s, a) && !a.Reboot?
    ensures Matched(Apply(s, a))
  {
    hide Matched, Apply, Enabled;
    if a.Call? {
      CallMatches(s, a.msg);
    } else if MovesOneSub(a) {
      SubmissionMatches(s, a);
    } else if ByWorker(a) {
      WorkerMatches(s, a);
    } else if ByPurger(a) {
      PurgerMatches(s, a);
    } else {
      ControlMatches(s, a);
    }
  }

  /** Every step but a Reboot keeps it, late entries and overlapping Tune calls included. */
  lemma FineMatchedStep(f: Fine, x: Step)
    requires FineInv(f) && Matched(f.pool) && CanStep(f, x) && !(x.Plain? && x.a.Reboot?)
    ensures Matched(Next(f, x).pool)
  {
    match x
    case Plain(a) => MatchedStep(f.pool, a);
    case FindFull(i) =>
    case Enqueue =>
      CreditNonNegative(f.pool);
      CreditNonNegative(Wait(f.pool, f.parking.i));
  }

  predicate NoReboot(xs: seq<Step>) { forall k :: 0 <= k < |xs| ==> !(xs[k].Plain? && xs[k].a.Reboot?) }

  lemma {:induction false} MatchedRun(f: Fine, xs: seq<Step>)
    requires FineInv(f) && Matched(f.pool) && CanRun(f, xs) && NoReboot(xs)
    ensures FineInv(Ends(f, xs)) && Matched(Ends(f, xs).pool)
    decreases |xs|
  {
    hide FineInv, Next, CanStep, Matched;
    if xs != [] {
      FineStep(f, xs[0]);
      FineMatchedStep(f, xs[0]);
      MatchedRun(Next(f, xs[0]), xs[1..]);
    }
  }

  /** Where nothing moves any more and somebody waits, all workers have left. */
  lemma SettledIsEmpty(s: Pool)
    requires Inv(s) && Matched(s) && !s.closed && PD.Settled(s) && Waiters(s.subs) > 0
    ensures s.stack == [] && s.running == 0
  {
    AllZero(IsNotified, s.subs, 0);
    NonNegatives(s, 0);
    SumNonNegative(IsStarted, s.workers, 0);
    if Started(s.workers) > 0 {
      var w := SumSource(IsStarted, s.workers, 0);
      PD.SettledWorkerOnStack(s, w);
      assert false;
    }
  }

  /** A waiter is stranded only in an empty pool: over every run without Reboot, whatever Tune and late entries do. */
  lemma StrandedOnlyWhenEmpty(cap: nat, xs: seq<Step>)
    requires cap >= 1 && CanRun(New(cap), xs) && NoReboot(xs)
    ensures var f := Ends(New(cap), xs);
      !f.pool.closed && Waiters(f.pool.subs) > 0 && !CanMove(f) ==> f.pool.stack == [] && f.pool.running == 0
  {
    var f := Ends(New(cap), xs);
    Start(cap);
    MatchedRun(New(cap), xs);
    MovesUnlessSettled(f);
    hide Ends, CanRun, CanMove, Inv, Matched;
    if !f.pool.closed && Waiters(f.pool.subs) > 0 && !CanMove(f) {
      SettledIsEmpty(f.pool);
    }
  }

  /** And it happens, for every capacity: after a late entry an open pool has come to rest with somebody waiting. */
  lemma LateEntryStrands(cap: nat) returns (f: Fine)
    requires cap >= 1
    ensures PE.Reachable(f) && CanStep(f, Enqueue)
    ensures var g := Next(f, Enqueue); !g.pool.closed && !CanMove(g) && Waiters(g.pool.subs) == 1
  {
    f := PE.LateEntryLosesAWakeup(cap, 0);
    PE.ReachableIsGood(f);
    var g := Next(f, Enqueue);
    FineStep(f, Enqueue);
    MovesUnlessSettled(g);
    hide Sum, Inv, PE.Reachable, CanMove;
    assert forall i :: 0 <= i < |g.pool.subs| ==> PD.SubSettled(g.pool.subs[i]);
    assert forall w :: 0 <= w < |g.pool.workers| ==> g.pool.workers[w] == Worker(Empty, Cached);
  }

  /** A round of the purger in such a pool wakes everybody. */
  lemma RoundWakesAll(s: Pool)
    requires Inv(s) && !s.closed && s.stack == [] && s.running == 0 && s.purger.Sleeping? && Waiters(s.subs) > 0
    ensures Legal(s, [Tick, Refresh(0), EndPurge])
    ensures var t := Exec(s, [Tick, Refresh(0), EndPurge]);
      t == s.(subs := NotifyAll(s.subs)) && Waiters(t.subs) == 0 && Woken(t.subs) == Woken(s.subs) + Waiters(s.subs)
  {
    SomebodyCounts(s);
    NotifyAllChanges(s.subs, 0);
    RoundSteps(s);
    hide Sum, Inv, Apply, Enabled, Legal, Exec;
    ThreeSteps(s, Tick, s.(purger := Ticked), Refresh(0), s.(purger := Finishing([], true)), EndPurge,
        s.(subs := NotifyAll(s.subs)));
  }

  lemma RoundSteps(s: Pool)
    requires !s.closed && s.stack == [] && s.running == 0 && s.purger.Sleeping? && s.waiting > 0
    ensures var ticked, looked, done := s.(purger := Ticked), s.(purger := Finishing([], true)),
        s.(subs := NotifyAll(s.subs));
      && Enabled(s, Tick) && Apply(s, Tick) == ticked
      && Enabled(ticked, Refresh(0)) && Apply(ticked, Refresh(0)) == looked
      && Enabled(looked, EndPurge) && Apply(looked, EndPurge) == done
  {
    hide SubmissionStep, WorkerStep, ControlStep;
  }

  lemma ThreeSteps(s: Pool, a: Action, t: Pool, b: Action, u: Pool, c: Action, v: Pool)
    requires Enabled(s, a) && Apply(s, a) == t && Enabled(t, b) && Apply(t, b) == u && Enabled(u, c) && Apply(u, c) == v
    ensures Legal(s, [a, b, c]) && Exec(s, [a, b, c]) == v
  {
    hide Apply, Enabled;
    assert [c][1..] == [] && Legal(v, []) && Exec(v, []) == v;
    assert [b, c][1..] == [c] && Legal(u, [c]) && Exec(u, [c]) == v;
    assert [a, b, c][1..] == [b, c] && Legal(t, [b, c]) && Exec(t, [b, c]) == v;
  }

  lemma SomebodyCounts(s: Pool)
    requires Inv(s) && Waiters(s.subs) > 0
    ensures s.waiting > 0
  {
    NonNegatives(s, 0);
    SumNonNegative(IsNotified, s.subs, 0);
  }

  // What such a round is good for: whatever happens after it, another call is accepted.

  predicate AcceptedAt(subs: seq<Sub>, i: nat) { i < |subs| && subs[i].phase.Accepted? }

  /** Accepted calls stay accepted. */
  predicate Grown(before: seq<Sub>, after: seq<Sub>) {
    |before| <= |after| && forall i: nat :: i < |before| && AcceptedAt(before, i) ==> AcceptedAt(after, i)
  }

  /** A call that was not accepted before has been told to spawn, has a worker, or has sent its task. */
  ghost predicate Progress(s: Pool, before: seq<Sub>) { exists i: nat :: PW.Committed(s, i) && !AcceptedAt(before, i) }

  /** No worker, no call with one, and those that wait will be woken by the purger. */
  predicate Barren(f: Fine) {
    && !f.pool.closed && f.pool.running == 0 && f.pool.stack == [] && f.parking.Nobody?
    && (forall i: nat :: i < |f.pool.subs| ==> PW.Committed(f.pool, i) ==> AcceptedAt(f.pool.subs, i))
    && (Waiters(f.pool.subs) == 0 || f.pool.purger.Ticked? || f.pool.purger == Finishing([], true))
  }

  /** Steps under way, new calls, the ticker and Tune. */
  predicate Working(a: Action) { PD.Internal(a) || a.Call? || a.Tick? || a.TuneLoad? }

  lemma SubmissionBarren(f: Fine, a: Action, before: seq<Sub>)
    requires FineInv(f) && Barren(f) && CanStep(f, Plain(a)) && BySubmission(a) && !a.Call?
        && Grown(before, f.pool.subs)
    ensures Barren(Next(f, Plain(a))) || Progress(Next(f, Plain(a)).pool, before)
  {
    assert f.pool.cap >= 1;
    hide Sum, WorkerStep, PurgerStep, ControlStep, Inv;
    assert PW.Committed(f.pool, a.i) ==> AcceptedAt(f.pool.subs, a.i);
    var t := Next(f, Plain(a)).pool;
    if a.Retrieve? || a.Retry? {
      assert PW.Committed(t, a.i) && !AcceptedAt(before, a.i);
    } else {
      SumUpdate(IsWaiting, f.pool.subs, 0, a.i, t.subs[a.i]);
    }
  }

  lemma CallBarren(f: Fine, msg: Msg)
    requires Barren(f)
    ensures Barren(Next(f, Plain(Call(msg))))
  {
    SumAppend(IsWaiting, f.pool.subs, Sub(msg, Entering), 0);
    hide Sum, WorkerStep, PurgerStep, ControlStep;
    var t := Next(f, Plain(Call(msg))).pool;
    forall i: nat | i < |t.subs| && PW.Committed(t, i) ensures AcceptedAt(t.subs, i) {
      assert i < |f.pool.subs| && PW.Committed(f.pool, i);
    }
  }

  /** A step that wakes somebody, or nobody, neither commits a call nor makes one wait. */
  lemma WakingBarren(s: Pool, a: Action)
    requires Enabled(s, a) && !BySubmission(a) && Waiters(s.subs) >= 0
    ensures var t := Apply(s, a);
      && |t.subs| == |s.subs| && (Waiters(s.subs) == 0 ==> Waiters(t.subs) == 0)
      && (forall i: nat :: i < |t.subs| && PW.Committed(t, i) ==> t.subs[i] == s.subs[i] && PW.Committed(s, i))
  {
    OthersOnlyWake(s, a);
    hide Apply, Enabled, Sum, OnlyWakes;
    WakingWaits(s.subs, a, Apply(s, a).subs);
    WakingCommits(s, a, Apply(s, a));
  }

  lemma WakingWaits(before: seq<Sub>, a: Action, after: seq<Sub>)
    requires OnlyWakes(before, a, after) && Waiters(before) >= 0
    ensures Waiters(before) == 0 ==> Waiters(after) == 0
  {
    hide Sum;
    NotifyAllChanges(before, 0);
    if (a.Insert? || a.Signal? || a.TuneWake?) && CanSignal(before, a.i) {
      SignalChanges(before, a.i);
    }
  }

  lemma WakingCommits(s: Pool, a: Action, t: Pool)
    requires OnlyWakes(s.subs, a, t.subs)
    ensures |t.subs| == |s.subs|
    ensures forall i: nat :: i < |t.subs| && PW.Committed(t, i) ==> t.subs[i] == s.subs[i] && PW.Committed(s, i)
  {
  }

  lemma NoLiveWorker(s: Pool, w: nat)
    requires Inv(s) && s.running == 0 && w < |s.workers|
    ensures !Live(s.workers[w].phase)
  {
    NonNegatives(s, 0);
    SumMember(IsStarted, s.workers, 0, w);
  }

  /** What a worker, the purger or a control call can do without a live worker. */
  lemma OthersBarren(s: Pool, a: Action)
    requires Inv(s) && !s.closed && s.running == 0 && s.stack == [] && Enabled(s, a) && !BySubmission(a) && Working(a)
    ensures var t := Apply(s, a); !t.closed && t.running == 0 && t.stack == []
  {
    if ByWorker(a) {
      if !a.Signal? && a.w < |s.workers| { NoLiveWorker(s, a.w); }
      hide SubmissionStep, PurgerStep, ControlStep, Inv, Sum;
    } else {
      hide SubmissionStep, WorkerStep, Inv, Sum;
    }
  }

  /** The purger goes on to wake those that wait. */
  lemma PurgerBarren(s: Pool, a: Action)
    requires Inv(s) && s.running == 0 && s.stack == [] && Enabled(s, a) && !BySubmission(a) && Working(a)
    requires !s.closed && (s.purger.Ticked? || s.purger == Finishing([], true)) && Waiters(s.subs) > 0
    ensures var t := Apply(s, a); Waiters(t.subs) == 0 || t.purger.Ticked? || t.purger == Finishing([], true)
  {
    hide Sum, SubmissionStep, Inv;
    SomebodyCounts(s);
    NotifyAllChanges(s.subs, 0);
    if ByPurger(a) {
      hide WorkerStep, ControlStep;
    } else {
      OthersLeavePurger(s, a);
      hide Apply, Enabled;
    }
  }

  lemma OthersLeavePurger(s: Pool, a: Action)
    requires Enabled(s, a) && !ByPurger(a) && !a.Reboot?
    ensures Apply(s, a).purger == s.purger
  {
  }

  lemma BarrenStep(f: Fine, x: Step, before: seq<Sub>)
    requires FineInv(f) && Barren(f) && CanStep(f, x) && Grown(before, f.pool.subs) && (x.Plain? ==> Working(x.a))
    ensures Barren(Next(f, x)) || Progress(Next(f, x).pool, before)
  {
    if x.FindFull? {
      assert false;
    } else if x.Enqueue? {
      assert false;
    } else if x.a.Call? {
      CallBarren(f, x.a.msg);
    } else if BySubmission(x.a) {
      SubmissionBarren(f, x.a, before);
    } else {
      CreditNonNegative(f.pool);
      WakingBarren(f.pool, x.a);
      OthersBarren(f.pool, x.a);
      if Waiters(f.pool.subs) > 0 {
        PurgerBarren(f.pool, x.a);
      }
      hide Apply, Enabled, Inv, Sum;
      var t := Next(f, x).pool;
      forall i: nat | i < |t.subs| && PW.Committed(t, i) ensures AcceptedAt(t.subs, i) {
        assert PW.Committed(f.pool, i);
      }
    }
  }

  lemma ProgressStep(f: Fine, x: Step, before: seq<Sub>)
    requires Progress(f.pool, before) && CanStep(f, x)
    ensures Progress(Next(f, x).pool, before)
  {
    var i: nat :| PW.Committed(f.pool, i) && !AcceptedAt(before, i);
    if x.Plain? {
      PW.CommittedStep(f.pool, i, x.a);
      hide Apply, Enabled;
    }
    assert PW.Committed(Next(f, x).pool, i);
  }

  lemma GrownStep(f: Fine, x: Step, before: seq<Sub>)
    requires Grown(before, f.pool.subs) && CanStep(f, x)
    ensures Grown(before, Next(f, x).pool.subs)
  {
    if x.Plain? {
      AcceptedStays(f.pool, x.a);
      hide Apply, Enabled;
    }
  }

  lemma AcceptedStays(s: Pool, a: Action)
    requires Enabled(s, a)
    ensures Grown(s.subs, Apply(s, a).subs)
  {
    if BySubmission(a) {
      hide WorkerStep, PurgerStep, ControlStep;
    } else {
      OthersOnlyWake(s, a);
      hide Apply, Enabled;
    }
  }

  // How many calls are accepted.

  function IsAccepted(u: Sub, k: nat): int { if u.phase.Accepted? then 1 else 0 }
  function AcceptedCount(subs: seq<Sub>): int { Sum(IsAccepted, subs, 0) }

  lemma {:induction false} CountGrows(before: seq<Sub>, after: seq<Sub>)
    requires Grown(before, after)
    ensures AcceptedCount(before) <= AcceptedCount(after)
    ensures (exists i: nat :: AcceptedAt(after, i) && !AcceptedAt(before, i)) ==>
        AcceptedCount(before) < AcceptedCount(after)
  {
    if before == [] {
      SumNonNegative(IsAccepted, after, 0);
      if i: nat :| AcceptedAt(after, i) {
        SumMember(IsAccepted, after, 0, i);
      }
    } else {
      forall i: nat | i < |before[1..]| && AcceptedAt(before[1..], i) ensures AcceptedAt(after[1..], i) {
        assert AcceptedAt(before, i + 1);
      }
      CountGrows(before[1..], after[1..]);
      assert AcceptedAt(before, 0) ==> AcceptedAt(after, 0);
      if i: nat :| AcceptedAt(after, i) && !AcceptedAt(before, i) && i > 0 {
        assert AcceptedAt(after[1..], i - 1) && !AcceptedAt(before[1..], i - 1);
      }
    }
  }

  lemma CountNonNegative(subs: seq<Sub>)
    ensures AcceptedCount(subs) >= 0
  {
    SumNonNegative(IsAccepted, subs, 0);
  }

  lemma {:induction false} CountBound(subs: seq<Sub>)
    ensures AcceptedCount(subs) <= |subs|
    ensures Waiters(subs) > 0 ==> AcceptedCount(subs) < |subs|
  {
    if subs != [] {
      CountBound(subs[1..]);
    }
  }
}

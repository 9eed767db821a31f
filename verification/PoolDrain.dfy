/**
 * Progress of the pool: the steps under way come to an end, and when none is left an open pool has
 * no waiting submission at all and a closed pool has wound down.
 */
module PoolDrain {
  import opened Sums
  import opened PoolMachine
  import opened PoolInvariant
  import opened PoolWakeup

  /** The steps of goroutines that are under way; the rest are new calls and the ticker. */
  predicate Internal(a: Action) {
    !a.Call? && !a.Tick? && !a.StopPurge? && !a.Close? && !a.Reboot? && !a.TuneLoad?
  }

  ghost predicate CanMove(s: Pool) { exists a: Action :: Internal(a) && Enabled(s, a) }

  predicate SubSettled(u: Sub) { u.phase.Waiting? || u.phase.Accepted? || u.phase.Rejected? }
  predicate WorkerSettled(w: Worker) { w.phase.Cached? || Idle(w) }

  /** Submissions are over or wait, workers are cached or idle, nobody owes a step. */
  predicate Settled(s: Pool) {
    && (forall i :: 0 <= i < |s.subs| ==> SubSettled(s.subs[i]))
    && (forall w :: 0 <= w < |s.workers| ==> WorkerSettled(s.workers[w]))
    && (s.purger.Sleeping? || s.purger.Gone?)
    && s.owed == 0 && s.resets == 0 && s.closers == 0 && TunesSettled(s.tunes)
  }

  lemma SomeSignal(subs: seq<Sub>) returns (i: nat)
    ensures CanSignal(subs, i)
  {
    if w :| 0 <= w < |subs| && subs[w].phase.Waiting? {
      i := w;
    } else {
      i := |subs|;
    }
  }

  /** The reset never blocks: each idle worker is on the stack once and its mailbox is empty. */
  lemma ResetNeverBlocks(s: Pool)
    requires Inv(s)
    ensures CanFinishAll(s.workers, s.stack)
  {
    forall w: nat
      ensures 0 <= Sum(IsKey, s.stack, w) <= 1
      ensures Sum(IsKey, s.stack, w) == 1 ==> CanPost(s.workers, w)
    {
      assert IdleRefs(s, w) == IdleAt(s, w);
      NonNegatives(s, w);
      SumNonNegative(IsKey, s.stack, w);
      SumNonNegative(IsKey, PurgeList(s.purger), w);
      SumNonNegative(HoldingIs, s.subs, w);
    }
    FinishAllEnabled(s.workers, s.stack);
  }

  lemma {:induction false} FinishAllEnabled(workers: seq<Worker>, ids: seq<nat>)
    requires forall w: nat :: 0 <= Sum(IsKey, ids, w) <= 1
    requires forall w: nat :: Sum(IsKey, ids, w) == 1 ==> CanPost(workers, w)
    ensures CanFinishAll(workers, ids)
    decreases |ids|
  {
    if ids != [] {
      forall w: nat
        ensures Sum(IsKey, ids, w) == IsKey(ids[0], w) + Sum(IsKey, ids[1..], w)
        ensures Sum(IsKey, ids[1..], w) >= 0
      {
        SumNonNegative(IsKey, ids[1..], w);
      }
      assert Sum(IsKey, ids, ids[0]) == 1;
      FinishAllEnabled(Post(workers, ids[0], Nil), ids[1..]);
    }
  }

  /** A submission under way can take its step, unless it waits for the condition. */
  lemma SubmissionCanMove(s: Pool, i: nat) returns (a: Action)
    requires Inv(s) && i < |s.subs| && !SubSettled(s.subs[i])
    ensures Internal(a) && Enabled(s, a)
  {
    match s.subs[i].phase
    case Entering => a := Enter(i);
    case Locking => a := Retrieve(i);
    case Spawning => a := Get(i, |s.workers|);
    case Got(_) => a := Run(i); GotIsTaken(s, i);
    case Holding(w) => a := Send(i); RefIsIdle(s, w);
    case Notified => a := Retry(i);
  }

  /** So can a worker that is not idle, or the submission that has it in its hands. */
  lemma WorkerCanMove(s: Pool, w: nat) returns (a: Action)
    requires Inv(s) && w < |s.workers| && !WorkerSettled(s.workers[w])
    ensures Internal(a) && Enabled(s, a)
  {
    match s.workers[w].phase
    case Taken =>
      assert Sum(GotIs, s.subs, w) == 1;
      var i := SumSource(GotIs, s.subs, w);
      a := SubmissionCanMove(s, i);
    case Receiving => a := Receive(w);
    case Executing(_) => a := Return(w);
    case Returned => a := Check(w);
    case Declining => a := Decline(w);
    case Stamped =>
      var i := SomeSignal(s.subs);
      a := Insert(w, i);
    case Exiting => a := Decrement(w);
    case Decremented => a := Put(w);
  }

  /** No finish call of the purger ever blocks. */
  lemma PurgerCanMove(s: Pool) returns (a: Action)
    requires Inv(s) && !s.purger.Sleeping? && !s.purger.Gone?
    ensures Internal(a) && Enabled(s, a)
  {
    if s.purger.Ticked? {
      a := Refresh(if s.stack == [] then 0 else 1);
    } else if s.purger.left == [] {
      a := EndPurge;
    } else {
      RefIsIdle(s, s.purger.left[0]);
      a := FinishOne;
    }
  }

  lemma ControlCanMove(s: Pool) returns (a: Action)
    requires Inv(s) && (s.owed > 0 || s.resets > 0 || s.closers > 0 || !TunesSettled(s.tunes))
    ensures Internal(a) && Enabled(s, a)
  {
    var i := SomeSignal(s.subs);
    if s.owed > 0 {
      a := Signal(i);
    } else if s.resets > 0 {
      ResetNeverBlocks(s);
      a := Reset;
    } else if s.closers > 0 {
      a := CloseBroadcast;
    } else {
      var j :| 0 <= j < |s.tunes| && !s.tunes[j].Finished?;
      a := if s.tunes[j].Loaded? then TuneStore(j) else TuneWake(j, i);
    }
  }

  /** Nothing blocks but the condition: a state in which no goroutine can move is settled, and conversely. */
  lemma MovesUnlessSettled(s: Pool)
    requires Inv(s)
    ensures CanMove(s) <==> !Settled(s)
  {
    if i :| 0 <= i < |s.subs| && !SubSettled(s.subs[i]) {
      var a := SubmissionCanMove(s, i);
    } else if w :| 0 <= w < |s.workers| && !WorkerSettled(s.workers[w]) {
      var a := WorkerCanMove(s, w);
    } else if !s.purger.Sleeping? && !s.purger.Gone? {
      var a := PurgerCanMove(s);
    } else if s.owed > 0 || s.resets > 0 || s.closers > 0 || !TunesSettled(s.tunes) {
      var a := ControlCanMove(s);
    }
  }

  /** In a settled state every goroutine of a worker is idle on the stack. */
  lemma SettledWorkerOnStack(s: Pool, w: nat)
    requires Inv(s) && Settled(s) && w < |s.workers| && Live(s.workers[w].phase)
    ensures w in s.stack
  {
    assert IdleRefs(s, w) == IdleAt(s, w) == 1;
    if Sum(HoldingIs, s.subs, w) > 0 {
      var i := SumSource(HoldingIs, s.subs, w);
      assert false;
    } else {
      var i := SumSource(IsKey, s.stack, w);
    }
  }

  lemma SettledHasNoCredit(s: Pool)
    requires Settled(s)
    ensures Credit(s) == 0 && Spawns(s.subs) == 0
  {
    AllZero(IsNotified, s.subs, 0);
    AllZero(IsSpawning, s.subs, 0);
    AllZero(IsLeaving, s.workers, 0);
    AllZero(RiseOf, s.tunes, 0);
  }

  lemma SettledOpenHasNoWaiter(s: Pool)
    requires Inv(s) && Wake(s) && !s.closed && Settled(s)
    ensures Waiters(s.subs) == 0
  {
    CreditNonNegative(s);
    SettledHasNoCredit(s);
    if Waiters(s.subs) > 0 {
      var w := SumSource(IsStarted, s.workers, 0);
      SettledWorkerOnStack(s, w);
      assert false;
    }
  }

  // The steps under way come to an end, in an open pool as in a closed one: a measure falls on each
  // of them. Waking somebody costs a step later, and a broadcast wakes at most the n calls there are.

  function SubWeight(u: Sub, n: nat): int {
    match u.phase
    case Entering => n + 18
    case Locking => n + 17
    case Notified => n + 17
    case Waiting => n + 16
    case Spawning => n + 15
    case Got(_) => n + 14
    case Holding(_) => n + 7
    case _ => 0
  }

  function WorkerWeight(w: Worker, n: nat): int {
    match w.phase
    case Receiving => (match w.mail case Empty => 6 case Full(Nil) => 5 case Full(Work(_)) => n + 12)
    case Executing(_) => n + 11
    case Returned => n + 10
    case Declining => n + 9
    case Stamped => n + 9
    case Exiting => 4
    case Decremented => 3
    case _ => 0
  }

  function PurgerWeight(p: Purger, n: nat): int {
    match p
    case Sleeping => 1
    case Ticked => n + 4
    case Finishing(_, _) => n + 3
    case Gone => 0
  }

  function TuneWeight(t: Tune, n: nat): int { if t.Loaded? then n + 2 else if t.Owing? then n + 1 else 0 }

  function Times(k: nat, x: nat): nat { if k == 0 then 0 else x + Times(k - 1, x) }

  /** An upper bound on the steps that are under way, for at most n calls. */
  function Measure(s: Pool, n: nat): int {
    Sum(SubWeight, s.subs, n) + Sum(WorkerWeight, s.workers, n) + PurgerWeight(s.purger, n)
    + Sum(TuneWeight, s.tunes, n) + 2 * s.owed + Times(s.resets, n + 2) + Times(s.closers, n + 1)
  }

  lemma {:induction false} NotifyAllWeight(subs: seq<Sub>, n: nat)
    ensures Sum(SubWeight, NotifyAll(subs), n) <= Sum(SubWeight, subs, n) + |subs|
  {
    if subs != [] {
      assert NotifyAll(subs)[1..] == NotifyAll(subs[1..]);
      NotifyAllWeight(subs[1..], n);
    }
  }

  lemma SignalWeight(subs: seq<Sub>, i: nat, n: nat)
    requires CanSignal(subs, i)
    ensures Sum(SubWeight, SignalOne(subs, i), n) <= Sum(SubWeight, subs, n) + 1
  {
    if i < |subs| {
      SumUpdate(SubWeight, subs, n, i, subs[i].(phase := Notified));
    }
  }

  lemma {:induction false} FinishAllWeight(workers: seq<Worker>, ids: seq<nat>, n: nat)
    requires CanFinishAll(workers, ids)
    ensures Sum(WorkerWeight, FinishAll(workers, ids), n) <= Sum(WorkerWeight, workers, n)
    decreases |ids|
  {
    if ids != [] {
      var next := Post(workers, ids[0], Nil);
      SumUpdate(WorkerWeight, workers, n, ids[0], next[ids[0]]);
      FinishAllWeight(next, ids[1..], n);
    }
  }

  /** A submission's decision takes no worker further. */
  lemma DecisionFalls(s: Pool, a: Action, n: nat)
    requires Enabled(s, a) && (a.Enter? || a.Retrieve? || a.Retry?)
    ensures Measure(SubmissionStep(s, a), n) < Measure(s, n)
  {
    hide Sum;
    SumUpdate(SubWeight, s.subs, n, a.i, SubmissionStep(s, a).subs[a.i]);
  }

  /** Its other steps work on the worker it has in its hands. */
  lemma HandFalls(s: Pool, a: Action, n: nat)
    requires Inv(s) && Enabled(s, a) && (a.Get? || a.Run? || a.Send?)
    ensures Measure(SubmissionStep(s, a), n) < Measure(s, n)
  {
    hide Sum;
    var t := SubmissionStep(s, a);
    SumUpdate(SubWeight, s.subs, n, a.i, t.subs[a.i]);
    if a.Get? {
      if a.w < |s.workers| {
        SumUpdate(WorkerWeight, s.workers, n, a.w, t.workers[a.w]);
      } else {
        SumAppend(WorkerWeight, s.workers, Worker(Empty, Taken), n);
      }
    } else {
      var w := s.subs[a.i].phase.w;
      if a.Run? { GotIsTaken(s, a.i); } else { RefIsIdle(s, w); }
      SumUpdate(WorkerWeight, s.workers, n, w, t.workers[w]);
    }
  }

  lemma TaskFalls(s: Pool, a: Action, n: nat)
    requires Enabled(s, a) && (a.Receive? || a.Return? || a.Panic? || a.Check? || a.Decrement? || a.Put?)
    ensures Measure(WorkerStep(s, a), n) < Measure(s, n)
  {
    hide Sum;
    SumUpdate(WorkerWeight, s.workers, n, a.w, WorkerStep(s, a).workers[a.w]);
  }

  lemma WakingFalls(s: Pool, a: Action, n: nat)
    requires MailOnlyWhenReceiving(s) && Enabled(s, a) && (a.Decline? || a.Insert? || a.Signal?) && |s.subs| <= n
    ensures Measure(WorkerStep(s, a), n) < Measure(s, n)
  {
    hide Sum;
    if a.Decline? {
      SumUpdate(WorkerWeight, s.workers, n, a.w, WorkerStep(s, a).workers[a.w]);
      NotifyAllWeight(s.subs, n);
    } else {
      if a.Insert? { SumUpdate(WorkerWeight, s.workers, n, a.w, WorkerStep(s, a).workers[a.w]); }
      SignalWeight(s.subs, a.i, n);
    }
  }

  lemma PurgeFalls(s: Pool, a: Action, n: nat)
    requires Inv(s) && Enabled(s, a) && ByPurger(a) && (a.Tick? ==> s.closed) && |s.subs| <= n
    ensures Measure(PurgerStep(s, a), n) < Measure(s, n)
  {
    hide Sum;
    NotifyAllWeight(s.subs, n);
    if a.FinishOne? {
      var w := s.purger.left[0];
      RefIsIdle(s, w);
      SumUpdate(WorkerWeight, s.workers, n, w, PurgerStep(s, a).workers[w]);
    }
  }

  lemma ReleaseFalls(s: Pool, a: Action, n: nat)
    requires Enabled(s, a) && (a.Reset? || a.CloseBroadcast?) && |s.subs| <= n
    ensures Measure(ControlStep(s, a), n) < Measure(s, n)
  {
    hide Sum;
    if a.Reset? {
      FinishAllWeight(s.workers, s.stack, n);
    } else {
      NotifyAllWeight(s.subs, n);
    }
  }

  lemma TuneFalls(s: Pool, a: Action, n: nat)
    requires Enabled(s, a) && (a.TuneStore? || a.TuneWake?) && |s.subs| <= n
    ensures Measure(ControlStep(s, a), n) < Measure(s, n)
  {
    hide Sum;
    SumUpdate(TuneWeight, s.tunes, n, a.j, ControlStep(s, a).tunes[a.j]);
    if a.TuneWake? {
      NotifyAllWeight(s.subs, n);
      SignalWeight(s.subs, a.i, n);
    }
  }

  /** The steps under way, and those with which the purger leaves. */
  predicate Winding(s: Pool, a: Action) { Internal(a) || a.StopPurge? || (a.Tick? && s.closed) }

  lemma KnownSteps(s: Pool, a: Action)
    requires Inv(s) && Winding(s, a)
    ensures MailOnlyWhenReceiving(s) && !a.Call? && (a.Tick? ==> s.closed)
    ensures ByControl(a) ==> a.Reset? || a.CloseBroadcast? || a.TuneStore? || a.TuneWake?
  {
  }

  /** Every step under way lowers the measure, whether the pool is open or closed. */
  lemma WorkStep(s: Pool, a: Action, n: nat)
    requires Inv(s) && Enabled(s, a) && Winding(s, a) && |s.subs| <= n
    ensures Measure(Apply(s, a), n) < Measure(s, n)
  {
    hide Measure, SubmissionStep, WorkerStep, PurgerStep, ControlStep, Enabled, Inv, Sum, Internal;
    KnownSteps(s, a);
    if a.Enter? || a.Retrieve? || a.Retry? {
      DecisionFalls(s, a, n);
    } else if a.Get? || a.Run? || a.Send? {
      HandFalls(s, a, n);
    } else if a.Decline? || a.Insert? || a.Signal? {
      WakingFalls(s, a, n);
    } else if ByWorker(a) {
      TaskFalls(s, a, n);
    } else if ByPurger(a) {
      PurgeFalls(s, a, n);
    } else if a.Reset? || a.CloseBroadcast? {
      ReleaseFalls(s, a, n);
    } else {
      TuneFalls(s, a, n);
    }
  }

  lemma MeasureNonNegative(s: Pool, n: nat)
    ensures Measure(s, n) >= 0
  {
    SumNonNegative(SubWeight, s.subs, n);
    SumNonNegative(WorkerWeight, s.workers, n);
    SumNonNegative(TuneWeight, s.tunes, n);
  }

  /** No new call comes with a step under way. */
  lemma SameCalls(s: Pool, a: Action)
    requires Enabled(s, a) && !a.Call?
    ensures |Apply(s, a).subs| == |s.subs|
  {
    if !BySubmission(a) {
      OthersOnlyWake(s, a);
      hide Apply, Enabled;
    }
  }

  /** Any run of steps under way, in any interleaving, ends after at most Measure steps. */
  lemma {:induction false} WorkEnds(s: Pool, acts: seq<Action>)
    requires Inv(s) && Legal(s, acts) && forall k :: 0 <= k < |acts| ==> Internal(acts[k])
    ensures var t := Exec(s, acts);
      Inv(t) && |t.subs| == |s.subs| && |acts| <= Measure(s, |s.subs|) - Measure(t, |s.subs|) <= Measure(s, |s.subs|)
    decreases |acts|
  {
    hide Measure, Apply, Enabled, Inv;
    if acts != [] {
      StepKeeps(s, acts[0]);
      SameCalls(s, acts[0]);
      WorkStep(s, acts[0], |s.subs|);
      WorkEnds(Apply(s, acts[0]), acts[1..]);
    }
    MeasureNonNegative(Exec(s, acts), |s.subs|);
  }

  // A closed pool winds down.

  /** The steps of a closed pool to which no new call comes: goroutines under way and the purger. */
  predicate WindDown(a: Action) { Internal(a) || a.Tick? || a.StopPurge? }

  lemma DrainStep(s: Pool, a: Action, n: nat)
    requires Inv(s) && s.closed && Enabled(s, a) && WindDown(a) && |s.subs| <= n
    ensures var t := Apply(s, a); t.closed && Measure(t, n) < Measure(s, n) && multiset(t.stack) <= multiset(s.stack)
  {
    WorkStep(s, a, n);
    StaysClosed(s, a);
    if BySubmission(a) {
      SubmissionShrinks(s, a);
    } else if ByWorker(a) {
      WorkerShrinks(s, a);
    } else {
      PurgerShrinks(s, a);
    }
  }

  lemma StaysClosed(s: Pool, a: Action)
    requires s.closed && Enabled(s, a) && !a.Reboot?
    ensures Apply(s, a).closed
  {
  }

  // Nobody goes on the stack of a closed pool.

  lemma SubmissionShrinks(s: Pool, a: Action)
    requires s.closed && Enabled(s, a) && BySubmission(a)
    ensures multiset(Apply(s, a).stack) <= multiset(s.stack)
  {
    if s.stack != [] {
      var n := |s.stack| - 1;
      assert s.stack == s.stack[..n] + [s.stack[n]];
    }
  }

  lemma WorkerShrinks(s: Pool, a: Action)
    requires s.closed && Enabled(s, a) && ByWorker(a)
    ensures Apply(s, a).stack == s.stack
  {
  }

  lemma PurgerShrinks(s: Pool, a: Action)
    requires s.closed && Enabled(s, a) && !BySubmission(a) && !ByWorker(a)
    ensures multiset(Apply(s, a).stack) <= multiset(s.stack)
  {
    if a.Refresh? {
      assert s.stack == s.stack[..a.k] + s.stack[a.k..];
    }
  }

  /** A closed pool takes at most Measure steps, the purger's included, before a new call comes. */
  lemma {:induction false} DrainBound(s: Pool, acts: seq<Action>)
    requires Inv(s) && s.closed && Legal(s, acts)
    requires forall k :: 0 <= k < |acts| ==> WindDown(acts[k])
    ensures var t, n := Exec(s, acts), |s.subs|;
      Inv(t) && t.closed && |acts| <= Measure(s, n) - Measure(t, n) <= Measure(s, n)
          && multiset(t.stack) <= multiset(s.stack)
    decreases |acts|
  {
    hide Measure, Apply, Enabled, Inv;
    if acts != [] {
      StepKeeps(s, acts[0]);
      SameCalls(s, acts[0]);
      DrainStep(s, acts[0], |s.subs|);
      DrainBound(Apply(s, acts[0]), acts[1..]);
    }
    MeasureNonNegative(Exec(s, acts), |s.subs|);
  }

  /** When no step is left, the pool is empty and every accepted task has been started. */
  lemma Drained(s: Pool)
    requires Inv(s) && s.closed && !CanMove(s)
    ensures s.running == 0 && s.stack == []
    ensures forall i :: 0 <= i < |s.subs| ==> SubSettled(s.subs[i])
    ensures forall w :: 0 <= w < |s.workers| ==> s.workers[w] == Worker(Empty, Cached)
    ensures forall t: Task :: Sum(IsKey, s.started, t) == Sum(AcceptedIs, s.subs, t)
  {
    MovesUnlessSettled(s);
    forall w | 0 <= w < |s.workers| ensures s.workers[w] == Worker(Empty, Cached) {
      if Live(s.workers[w].phase) {
        SettledWorkerOnStack(s, w);
        assert false;
      }
    }
    AllZero(IsStarted, s.workers, 0);
    forall t: Task ensures Sum(IsKey, s.started, t) == Sum(AcceptedIs, s.subs, t) {
      AllZero(MailIs, s.workers, t);
    }
  }

  /** The broadcast of Release reaches everyone who waits then: each is turned away, and for good. */
  lemma ReleaseTurnsAway(s: Pool, i: nat, acts: seq<Action>)
    requires Inv(s) && s.closed && Enabled(s, CloseBroadcast) && SubAt(s, i, Waiting)
    requires Legal(Apply(s, CloseBroadcast), acts) && forall k :: 0 <= k < |acts| ==> WindDown(acts[k])
    ensures var t := Exec(Apply(s, CloseBroadcast), acts);
      (SubAt(t, i, Notified) || SubAt(t, i, Rejected)) && (!CanMove(t) ==> SubAt(t, i, Rejected))
  {
    hide Apply, Enabled, Inv, CanMove, Legal, Exec;
    var s' := Apply(s, CloseBroadcast);
    StepKeeps(s, CloseBroadcast);
    BroadcastNotifies(s, i);
    TurnedAwayRun(s', i, acts);
    DrainBound(s', acts);
    if !CanMove(Exec(s', acts)) {
      Drained(Exec(s', acts));
    }
  }

  lemma BroadcastNotifies(s: Pool, i: nat)
    requires s.closed && Enabled(s, CloseBroadcast) && SubAt(s, i, Waiting)
    ensures Apply(s, CloseBroadcast).closed && TurnedAway(Apply(s, CloseBroadcast), i)
  {
  }

  predicate TurnedAway(s: Pool, i: nat) { SubAt(s, i, Notified) || SubAt(s, i, Rejected) }

  lemma TurnedAwayStep(s: Pool, i: nat, a: Action)
    requires s.closed && TurnedAway(s, i) && Enabled(s, a)
    ensures TurnedAway(Apply(s, a), i)
  {
    if !BySubmission(a) {
      OthersOnlyWake(s, a);
      hide Apply, Enabled;
    }
  }

  lemma {:induction false} TurnedAwayRun(s: Pool, i: nat, acts: seq<Action>)
    requires Inv(s) && s.closed && TurnedAway(s, i) && Legal(s, acts)
    requires forall k :: 0 <= k < |acts| ==> WindDown(acts[k])
    ensures TurnedAway(Exec(s, acts), i)
    decreases |acts|
  {
    if acts != [] {
      TurnedAwayStep(s, i, acts[0]);
      StepKeeps(s, acts[0]);
      DrainStep(s, acts[0], |s.subs|);
      TurnedAwayRun(Apply(s, acts[0]), i, acts[1..]);
    }
  }
}

/**
 * What every step of the pool keeps: each worker object is in exactly one place, the counters count
 * what they say, and no accepted task is lost or started twice.
 */
module PoolInvariant {
  import opened Sums
  import opened PoolMachine

  // What one submission and one worker contribute to the counts below; k is a worker or a task.

  function GotIs(u: Sub, k: nat): int { if u.phase == Got(k) then 1 else 0 }
  function HoldingIs(u: Sub, k: nat): int { if u.phase == Holding(k) then 1 else 0 }
  function IsWaiting(u: Sub, k: nat): int { if u.phase.Waiting? then 1 else 0 }
  function IsNotified(u: Sub, k: nat): int { if u.phase.Notified? then 1 else 0 }
  function IsSpawning(u: Sub, k: nat): int { if u.phase.Spawning? || u.phase.Got? then 1 else 0 }
  function AcceptedIs(u: Sub, k: nat): int { if u.phase.Accepted? && u.msg == Work(k) then 1 else 0 }

  predicate Live(p: WorkerPhase) { !p.Cached? && !p.Taken? && !p.Decremented? }
  function IsStarted(w: Worker, k: nat): int { if Live(w.phase) then 1 else 0 }
  function MailIs(w: Worker, k: nat): int { if w.mail == Full(Work(k)) then 1 else 0 }
  function IsLeaving(w: Worker, k: nat): int { if w.phase.Decremented? then 1 else 0 }
  predicate Idle(w: Worker) { w.phase.Receiving? && w.mail.Empty? }

  function IdleAt(s: Pool, w: nat): int { if w < |s.workers| && Idle(s.workers[w]) then 1 else 0 }

  function PurgeList(p: Purger): seq<nat> { if p.Finishing? then p.left else [] }

  function Waiters(subs: seq<Sub>): int { Sum(IsWaiting, subs, 0) }
  function Woken(subs: seq<Sub>): int { Sum(IsNotified, subs, 0) }
  function Spawns(subs: seq<Sub>): int { Sum(IsSpawning, subs, 0) }
  function Started(workers: seq<Worker>): int { Sum(IsStarted, workers, 0) }
  function Leaving(workers: seq<Worker>): int { Sum(IsLeaving, workers, 0) }

  /** How many may send to worker w: the stack, the purge list, a submission that holds it. */
  function IdleRefs(s: Pool, w: nat): int {
    Sum(IsKey, s.stack, w) + Sum(IsKey, PurgeList(s.purger), w) + Sum(HoldingIs, s.subs, w)
  }

  /** A worker object taken from the cache is in the hands of one submission. */
  ghost predicate TakenOnce(s: Pool) {
    forall w: nat :: Sum(GotIs, s.subs, w) == if WorkerAt(s, w, Taken) then 1 else 0
  }

  /** An idle worker is in exactly one place, a worker that is not idle in none. */
  ghost predicate IdleOnce(s: Pool) {
    forall w: nat :: IdleRefs(s, w) == IdleAt(s, w)
  }

  predicate MailOnlyWhenReceiving(s: Pool) {
    forall w :: 0 <= w < |s.workers| && s.workers[w].mail.Full? ==> s.workers[w].phase.Receiving?
  }

  predicate Counted(s: Pool) {
    s.running == Started(s.workers) && s.waiting == Waiters(s.subs) + Woken(s.subs)
  }

  predicate Sized(s: Pool) {
    && s.cap >= 1
    && (forall j :: 0 <= j < |s.tunes| && s.tunes[j].Loaded? ==> s.tunes[j].size >= 1)
    && (forall j :: 0 <= j < |s.tunes| && s.tunes[j].Owing? ==> s.tunes[j].rise >= 1)
  }

  /** Accepted tasks are in a mailbox or started, each as often as it was accepted. */
  ghost predicate Conserved(s: Pool) {
    forall t: Task :: Sum(AcceptedIs, s.subs, t) == Sum(MailIs, s.workers, t) + Sum(IsKey, s.started, t)
  }

  predicate Shut(s: Pool) { s.closed && s.resets == 0 ==> s.stack == [] }

  ghost predicate Inv(s: Pool) {
    TakenOnce(s) && IdleOnce(s) && MailOnlyWhenReceiving(s) && Counted(s) && Sized(s) && Conserved(s) && Shut(s)
  }

  lemma {:induction false} NotifyAllChanges(subs: seq<Sub>, k: nat)
    ensures Sum(GotIs, NotifyAll(subs), k) == Sum(GotIs, subs, k)
    ensures Sum(HoldingIs, NotifyAll(subs), k) == Sum(HoldingIs, subs, k)
    ensures Sum(AcceptedIs, NotifyAll(subs), k) == Sum(AcceptedIs, subs, k)
    ensures Waiters(NotifyAll(subs)) == 0
    ensures Woken(NotifyAll(subs)) == Woken(subs) + Waiters(subs)
    ensures Spawns(NotifyAll(subs)) == Spawns(subs)
  {
    if subs != [] {
      assert NotifyAll(subs)[1..] == NotifyAll(subs[1..]);
      NotifyAllChanges(subs[1..], k);
    }
  }

  lemma NonNegatives(s: Pool, k: nat)
    ensures NonNegative(GotIs, s.subs, k) && NonNegative(HoldingIs, s.subs, k) && NonNegative(AcceptedIs, s.subs, k)
    ensures NonNegative(IsWaiting, s.subs, k) && NonNegative(IsNotified, s.subs, k)
        && NonNegative(IsSpawning, s.subs, k)
    ensures NonNegative(IsStarted, s.workers, k) && NonNegative(MailIs, s.workers, k)
        && NonNegative(IsLeaving, s.workers, k)
    ensures NonNegative(IsKey, s.stack, k) && NonNegative(IsKey, PurgeList(s.purger), k)
        && NonNegative(IsKey, s.started, k)
  {
  }

  predicate MovesOneSub(a: Action) { a.Enter? || a.Retrieve? || a.Get? || a.Run? || a.Send? || a.Retry? }
  predicate MovesOneWorker(a: Action) {
    a.Receive? || a.Return? || a.Panic? || a.Check? || a.Decline? || a.Insert? || a.Decrement? || a.Put?
  }

  // What a step does to the submissions. The lemmas that look into Apply are split by whose step it is.

  lemma OneSub(s: Pool, a: Action)
    requires Enabled(s, a) && MovesOneSub(a)
    ensures var t := Apply(s, a);
      a.i < |s.subs| && |t.subs| == |s.subs| && t.subs == s.subs[a.i := t.subs[a.i]]
  {
  }

  /** Steps that move no submission by themselves: nobody, everybody or one may be woken. */
  predicate OnlyWakes(before: seq<Sub>, a: Action, after: seq<Sub>) {
    || after == before
    || after == NotifyAll(before)
    || ((a.Insert? || a.Signal? || a.TuneWake?) && CanSignal(before, a.i) && after == SignalOne(before, a.i))
  }

  lemma WorkerOnlyWakes(s: Pool, a: Action)
    requires Enabled(s, a) && ByWorker(a)
    ensures OnlyWakes(s.subs, a, Apply(s, a).subs)
  {
  }

  lemma PurgerOnlyWakes(s: Pool, a: Action)
    requires Enabled(s, a) && ByPurger(a)
    ensures OnlyWakes(s.subs, a, Apply(s, a).subs)
  {
  }

  lemma ControlOnlyWakes(s: Pool, a: Action)
    requires Enabled(s, a) && ByControl(a)
    ensures OnlyWakes(s.subs, a, Apply(s, a).subs)
  {
  }

  lemma OthersOnlyWake(s: Pool, a: Action)
    requires Enabled(s, a) && !BySubmission(a)
    ensures OnlyWakes(s.subs, a, Apply(s, a).subs)
  {
    hide Apply, Enabled, OnlyWakes;
    if ByWorker(a) {
      WorkerOnlyWakes(s, a);
    } else if ByPurger(a) {
      PurgerOnlyWakes(s, a);
    } else {
      ControlOnlyWakes(s, a);
    }
  }

  /** How the references of the submissions to worker or task k move. */
  lemma SubMoves(s: Pool, a: Action, k: nat)
    requires Enabled(s, a)
    ensures var t := Apply(s, a);
      if MovesOneSub(a) then
        && |t.subs| == |s.subs|
        && Sum(GotIs, t.subs, k) == Sum(GotIs, s.subs, k) - GotIs(s.subs[a.i], k) + GotIs(t.subs[a.i], k)
        && Sum(HoldingIs, t.subs, k) ==
            Sum(HoldingIs, s.subs, k) - HoldingIs(s.subs[a.i], k) + HoldingIs(t.subs[a.i], k)
        && Sum(AcceptedIs, t.subs, k) ==
            Sum(AcceptedIs, s.subs, k) - AcceptedIs(s.subs[a.i], k) + AcceptedIs(t.subs[a.i], k)
      else
        && Sum(GotIs, t.subs, k) == Sum(GotIs, s.subs, k)
        && Sum(HoldingIs, t.subs, k) == Sum(HoldingIs, s.subs, k)
        && Sum(AcceptedIs, t.subs, k) == Sum(AcceptedIs, s.subs, k)
  {
    hide Sum;
    var t := Apply(s, a);
    if MovesOneSub(a) {
      OneSub(s, a);
      hide Apply, Enabled;
      SumUpdate(GotIs, s.subs, k, a.i, t.subs[a.i]);
      SumUpdate(HoldingIs, s.subs, k, a.i, t.subs[a.i]);
      SumUpdate(AcceptedIs, s.subs, k, a.i, t.subs[a.i]);
    } else if a.Call? {
      var u := Sub(a.msg, Entering);
      SumAppend(GotIs, s.subs, u, k);
      SumAppend(HoldingIs, s.subs, u, k);
      SumAppend(AcceptedIs, s.subs, u, k);
    } else {
      OthersOnlyWake(s, a);
      hide Apply, Enabled;
      NotifyAllChanges(s.subs, k);
      if (a.Insert? || a.Signal? || a.TuneWake?) && a.i < |s.subs| {
        var u := s.subs[a.i].(phase := Notified);
        SumUpdate(GotIs, s.subs, k, a.i, u);
        SumUpdate(HoldingIs, s.subs, k, a.i, u);
        SumUpdate(AcceptedIs, s.subs, k, a.i, u);
      }
    }
  }

  // Who is where, for one pointer.

  lemma GotIsTaken(s: Pool, i: nat)
    requires TakenOnce(s) && i < |s.subs| && s.subs[i].phase.Got?
    ensures WorkerAt(s, s.subs[i].phase.w, Taken)
  {
    NonNegatives(s, s.subs[i].phase.w);
    SumMember(GotIs, s.subs, s.subs[i].phase.w, i);
  }

  /** Anybody who may send to a worker finds it receiving on an empty mailbox. */
  lemma RefIsIdle(s: Pool, w: nat)
    requires IdleOnce(s)
    requires w in s.stack || w in PurgeList(s.purger) || exists i :: 0 <= i < |s.subs| && s.subs[i].phase == Holding(w)
    ensures w < |s.workers| && Idle(s.workers[w])
  {
    NonNegatives(s, w);
    SumNonNegative(IsKey, s.stack, w);
    SumNonNegative(IsKey, PurgeList(s.purger), w);
    SumNonNegative(HoldingIs, s.subs, w);
    if w in s.stack {
      var i :| 0 <= i < |s.stack| && s.stack[i] == w;
      SumMember(IsKey, s.stack, w, i);
    } else if w in PurgeList(s.purger) {
      var i :| 0 <= i < |PurgeList(s.purger)| && PurgeList(s.purger)[i] == w;
      SumMember(IsKey, PurgeList(s.purger), w, i);
    } else {
      var i :| 0 <= i < |s.subs| && s.subs[i].phase == Holding(w);
      SumMember(HoldingIs, s.subs, w, i);
    }
    assert IdleRefs(s, w) > 0;
  }

  lemma TakenOnceStep(s: Pool, a: Action)
    requires Inv(s) && Enabled(s, a)
    ensures TakenOnce(Apply(s, a))
  {
    var t := Apply(s, a);
    forall w: nat ensures Sum(GotIs, t.subs, w) == if WorkerAt(t, w, Taken) then 1 else 0 {
      GotStep(s, a, w);
    }
  }

  lemma GotStep(s: Pool, a: Action, w: nat)
    requires Inv(s) && Enabled(s, a)
    ensures var t := Apply(s, a); Sum(GotIs, t.subs, w) == if WorkerAt(t, w, Taken) then 1 else 0
  {
    assert Sum(GotIs, s.subs, w) == if WorkerAt(s, w, Taken) then 1 else 0;
    GotMoves(s, a, w);
    TakenMoves(s, a, w);
  }

  /** Worker object w comes into the hands of a submission by Get and leaves them by Run. */
  function TakenChange(s: Pool, a: Action, w: nat): int
    requires Enabled(s, a)
  {
    if a.Get? then IsKey(a.w, w) else if a.Run? then -IsKey(s.subs[a.i].phase.w, w) else 0
  }

  lemma GotMoves(s: Pool, a: Action, w: nat)
    requires Enabled(s, a)
    ensures Sum(GotIs, Apply(s, a).subs, w) == Sum(GotIs, s.subs, w) + TakenChange(s, a, w)
  {
    SubMoves(s, a, w);
    if MovesOneSub(a) {
      OneSubPhases(s, a);
    }
  }

  /** The phases of the moving submission. */
  lemma OneSubPhases(s: Pool, a: Action)
    requires Enabled(s, a) && MovesOneSub(a)
    ensures var t := Apply(s, a);
      var p, q := s.subs[a.i].phase, t.subs[a.i].phase;
      && |t.subs| == |s.subs| && t.subs[a.i].msg == s.subs[a.i].msg
      && (if a.Run? then p.Got? else !p.Got?)
      && (if a.Get? then q == Got(a.w) else !q.Got?)
      && (if a.Send? then p.Holding? && q.Accepted? else !p.Holding? && !q.Accepted? && !p.Accepted?)
      && (q.Holding? && a.Run? ==> q == Holding(p.w))
      && (q.Holding? && !a.Run? ==> s.stack != [] && q == Holding(s.stack[|s.stack| - 1]))
      && (q.Holding? <==> a.Run? || (a.Retrieve? && s.stack != []) || (a.Retry? && !s.closed && s.stack != []))
  {
  }

  function TakenAt(s: Pool, w: nat): int { if WorkerAt(s, w, Taken) then 1 else 0 }

  lemma TakenMoves(s: Pool, a: Action, w: nat)
    requires Inv(s) && Enabled(s, a)
    ensures TakenAt(Apply(s, a), w) == TakenAt(s, w) + TakenChange(s, a, w)
  {
    if BySubmission(a) {
      SubmissionTakes(s, a, w);
    } else if ByWorker(a) {
      WorkerTakes(s, a, w);
    } else if ByPurger(a) {
      PurgerTakes(s, a, w);
    } else {
      ControlTakes(s, a, w);
    }
  }

  lemma SubmissionTakes(s: Pool, a: Action, w: nat)
    requires Inv(s) && Enabled(s, a) && BySubmission(a)
    ensures TakenAt(Apply(s, a), w) == TakenAt(s, w) + TakenChange(s, a, w)
  {
    hide Sum;
    if a.Run? {
      GotIsTaken(s, a.i);
    }
  }

  lemma WorkerTakes(s: Pool, a: Action, w: nat)
    requires Enabled(s, a) && ByWorker(a)
    ensures TakenAt(Apply(s, a), w) == TakenAt(s, w)
  {
  }

  lemma PurgerTakes(s: Pool, a: Action, w: nat)
    requires Enabled(s, a) && ByPurger(a)
    ensures TakenAt(Apply(s, a), w) == TakenAt(s, w)
  {
  }

  lemma ControlTakes(s: Pool, a: Action, w: nat)
    requires Enabled(s, a) && ByControl(a)
    ensures TakenAt(Apply(s, a), w) == TakenAt(s, w)
  {
    if a.Reset? {
      FinishAllChanges(s.workers, s.stack, w);
    }
  }

  /** The loop of finish calls fills the mailboxes it is given and changes nothing else. */
  lemma {:induction false} FinishAllChanges(workers: seq<Worker>, ids: seq<nat>, k: nat)
    requires CanFinishAll(workers, ids)
    ensures var after := FinishAll(workers, ids);
      && |after| == |workers|
      && (forall w: nat :: w < |workers| ==> after[w].phase == workers[w].phase)
      && (forall w: nat :: w < |workers| ==> after[w].mail == if w in ids then Full(Nil) else workers[w].mail)
      && Sum(MailIs, after, k) == Sum(MailIs, workers, k)
      && Started(after) == Started(workers) && Leaving(after) == Leaving(workers)
    decreases |ids|
  {
    if ids != [] {
      var next := Post(workers, ids[0], Nil);
      SumUpdate(MailIs, workers, k, ids[0], next[ids[0]]);
      SumUpdate(IsStarted, workers, 0, ids[0], next[ids[0]]);
      SumUpdate(IsLeaving, workers, 0, ids[0], next[ids[0]]);
      FinishAllChanges(next, ids[1..], k);
    }
  }

  lemma IdleOnceStep(s: Pool, a: Action)
    requires Inv(s) && Enabled(s, a)
    ensures IdleOnce(Apply(s, a))
  {
    var t := Apply(s, a);
    forall w: nat ensures IdleRefs(t, w) == IdleAt(t, w) {
      IdleRefsStep(s, a, w);
    }
  }

  lemma IdleRefsStep(s: Pool, a: Action, w: nat)
    requires Inv(s) && Enabled(s, a)
    ensures IdleRefs(Apply(s, a), w) == IdleAt(Apply(s, a), w)
  {
    if a.Reset? {
      IdleRefsReset(s, w);
    } else {
      assert IdleRefs(s, w) == IdleAt(s, w);
      IdleMoves(s, a, w);
      IdleRefsMove(s, a, w);
    }
  }

  /** Worker w becomes idle by starting or by its own insert, and stops being idle by a send. */
  function IdleChange(s: Pool, a: Action, w: nat): int
    requires Enabled(s, a)
  {
    if a.Run? then IsKey(s.subs[a.i].phase.w, w)
    else if a.Insert? && !s.closed then IsKey(a.w, w)
    else if a.Send? then -IsKey(s.subs[a.i].phase.w, w)
    else if a.FinishOne? then -IsKey(s.purger.left[0], w)
    else 0
  }

  lemma IdleMoves(s: Pool, a: Action, w: nat)
    requires Inv(s) && Enabled(s, a) && !a.Reset?
    ensures IdleAt(Apply(s, a), w) == IdleAt(s, w) + IdleChange(s, a, w)
  {
    if BySubmission(a) {
      SubmissionIdles(s, a, w);
    } else if ByWorker(a) {
      WorkerIdles(s, a, w);
    } else if ByPurger(a) {
      PurgerIdles(s, a, w);
    } else {
      ControlIdles(s, a, w);
    }
  }

  lemma SubmissionIdles(s: Pool, a: Action, w: nat)
    requires Inv(s) && Enabled(s, a) && BySubmission(a)
    ensures IdleAt(Apply(s, a), w) == IdleAt(s, w) + IdleChange(s, a, w)
  {
    hide WorkerStep, PurgerStep, ControlStep, Sum;
    if a.Run? {
      GotIsTaken(s, a.i);
    } else if a.Send? {
      RefIsIdle(s, s.subs[a.i].phase.w);
    }
  }

  lemma WorkerIdles(s: Pool, a: Action, w: nat)
    requires MailOnlyWhenReceiving(s) && Enabled(s, a) && ByWorker(a)
    ensures IdleAt(Apply(s, a), w) == IdleAt(s, w) + IdleChange(s, a, w)
  {
    hide SubmissionStep, PurgerStep, ControlStep;
  }

  lemma PurgerIdles(s: Pool, a: Action, w: nat)
    requires Inv(s) && Enabled(s, a) && ByPurger(a)
    ensures IdleAt(Apply(s, a), w) == IdleAt(s, w) + IdleChange(s, a, w)
  {
    hide Sum;
    if a.FinishOne? {
      RefIsIdle(s, s.purger.left[0]);
    }
  }

  lemma ControlIdles(s: Pool, a: Action, w: nat)
    requires Enabled(s, a) && ByControl(a) && !a.Reset?
    ensures IdleAt(Apply(s, a), w) == IdleAt(s, w)
  {
  }

  lemma IdleRefsMove(s: Pool, a: Action, w: nat)
    requires Enabled(s, a) && !a.Reset?
    ensures IdleRefs(Apply(s, a), w) == IdleRefs(s, w) + IdleChange(s, a, w)
  {
    HoldingMoves(s, a, w);
    StackMoves(s, a, w);
  }

  /** The worker on top of the stack, if the step takes it. */
  function PopChange(s: Pool, a: Action, w: nat): int {
    if (a.Retrieve? || (a.Retry? && !s.closed)) && s.stack != [] then IsKey(s.stack[|s.stack| - 1], w) else 0
  }

  lemma HoldingMoves(s: Pool, a: Action, w: nat)
    requires Enabled(s, a)
    ensures Sum(HoldingIs, Apply(s, a).subs, w) == Sum(HoldingIs, s.subs, w) + PopChange(s, a, w) + (
      if a.Run? || a.Send? then IdleChange(s, a, w) else 0)
  {
    SubMoves(s, a, w);
    if MovesOneSub(a) {
      OneSubPhases(s, a);
    }
  }

  lemma IdleRefsReset(s: Pool, w: nat)
    requires Inv(s) && Enabled(s, Reset)
    ensures var t := Apply(s, Reset); IdleRefs(t, w) == IdleAt(t, w)
  {
    FinishAllChanges(s.workers, s.stack, w);
    NonNegatives(s, w);
    SumNonNegative(IsKey, s.stack, w);
    SumNonNegative(IsKey, PurgeList(s.purger), w);
    SumNonNegative(HoldingIs, s.subs, w);
    assert IdleRefs(s, w) == IdleAt(s, w);
    if w in s.stack {
      RefIsIdle(s, w);
    }
    Occurrences(s.stack, w);
    assert w in s.stack <==> multiset(s.stack)[w] > 0;
  }

  function Listed(s: Pool, w: nat): int { Sum(IsKey, s.stack, w) + Sum(IsKey, PurgeList(s.purger), w) }

  /** How a step moves the entries of the stack and of the purge list. */
  lemma StackMoves(s: Pool, a: Action, w: nat)
    requires Enabled(s, a) && !a.Reset?
    ensures Listed(Apply(s, a), w) == Listed(s, w) - PopChange(s, a, w) + (
      if a.Insert? || a.FinishOne? then IdleChange(s, a, w) else 0)
  {
    if BySubmission(a) {
      SubmissionPops(s, a, w);
    } else if ByWorker(a) {
      WorkerPushes(s, a, w);
    } else if ByPurger(a) {
      PurgerLists(s, a, w);
    } else {
      ControlLists(s, a, w);
    }
  }

  lemma SubmissionPops(s: Pool, a: Action, w: nat)
    requires Enabled(s, a) && BySubmission(a)
    ensures Listed(Apply(s, a), w) == Listed(s, w) - PopChange(s, a, w)
  {
    hide Sum;
    if s.stack != [] {
      var n := |s.stack| - 1;
      assert s.stack == s.stack[..n] + [s.stack[n]];
      SumAppend(IsKey, s.stack[..n], s.stack[n], w);
    }
  }

  lemma WorkerPushes(s: Pool, a: Action, w: nat)
    requires Enabled(s, a) && ByWorker(a)
    ensures Listed(Apply(s, a), w) == Listed(s, w) + if a.Insert? && !s.closed then IsKey(a.w, w) else 0
  {
    if a.Insert? {
      SumAppend(IsKey, s.stack, a.w, w);
    }
  }

  lemma PurgerLists(s: Pool, a: Action, w: nat)
    requires Enabled(s, a) && ByPurger(a)
    ensures Listed(Apply(s, a), w) == Listed(s, w) - if a.FinishOne? then IsKey(s.purger.left[0], w) else 0
  {
    if a.Refresh? {
      assert s.stack == s.stack[..a.k] + s.stack[a.k..];
      SumConcat(IsKey, s.stack[..a.k], s.stack[a.k..], w);
    }
  }

  lemma ControlLists(s: Pool, a: Action, w: nat)
    requires Enabled(s, a) && ByControl(a) && !a.Reset?
    ensures Listed(Apply(s, a), w) == Listed(s, w)
  {
  }

  // The counters.

  /** Goroutines are started by Run and leave by a decrement and by putting their object back. */
  ghost predicate GoroutinesMoved(s: Pool, a: Action, t: Pool) {
    var up, down, put := if a.Run? then 1 else 0, if a.Decrement? then 1 else 0, if a.Put? then 1 else 0;
    && t.running == s.running + up - down
    && Started(t.workers) == Started(s.workers) + up - down
    && Leaving(t.workers) == Leaving(s.workers) + down - put
  }

  lemma WorkerMoves(s: Pool, a: Action)
    requires TakenOnce(s) && Enabled(s, a)
    ensures GoroutinesMoved(s, a, Apply(s, a))
  {
    if BySubmission(a) {
      SubmissionStarts(s, a);
    } else if ByWorker(a) {
      WorkerLeaves(s, a);
    } else if ByPurger(a) {
      PurgerStartsNone(s, a);
    } else {
      ControlStartsNone(s, a);
    }
  }

  lemma SubmissionStarts(s: Pool, a: Action)
    requires TakenOnce(s) && Enabled(s, a) && BySubmission(a)
    ensures GoroutinesMoved(s, a, Apply(s, a))
  {
    var t := Apply(s, a);
    if a.Get? && a.w < |s.workers| {
      PhaseUpdate(s.workers, a.w, t.workers[a.w]);
    } else if a.Get? {
      SumAppend(IsStarted, s.workers, Worker(Empty, Taken), 0);
      SumAppend(IsLeaving, s.workers, Worker(Empty, Taken), 0);
    } else if a.Run? || a.Send? {
      var w := s.subs[a.i].phase.w;
      PhaseUpdate(s.workers, w, t.workers[w]);
      if a.Run? {
        GotIsTaken(s, a.i);
      }
    }
  }

  lemma WorkerLeaves(s: Pool, a: Action)
    requires Enabled(s, a) && ByWorker(a)
    ensures GoroutinesMoved(s, a, Apply(s, a))
  {
    if !a.Signal? {
      PhaseUpdate(s.workers, a.w, Apply(s, a).workers[a.w]);
    }
  }

  lemma PurgerStartsNone(s: Pool, a: Action)
    requires Enabled(s, a) && ByPurger(a)
    ensures GoroutinesMoved(s, a, Apply(s, a))
  {
    if a.FinishOne? {
      PhaseUpdate(s.workers, s.purger.left[0], Apply(s, a).workers[s.purger.left[0]]);
    }
  }

  lemma ControlStartsNone(s: Pool, a: Action)
    requires Enabled(s, a) && ByControl(a)
    ensures GoroutinesMoved(s, a, Apply(s, a))
  {
    if a.Reset? {
      FinishAllChanges(s.workers, s.stack, 0);
    }
  }

  lemma PhaseUpdate(workers: seq<Worker>, w: nat, x: Worker)
    requires w < |workers|
    ensures Started(workers[w := x]) == Started(workers) - IsStarted(workers[w], 0) + IsStarted(x, 0)
    ensures Leaving(workers[w := x]) == Leaving(workers) - IsLeaving(workers[w], 0) + IsLeaving(x, 0)
  {
    SumUpdate(IsStarted, workers, 0, w, x);
    SumUpdate(IsLeaving, workers, 0, w, x);
  }

  /** Waiters, woken submissions and spawns in progress after a step. */
  lemma QueueMoves(s: Pool, a: Action)
    requires Enabled(s, a)
    ensures var t := Apply(s, a);
      if MovesOneSub(a) then
        && |t.subs| == |s.subs|
        && Waiters(t.subs) == Waiters(s.subs) - IsWaiting(s.subs[a.i], 0) + IsWaiting(t.subs[a.i], 0)
        && Woken(t.subs) == Woken(s.subs) - IsNotified(s.subs[a.i], 0) + IsNotified(t.subs[a.i], 0)
        && Spawns(t.subs) == Spawns(s.subs) - IsSpawning(s.subs[a.i], 0) + IsSpawning(t.subs[a.i], 0)
      else
        && Waiters(t.subs) + Woken(t.subs) == Waiters(s.subs) + Woken(s.subs)
        && Spawns(t.subs) == Spawns(s.subs)
  {
    var t := Apply(s, a);
    if MovesOneSub(a) {
      OneSub(s, a);
      hide Apply, Enabled;
      SumUpdate(IsWaiting, s.subs, 0, a.i, t.subs[a.i]);
      SumUpdate(IsNotified, s.subs, 0, a.i, t.subs[a.i]);
      SumUpdate(IsSpawning, s.subs, 0, a.i, t.subs[a.i]);
    } else if a.Call? {
      var u := Sub(a.msg, Entering);
      SumAppend(IsWaiting, s.subs, u, 0);
      SumAppend(IsNotified, s.subs, u, 0);
      SumAppend(IsSpawning, s.subs, u, 0);
    } else {
      OthersOnlyWake(s, a);
      hide Apply, Enabled;
      NotifyAllChanges(s.subs, 0);
      if (a.Insert? || a.Signal? || a.TuneWake?) && CanSignal(s.subs, a.i) {
        SignalChanges(s.subs, a.i);
      }
    }
  }

  /** A signal moves one waiter, if there is one, to the woken. */
  lemma SignalChanges(subs: seq<Sub>, i: nat)
    requires CanSignal(subs, i)
    ensures var after := SignalOne(subs, i);
      && Waiters(after) == Waiters(subs) - (if Waiters(subs) > 0 then 1 else 0)
      && Woken(after) == Woken(subs) + (if Waiters(subs) > 0 then 1 else 0)
      && Spawns(after) == Spawns(subs)
  {
    if i < |subs| {
      var u := subs[i].(phase := Notified);
      SumUpdate(IsWaiting, subs, 0, i, u);
      SumUpdate(IsNotified, subs, 0, i, u);
      SumUpdate(IsSpawning, subs, 0, i, u);
      SumMember(IsWaiting, subs, 0, i);
    } else if Waiters(subs) > 0 {
      var k := SumSource(IsWaiting, subs, 0);
    } else {
      SumNonNegative(IsWaiting, subs, 0);
    }
  }

  lemma CountedStep(s: Pool, a: Action)
    requires Inv(s) && Enabled(s, a)
    ensures Counted(Apply(s, a))
  {
    WorkerMoves(s, a);
    QueueMoves(s, a);
    if MovesOneSub(a) {
      OneSubWaits(s, a);
    } else {
      OthersKeepWaiting(s, a);
    }
  }

  lemma OneSubWaits(s: Pool, a: Action)
    requires Enabled(s, a) && MovesOneSub(a)
    ensures var t := Apply(s, a);
      && |t.subs| == |s.subs|
      && t.waiting - s.waiting ==
        IsWaiting(t.subs[a.i], 0) + IsNotified(t.subs[a.i], 0) - IsWaiting(s.subs[a.i], 0) - IsNotified(s.subs[a.i], 0)
  {
  }

  lemma OthersKeepWaiting(s: Pool, a: Action)
    requires Enabled(s, a) && !MovesOneSub(a)
    ensures Apply(s, a).waiting == s.waiting
  {
  }

  /** The parts of the invariant that a step keeps without counting. */
  predicate Plain(s: Pool) { MailOnlyWhenReceiving(s) && Sized(s) && Shut(s) }

  lemma PlainStep(s: Pool, a: Action)
    requires Inv(s) && Enabled(s, a)
    ensures Plain(Apply(s, a))
  {
    if BySubmission(a) {
      SubmissionPlain(s, a);
    } else if ByWorker(a) {
      WorkerPlain(s, a);
    } else if ByPurger(a) {
      PurgerPlain(s, a);
    } else {
      ControlPlain(s, a);
    }
  }

  lemma SubmissionPlain(s: Pool, a: Action)
    requires Inv(s) && Enabled(s, a) && BySubmission(a)
    ensures Plain(Apply(s, a))
  {
    hide WorkerStep, PurgerStep, ControlStep, Sum;
    if a.Run? {
      GotIsTaken(s, a.i);
    } else if a.Send? {
      RefIsIdle(s, s.subs[a.i].phase.w);
    }
  }

  lemma WorkerPlain(s: Pool, a: Action)
    requires Plain(s) && Enabled(s, a) && ByWorker(a)
    ensures Plain(Apply(s, a))
  {
  }

  lemma PurgerPlain(s: Pool, a: Action)
    requires Inv(s) && Enabled(s, a) && ByPurger(a)
    ensures Plain(Apply(s, a))
  {
    if a.FinishOne? {
      RefIsIdle(s, s.purger.left[0]);
    }
  }

  lemma ControlPlain(s: Pool, a: Action)
    requires Inv(s) && Enabled(s, a) && ByControl(a)
    ensures Plain(Apply(s, a))
  {
    hide Sum;
    if a.Reset? {
      ResetPlain(s);
    }
  }

  lemma ResetPlain(s: Pool)
    requires Inv(s) && Enabled(s, Reset)
    ensures Plain(Apply(s, Reset))
  {
    FinishAllChanges(s.workers, s.stack, 0);
    forall w | w in s.stack ensures w < |s.workers| && Idle(s.workers[w]) { RefIsIdle(s, w); }
  }

  lemma ConservedStep(s: Pool, a: Action)
    requires Inv(s) && Enabled(s, a)
    ensures Conserved(Apply(s, a))
  {
    var t := Apply(s, a);
    forall k: Task ensures Sum(AcceptedIs, t.subs, k) == Sum(MailIs, t.workers, k) + Sum(IsKey, t.started, k) {
      TaskStep(s, a, k);
    }
  }

  lemma TaskStep(s: Pool, a: Action, k: Task)
    requires Inv(s) && Enabled(s, a)
    ensures var t := Apply(s, a); Sum(AcceptedIs, t.subs, k) == Sum(MailIs, t.workers, k) + Sum(IsKey, t.started, k)
  {
    hide Sum;
    AcceptedMoves(s, a, k);
    MailMoves(s, a, k);
    if a.Receive? && Apply(s, a).started != s.started {
      SumAppend(IsKey, s.started, s.workers[a.w].mail.msg.task, k);
    }
  }

  /** The task of a submission counts as accepted from its send on. */
  lemma AcceptedMoves(s: Pool, a: Action, k: Task)
    requires Enabled(s, a)
    ensures Sum(AcceptedIs, Apply(s, a).subs, k) ==
      Sum(AcceptedIs, s.subs, k) + if a.Send? && s.subs[a.i].msg == Work(k) then 1 else 0
  {
    SubMoves(s, a, k);
    if MovesOneSub(a) {
      OneSubPhases(s, a);
    }
  }

  /** What a step adds to task k in the mailboxes. */
  function MailChange(s: Pool, a: Action, k: Task): int
    requires Enabled(s, a)
  {
    if a.Send? && s.subs[a.i].msg == Work(k) then 1
    else if a.Receive? && s.workers[a.w].mail == Full(Work(k)) then -1
    else 0
  }

  lemma MailMoves(s: Pool, a: Action, k: Task)
    requires Enabled(s, a)
    ensures Sum(MailIs, Apply(s, a).workers, k) == Sum(MailIs, s.workers, k) + MailChange(s, a, k)
  {
    if BySubmission(a) {
      SubmissionMails(s, a, k);
    } else if ByWorker(a) {
      WorkerReads(s, a, k);
    } else if ByPurger(a) {
      PurgerMails(s, a, k);
    } else {
      ControlMails(s, a, k);
    }
  }

  lemma SubmissionMails(s: Pool, a: Action, k: Task)
    requires Enabled(s, a) && BySubmission(a)
    ensures Sum(MailIs, Apply(s, a).workers, k) == Sum(MailIs, s.workers, k) + MailChange(s, a, k)
  {
    var t := Apply(s, a);
    if a.Get? && a.w < |s.workers| {
      SumUpdate(MailIs, s.workers, k, a.w, t.workers[a.w]);
    } else if a.Get? {
      SumAppend(MailIs, s.workers, Worker(Empty, Taken), k);
    } else if a.Run? || a.Send? {
      var w := s.subs[a.i].phase.w;
      SumUpdate(MailIs, s.workers, k, w, t.workers[w]);
    }
  }

  lemma WorkerReads(s: Pool, a: Action, k: Task)
    requires Enabled(s, a) && ByWorker(a)
    ensures Sum(MailIs, Apply(s, a).workers, k) == Sum(MailIs, s.workers, k) + MailChange(s, a, k)
  {
    hide Sum;
    if !a.Signal? {
      SumUpdate(MailIs, s.workers, k, a.w, Apply(s, a).workers[a.w]);
    }
  }

  lemma PurgerMails(s: Pool, a: Action, k: Task)
    requires Enabled(s, a) && ByPurger(a)
    ensures Sum(MailIs, Apply(s, a).workers, k) == Sum(MailIs, s.workers, k)
  {
    if a.FinishOne? {
      SumUpdate(MailIs, s.workers, k, s.purger.left[0], Apply(s, a).workers[s.purger.left[0]]);
    }
  }

  lemma ControlMails(s: Pool, a: Action, k: Task)
    requires Enabled(s, a) && ByControl(a)
    ensures Sum(MailIs, Apply(s, a).workers, k) == Sum(MailIs, s.workers, k)
  {
    hide Sum;
    if a.Reset? {
      FinishAllChanges(s.workers, s.stack, k);
    }
  }

  /** Every step keeps the invariant. */
  lemma StepKeeps(s: Pool, a: Action)
    requires Inv(s) && Enabled(s, a)
    ensures Inv(Apply(s, a))
  {
    TakenOnceStep(s, a);
    IdleOnceStep(s, a);
    CountedStep(s, a);
    PlainStep(s, a);
    ConservedStep(s, a);
  }

  lemma {:induction false} RunKeeps(s: Pool, acts: seq<Action>)
    requires Inv(s) && Legal(s, acts)
    ensures Inv(Exec(s, acts))
    decreases |acts|
  {
    if acts != [] {
      StepKeeps(s, acts[0]);
      RunKeeps(Apply(s, acts[0]), acts[1..]);
    }
  }

  lemma Start(cap: nat)
    requires cap >= 1
    ensures Inv(Init(cap))
  {
  }
}

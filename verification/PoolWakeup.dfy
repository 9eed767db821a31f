/**
 * No lost wake-up: while a submission waits un-notified in an open pool, every idle worker and every
 * free place is matched by a woken submission or by a signal that some goroutine still owes.
 */
module PoolWakeup {
  import opened Sums
  import opened PoolMachine
  import opened PoolInvariant

  function RiseOf(t: Tune, k: nat): int { if t.Owing? then t.rise else 0 }
  function Debt(tunes: seq<Tune>): int { Sum(RiseOf, tunes, 0) }

  /** Places that neither a running worker nor a spawn in progress will take. */
  function Free(s: Pool): int {
    var n := s.cap - s.running - Spawns(s.subs);
    if n > 0 then n else 0
  }

  /** Submissions already woken, and signals owed by exited goroutines and by Tune calls that have stored. */
  function Credit(s: Pool): int {
    Woken(s.subs) + s.owed + Leaving(s.workers) + Debt(s.tunes)
  }

  predicate Wake(s: Pool) {
    !s.closed && Waiters(s.subs) > 0 ==> |s.stack| + Free(s) <= Credit(s)
  }

  /**
   * The steps after which a wake-up can be lost: a Tune that stores after the capacity was lowered
   * below the one it had read, and a Reboot while submissions wait.
   */
  predicate Calm(s: Pool, a: Action)
    requires Enabled(s, a)
  {
    && (a.TuneStore? ==> s.tunes[a.j].capacity <= s.cap || s.tunes[a.j].size <= s.cap)
    && (a.Reboot? ==> s.waiting == 0)
  }

  lemma CreditNonNegative(s: Pool)
    ensures Waiters(s.subs) >= 0 && Woken(s.subs) >= 0 && Spawns(s.subs) >= 0
    ensures Leaving(s.workers) >= 0 && Debt(s.tunes) >= 0
  {
    NonNegatives(s, 0);
    SumNonNegative(IsWaiting, s.subs, 0);
    SumNonNegative(IsNotified, s.subs, 0);
    SumNonNegative(IsSpawning, s.subs, 0);
    SumNonNegative(IsLeaving, s.workers, 0);
    SumNonNegative(RiseOf, s.tunes, 0);
  }

  lemma SubmissionWake(s: Pool, a: Action)
    requires Inv(s) && Wake(s) && Enabled(s, a) && MovesOneSub(a)
    ensures Wake(Apply(s, a))
  {
    hide Sum;
    CreditNonNegative(s);
    CreditNonNegative(Apply(s, a));
    QueueMoves(s, a);
    WorkerMoves(s, a);
    if a.Run? {
      GotIsTaken(s, a.i);
    }
  }

  lemma WorkerWake(s: Pool, a: Action)
    requires Inv(s) && Wake(s) && Enabled(s, a) && MovesOneWorker(a)
    ensures Wake(Apply(s, a))
  {
    hide Sum;
    QueueMoves(s, a);
    WorkerMoves(s, a);
    if a.Insert? {
      SignalChanges(s.subs, a.i);
    } else if a.Decline? {
      NotifyAllChanges(s.subs, 0);
    }
  }

  lemma TuneStoreChanges(s: Pool, j: nat)
    requires Enabled(s, TuneStore(j))
    ensures var t, call := Apply(s, TuneStore(j)), s.tunes[j];
      Debt(t.tunes) == Debt(s.tunes) + if call.size > call.capacity then call.size - call.capacity else 0
  {
    SumUpdate(RiseOf, s.tunes, 0, j, Apply(s, TuneStore(j)).tunes[j]);
  }

  lemma OtherWake(s: Pool, a: Action)
    requires Inv(s) && Wake(s) && Enabled(s, a) && Calm(s, a) && !MovesOneSub(a) && !MovesOneWorker(a)
    ensures Wake(Apply(s, a))
  {
    hide Sum;
    CreditNonNegative(s);
    QueueMoves(s, a);
    WorkerMoves(s, a);
    NotifyAllChanges(s.subs, 0);
    if a.Call? {
      SumAppend(IsWaiting, s.subs, Sub(a.msg, Entering), 0);
      SumAppend(IsNotified, s.subs, Sub(a.msg, Entering), 0);
    } else if a.Signal? {
      SignalChanges(s.subs, a.i);
    } else if a.TuneLoad? && |Apply(s, a).tunes| > |s.tunes| {
      SumAppend(RiseOf, s.tunes, Loaded(s.cap, a.size), 0);
    } else if a.TuneStore? {
      TuneStoreChanges(s, a.j);
    } else if a.TuneWake? {
      SumUpdate(RiseOf, s.tunes, 0, a.j, Finished);
      SignalChanges(s.subs, a.i);
    }
  }

  lemma WakeStep(s: Pool, a: Action)
    requires Inv(s) && Wake(s) && Enabled(s, a) && Calm(s, a)
    ensures Wake(Apply(s, a))
  {
    if MovesOneSub(a) {
      SubmissionWake(s, a);
    } else if MovesOneWorker(a) {
      WorkerWake(s, a);
    } else {
      OtherWake(s, a);
    }
  }

  /** A run of calm steps. That no wake-up is lost over runs is shown in PoolGrain, where the wait has two steps. */
  predicate CalmRun(s: Pool, acts: seq<Action>)
    requires Legal(s, acts)
    decreases |acts|
  {
    acts == [] || (Calm(s, acts[0]) && CalmRun(Apply(s, acts[0]), acts[1..]))
  }

  // Calls of Tune that do not overlap store over the capacity they have read.

  predicate TunesSettled(tunes: seq<Tune>) { forall j :: 0 <= j < |tunes| ==> tunes[j].Finished? }

  /** At most one Tune is under way, and the capacity it has read is still the capacity. */
  predicate OneTune(s: Pool) {
    && (forall j, k :: 0 <= j < k < |s.tunes| ==> s.tunes[j].Finished? || s.tunes[k].Finished?)
    && (forall j :: 0 <= j < |s.tunes| && s.tunes[j].Loaded? ==> s.tunes[j].capacity == s.cap)
  }

  lemma OneTuneStep(s: Pool, a: Action)
    requires Enabled(s, a) && OneTune(s) && (a.TuneLoad? ==> TunesSettled(s.tunes))
    ensures OneTune(Apply(s, a))
  {
    hide Apply, Enabled;
    if a.TuneLoad? || a.TuneStore? || a.TuneWake? {
      TuneKeepsOne(s, a);
    } else {
      OthersKeepTunes(s, a);
    }
  }

  lemma TuneKeepsOne(s: Pool, a: Action)
    requires Enabled(s, a) && OneTune(s) && (a.TuneLoad? ==> TunesSettled(s.tunes))
    requires a.TuneLoad? || a.TuneStore? || a.TuneWake?
    ensures OneTune(Apply(s, a))
  {
    hide SubmissionStep, WorkerStep, PurgerStep;
  }

  lemma OthersKeepTunes(s: Pool, a: Action)
    requires Enabled(s, a) && !a.TuneLoad? && !a.TuneStore? && !a.TuneWake?
    ensures Apply(s, a).tunes == s.tunes && Apply(s, a).cap == s.cap
  {
  }
}

/**
 * What each operation of the pool does when nobody steps in between: the state in which it ends, field by
 * field. A submission that finds the pool closed is the exception: that one is followed over all runs.
 */
module PoolAlone {
  import opened Sums
  import opened PoolMachine
  import opened PoolInvariant
  import opened PoolGrain
  import PD = PoolDrain
  import PR = PoolRescue
  import PW = PoolWork

  /** The run xs leads from s to t. */
  ghost predicate Leads(s: Pool, xs: seq<Action>, t: Pool) { Legal(s, xs) && Exec(s, xs) == t }

  lemma LeadsNone(s: Pool)
    ensures Leads(s, [], s)
  {
  }

  lemma LeadsOne(s: Pool, a: Action)
    requires Enabled(s, a)
    ensures Leads(s, [a], Apply(s, a))
  {
    assert [a][1..] == [];
  }

  lemma {:induction false} LeadsJoin(s: Pool, xs: seq<Action>, t: Pool, ys: seq<Action>, u: Pool)
    requires Leads(s, xs, t) && Leads(t, ys, u)
    ensures Leads(s, xs + ys, u)
    decreases |xs|
  {
    hide Enabled, Apply;
    if xs == [] {
      assert xs + ys == ys;
    } else {
      assert (xs + ys)[1..] == xs[1..] + ys;
      LeadsJoin(Apply(s, xs[0]), xs[1..], t, ys, u);
    }
  }

  /** One more step in front of a run. */
  lemma LeadsThen(s: Pool, a: Action, t: Pool, ys: seq<Action>, u: Pool)
    requires Enabled(s, a) && Apply(s, a) == t && Leads(t, ys, u)
    ensures Leads(s, [a] + ys, u)
  {
    hide Enabled, Apply;
    assert ([a] + ys)[1..] == ys;
  }

  /** A broadcast: whoever waits is woken, with the message it had, and nobody else is touched. */
  predicate AllWoken(before: seq<Sub>, after: seq<Sub>) {
    |after| == |before| && forall i :: 0 <= i < |before| ==>
      after[i] == if before[i].phase == Waiting then Sub(before[i].msg, Notified) else before[i]
  }

  /** A signal: one of those that wait is woken, and nobody only if nobody waits. */
  predicate OneWoken(before: seq<Sub>, i: nat, after: seq<Sub>) {
    if i < |before| && before[i].phase == Waiting then after == before[i := Sub(before[i].msg, Notified)]
    else after == before && forall k :: 0 <= k < |before| ==> before[k].phase != Waiting
  }

  /** The workers ids are told to stop: nil is in their channels, and nothing else has changed. */
  predicate AllFinished(before: seq<Worker>, ids: seq<nat>, after: seq<Worker>) {
    |after| == |before| && forall w: nat :: w < |before| ==>
      after[w] == if w in ids then Worker(Full(Nil), before[w].phase) else before[w]
  }

  /** A worker that is out of the cache and has the message. */
  function Handed(workers: seq<Worker>, w: nat, msg: Msg): seq<Worker>
    requires w <= |workers|
  {
    if w == |workers| then workers + [Worker(Full(msg), Receiving)] else workers[w := Worker(Full(msg), Receiving)]
  }

  // Submit and Invoke.

  /** On a closed pool: an error, and nothing else has changed. */
  lemma SubmitClosed(s: Pool, msg: Msg)
    requires s.closed
    ensures Leads(s, [Call(msg)] + [Enter(|s.subs|)], s.(subs := s.subs + [Sub(msg, Rejected)]))
  {
    var i, t := |s.subs|, s.(subs := s.subs + [Sub(msg, Entering)]);
    assert Apply(t, Enter(i)) == s.(subs := s.subs + [Sub(msg, Rejected)]);
    LeadsOne(t, Enter(i));
    LeadsThen(s, Call(msg), t, [Enter(i)], Apply(t, Enter(i)));
  }

  lemma Entered(s: Pool, msg: Msg)
    requires !s.closed
    ensures Leads(s, [Call(msg)] + [Enter(|s.subs|)], s.(subs := s.subs + [Sub(msg, Locking)]))
  {
    var i, t := |s.subs|, s.(subs := s.subs + [Sub(msg, Entering)]);
    assert Apply(t, Enter(i)) == s.(subs := s.subs + [Sub(msg, Locking)]);
    LeadsOne(t, Enter(i));
    LeadsThen(s, Call(msg), t, [Enter(i)], Apply(t, Enter(i)));
  }

  lemma SendAlone(s: Pool, i: nat, w: nat)
    requires i < |s.subs| && s.subs[i].phase == Holding(w) && w < |s.workers| && Idle(s.workers[w])
    ensures Leads(s, [Send(i)],
        s.(subs := s.subs[i := Sub(s.subs[i].msg, Accepted)],
           workers := s.workers[w := Worker(Full(s.subs[i].msg), Receiving)]))
  {
    LeadsOne(s, Send(i));
  }

  /** With an idle worker: the one inserted last gets the message. */
  lemma SubmitIdle(s: Pool, msg: Msg)
    requires Inv(s) && !s.closed && s.stack != []
    ensures var i, w := |s.subs|, s.stack[|s.stack| - 1];
      && w < |s.workers|
      && Leads(s, [Call(msg)] + [Enter(i)] + [Retrieve(i)] + [Send(i)],
           s.(subs := s.subs + [Sub(msg, Accepted)], stack := s.stack[..|s.stack| - 1],
              workers := Handed(s.workers, w, msg)))
  {
    var i, w := |s.subs|, s.stack[|s.stack| - 1];
    RefIsIdle(s, w);
    Entered(s, msg);
    var t := s.(subs := s.subs + [Sub(msg, Locking)]);
    var u := s.(subs := s.subs + [Sub(msg, Holding(w))], stack := s.stack[..|s.stack| - 1]);
    assert Apply(t, Retrieve(i)) == u;
    LeadsOne(t, Retrieve(i));
    LeadsJoin(s, [Call(msg)] + [Enter(i)], t, [Retrieve(i)], u);
    SendAlone(u, i, w);
    var v := s.(subs := s.subs + [Sub(msg, Accepted)], stack := s.stack[..|s.stack| - 1],
                workers := Handed(s.workers, w, msg));
    assert u.subs[i := Sub(msg, Accepted)] == v.subs;
    LeadsJoin(s, [Call(msg)] + [Enter(i)] + [Retrieve(i)], u, [Send(i)], v);
  }

  /** A call that has been told to spawn starts a worker, new or from the cache, and hands it the message. */
  lemma SpawnAlone(s: Pool, i: nat, w: nat)
    requires MailOnlyWhenReceiving(s) && SubAt(s, i, Spawning) && (w == |s.workers| || WorkerAt(s, w, Cached))
    ensures Leads(s, [Get(i, w)] + [Run(i)] + [Send(i)],
        s.(subs := s.subs[i := Sub(s.subs[i].msg, Accepted)], running := s.running + 1,
           workers := Handed(s.workers, w, s.subs[i].msg)))
  {
    var m := s.subs[i].msg;
    var t := s.(subs := s.subs[i := Sub(m, Got(w))],
                workers := if w == |s.workers| then s.workers + [Worker(Empty, Taken)]
                           else s.workers[w := Worker(Empty, Taken)]);
    var u := s.(subs := s.subs[i := Sub(m, Holding(w))], running := s.running + 1,
                workers := t.workers[w := Worker(Empty, Receiving)]);
    assert Apply(s, Get(i, w)) == t;
    StartAlone(t, i, w);
    assert t.subs[i := Sub(m, Holding(w))] == u.subs;
    LeadsOne(s, Get(i, w));
    hide Apply, Enabled;
    LeadsJoin(s, [Get(i, w)], t, [Run(i)], u);
    SendAlone(u, i, w);
    var v := s.(subs := s.subs[i := Sub(m, Accepted)], running := s.running + 1, workers := Handed(s.workers, w, m));
    assert u.subs[i := Sub(m, Accepted)] == v.subs;
    assert u.workers[w := Worker(Full(m), Receiving)] == v.workers;
    LeadsJoin(s, [Get(i, w)] + [Run(i)], u, [Send(i)], v);
  }

  lemma StartAlone(s: Pool, i: nat, w: nat)
    requires SubAt(s, i, Got(w)) && w < |s.workers|
    ensures Leads(s, [Run(i)],
        s.(subs := s.subs[i := Sub(s.subs[i].msg, Holding(w))], running := s.running + 1,
           workers := s.workers[w := Worker(s.workers[w].mail, Receiving)]))
  {
    LeadsOne(s, Run(i));
  }

  /** Without one and below the capacity: a worker is started, and gets the message. */
  lemma SubmitSpawns(s: Pool, msg: Msg, w: nat)
    requires Inv(s) && !s.closed && s.stack == [] && s.running < s.cap && (w == |s.workers| || WorkerAt(s, w, Cached))
    ensures var i := |s.subs|;
      Leads(s, [Call(msg)] + [Enter(i)] + [Retrieve(i)] + ([Get(i, w)] + [Run(i)] + [Send(i)]),
            s.(subs := s.subs + [Sub(msg, Accepted)], running := s.running + 1,
               workers := Handed(s.workers, w, msg)))
  {
    var i, t, u := |s.subs|, s.(subs := s.subs + [Sub(msg, Locking)]), s.(subs := s.subs + [Sub(msg, Spawning)]);
    Entered(s, msg);
    assert Apply(t, Retrieve(i)) == u;
    LeadsOne(t, Retrieve(i));
    LeadsJoin(s, [Call(msg)] + [Enter(i)], t, [Retrieve(i)], u);
    SpawnAlone(u, i, w);
    assert u.subs[i := Sub(msg, Accepted)] == s.subs + [Sub(msg, Accepted)];
    var v := s.(subs := s.subs + [Sub(msg, Accepted)], running := s.running + 1, workers := Handed(s.workers, w, msg));
    LeadsJoin(s, [Call(msg)] + [Enter(i)] + [Retrieve(i)], u, [Get(i, w)] + [Run(i)] + [Send(i)], v);
  }

  /** Without one and at the capacity: the call waits. */
  lemma SubmitWaits(s: Pool, msg: Msg)
    requires !s.closed && s.stack == [] && s.running >= s.cap
    ensures var i := |s.subs|;
      Leads(s, [Call(msg)] + [Enter(i)] + [Retrieve(i)],
            s.(subs := s.subs + [Sub(msg, Waiting)], waiting := s.waiting + 1))
  {
    var i, t := |s.subs|, s.(subs := s.subs + [Sub(msg, Locking)]);
    var u := s.(subs := s.subs + [Sub(msg, Waiting)], waiting := s.waiting + 1);
    Entered(s, msg);
    assert Apply(t, Retrieve(i)) == u;
    LeadsOne(t, Retrieve(i));
    LeadsJoin(s, [Call(msg)] + [Enter(i)], t, [Retrieve(i)], u);
  }

  /** A submission that has been woken, on its own: the waiting count goes down, then the same choices. */
  lemma WokenGivesUp(s: Pool, i: nat)
    requires SubAt(s, i, Notified) && s.closed
    ensures Leads(s, [Retry(i)], s.(subs := s.subs[i := Sub(s.subs[i].msg, Rejected)], waiting := s.waiting - 1))
  {
    LeadsOne(s, Retry(i));
  }

  lemma WokenIdle(s: Pool, i: nat)
    requires Inv(s) && SubAt(s, i, Notified) && !s.closed && s.stack != []
    ensures var w := s.stack[|s.stack| - 1];
      && w < |s.workers|
      && Leads(s, [Retry(i)] + [Send(i)],
           s.(subs := s.subs[i := Sub(s.subs[i].msg, Accepted)], waiting := s.waiting - 1,
              stack := s.stack[..|s.stack| - 1], workers := Handed(s.workers, w, s.subs[i].msg)))
  {
    var w, t := s.stack[|s.stack| - 1], Apply(s, Retry(i));
    RefIsIdle(s, w);
    LeadsOne(s, Retry(i));
    assert t == s.(subs := s.subs[i := Sub(s.subs[i].msg, Holding(w))], waiting := s.waiting - 1,
                   stack := s.stack[..|s.stack| - 1]);
    SendAlone(t, i, w);
    assert t.subs[i := Sub(s.subs[i].msg, Accepted)] == s.subs[i := Sub(s.subs[i].msg, Accepted)];
    LeadsJoin(s, [Retry(i)], t, [Send(i)], t.(subs := s.subs[i := Sub(s.subs[i].msg, Accepted)],
              workers := Handed(s.workers, w, s.subs[i].msg)));
  }

  lemma WokenSpawns(s: Pool, i: nat, w: nat)
    requires Inv(s) && SubAt(s, i, Notified) && !s.closed && s.stack == [] && s.running < s.cap
    requires w == |s.workers| || WorkerAt(s, w, Cached)
    ensures Leads(s, [Retry(i)] + ([Get(i, w)] + [Run(i)] + [Send(i)]),
        s.(subs := s.subs[i := Sub(s.subs[i].msg, Accepted)], waiting := s.waiting - 1, running := s.running + 1,
           workers := Handed(s.workers, w, s.subs[i].msg)))
  {
    var m, t := s.subs[i].msg, Apply(s, Retry(i));
    LeadsOne(s, Retry(i));
    assert t == s.(subs := s.subs[i := Sub(m, Spawning)], waiting := s.waiting - 1);
    SpawnAlone(t, i, w);
    assert t.subs[i := Sub(m, Accepted)] == s.subs[i := Sub(m, Accepted)];
    LeadsJoin(s, [Retry(i)], t, [Get(i, w)] + [Run(i)] + [Send(i)],
        s.(subs := s.subs[i := Sub(m, Accepted)], waiting := s.waiting - 1, running := s.running + 1,
           workers := Handed(s.workers, w, m)));
  }

  lemma WokenWaits(s: Pool, i: nat)
    requires SubAt(s, i, Notified) && !s.closed && s.stack == [] && s.running >= s.cap
    ensures Leads(s, [Retry(i)], s.(subs := s.subs[i := Sub(s.subs[i].msg, Waiting)]))
  {
    LeadsOne(s, Retry(i));
  }

  // A worker with a message.

  /** The task is started, and its return leaves the worker in revertWorker; the panic on its way out. */
  lemma TaskAlone(s: Pool, w: nat, t: Task, panics: bool)
    requires w < |s.workers| && s.workers[w] == Worker(Full(Work(t)), Receiving)
    ensures Leads(s, [Receive(w)] + [if panics then Panic(w) else Return(w)],
        s.(workers := s.workers[w := Worker(Empty, if panics then Exiting else Returned)], started := s.started + [t]))
  {
    var a := if panics then Panic(w) else Return(w);
    var u := s.(workers := s.workers[w := Worker(Empty, Executing(t))], started := s.started + [t]);
    LeadsOne(s, Receive(w));
    assert Apply(s, Receive(w)) == u;
    LeadsOne(u, a);
    LeadsJoin(s, [Receive(w)], u, [a], Apply(u, a));
    assert Apply(u, a).workers == s.workers[w := Worker(Empty, if panics then Exiting else Returned)];
  }

  /** A nil message sends the worker on its way out and starts nothing. */
  lemma NilAlone(s: Pool, w: nat)
    requires w < |s.workers| && s.workers[w] == Worker(Full(Nil), Receiving)
    ensures Leads(s, [Receive(w)], s.(workers := s.workers[w := Worker(Empty, Exiting)]))
  {
    LeadsOne(s, Receive(w));
  }

  /** revertWorker within the capacity of an open pool: the worker is on top of the stack and one waiter is woken. */
  lemma RevertAlone(s: Pool, w: nat, i: nat)
    requires WorkerAt(s, w, Returned) && !s.closed && s.running <= s.cap && CanSignal(s.subs, i)
    ensures var t := s.(workers := s.workers[w := Worker(s.workers[w].mail, Receiving)], stack := s.stack + [w],
        subs := SignalOne(s.subs, i));
      Leads(s, [Check(w)] + [Insert(w, i)], t) && OneWoken(s.subs, i, t.subs)
  {
    var t := Apply(s, Check(w));
    LeadsOne(s, Check(w));
    assert t == s.(workers := s.workers[w := Worker(s.workers[w].mail, Stamped)]);
    LeadsOne(t, Insert(w, i));
    LeadsJoin(s, [Check(w)], t, [Insert(w, i)], Apply(t, Insert(w, i)));
    assert Apply(t, Insert(w, i)).workers == s.workers[w := Worker(s.workers[w].mail, Receiving)];
  }

  /** Above the capacity or on a closed pool: everybody who waits is woken and the worker is on its way out. */
  lemma RefusedAlone(s: Pool, w: nat)
    requires WorkerAt(s, w, Returned) && (s.closed || s.running > s.cap)
    ensures var t := s.(workers := s.workers[w := Worker(s.workers[w].mail, Exiting)], subs := NotifyAll(s.subs));
      Leads(s, [Check(w)] + [Decline(w)], t) && AllWoken(s.subs, t.subs)
  {
    var t := Apply(s, Check(w));
    LeadsOne(s, Check(w));
    assert t == s.(workers := s.workers[w := Worker(s.workers[w].mail, Declining)]);
    LeadsOne(t, Decline(w));
    LeadsJoin(s, [Check(w)], t, [Decline(w)], Apply(t, Decline(w)));
    assert Apply(t, Decline(w)).workers == s.workers[w := Worker(s.workers[w].mail, Exiting)];
  }

  /** A pool that is closed between the test and the lock gets no worker back and wakes nobody. */
  lemma ClosedMeanwhile(s: Pool, w: nat, i: nat)
    requires WorkerAt(s, w, Stamped) && s.closed && CanSignal(s.subs, i)
    ensures Leads(s, [Insert(w, i)], s.(workers := s.workers[w := Worker(s.workers[w].mail, Exiting)]))
  {
    LeadsOne(s, Insert(w, i));
  }

  /** The deferred exit: one goroutine less, the object in the cache, and one waiter is woken. */
  lemma ExitAlone(s: Pool, w: nat, i: nat)
    requires WorkerAt(s, w, Exiting) && CanSignal(s.subs, i)
    ensures var t := s.(workers := s.workers[w := Worker(s.workers[w].mail, Cached)], running := s.running - 1,
        subs := SignalOne(s.subs, i));
      Leads(s, [Decrement(w)] + [Put(w)] + [Signal(i)], t) && OneWoken(s.subs, i, t.subs)
  {
    var m := s.workers[w].mail;
    var t := s.(workers := s.workers[w := Worker(m, Decremented)], running := s.running - 1);
    var u := s.(workers := s.workers[w := Worker(m, Cached)], running := s.running - 1, owed := s.owed + 1);
    ExitSteps(s, w);
    LeadsOne(s, Decrement(w));
    LeadsOne(t, Put(w));
    LeadsOne(u, Signal(i));
    hide Apply, Enabled;
    LeadsJoin(s, [Decrement(w)], t, [Put(w)], u);
    LeadsJoin(s, [Decrement(w)] + [Put(w)], u, [Signal(i)], Apply(u, Signal(i)));
    SignalAlone(u, i);
  }

  lemma ExitSteps(s: Pool, w: nat)
    requires WorkerAt(s, w, Exiting)
    ensures var m := s.workers[w].mail;
      var t := s.(workers := s.workers[w := Worker(m, Decremented)], running := s.running - 1);
      && Apply(s, Decrement(w)) == t && Enabled(t, Put(w))
      && Apply(t, Put(w)) ==
           s.(workers := s.workers[w := Worker(m, Cached)], running := s.running - 1, owed := s.owed + 1)
  {
    hide SubmissionStep, PurgerStep, ControlStep;
    var m := s.workers[w].mail;
    assert s.workers[w := Worker(m, Decremented)][w := Worker(m, Cached)] == s.workers[w := Worker(m, Cached)];
  }

  lemma SignalAlone(s: Pool, i: nat)
    requires Enabled(s, Signal(i))
    ensures var t := Apply(s, Signal(i));
      t == s.(owed := s.owed - 1, subs := SignalOne(s.subs, i)) && OneWoken(s.subs, i, t.subs)
  {
    hide SubmissionStep, PurgerStep, ControlStep;
  }

  // Release, Reboot and Tune.

  lemma {:induction false} FinishAllIs(workers: seq<Worker>, ids: seq<nat>)
    requires CanFinishAll(workers, ids)
    ensures AllFinished(workers, ids, FinishAll(workers, ids))
    decreases |ids|
  {
    if ids != [] {
      FinishAllIs(Post(workers, ids[0], Nil), ids[1..]);
    }
  }

  /** Release of an open pool: every idle worker is told to stop, the stack is empty and nobody waits any more. */
  lemma ReleaseAlone(s: Pool) returns (t: Pool)
    requires Inv(s) && !s.closed
    ensures Leads(s, [Close] + [Reset] + [CloseBroadcast], t)
    ensures t == s.(closed := true, stack := [], workers := t.workers, subs := t.subs)
    ensures AllFinished(s.workers, s.stack, t.workers) && AllWoken(s.subs, t.subs)
  {
    hide Inv;
    var r := s.(closed := true, resets := s.resets + 1);
    PD.ResetNeverBlocks(s);
    FinishAllIs(s.workers, s.stack);
    var u := r.(workers := FinishAll(s.workers, s.stack), stack := [], resets := s.resets, closers := s.closers + 1);
    t := s.(closed := true, stack := [], workers := u.workers, subs := NotifyAll(s.subs));
    ReleaseSteps(s, r, u, t);
    hide Apply, Enabled;
    LeadsOne(s, Close);
    LeadsOne(r, Reset);
    LeadsOne(u, CloseBroadcast);
    LeadsJoin(s, [Close], r, [Reset], u);
    LeadsJoin(s, [Close] + [Reset], u, [CloseBroadcast], t);
  }

  lemma ReleaseSteps(s: Pool, r: Pool, u: Pool, t: Pool)
    requires !s.closed && CanFinishAll(s.workers, s.stack)
    requires r == s.(closed := true, resets := s.resets + 1)
    requires u == r.(workers := FinishAll(s.workers, s.stack), stack := [], resets := s.resets,
                     closers := s.closers + 1)
    requires t == s.(closed := true, stack := [], workers := u.workers, subs := NotifyAll(s.subs))
    ensures Enabled(s, Close) && Apply(s, Close) == r && Enabled(r, Reset) && Apply(r, Reset) == u
    ensures Enabled(u, CloseBroadcast) && Apply(u, CloseBroadcast) == t
  {
    hide FinishAll, CanFinishAll, SubmissionStep, WorkerStep, PurgerStep;
  }

  /** Release of a closed pool changes nothing. */
  lemma ReleaseAgain(s: Pool)
    requires s.closed
    ensures Leads(s, [Close], s)
  {
    LeadsOne(s, Close);
  }

  /** After a Reboot the pool is open and has a purger again, which goes to work at the next tick. */
  lemma RebootAlone(s: Pool)
    requires s.closed && s.purger == Gone
    ensures Leads(s, [Reboot], s.(closed := false, purger := Sleeping))
    ensures Leads(s, [Reboot] + [Tick], s.(closed := false, purger := Ticked))
  {
    var t := s.(closed := false, purger := Sleeping);
    LeadsOne(s, Reboot);
    LeadsOne(t, Tick);
    LeadsJoin(s, [Reboot], t, [Tick], s.(closed := false, purger := Ticked));
  }

  /** A Tune to no size, or to the present one, changes nothing. */
  lemma TuneSame(s: Pool, size: nat)
    requires size == 0 || size == s.cap
    ensures Leads(s, [TuneLoad(size)], s)
  {
    LeadsOne(s, TuneLoad(size));
  }

  lemma Stored(s: Pool, size: nat)
    requires size > 0 && size != s.cap
    ensures var j := |s.tunes|;
      Leads(s, [TuneLoad(size)] + [TuneStore(j)],
        s.(cap := size, tunes := s.tunes + [if size > s.cap then Owing(size - s.cap) else Finished]))
  {
    var j, t := |s.tunes|, s.(tunes := s.tunes + [Loaded(s.cap, size)]);
    LeadsOne(s, TuneLoad(size));
    LeadsOne(t, TuneStore(j));
    LeadsJoin(s, [TuneLoad(size)], t, [TuneStore(j)], Apply(t, TuneStore(j)));
    assert Apply(t, TuneStore(j)).tunes == s.tunes + [if size > s.cap then Owing(size - s.cap) else Finished];
  }

  /** To a smaller one: the capacity is stored and nobody is woken. */
  lemma TuneDown(s: Pool, size: nat)
    requires 0 < size < s.cap
    ensures Leads(s, [TuneLoad(size)] + [TuneStore(|s.tunes|)], s.(cap := size, tunes := s.tunes + [Finished]))
  {
    Stored(s, size);
  }

  /** To a greater one: one waiter is woken for one place more, and everybody for more than one. */
  lemma TuneUp(s: Pool, size: nat, i: nat) returns (t: Pool)
    requires size > s.cap && CanSignal(s.subs, i)
    ensures Leads(s, [TuneLoad(size)] + [TuneStore(|s.tunes|)] + [TuneWake(|s.tunes|, i)], t)
    ensures t == s.(cap := size, tunes := s.tunes + [Finished], subs := t.subs)
    ensures if size == s.cap + 1 then OneWoken(s.subs, i, t.subs) else AllWoken(s.subs, t.subs)
  {
    var j := |s.tunes|;
    Stored(s, size);
    var u := s.(cap := size, tunes := s.tunes + [Owing(size - s.cap)]);
    LeadsOne(u, TuneWake(j, i));
    t := Apply(u, TuneWake(j, i));
    LeadsJoin(s, [TuneLoad(size)] + [TuneStore(j)], u, [TuneWake(j, i)], t);
    assert t.tunes == s.tunes + [Finished];
  }

  // The purger.

  /** A tick on a closed pool ends the purger, and so does its context. */
  lemma PurgerLeaves(s: Pool)
    requires s.purger == Sleeping
    ensures Leads(s, [StopPurge], s.(purger := Gone))
    ensures s.closed ==> Leads(s, [Tick], s.(purger := Gone))
  {
    LeadsOne(s, StopPurge);
    LeadsOne(s, Tick);
  }

  /** A purger that was stopped is not replaced before the pool has been released and rebooted. */
  lemma {:induction false} NoPurgerBeforeReboot(s: Pool, acts: seq<Action>)
    requires !s.closed && s.purger == Gone && Legal(s, acts) && Close !in acts
    ensures !Exec(s, acts).closed && Exec(s, acts).purger == Gone
    decreases |acts|
  {
    if acts != [] {
      StaysGone(s, acts[0]);
      hide Apply, Enabled;
      NoPurgerBeforeReboot(Apply(s, acts[0]), acts[1..]);
    }
  }

  lemma StaysGone(s: Pool, a: Action)
    requires !s.closed && s.purger == Gone && Enabled(s, a) && a != Close
    ensures !Apply(s, a).closed && Apply(s, a).purger == Gone
  {
  }

  /** The purger never leaves the stack as it is, unless it is empty: some workers go, those used longest ago. */
  lemma RefreshShrinks(s: Pool, k: nat)
    requires Enabled(s, Refresh(k)) && s.stack != []
    ensures var t := Apply(s, Refresh(k));
      |t.stack| < |s.stack| && t.stack == s.stack[|s.stack| - |t.stack|..] && s.stack[0] in PurgeList(t.purger)
  {
  }

  function FinishSteps(n: nat): seq<Action> { seq(n, _ => FinishOne) }

  /** The loop over the purged workers. */
  lemma {:induction false} FinishLoop(s: Pool) returns (t: Pool)
    requires Inv(s) && s.purger.Finishing?
    ensures Inv(t) && Leads(s, FinishSteps(|s.purger.left|), t)
    ensures t == s.(purger := Finishing([], s.purger.dormant), workers := t.workers)
    ensures AllFinished(s.workers, s.purger.left, t.workers)
    decreases |s.purger.left|
  {
    hide Inv;
    var left := s.purger.left;
    if left == [] {
      t := s;
      LeadsNone(s);
      assert FinishSteps(0) == [];
    } else {
      FinishIsStep(s);
      StepKeeps(s, FinishOne);
      hide Enabled, Apply;
      var u := Apply(s, FinishOne);
      t := FinishLoop(u);
      assert FinishSteps(|left|) == [FinishOne] + FinishSteps(|left| - 1);
      LeadsThen(s, FinishOne, u, FinishSteps(|left| - 1), t);
    }
  }

  lemma FinishIsStep(s: Pool)
    requires Inv(s) && s.purger.Finishing? && s.purger.left != []
    ensures Enabled(s, FinishOne)
    ensures var w, t := s.purger.left[0], Apply(s, FinishOne);
      && w < |s.workers|
      && t == s.(workers := s.workers[w := Worker(Full(Nil), s.workers[w].phase)],
                 purger := Finishing(s.purger.left[1..], s.purger.dormant))
  {
    RefIsIdle(s, s.purger.left[0]);
    hide SubmissionStep, WorkerStep, ControlStep;
  }

  /** Those that a dormant round wakes: everybody, if somebody is counted as waiting. */
  predicate DormantWakes(before: seq<Sub>, dormant: bool, waiting: int, after: seq<Sub>) {
    if dormant && waiting > 0 then AllWoken(before, after) else after == before
  }

  /**
   * A round of the purger that takes k workers: the oldest k leave the stack and are told to stop,
   * and if those were all the goroutines of the pool, or if it has none, everybody who waits is woken.
   */
  lemma RoundAlone(s: Pool, k: nat) returns (t: Pool)
    requires Inv(s) && !s.closed && s.purger == Sleeping && k <= |s.stack| && (k == 0 <==> s.stack == [])
    ensures Leads(s, [Tick] + [Refresh(k)] + FinishSteps(k) + [EndPurge], t)
    ensures t == s.(stack := s.stack[k..], workers := t.workers, subs := t.subs)
    ensures AllFinished(s.workers, s.stack[..k], t.workers)
    ensures DormantWakes(s.subs, s.running == 0 || s.running == k, s.waiting, t.subs)
  {
    hide Inv, FinishSteps;
    var d := s.running == 0 || s.running == k;
    var u, v := s.(purger := Ticked), s.(stack := s.stack[k..], purger := Finishing(s.stack[..k], d));
    RoundStarts(s, k);
    StepKeeps(s, Tick);
    StepKeeps(u, Refresh(k));
    hide Apply, Enabled;
    LeadsOne(s, Tick);
    LeadsOne(u, Refresh(k));
    LeadsJoin(s, [Tick], u, [Refresh(k)], v);
    var x := FinishLoop(v);
    LeadsJoin(s, [Tick] + [Refresh(k)], v, FinishSteps(k), x);
    RoundEnds(x);
    LeadsOne(x, EndPurge);
    t := Apply(x, EndPurge);
    LeadsJoin(s, [Tick] + [Refresh(k)] + FinishSteps(k), x, [EndPurge], t);
  }

  lemma RoundStarts(s: Pool, k: nat)
    requires !s.closed && s.purger == Sleeping && k <= |s.stack| && (k == 0 <==> s.stack == [])
    ensures var u := s.(purger := Ticked);
      && Enabled(s, Tick) && Apply(s, Tick) == u && Enabled(u, Refresh(k))
      && Apply(u, Refresh(k)) ==
           s.(stack := s.stack[k..], purger := Finishing(s.stack[..k], s.running == 0 || s.running == k))
  {
    hide SubmissionStep, WorkerStep, ControlStep;
  }

  lemma RoundEnds(s: Pool)
    requires s.purger.Finishing? && s.purger.left == []
    ensures Enabled(s, EndPurge)
    ensures var t := Apply(s, EndPurge);
      t == s.(purger := Sleeping, subs := t.subs) && DormantWakes(s.subs, s.purger.dormant, s.waiting, t.subs)
  {
    hide SubmissionStep, WorkerStep, ControlStep;
  }

  /** So a round that takes every goroutine of the pool leaves nobody waiting. */
  lemma RoundTakesAll(s: Pool) returns (t: Pool)
    requires Inv(s) && !s.closed && s.purger == Sleeping && s.running == |s.stack|
    ensures Leads(s, [Tick] + [Refresh(|s.stack|)] + FinishSteps(|s.stack|) + [EndPurge], t)
    ensures t.stack == [] && Waiters(t.subs) == 0 && AllFinished(s.workers, s.stack, t.workers)
  {
    t := RoundAlone(s, |s.stack|);
    assert s.stack[..|s.stack|] == s.stack;
    WokenAreNotWaiting(s, t.subs);
  }

  lemma WokenAreNotWaiting(s: Pool, after: seq<Sub>)
    requires Inv(s) && DormantWakes(s.subs, true, s.waiting, after)
    ensures Waiters(after) == 0
  {
    NotifyAllChanges(s.subs, 0);
    hide Sum;
    if s.waiting > 0 {
      assert after == NotifyAll(s.subs);
    } else if Waiters(s.subs) > 0 {
      PR.SomebodyCounts(s);
    }
    NonNegatives(s, 0);
    SumNonNegative(IsWaiting, s.subs, 0);
  }

  // A submission that finds the pool closed, over all runs.

  /** It is before the test of a closed pool, or has been turned away. */
  predicate Refused(s: Pool, i: nat) { (s.closed && SubAt(s, i, Entering)) || SubAt(s, i, Rejected) }

  lemma SubmissionRefuses(s: Pool, a: Action, i: nat)
    requires Refused(s, i) && Enabled(s, a) && BySubmission(a)
    ensures Refused(Apply(s, a), i) && Apply(s, a).subs[i].msg == s.subs[i].msg
  {
  }

  lemma OthersStayClosed(s: Pool, a: Action)
    requires Enabled(s, a) && !BySubmission(a) && s.closed && !a.Reboot?
    ensures Apply(s, a).closed
  {
  }

  lemma RefusedStep(f: Fine, x: Step, i: nat)
    requires Refused(f.pool, i) && CanStep(f, x) && !(x.Plain? && x.a.Reboot?)
    ensures Refused(Next(f, x).pool, i) && Next(f, x).pool.subs[i].msg == f.pool.subs[i].msg
  {
    if x.Plain? {
      if BySubmission(x.a) {
        SubmissionRefuses(f.pool, x.a, i);
      } else {
        OthersOnlyWake(f.pool, x.a);
        if f.pool.closed { OthersStayClosed(f.pool, x.a); }
      }
      hide Apply, Enabled;
    }
  }

  lemma {:induction false} RefusedRun(f: Fine, xs: seq<Step>, i: nat)
    requires Refused(f.pool, i) && CanRun(f, xs) && PR.NoReboot(xs)
    ensures Refused(Ends(f, xs).pool, i) && Ends(f, xs).pool.subs[i].msg == f.pool.subs[i].msg
    decreases |xs|
  {
    hide Next, CanStep, Refused;
    if xs != [] {
      RefusedStep(f, xs[0], i);
      RefusedRun(Next(f, xs[0]), xs[1..], i);
    }
  }

  /**
   * A submission that comes to a closed pool is never accepted as long as nobody reboots it, it has
   * got its error once no step is left, and a task that is its own is neither mailed nor started.
   */
  lemma ClosedPoolRefuses(cap: nat, xs: seq<Step>, ys: seq<Step>, i: nat)
    requires cap >= 1 && CanRun(New(cap), xs) && CanRun(Ends(New(cap), xs), ys) && PR.NoReboot(ys)
    requires Ends(New(cap), xs).pool.closed && SubAt(Ends(New(cap), xs).pool, i, Entering)
    ensures var g := Ends(Ends(New(cap), xs), ys);
      && (SubAt(g.pool, i, Entering) || SubAt(g.pool, i, Rejected))
      && (!CanMove(g) ==> SubAt(g.pool, i, Rejected))
      && forall t: Task :: g.pool.subs[i].msg == Work(t)
           && (forall j: nat :: j < |g.pool.subs| && j != i ==> g.pool.subs[j].msg != Work(t))
           ==> PW.Mailed(g.pool.workers)[t] + multiset(g.pool.started)[t] == 0
  {
    var f := Ends(New(cap), xs);
    var g := Ends(f, ys);
    Start(cap);
    FineRunKeeps(New(cap), xs);
    FineRunKeeps(f, ys);
    RefusedRun(f, ys, i);
    hide Ends, CanRun, Inv;
    if SubAt(g.pool, i, Entering) {
      assert CanStep(g, Plain(Enter(i))) && PD.Internal(Enter(i));
    }
    forall t: Task | g.pool.subs[i].msg == Work(t)
        && (forall j: nat :: j < |g.pool.subs| && j != i ==> g.pool.subs[j].msg != Work(t))
      ensures PW.Mailed(g.pool.workers)[t] + multiset(g.pool.started)[t] == 0
    {
      PW.OnceByInvariant(g.pool, i, t);
    }
  }
}

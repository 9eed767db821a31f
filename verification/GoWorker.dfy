/** The worker object: its one-slot channel and the body of its run loop, over the pool object it belongs to. */
module GoWorker {
  import opened PoolMachine
  import opened PoolInvariant
  import opened PoolAlone
  import PoolDrain
  import Pools = GPool

  /** What decides whether a worker goes back on the stack, and the stack itself. */
  predicate SameGates(s: Pool, t: Pool) {
    t.cap == s.cap && t.running == s.running && t.closed == s.closed && t.stack == s.stack
  }

  lemma AfterCheck(s: Pool, w: nat)
    requires Enabled(s, Check(w))
    ensures var t := Apply(s, Check(w));
      && WorkerAt(t, w, if s.running <= s.cap && !s.closed then Stamped else Declining)
      && t.closed == s.closed && t.running == s.running && t.cap == s.cap && t.workers[w].mail == s.workers[w].mail
  {
  }

  lemma AfterInsert(s: Pool, w: nat, i: nat)
    requires Enabled(s, Insert(w, i))
    ensures var t := Apply(s, Insert(w, i));
      WorkerAt(t, w, if s.closed then Exiting else Receiving) && t.workers[w].mail == s.workers[w].mail
          && t.closed == s.closed
  {
  }

  lemma AfterDecline(s: Pool, w: nat)
    requires Enabled(s, Decline(w))
    ensures var t := Apply(s, Decline(w)); WorkerAt(t, w, Exiting) && t.workers[w].mail == s.workers[w].mail
  {
  }

  // The steps of a worker, i being the submission that its signal wakes, if any.

  function RevertPath(w: nat, ok: bool, i: nat): seq<Action> {
    [Check(w)] + [if ok then Insert(w, i) else Decline(w)]
  }

  function ExitPath(w: nat, i: nat): seq<Action> { [Decrement(w)] + [Put(w)] + [Signal(i)] }

  /** One round: the message, the task, revertWorker, and the exit if the round is the last one. */
  function RoundPath(w: nat, f: Msg, panics: bool, again: bool, i: nat, j: nat): seq<Action> {
    [PoolMachine.Receive(w)]
    + (if f.Nil? then [] else if panics then [Panic(w)] else [Return(w)] + RevertPath(w, again, i))
    + (if again then [] else ExitPath(w, j))
  }

  class GoWorker {
    const pool: Pools.GPool
    const id: nat
    var task: Mail

    ghost predicate Valid()
      reads this, pool, pool.workers, pool.workers.items, pool.workers.expiry
    {
      pool.Valid() && id < |pool.machine.workers| && task == pool.machine.workers[id].mail
    }

    /** The object made by the cache for a submission that spawns. */
    constructor (pool: Pools.GPool, id: nat, ghost i: nat)
      requires pool.Valid() && id == |pool.machine.workers| && Enabled(pool.machine, Get(i, id))
      modifies pool`machine
      ensures Valid() && this.pool == pool && this.id == id && task == Empty
      ensures pool.machine == Apply(old(pool.machine), Get(i, id)) && pool.machine.subs[i].phase == Got(id)
    {
      this.pool, this.id, task := pool, id, Empty;
      new;
      StepKeeps(pool.machine, Get(i, id));
      pool.machine := Apply(pool.machine, Get(i, id));
    }

    method Start(ghost i: nat)
      requires Valid() && SubAt(pool.machine, i, Got(id))
      modifies pool
      ensures Valid() && pool.workers == old(pool.workers) && pool.machine == Apply(old(pool.machine), Run(i))
      ensures WorkerAt(pool.machine, id, Receiving) && SubAt(pool.machine, i, Holding(id))
    {
      GotIsTaken(pool.machine, i);
      pool.StartWorker(i);
    }

    /** The send of a submission that holds this worker finds the slot free. */
    method Input(f: Msg, ghost i: nat)
      requires Valid() && SubAt(pool.machine, i, Holding(id)) && pool.machine.subs[i].msg == f
      modifies this`task, pool`machine
      ensures Valid() && old(task) == Empty && task == Full(f) && pool.machine == Apply(old(pool.machine), Send(i))
    {
      RefIsIdle(pool.machine, id);
      StepKeeps(pool.machine, Send(i));
      task := Full(f);
      pool.machine := Apply(pool.machine, Send(i));
    }

    /** So does the finish of the purger. */
    method Finish()
      requires Valid() && pool.machine.purger.Finishing? && pool.machine.purger.left != []
          && pool.machine.purger.left[0] == id
      modifies this`task, pool`machine
      ensures Valid() && old(task) == Empty && task == Full(Nil) && pool.machine == Apply(old(pool.machine), FinishOne)
    {
      RefIsIdle(pool.machine, id);
      StepKeeps(pool.machine, FinishOne);
      task := Full(Nil);
      pool.machine := Apply(pool.machine, FinishOne);
    }

    method Receive() returns (f: Msg)
      requires Valid() && task.Full?
      modifies this`task, pool`machine
      ensures Valid() && task == Empty && old(task) == Full(f)
      ensures old(WorkerAt(pool.machine, id, Receiving)) && Enabled(old(pool.machine), PoolMachine.Receive(id))
      ensures pool.machine == Apply(old(pool.machine), PoolMachine.Receive(id))
      ensures pool.machine.started == old(pool.machine.started) + if f.Work? then [f.task] else []
      ensures WorkerAt(pool.machine, id, if f.Work? then Executing(f.task) else Exiting)
          && SameGates(old(pool.machine), pool.machine)
    {
      StepKeeps(pool.machine, PoolMachine.Receive(id));
      f := task.msg;
      task := Empty;
      pool.machine := Apply(pool.machine, PoolMachine.Receive(id));
    }

    /** The task itself: it returns or panics. */
    method Execute(panics: bool)
      requires Valid() && id < |pool.machine.workers| && pool.machine.workers[id].phase.Executing?
      modifies pool`machine
      ensures Valid() && Enabled(old(pool.machine), if panics then Panic(id) else Return(id))
      ensures pool.machine == Apply(old(pool.machine), if panics then Panic(id) else Return(id))
      ensures WorkerAt(pool.machine, id, if panics then Exiting else Returned)
          && SameGates(old(pool.machine), pool.machine)
      ensures pool.machine.started == old(pool.machine.started) && task == old(task)
    {
      var a := if panics then Panic(id) else Return(id);
      StepKeeps(pool.machine, a);
      pool.machine := Apply(pool.machine, a);
    }

    /** The broadcast of a revertWorker that is refused at its first test. */
    method Declined()
      requires Valid() && WorkerAt(pool.machine, id, Declining)
      modifies pool`machine
      ensures Valid() && pool.machine == Apply(old(pool.machine), Decline(id))
    {
      StepKeeps(pool.machine, Decline(id));
      pool.machine := Apply(pool.machine, Decline(id));
    }

    /** revertWorker with nobody in between: the worker is on the stack again, or it broadcasts and leaves. */
    method Revert(now: int) returns (ok: bool, ghost i: nat)
      requires Valid() && WorkerAt(pool.machine, id, Returned)
      modifies pool, pool.workers.Repr()
      ensures Valid() && pool.workers == old(pool.workers) && fresh(pool.workers.Repr() - old(pool.workers.Repr()))
      ensures ok <==> old(pool.machine.running <= pool.machine.cap && !pool.machine.closed)
      ensures Leads(old(pool.machine), RevertPath(id, ok, i), pool.machine) && task == old(task)
      ensures WorkerAt(pool.machine, id, if ok then Receiving else Exiting)
    {
      hide Inv, Leads, Legal, Exec, Apply, SubmissionStep, WorkerStep, PurgerStep, ControlStep;
      ghost var s := pool.machine;
      i := 0;
      AfterCheck(s, id);
      ok := pool.RevertTest(id);
      LeadsOne(s, Check(id));
      ghost var t := pool.machine;
      if ok {
        i := PoolDrain.SomeSignal(pool.machine.subs);
        AfterInsert(t, id, i);
        ok := pool.RevertLocked(id, now, i);
        LeadsOne(t, Insert(id, i));
      } else {
        AfterDecline(t, id);
        Declined();
        LeadsOne(t, Decline(id));
      }
      LeadsJoin(s, [Check(id)], t, [if ok then Insert(id, i) else Decline(id)], pool.machine);
    }

    method PutBack()
      requires Valid() && WorkerAt(pool.machine, id, Decremented)
      modifies pool`machine
      ensures Valid() && pool.machine == Apply(old(pool.machine), Put(id))
    {
      StepKeeps(pool.machine, Put(id));
      pool.machine := Apply(pool.machine, Put(id));
    }

    method GiveSignal() returns (ghost i: nat)
      requires Valid() && pool.machine.owed > 0
      modifies pool`machine
      ensures Valid() && Enabled(old(pool.machine), Signal(i)) && pool.machine == Apply(old(pool.machine), Signal(i))
    {
      i := PoolDrain.SomeSignal(pool.machine.subs);
      StepKeeps(pool.machine, Signal(i));
      pool.machine := Apply(pool.machine, Signal(i));
    }

    /** The deferred exit: the decrement, the object back in the cache, the signal. */
    method Exit() returns (ghost i: nat)
      requires Valid() && WorkerAt(pool.machine, id, Exiting)
      modifies pool
      ensures Valid() && pool.workers == old(pool.workers)
      ensures Leads(old(pool.machine), ExitPath(id, i), pool.machine)
      ensures WorkerAt(pool.machine, id, Cached) && task == Empty
    {
      hide Inv, Leads;
      ghost var s := pool.machine;
      pool.StopWorker(id);
      LeadsOne(s, Decrement(id));
      ghost var t := pool.machine;
      PutBack();
      LeadsOne(t, Put(id));
      LeadsJoin(s, [Decrement(id)], t, [Put(id)], pool.machine);
      ghost var u := pool.machine;
      i := GiveSignal();
      LeadsOne(u, Signal(i));
      LeadsJoin(s, [Decrement(id)] + [Put(id)], u, [Signal(i)], pool.machine);
      MailEmptyWhenCached(pool.machine, id);
    }

    /**
     * One round of the run loop, and the deferred exit when the loop ends: by nil, by a panic, or by
     * a failed revert.
     */
    method Round(panics: bool, now: int) returns (again: bool, ghost i: nat, ghost j: nat)
      requires Valid() && task.Full?
      modifies this`task, pool, pool.workers.Repr()
      ensures Valid() && task == Empty
      ensures again <==>
          old(task.msg.Work? && !panics && pool.machine.running <= pool.machine.cap && !pool.machine.closed)
      ensures WorkerAt(pool.machine, id, if again then Receiving else Cached)
      ensures Leads(old(pool.machine), RoundPath(id, old(task.msg), panics, again, i, j), pool.machine)
    {
      hide Inv, Apply, Enabled, Leads, RevertPath, ExitPath;
      ghost var s := pool.machine;
      var f := Receive();
      LeadsOne(s, PoolMachine.Receive(id));
      ghost var path := [PoolMachine.Receive(id)];
      again, i, j := false, 0, 0;
      if f.Work? {
        ghost var t := pool.machine;
        Execute(panics);
        ghost var a := if panics then Panic(id) else Return(id);
        LeadsOne(t, a);
        LeadsJoin(s, path, t, [a], pool.machine);
        if !panics {
          ghost var u := pool.machine;
          again, i := Revert(now);
          LeadsJoin(s, path + [a], u, RevertPath(id, again, i), pool.machine);
          assert path + ([a] + RevertPath(id, again, i)) == (path + [a]) + RevertPath(id, again, i);
          path := path + ([a] + RevertPath(id, again, i));
        } else {
          path := path + [a];
        }
      } else {
        assert path + [] == path;
      }
      if !again {
        ghost var v := pool.machine;
        j := Exit();
        LeadsJoin(s, path, v, ExitPath(id, j), pool.machine);
      } else {
        assert path + [] == path;
      }
    }
  }

  lemma MailEmptyWhenCached(s: Pool, w: nat)
    requires Inv(s) && WorkerAt(s, w, Cached)
    ensures s.workers[w].mail == Empty
  {
  }
}

/**
 * The pool object. Each method is one atomic section of the source over the real counters and the
 * real stack; its contract says that it takes exactly one step of the machine.
 */
module GPool {
  import opened PoolMachine
  import opened PoolInvariant
  import opened PoolAlone
  import WS = WorkerStack

  function Ids(s: seq<WS.Slot>): (r: seq<nat>)
    requires WS.Filled(s)
    ensures |r| == |s|
  {
    seq(|s|, i requires 0 <= i < |s| => s[i].id)
  }

  /** What a lock section of retrieveWorker tells its submission to do. */
  datatype Decision = Take(id: nat) | Spawn | Wait | GiveUp

  /** The phase in which a decision leaves the submission. */
  function PhaseAfter(d: Decision): SubPhase {
    match d
    case Take(id) => Holding(id)
    case Spawn => Spawning
    case Wait => Waiting
    case GiveUp => Rejected
  }

  class GPool {
    var cap: nat
    var running: int
    var state: int
    var waiting: int
    var workers: WS.WorkerStack
    ghost var machine: Pool

    ghost predicate Valid()
      reads this, workers, workers.items, workers.expiry
    {
      && workers.Valid()
      && (state == 0 || state == 1)
      && cap == machine.cap && running == machine.running && waiting == machine.waiting
      && machine.closed == (state == 1)
      && Ids(workers.Contents()) == machine.stack
      && Inv(machine)
    }

    constructor (size: nat)
      requires size >= 1
      ensures Valid() && machine == Init(size) && fresh(workers) && fresh(workers.Repr())
    {
      cap, running, state, waiting := size, 0, 0, 0;
      workers := new WS.WorkerStack(size);
      machine := Init(size);
      new;
      Start(size);
    }

    /** The IsClosed test of Submit. */
    method Admit(ghost i: nat) returns (ok: bool)
      requires Valid() && Enabled(machine, Enter(i))
      modifies this
      ensures Valid() && workers == old(workers) && machine == Apply(old(machine), Enter(i))
      ensures (ok <==> state == 0) && machine.subs[i].phase == if ok then Locking else Rejected
    {
      ok := state != 1;
      StepKeeps(machine, Enter(i));
      machine := Apply(machine, Enter(i));
    }

    /** What both lock sections of retrieveWorker do under the lock: detach, or spawn if there is room, or wait. */
    method Look(room: bool) returns (d: Decision)
      requires workers.Valid()
      modifies this`waiting, workers.Repr()
      ensures workers.Valid() && fresh(workers.Repr() - old(workers.Repr()))
      ensures workers.Contents() == WS.Step(old(workers.Contents()), WS.Take)
      ensures waiting == old(waiting) + if d.Wait? then 1 else 0
      ensures d == var ids := Ids(old(workers.Contents()));
        if ids != [] then Take(ids[|ids| - 1]) else if room then Spawn else Wait
      ensures var ids := Ids(old(workers.Contents()));
        Ids(workers.Contents()) == if ids != [] then ids[..|ids| - 1] else []
    {
      ghost var stack := workers.Contents();
      var w := workers.Detach();
      if w.Entry? {
        d := Take(w.id);
        PopIds(workers.Contents(), w, stack);
      } else if room {
        d := Spawn;
      } else {
        waiting := waiting + 1;
        d := Wait;
      }
    }

    /** The first lock section of retrieveWorker. */
    method RetrieveLocked(ghost i: nat) returns (d: Decision)
      requires Valid() && Enabled(machine, Retrieve(i))
      modifies this, workers.Repr()
      ensures Valid() && workers == old(workers) && fresh(workers.Repr() - old(workers.Repr()))
      ensures machine == Apply(old(machine), Retrieve(i)) && machine.subs[i].phase == PhaseAfter(d)
      ensures d == var ids := old(Ids(workers.Contents()));
        if ids != [] then Take(ids[|ids| - 1]) else if old(cap > running) then Spawn else Wait
      ensures waiting == old(waiting) + if d.Wait? then 1 else 0
    {
      hide Inv;
      StepKeeps(machine, Retrieve(i));
      d := Look(cap > running);
      machine := Apply(machine, Retrieve(i));
    }

    /** A woken submission leaves the waiting count, then gives up on a closed pool or looks again. */
    method LookAgain() returns (d: Decision)
      requires workers.Valid()
      modifies this`waiting, workers.Repr()
      ensures workers.Valid() && fresh(workers.Repr() - old(workers.Repr()))
      ensures waiting == old(waiting) - if d.Wait? then 0 else 1
      ensures d == var ids := Ids(old(workers.Contents()));
        if state == 1 then GiveUp else if ids != [] then Take(ids[|ids| - 1])
        else if cap - running > 0 then Spawn else Wait
      ensures var ids := Ids(old(workers.Contents()));
        Ids(workers.Contents()) == if ids != [] && state != 1 then ids[..|ids| - 1] else ids
    {
      waiting := waiting - 1;
      if state == 1 {
        d := GiveUp;
      } else {
        d := Look(cap - running > 0);
      }
    }

    /** The lock section in which a woken submission looks again. */
    method RetryLocked(ghost i: nat) returns (d: Decision)
      requires Valid() && Enabled(machine, Retry(i))
      modifies this, workers.Repr()
      ensures Valid() && workers == old(workers) && fresh(workers.Repr() - old(workers.Repr()))
      ensures machine == Apply(old(machine), Retry(i)) && machine.subs[i].phase == PhaseAfter(d)
      ensures d == var ids := old(Ids(workers.Contents()));
        if old(state == 1) then GiveUp else if ids != [] then Take(ids[|ids| - 1])
        else if old(cap > running) then Spawn else Wait
      ensures waiting == old(waiting) - if d.Wait? then 0 else 1
    {
      hide Inv, Apply, Enabled;
      StepKeeps(machine, Retry(i));
      RetryOutcome(machine, i);
      d := LookAgain();
      machine := Apply(machine, Retry(i));
    }

    /** addRunning(1) and the start of the goroutine. */
    method StartWorker(ghost i: nat)
      requires Valid() && Enabled(machine, Run(i))
      modifies this
      ensures Valid() && workers == old(workers) && machine == Apply(old(machine), Run(i))
      ensures running == old(running) + 1
    {
      StepKeeps(machine, Run(i));
      running := running + 1;
      machine := Apply(machine, Run(i));
    }

    /** addRunning(-1) in the deferred exit. */
    method StopWorker(ghost w: nat)
      requires Valid() && Enabled(machine, Decrement(w))
      modifies this
      ensures Valid() && workers == old(workers) && machine == Apply(old(machine), Decrement(w))
      ensures running == old(running) - 1
    {
      hide Inv;
      StepKeeps(machine, Decrement(w));
      running := running - 1;
      machine := Apply(machine, Decrement(w));
    }

    /** The test of revertWorker before its lock. */
    method RevertTest(ghost w: nat) returns (ok: bool)
      requires Valid() && Enabled(machine, Check(w))
      modifies this
      ensures Valid() && workers == old(workers) && machine == Apply(old(machine), Check(w))
      ensures (ok <==> running <= cap && state == 0) && WorkerAt(machine, w, if ok then Stamped else Declining)
    {
      ok := !((cap > 0 && running > cap) || state == 1);
      StepKeeps(machine, Check(w));
      machine := Apply(machine, Check(w));
    }

    /** The lock section of revertWorker, with the signal at its end. */
    method RevertLocked(w: nat, now: int, ghost i: nat) returns (ok: bool)
      requires Valid() && Enabled(machine, PoolMachine.Insert(w, i))
      modifies this, workers.Repr()
      ensures Valid() && workers == old(workers) && fresh(workers.Repr() - old(workers.Repr()))
      ensures machine == Apply(old(machine), PoolMachine.Insert(w, i)) && (ok <==> state == 0)
          && WorkerAt(machine, w, if ok then Receiving else Exiting)
      ensures workers.Contents() == old(workers.Contents()) + if ok then [WS.Entry(w, now)] else []
    {
      hide Inv;
      StepKeeps(machine, PoolMachine.Insert(w, i));
      machine := Apply(machine, PoolMachine.Insert(w, i));
      if state == 1 {
        return false;
      }
      workers.Insert(WS.Entry(w, now));
      ok := true;
    }

    /** The compare-and-swap of Release. */
    method CloseState() returns (won: bool)
      requires Valid()
      modifies this
      ensures Valid() && workers == old(workers) && machine == Apply(old(machine), Close)
      ensures state == 1 && (won <==> old(state) == 0)
    {
      won := state == 0;
      state := 1;
      StepKeeps(machine, Close);
      machine := Apply(machine, Close);
    }

    /** The lock section of Release: a finish to every idle worker, in stack order. */
    method ResetLocked() returns (finished: seq<nat>)
      requires Valid() && Enabled(machine, PoolMachine.Reset)
      modifies this, workers.Repr()
      ensures Valid() && workers == old(workers) && fresh(workers.Repr() - old(workers.Repr()))
      ensures machine == Apply(old(machine), PoolMachine.Reset) && workers.Contents() == []
      ensures finished == old(machine.stack) && AllFinished(old(machine.workers), finished, machine.workers)
    {
      hide Inv;
      StepKeeps(machine, PoolMachine.Reset);
      FinishAllIs(machine.workers, machine.stack);
      var gone := workers.Reset();
      finished := Ids(gone);
      machine := Apply(machine, PoolMachine.Reset);
    }

    /** The lock section of the purger, with the dormancy test inside it. */
    method PurgeLocked(now: int) returns (stale: seq<nat>, dormant: bool)
      requires Valid() && machine.purger.Ticked?
      modifies this, workers.Repr()
      ensures Valid() && workers == old(workers) && fresh(workers.Repr() - old(workers.Repr()))
      ensures Enabled(old(machine), PoolMachine.Refresh(|stale|))
          && machine == Apply(old(machine), PoolMachine.Refresh(|stale|))
      ensures machine.purger == Finishing(stale, dormant) && (dormant <==> running == 0 || running == |stale|)
      ensures |stale| == WS.PurgeCount(old(workers.Contents()), now - WS.EXPIRY_DURATION)
    {
      hide Inv;
      ghost var stack := workers.Contents();
      var gone := workers.Refresh(now);
      assert WS.Filled(gone) by { assert forall k :: 0 <= k < |gone| ==> gone[k] == stack[k]; }
      stale := Ids(gone);
      dormant := running == 0 || running == |gone|;
      SplitIds(gone, workers.Contents(), stack);
      StepKeeps(machine, PoolMachine.Refresh(|stale|));
      machine := Apply(machine, PoolMachine.Refresh(|stale|));
    }

    /** The compare-and-swap of Reboot: only a closed pool is opened, after its purger has left. */
    method OpenState() returns (won: bool)
      requires Valid() && (state == 1 ==> machine.purger.Gone?)
      modifies this
      ensures Valid() && workers == old(workers) && state == 0 && (won <==> old(state) == 1)
      ensures won ==> Enabled(old(machine), PoolMachine.Reboot) && machine == Apply(old(machine), PoolMachine.Reboot)
      ensures won ==> machine.purger == Sleeping
      ensures !won ==> machine == old(machine)
    {
      won := state == 1;
      if won {
        StepKeeps(machine, PoolMachine.Reboot);
        state := 0;
        machine := Apply(machine, PoolMachine.Reboot);
      }
    }

    /** The load at the start of Tune; false when Tune returns at once. */
    method TuneRead(size: nat) returns (capacity: nat, go: bool)
      requires Valid()
      modifies this
      ensures Valid() && workers == old(workers) && machine == Apply(old(machine), TuneLoad(size))
      ensures capacity == old(cap) && (go <==> 0 < size && size != capacity)
      ensures go ==> machine.tunes == old(machine.tunes) + [Loaded(capacity, size)]
      ensures !go ==> machine == old(machine)
    {
      capacity := cap;
      go := size > 0 && size != capacity;
      StepKeeps(machine, TuneLoad(size));
      machine := Apply(machine, TuneLoad(size));
    }

    /** The store of Tune; the rise is what it still has to announce. */
    method TuneWrite(capacity: nat, size: nat, ghost j: nat) returns (rise: nat)
      requires Valid() && Enabled(machine, TuneStore(j)) && machine.tunes[j] == Loaded(capacity, size)
      modifies this
      ensures Valid() && workers == old(workers) && machine == Apply(old(machine), TuneStore(j))
      ensures cap == size && rise == if size > capacity then size - capacity else 0
      ensures machine.tunes[j] == if rise > 0 then Owing(rise) else Finished
    {
      hide Inv;
      StepKeeps(machine, TuneStore(j));
      cap := size;
      rise := if size > capacity then size - capacity else 0;
      machine := Apply(machine, TuneStore(j));
    }
  }

  lemma RetryOutcome(p: Pool, i: nat)
    requires Enabled(p, Retry(i))
    ensures var t := Apply(p, Retry(i));
      && i < |p.subs| == |t.subs| && t.cap == p.cap && t.running == p.running && t.closed == p.closed
      && if p.closed then t.stack == p.stack && t.waiting == p.waiting - 1 && t.subs[i].phase == Rejected
         else if p.stack != [] then t.stack == p.stack[..|p.stack| - 1] && t.waiting == p.waiting - 1
           && t.subs[i].phase == Holding(p.stack[|p.stack| - 1])
         else if p.cap - p.running > 0 then t.stack == [] && t.waiting == p.waiting - 1 && t.subs[i].phase == Spawning
         else t.stack == [] && t.waiting == p.waiting && t.subs[i].phase == Waiting
  {
  }

  lemma PopIds(rest: seq<WS.Slot>, w: WS.Slot, stack: seq<WS.Slot>)
    requires WS.Filled(rest) && WS.Filled(stack) && w.Entry? && rest + [w] == stack
    ensures Ids(stack) == Ids(rest) + [w.id]
    ensures Ids(stack)[|stack| - 1] == w.id && Ids(stack)[..|stack| - 1] == Ids(rest)
  {
  }

  lemma SplitIds(gone: seq<WS.Slot>, rest: seq<WS.Slot>, stack: seq<WS.Slot>)
    requires WS.Filled(gone) && WS.Filled(rest) && WS.Filled(stack) && gone + rest == stack
    ensures Ids(stack)[..|gone|] == Ids(gone) && Ids(stack)[|gone|..] == Ids(rest)
  {
  }
}

/**
 * The wait at its finer grain. A submission that finds no room holds the lock until it is in the
 * notify list of the condition, but the decrement of a leaving worker, its signal and the store of a
 * Tune do not take the lock and can come in between. Here the check and the entry are two steps.
 */
module PoolGrain {
  import opened Sums
  import opened PoolMachine
  import opened PoolInvariant
  import opened PoolWakeup
  import PD = PoolDrain

  /** Who has the lock on its way into the notify list. */
  datatype Parking = Nobody | Holder(i: nat)

  datatype Fine = Fine(pool: Pool, parking: Parking)

  datatype Step = Plain(a: Action) | FindFull(i: nat) | Enqueue

  predicate TakesLock(a: Action) { a.Retrieve? || a.Retry? || a.Insert? || a.Refresh? || a.Reset? }

  /** A look under the lock that finds neither an idle worker nor room. */
  predicate FindsNoRoom(s: Pool, a: Action) {
    (a.Retrieve? || (a.Retry? && !s.closed)) && s.stack == [] && s.cap <= s.running
  }

  predicate Looks(s: Pool, i: nat) { SubAt(s, i, Locking) || SubAt(s, i, Notified) }

  function LookOf(s: Pool, i: nat): Action { if SubAt(s, i, Locking) then Retrieve(i) else Retry(i) }

  predicate CanStep(f: Fine, x: Step) {
    match x
    case Plain(a) => Enabled(f.pool, a) && !FindsNoRoom(f.pool, a) && (TakesLock(a) ==> f.parking.Nobody?)
    case FindFull(i) => f.parking.Nobody? && Looks(f.pool, i) && FindsNoRoom(f.pool, LookOf(f.pool, i))
    case Enqueue => f.parking.Holder? && Looks(f.pool, f.parking.i)
  }

  /** A woken submission that waits again leaves the waiting count and joins it. */
  function Wait(s: Pool, i: nat): Pool
    requires Looks(s, i)
  {
    if SubAt(s, i, Locking) then Park(s, i) else SetSub(s, i, Waiting)
  }

  function Next(f: Fine, x: Step): Fine
    requires CanStep(f, x)
  {
    match x
    case Plain(a) => f.(pool := Apply(f.pool, a))
    case FindFull(i) => f.(parking := Holder(i))
    case Enqueue => Fine(Wait(f.pool, f.parking.i), Nobody)
  }

  predicate CanRun(f: Fine, xs: seq<Step>)
    decreases |xs|
  {
    xs == [] || (CanStep(f, xs[0]) && CanRun(Next(f, xs[0]), xs[1..]))
  }

  function Ends(f: Fine, xs: seq<Step>): Fine
    requires CanRun(f, xs)
    decreases |xs|
  {
    if xs == [] then f else Ends(Next(f, xs[0]), xs[1..])
  }

  function New(cap: nat): Fine { Fine(Init(cap), Nobody) }

  // The invariant at the finer grain.

  /** The holder of the lock has still to enter, and nobody puts a worker on the stack meanwhile. */
  predicate Held(f: Fine) {
    f.parking.Holder? ==> Looks(f.pool, f.parking.i) && f.pool.stack == []
  }

  ghost predicate FineInv(f: Fine) { Inv(f.pool) && Held(f) }

  /** What the entry of a submission into the notify list changes. */
  lemma EnterMoves(s: Pool, i: nat, k: nat)
    requires Looks(s, i)
    ensures var t := Wait(s, i);
      && Sum(GotIs, t.subs, k) == Sum(GotIs, s.subs, k) && Sum(HoldingIs, t.subs, k) == Sum(HoldingIs, s.subs, k)
      && Sum(AcceptedIs, t.subs, k) == Sum(AcceptedIs, s.subs, k)
      && Waiters(t.subs) == Waiters(s.subs) + 1 && Spawns(t.subs) == Spawns(s.subs)
      && Woken(t.subs) == Woken(s.subs) - IsNotified(s.subs[i], 0)
  {
    hide Sum;
    var u := Wait(s, i).subs[i];
    SumUpdate(GotIs, s.subs, k, i, u);
    SumUpdate(HoldingIs, s.subs, k, i, u);
    SumUpdate(AcceptedIs, s.subs, k, i, u);
    SumUpdate(IsWaiting, s.subs, 0, i, u);
    SumUpdate(IsNotified, s.subs, 0, i, u);
    SumUpdate(IsSpawning, s.subs, 0, i, u);
  }

  lemma EnterKeeps(s: Pool, i: nat)
    requires Inv(s) && Looks(s, i)
    ensures Inv(Wait(s, i))
  {
    var t := Wait(s, i);
    EnterMoves(s, i, 0);
    forall k: nat
      ensures Sum(GotIs, t.subs, k) == Sum(GotIs, s.subs, k) && Sum(HoldingIs, t.subs, k) == Sum(HoldingIs, s.subs, k)
      ensures Sum(AcceptedIs, t.subs, k) == Sum(AcceptedIs, s.subs, k)
    {
      EnterMoves(s, i, k);
    }
    hide Sum;
    forall k: nat ensures IdleRefs(t, k) == IdleAt(t, k) {
      assert IdleRefs(s, k) == IdleAt(s, k);
    }
  }

  /** Steps without the lock leave the holder where it is, and the stack. */
  lemma HeldStep(s: Pool, a: Action, i: nat)
    requires Enabled(s, a) && !TakesLock(a) && Looks(s, i) && s.stack == []
    ensures Looks(Apply(s, a), i) && Apply(s, a).stack == []
  {
    if BySubmission(a) {
      SubmissionLeaves(s, a, i);
    } else {
      OthersOnlyWake(s, a);
      OthersKeepStack(s, a);
      hide Apply, Enabled;
    }
  }

  lemma SubmissionLeaves(s: Pool, a: Action, i: nat)
    requires Enabled(s, a) && BySubmission(a) && !TakesLock(a) && Looks(s, i)
    ensures Looks(Apply(s, a), i) && Apply(s, a).stack == s.stack
  {
  }

  lemma OthersKeepStack(s: Pool, a: Action)
    requires Enabled(s, a) && !BySubmission(a) && !TakesLock(a)
    ensures Apply(s, a).stack == s.stack
  {
  }

  lemma FineStep(f: Fine, x: Step)
    requires FineInv(f) && CanStep(f, x)
    ensures FineInv(Next(f, x))
  {
    match x
    case Plain(a) =>
      StepKeeps(f.pool, a);
      if f.parking.Holder? {
        HeldStep(f.pool, a, f.parking.i);
      }
    case FindFull(i) =>
    case Enqueue => EnterKeeps(f.pool, f.parking.i);
  }

  /** All that rests on the invariant of the pool holds at the finer grain as well. */
  lemma {:induction false} FineRunKeeps(f: Fine, xs: seq<Step>)
    requires FineInv(f) && CanRun(f, xs)
    ensures FineInv(Ends(f, xs))
    decreases |xs|
  {
    hide FineInv, Next, CanStep;
    if xs != [] {
      FineStep(f, xs[0]);
      FineRunKeeps(Next(f, xs[0]), xs[1..]);
    }
  }

  // Wake-ups.

  /** An entry is calm if the check would still find no room, or the pool has been closed meanwhile. */
  predicate CalmStep(f: Fine, x: Step)
    requires CanStep(f, x)
  {
    match x
    case Plain(a) => Calm(f.pool, a)
    case FindFull(_) => true
    case Enqueue => f.pool.closed || f.pool.cap <= f.pool.running
  }

  predicate CalmSteps(f: Fine, xs: seq<Step>)
    requires CanRun(f, xs)
    decreases |xs|
  {
    xs == [] || (CalmStep(f, xs[0]) && CalmSteps(Next(f, xs[0]), xs[1..]))
  }

  lemma EnterWake(s: Pool, i: nat)
    requires Looks(s, i) && s.stack == [] && (s.closed || s.cap <= s.running)
    ensures Wake(Wait(s, i))
  {
    EnterMoves(s, i, 0);
    CreditNonNegative(s);
    CreditNonNegative(Wait(s, i));
  }

  lemma FineWakeStep(f: Fine, x: Step)
    requires FineInv(f) && Wake(f.pool) && CanStep(f, x) && CalmStep(f, x)
    ensures Wake(Next(f, x).pool)
  {
    match x
    case Plain(a) => WakeStep(f.pool, a);
    case FindFull(i) =>
    case Enqueue => EnterWake(f.pool, f.parking.i);
  }

  lemma {:induction false} FineWakeRun(f: Fine, xs: seq<Step>)
    requires FineInv(f) && Wake(f.pool) && CanRun(f, xs) && CalmSteps(f, xs)
    ensures FineInv(Ends(f, xs)) && Wake(Ends(f, xs).pool)
    decreases |xs|
  {
    hide FineInv, Next, CanStep, CalmStep, Wake;
    if xs != [] {
      FineStep(f, xs[0]);
      FineWakeStep(f, xs[0]);
      FineWakeRun(Next(f, xs[0]), xs[1..]);
    }
  }

  /** No lost wake-up, with the check and the entry as two steps. */
  lemma NoLostWakeup(cap: nat, xs: seq<Step>)
    requires cap >= 1 && CanRun(New(cap), xs) && CalmSteps(New(cap), xs)
    ensures var s := Ends(New(cap), xs).pool;
      !s.closed && Waiters(s.subs) > 0 ==> |s.stack| + Free(s) <= Credit(s)
  {
    Start(cap);
    FineWakeRun(New(cap), xs);
  }

  ghost predicate CanMove(f: Fine) { exists x: Step :: CanStep(f, x) && (x.Plain? ==> PD.Internal(x.a)) }

  /** The same as for the coarse steps: nothing blocks but the condition. */
  lemma MovesUnlessSettled(f: Fine)
    requires FineInv(f)
    ensures CanMove(f) <==> f.parking.Holder? || !PD.Settled(f.pool)
  {
    hide Inv, PD.Settled, Enabled;
    PD.MovesUnlessSettled(f.pool);
    if f.parking.Holder? {
      assert CanStep(f, Enqueue);
    } else if PD.CanMove(f.pool) {
      var a :| PD.Internal(a) && Enabled(f.pool, a);
      FinerStep(f, a);
    } else if CanMove(f) {
      var x: Step :| CanStep(f, x) && (x.Plain? ==> PD.Internal(x.a));
      var a := CoarserStep(f, x);
      assert false;
    }
  }

  lemma CoarserStep(f: Fine, x: Step) returns (a: Action)
    requires CanStep(f, x) && f.parking.Nobody? && (x.Plain? ==> PD.Internal(x.a))
    ensures PD.Internal(a) && Enabled(f.pool, a)
  {
    a := if x.Plain? then x.a else LookOf(f.pool, x.i);
  }

  /** So nobody waits in vain: in an open pool with somebody waiting or about to wait some step can be taken. */
  lemma NoDeadlock(cap: nat, xs: seq<Step>)
    requires cap >= 1 && CanRun(New(cap), xs) && CalmSteps(New(cap), xs)
    ensures var f := Ends(New(cap), xs);
      !f.pool.closed && (Waiters(f.pool.subs) > 0 || f.parking.Holder?) ==> CanMove(f)
  {
    var f := Ends(New(cap), xs);
    Start(cap);
    FineWakeRun(New(cap), xs);
    MovesUnlessSettled(f);
    hide Ends, CanRun, CalmSteps, Inv, Wake, CanMove;
    if !f.pool.closed && PD.Settled(f.pool) {
      PD.SettledOpenHasNoWaiter(f.pool);
    }
  }

  /**
   * The discipline of the callers: Tune only when no other Tune is under way, Reboot only when nobody
   * waits. Whether an entry is late is not in their hands.
   */
  predicate SerialSteps(f: Fine, xs: seq<Step>)
    requires CanRun(f, xs)
    decreases |xs|
  {
    xs == [] || (
      && (xs[0] == Enqueue ==> CalmStep(f, Enqueue))
      && (xs[0].Plain? && xs[0].a.TuneLoad? ==> TunesSettled(f.pool.tunes))
      && (xs[0].Plain? && xs[0].a.Reboot? ==> f.pool.waiting == 0)
      && SerialSteps(Next(f, xs[0]), xs[1..]))
  }

  lemma {:induction false} SerialIsCalm(f: Fine, xs: seq<Step>)
    requires OneTune(f.pool) && CanRun(f, xs) && SerialSteps(f, xs)
    ensures CalmSteps(f, xs)
    decreases |xs|
  {
    if xs != [] {
      if xs[0].Plain? {
        OneTuneStep(f.pool, xs[0].a);
      }
      hide Apply, Enabled;
      SerialIsCalm(Next(f, xs[0]), xs[1..]);
    }
  }

  lemma FinerStep(f: Fine, a: Action)
    requires f.parking.Nobody? && Enabled(f.pool, a)
    ensures CanStep(f, if FindsNoRoom(f.pool, a) then FindFull(a.i) else Plain(a))
  {
  }

  lemma One(f: Fine, x: Step)
    requires CanStep(f, x)
    ensures CanRun(f, [x]) && Ends(f, [x]) == Next(f, x)
    ensures CalmSteps(f, [x]) <==> CalmStep(f, x)
  {
    hide Next, CanStep, CalmStep;
    assert [x][1..] == [];
    assert CanRun(Next(f, x), []) && CalmSteps(Next(f, x), []) && Ends(Next(f, x), []) == Next(f, x);
  }

  // The coarse runs are runs at the finer grain, in which each entry follows its check at once.

  function Finer(s: Pool, a: Action): seq<Step>
    requires Enabled(s, a)
  {
    if FindsNoRoom(s, a) then [FindFull(a.i), Enqueue] else [Plain(a)]
  }

  lemma FinerRuns(s: Pool, a: Action)
    requires Enabled(s, a)
    ensures var f := Fine(s, Nobody);
      CanRun(f, Finer(s, a)) && Ends(f, Finer(s, a)) == Fine(Apply(s, a), Nobody)
          && (CalmSteps(f, Finer(s, a)) <==> Calm(s, a))
  {
    var f := Fine(s, Nobody);
    if FindsNoRoom(s, a) {
      var g := Next(f, FindFull(a.i));
      assert [FindFull(a.i), Enqueue][1..] == [Enqueue];
      One(g, Enqueue);
    } else {
      One(f, Plain(a));
    }
  }

  lemma {:induction false} RunsJoin(f: Fine, xs: seq<Step>, ys: seq<Step>)
    requires CanRun(f, xs) && CanRun(Ends(f, xs), ys)
    ensures CanRun(f, xs + ys) && Ends(f, xs + ys) == Ends(Ends(f, xs), ys)
    ensures CalmSteps(f, xs + ys) <==> CalmSteps(f, xs) && CalmSteps(Ends(f, xs), ys)
    decreases |xs|
  {
    hide Next, CanStep, CalmStep;
    if xs == [] {
      assert xs + ys == ys;
    } else {
      assert (xs + ys)[1..] == xs[1..] + ys;
      RunsJoin(Next(f, xs[0]), xs[1..], ys);
    }
  }

  lemma {:induction false} RunsSplit(f: Fine, xs: seq<Step>, ys: seq<Step>)
    requires CanRun(f, xs + ys)
    ensures CanRun(f, xs) && CanRun(Ends(f, xs), ys) && Ends(f, xs + ys) == Ends(Ends(f, xs), ys)
    ensures CalmSteps(f, xs + ys) <==> CalmSteps(f, xs) && CalmSteps(Ends(f, xs), ys)
    decreases |xs|
  {
    hide Next, CanStep, CalmStep;
    if xs == [] {
      assert xs + ys == ys;
    } else {
      assert (xs + ys)[1..] == xs[1..] + ys;
      RunsSplit(Next(f, xs[0]), xs[1..], ys);
    }
  }

  /** Each check is followed by its entry at once. */
  predicate Prompt(xs: seq<Step>)
    decreases |xs|
  {
    if xs == [] then true
    else if xs[0].Plain? then Prompt(xs[1..])
    else xs[0].FindFull? && |xs| >= 2 && xs[1].Enqueue? && Prompt(xs[2..])
  }

  lemma PromptJoin(s: Pool, a: Action, xs: seq<Step>)
    requires Enabled(s, a) && Prompt(xs)
    ensures Prompt(Finer(s, a) + xs)
  {
    if FindsNoRoom(s, a) {
      assert ([FindFull(a.i), Enqueue] + xs)[2..] == xs;
    } else {
      assert ([Plain(a)] + xs)[1..] == xs;
    }
  }

  /** Every coarse run is a prompt run at the finer grain, to the same state and calm exactly when that one is. */
  lemma {:induction false} CoarseIsFine(s: Pool, acts: seq<Action>) returns (xs: seq<Step>)
    requires Legal(s, acts)
    ensures var f := Fine(s, Nobody);
      && Prompt(xs) && CanRun(f, xs) && Ends(f, xs) == Fine(Exec(s, acts), Nobody)
      && (CalmSteps(f, xs) <==> CalmRun(s, acts))
    decreases |acts|
  {
    hide Apply, Enabled, Calm, Next, CanStep, CalmStep, Finer;
    if acts == [] {
      xs := [];
    } else {
      FinerRuns(s, acts[0]);
      var rest := CoarseIsFine(Apply(s, acts[0]), acts[1..]);
      PromptJoin(s, acts[0], rest);
      RunsJoin(Fine(s, Nobody), Finer(s, acts[0]), rest);
      xs := Finer(s, acts[0]) + rest;
    }
  }

  /** And conversely: the coarse runs are exactly the prompt ones. */
  lemma {:induction false} PromptIsCoarse(s: Pool, xs: seq<Step>) returns (acts: seq<Action>)
    requires Prompt(xs) && CanRun(Fine(s, Nobody), xs)
    ensures Legal(s, acts) && Ends(Fine(s, Nobody), xs) == Fine(Exec(s, acts), Nobody)
    ensures CalmSteps(Fine(s, Nobody), xs) <==> CalmRun(s, acts)
    decreases |xs|
  {
    var f := Fine(s, Nobody);
    if xs == [] {
      acts := [];
    } else {
      var a := if xs[0].Plain? then xs[0].a else LookOf(s, xs[0].i);
      var k := if xs[0].Plain? then 1 else 2;
      PromptHead(s, xs, a, k);
      FinerRuns(s, a);
      hide Apply, Enabled, Calm, Next, CanStep, CalmStep, Finer;
      RunsSplit(f, Finer(s, a), xs[k..]);
      var rest := PromptIsCoarse(Apply(s, a), xs[k..]);
      acts := [a] + rest;
      assert acts[1..] == rest;
    }
  }

  lemma PromptHead(s: Pool, xs: seq<Step>, a: Action, k: nat)
    requires Prompt(xs) && xs != [] && CanRun(Fine(s, Nobody), xs)
    requires a == (if xs[0].Plain? then xs[0].a else LookOf(s, xs[0].i)) && k == if xs[0].Plain? then 1 else 2
    ensures Enabled(s, a) && k <= |xs| && Finer(s, a) + xs[k..] == xs && Prompt(xs[k..])
  {
  }
}

/** The spin lock: a compare-and-swap loop that pauses 1, 2, 4, ... up to 16 times between attempts. */
module SpinLock {
  import opened Sums

  const MAX_BACKOFF := 16

  datatype Phase =
    | Outside
    | Trying(backoff: nat)               // before the compare-and-swap
    | Yielding(backoff: nat, left: nat)  // in the inner loop
    | Inside                             // between its compare-and-swap and its Unlock

  datatype Lock = Lock(word: nat, threads: seq<Phase>)

  datatype Action = Arrive(t: nat) | CompareAndSwap(t: nat) | Yield(t: nat) | Unlock(t: nat)

  predicate Enabled(s: Lock, a: Action) {
    a.t < |s.threads| && match a
      case Arrive(t) => s.threads[t].Outside?
      case CompareAndSwap(t) => s.threads[t].Trying?
      case Yield(t) => s.threads[t].Yielding?
      case Unlock(t) => s.threads[t].Inside?
  }

  function Doubled(backoff: nat): nat { if backoff < MAX_BACKOFF then 2 * backoff else backoff }

  function Apply(s: Lock, a: Action): Lock
    requires Enabled(s, a)
  {
    match a
    case Arrive(t) => s.(threads := s.threads[t := Trying(1)])
    case CompareAndSwap(t) =>
      if s.word == 0 then Lock(1, s.threads[t := Inside])
      else s.(threads := s.threads[t := Yielding(s.threads[t].backoff, s.threads[t].backoff)])
    case Yield(t) =>
      var p := s.threads[t];
      s.(threads := s.threads[t := if p.left > 0 then Yielding(p.backoff, p.left - 1) else Trying(Doubled(p.backoff))])
    case Unlock(t) => Lock(0, s.threads[t := Outside])
  }

  predicate Legal(s: Lock, acts: seq<Action>)
    decreases |acts|
  {
    acts == [] || (Enabled(s, acts[0]) && Legal(Apply(s, acts[0]), acts[1..]))
  }

  function Exec(s: Lock, acts: seq<Action>): Lock
    requires Legal(s, acts)
    decreases |acts|
  {
    if acts == [] then s else Exec(Apply(s, acts[0]), acts[1..])
  }

  function Fresh(n: nat): Lock { Lock(0, seq(n, _ => Outside)) }

  function IsInside(p: Phase, k: nat): int { if p.Inside? then 1 else 0 }

  /** A power of two up to 16. */
  predicate GoodBackoff(b: nat) { b == 1 || b == 2 || b == 4 || b == 8 || b == 16 }

  predicate Inv(s: Lock) {
    && s.word <= 1
    && Sum(IsInside, s.threads, 0) == s.word
    && forall t :: 0 <= t < |s.threads| ==>
      (s.threads[t].Trying? || s.threads[t].Yielding? ==> GoodBackoff(s.threads[t].backoff))
  }

  lemma StepKeeps(s: Lock, a: Action)
    requires Inv(s) && Enabled(s, a)
    ensures Inv(Apply(s, a))
  {
    SumUpdate(IsInside, s.threads, 0, a.t, Apply(s, a).threads[a.t]);
    SumMember(IsInside, s.threads, 0, a.t);
  }

  lemma {:induction false} RunKeeps(s: Lock, acts: seq<Action>)
    requires Inv(s) && Legal(s, acts)
    ensures Inv(Exec(s, acts))
    decreases |acts|
  {
    if acts != [] {
      StepKeeps(s, acts[0]);
      RunKeeps(Apply(s, acts[0]), acts[1..]);
    }
  }

  /**
   * In every schedule of any number of threads at most one is inside, the word is 1 exactly then,
   * and backoffs stay good.
   */
  lemma MutualExclusion(n: nat, acts: seq<Action>)
    requires Legal(Fresh(n), acts)
    ensures var s := Exec(Fresh(n), acts);
      && (forall t, u :: 0 <= t < u < |s.threads| ==> !(s.threads[t].Inside? && s.threads[u].Inside?))
      && (s.word == 1 <==> exists t :: 0 <= t < |s.threads| && s.threads[t].Inside?)
      && (forall t :: 0 <= t < |s.threads| && (s.threads[t].Trying? || s.threads[t].Yielding?) ==>
           GoodBackoff(s.threads[t].backoff))
  {
    var s := Exec(Fresh(n), acts);
    AllZero(IsInside, Fresh(n).threads, 0);
    RunKeeps(Fresh(n), acts);
    forall t, u | 0 <= t < u < |s.threads| ensures !(s.threads[t].Inside? && s.threads[u].Inside?) {
      if s.threads[t].Inside? && s.threads[u].Inside? {
        SumTwo(IsInside, s.threads, 0, t, u);
      }
    }
    if s.word == 1 {
      var t := SumSource(IsInside, s.threads, 0);
    }
    if t :| 0 <= t < |s.threads| && s.threads[t].Inside? {
      SumMember(IsInside, s.threads, 0, t);
    }
  }

  /** The backoff after k failed attempts, and all pauses of n failed attempts. */
  function BackoffAfter(k: nat): nat { if k == 0 then 1 else Doubled(BackoffAfter(k - 1)) }

  function Waited(n: nat): nat { if n == 0 then 0 else Waited(n - 1) + BackoffAfter(n - 1) }

  /** 1, 2, 4, 8 and then always 16: a lock that fails n times waits linearly long. */
  lemma {:induction false} WaitedClosed(n: nat)
    ensures GoodBackoff(BackoffAfter(n)) && (n >= 4 ==> BackoffAfter(n) == MAX_BACKOFF)
    ensures n < 4 ==> Waited(n) + 1 == BackoffAfter(n)
    ensures n >= 4 ==> Waited(n) == 15 + 16 * (n - 4)
  {
    if n > 0 {
      WaitedClosed(n - 1);
      if n <= 4 {
        assert BackoffAfter(1) == 2 && BackoffAfter(2) == 4 && BackoffAfter(3) == 8 && BackoffAfter(4) == 16;
      }
    }
  }

  // A thread whose attempts fail, step by step.

  function Yields(t: nat, n: nat): seq<Action> { seq(n, _ => Yield(t)) }

  lemma {:induction false} RunsJoin(s: Lock, xs: seq<Action>, ys: seq<Action>)
    requires Legal(s, xs) && Legal(Exec(s, xs), ys)
    ensures Legal(s, xs + ys) && Exec(s, xs + ys) == Exec(Exec(s, xs), ys)
    decreases |xs|
  {
    hide Enabled, Apply;
    if xs == [] {
      assert xs + ys == ys;
    } else {
      assert (xs + ys)[1..] == xs[1..] + ys;
      RunsJoin(Apply(s, xs[0]), xs[1..], ys);
    }
  }

  /** The inner loop: after the pauses that are left the thread tries again, with twice the backoff up to 16. */
  lemma {:induction false} PauseLoop(s: Lock, t: nat, backoff: nat, left: nat)
    requires t < |s.threads| && s.threads[t] == Yielding(backoff, left)
    ensures Legal(s, Yields(t, left + 1))
    ensures Exec(s, Yields(t, left + 1)) ==
      s.(threads := s.threads[t := Trying(if backoff < 16 then 2 * backoff else backoff)])
    decreases left
  {
    var u := Apply(s, Yield(t));
    assert Yields(t, left + 1)[1..] == Yields(t, left);
    if left > 0 {
      PauseLoop(u, t, backoff, left - 1);
      assert u.threads[t := Trying(if backoff < 16 then 2 * backoff else backoff)] ==
        s.threads[t := Trying(if backoff < 16 then 2 * backoff else backoff)];
    }
  }

  /** An attempt that finds the word taken: the compare-and-swap, the pauses and the end of their loop. */
  function Attempt(t: nat, backoff: nat): seq<Action> { [CompareAndSwap(t)] + Yields(t, backoff + 1) }

  lemma AttemptFails(s: Lock, t: nat, backoff: nat)
    requires t < |s.threads| && s.threads[t] == Trying(backoff) && s.word != 0
    ensures Legal(s, Attempt(t, backoff))
    ensures Exec(s, Attempt(t, backoff)) ==
      s.(threads := s.threads[t := Trying(if backoff < 16 then 2 * backoff else backoff)])
  {
    var u := Apply(s, CompareAndSwap(t));
    PauseLoop(u, t, backoff, backoff);
    assert Attempt(t, backoff)[1..] == Yields(t, backoff + 1);
    assert u.threads[t := Trying(if backoff < 16 then 2 * backoff else backoff)] ==
      s.threads[t := Trying(if backoff < 16 then 2 * backoff else backoff)];
  }

  function Attempts(t: nat, n: nat): seq<Action> {
    if n == 0 then [] else Attempts(t, n - 1) + Attempt(t, BackoffAfter(n - 1))
  }

  /** As long as somebody else is inside, n attempts make the thread pause exactly as often as Waited says. */
  lemma {:induction false} AttemptsFail(s: Lock, t: nat, n: nat)
    requires t < |s.threads| && s.threads[t] == Trying(1) && s.word != 0
    ensures Legal(s, Attempts(t, n)) && |Attempts(t, n)| == Waited(n) + 2 * n
    ensures Exec(s, Attempts(t, n)) == s.(threads := s.threads[t := Trying(BackoffAfter(n))])
  {
    if n == 0 {
      assert s.threads[t := Trying(1)] == s.threads;
    } else {
      AttemptsFail(s, t, n - 1);
      var u := Exec(s, Attempts(t, n - 1));
      AttemptFails(u, t, BackoffAfter(n - 1));
      RunsJoin(s, Attempts(t, n - 1), Attempt(t, BackoffAfter(n - 1)));
      assert u.threads[t := Trying(BackoffAfter(n))] == s.threads[t := Trying(BackoffAfter(n))];
    }
  }

  /** Lock of a free lock, and Unlock, by a thread alone. */
  lemma LockAlone(s: Lock, t: nat)
    requires t < |s.threads| && s.threads[t] == Outside && s.word == 0
    ensures Legal(s, [Arrive(t), CompareAndSwap(t)])
    ensures Exec(s, [Arrive(t), CompareAndSwap(t)]) == Lock(1, s.threads[t := Inside])
    ensures Legal(s, [Arrive(t), CompareAndSwap(t), Unlock(t)])
    ensures Exec(s, [Arrive(t), CompareAndSwap(t), Unlock(t)]) == s
  {
    var u := Apply(s, Arrive(t));
    var v := Lock(1, s.threads[t := Inside]);
    assert Apply(u, CompareAndSwap(t)) == v && Apply(v, Unlock(t)) == s;
    assert Legal(v, []) && Legal(s, []);
    assert [Unlock(t)][1..] == [] && [CompareAndSwap(t)][1..] == [];
    assert [CompareAndSwap(t), Unlock(t)][1..] == [Unlock(t)];
    assert [Arrive(t), CompareAndSwap(t)][1..] == [CompareAndSwap(t)];
    assert [Arrive(t), CompareAndSwap(t), Unlock(t)][1..] == [CompareAndSwap(t), Unlock(t)];
    hide Enabled, Apply;
    assert Exec(u, [CompareAndSwap(t)]) == v;
    assert Exec(u, [CompareAndSwap(t), Unlock(t)]) == Exec(v, [Unlock(t)]) == s;
  }

  /** Lock while somebody else is inside: after n attempts the thread has paused as often as Waited says. */
  lemma LockContended(s: Lock, t: nat, n: nat)
    requires t < |s.threads| && s.threads[t] == Outside && s.word != 0
    ensures Legal(s, [Arrive(t)] + Attempts(t, n)) && |Attempts(t, n)| == Waited(n) + 2 * n
    ensures Exec(s, [Arrive(t)] + Attempts(t, n)) == s.(threads := s.threads[t := Trying(BackoffAfter(n))])
  {
    var u := Apply(s, Arrive(t));
    AttemptsFail(u, t, n);
    assert ([Arrive(t)] + Attempts(t, n))[1..] == Attempts(t, n);
    assert u.threads[t := Trying(BackoffAfter(n))] == s.threads[t := Trying(BackoffAfter(n))];
  }

  class SpinLock {
    var word: nat
    var pauses: nat
    ghost var machine: Lock

    ghost predicate Valid()
      reads this
    {
      Inv(machine) && word == machine.word
    }

    constructor (ghost n: nat)
      ensures Valid() && machine == Fresh(n) && pauses == 0
    {
      word, pauses := 0, 0;
      machine := Fresh(n);
      AllZero(IsInside, Fresh(n).threads, 0);
    }

    method Swap(ghost t: nat) returns (ok: bool)
      requires Valid() && Enabled(machine, CompareAndSwap(t))
      modifies this`word, this`machine
      ensures Valid() && machine == Apply(old(machine), CompareAndSwap(t))
      ensures (ok <==> old(word) == 0) && word != 0 && machine.threads[t].Inside? == ok
    {
      ok := word == 0;
      if ok { word := 1; }
      StepKeeps(machine, CompareAndSwap(t));
      machine := Apply(machine, CompareAndSwap(t));
    }

    method Release(ghost t: nat)
      requires Valid() && Enabled(machine, Unlock(t))
      modifies this`word, this`machine
      ensures Valid() && machine == Apply(old(machine), Unlock(t)) && word == 0
    {
      word := 0;
      StepKeeps(machine, Unlock(t));
      machine := Apply(machine, Unlock(t));
    }

    /**
     * The loop of Lock: reading k of the word by this thread's compare-and-swap is seen(k), and the
     * word is free at some reading.
     */
    method Acquire(seen: nat -> nat, ghost free: nat) returns (failed: nat)
      requires seen(free) == 0
      modifies this`pauses
      ensures seen(failed) == 0 && forall k :: 0 <= k < failed ==> seen(k) != 0
      ensures pauses == old(pauses) + Waited(failed)
    {
      var backoff := 1;
      failed := 0;
      while seen(failed) != 0
        invariant failed <= free && forall k :: 0 <= k < failed ==> seen(k) != 0
        invariant backoff == BackoffAfter(failed) && pauses == old(pauses) + Waited(failed)
        decreases free - failed
      {
        for i := 0 to backoff
          invariant pauses == old(pauses) + Waited(failed) + i
        {
          pauses := pauses + 1;
        }
        if backoff < MAX_BACKOFF {
          backoff := 2 * backoff;
        }
        failed := failed + 1;
      }
    }
  }
}

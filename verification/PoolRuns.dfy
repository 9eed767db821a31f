/** Runs of the pool, built step by step: how a new pool comes to be filled with workers and calls. */
module PoolRuns {
  import opened PoolMachine
  import opened PoolInvariant
  import opened PoolWakeup
  import opened PoolCapacity

  /** Some calm run of a new pool of capacity m, with capacities up to m and at most n calls in flight, ends in s. */
  ghost predicate Reach(m: nat, n: nat, s: Pool) {
    exists acts :: Legal(Init(m), acts) && CalmRun(Init(m), acts) && Within(Init(m), acts, m, n)
        && Exec(Init(m), acts) == s
  }

  lemma {:induction false} Extend(s: Pool, acts: seq<Action>, a: Action, m: nat, n: nat)
    requires Legal(s, acts) && CalmRun(s, acts) && Within(s, acts, m, n)
    requires Enabled(Exec(s, acts), a) && Calm(Exec(s, acts), a)
    requires var t := Apply(Exec(s, acts), a); t.cap <= m && InFlight(t.subs) <= n
    ensures Legal(s, acts + [a]) && CalmRun(s, acts + [a]) && Within(s, acts + [a], m, n)
    ensures Exec(s, acts + [a]) == Apply(Exec(s, acts), a)
    decreases |acts|
  {
    hide Enabled, Apply, Calm, InFlight;
    if acts == [] {
      assert acts + [a] == [a];
      assert [a][1..] == [];
    } else {
      assert (acts + [a])[1..] == acts[1..] + [a];
      Extend(Apply(s, acts[0]), acts[1..], a, m, n);
    }
  }

  lemma Begin(m: nat, n: nat)
    ensures Reach(m, n, Init(m))
  {
    assert Legal(Init(m), []) && CalmRun(Init(m), []) && Within(Init(m), [], m, n) && Exec(Init(m), []) == Init(m);
  }

  lemma Move(m: nat, n: nat, s: Pool, a: Action, t: Pool)
    requires Reach(m, n, s) && Enabled(s, a) && Apply(s, a) == t && Calm(s, a)
    requires t.cap <= m && InFlight(t.subs) <= n
    ensures Reach(m, n, t)
  {
    hide Enabled, Apply, Calm, InFlight, Legal, CalmRun, Within, Exec;
    var acts :| Legal(Init(m), acts) && CalmRun(Init(m), acts) && Within(Init(m), acts, m, n)
        && Exec(Init(m), acts) == s;
    Extend(Init(m), acts, a, m, n);
  }

  // States made of a number of accepted calls, some open calls, and workers.

  function Calls(k: nat, phases: seq<SubPhase>): seq<Sub> {
    seq(k, _ => Sub(Work(0), Accepted)) + seq(|phases|, i requires 0 <= i < |phases| => Sub(Work(0), phases[i]))
  }

  function Busy(k: nat): seq<Worker> { seq(k, _ => Worker(Empty, Executing(0))) }

  function Filled(base: Pool, k: nat, phases: seq<SubPhase>, workers: seq<Worker>): Pool {
    base.(subs := Calls(k, phases), workers := workers, started := seq(k, _ => 0))
  }

  lemma {:induction false} InFlightCalls(k: nat, phases: seq<SubPhase>)
    ensures InFlight(Calls(k, phases)) <= |phases|
    decreases k, |phases|
  {
    if k > 0 {
      assert Calls(k, phases)[1..] == Calls(k - 1, phases);
      InFlightCalls(k - 1, phases);
    } else if phases != [] {
      assert Calls(0, phases)[1..] == Calls(0, phases[1..]);
      InFlightCalls(0, phases[1..]);
    }
  }

  lemma MoveFilled(m: nat, n: nat, s: Pool, a: Action, base: Pool, k: nat, phases: seq<SubPhase>, workers: seq<Worker>)
    requires Reach(m, n, s) && Enabled(s, a) && Calm(s, a) && |phases| <= n && base.cap <= m
    requires Apply(s, a) == Filled(base, k, phases, workers)
    ensures Reach(m, n, Filled(base, k, phases, workers))
  {
    hide Enabled, Apply, Calm, InFlight, Reach;
    InFlightCalls(k, phases);
    Move(m, n, s, a, Filled(base, k, phases, workers));
  }

  lemma SetPhase(k: nat, phases: seq<SubPhase>, i: nat, p: SubPhase)
    requires i < |phases|
    ensures |Calls(k, phases)| == k + |phases| && Calls(k, phases)[k + i] == Sub(Work(0), phases[i])
    ensures Calls(k, phases)[k + i := Sub(Work(0), p)] == Calls(k, phases[i := p])
  {
  }

  /** A new call, up to the lock. */
  lemma Join(m: nat, n: nat, base: Pool, k: nat, phases: seq<SubPhase>, workers: seq<Worker>)
    requires Reach(m, n, Filled(base, k, phases, workers)) && |phases| < n && base.cap <= m && !base.closed
    ensures Reach(m, n, Filled(base, k, phases + [Locking], workers))
  {
    var i, entering := |phases|, phases + [Entering];
    assert Calls(k, entering) == Calls(k, phases) + [Sub(Work(0), Entering)];
    MoveFilled(m, n, Filled(base, k, phases, workers), Call(Work(0)), base, k, entering, workers);
    SetPhase(k, entering, i, Locking);
    assert entering[i := Locking] == phases + [Locking];
    MoveFilled(m, n, Filled(base, k, entering, workers), Enter(k + i), base, k, phases + [Locking], workers);
  }

  /** A call that finds the pool below its capacity goes on to spawn. */
  lemma Room(m: nat, n: nat, base: Pool, k: nat, phases: seq<SubPhase>, workers: seq<Worker>, i: nat)
    requires Reach(m, n, Filled(base, k, phases, workers)) && |phases| <= n && base.cap <= m
    requires i < |phases| && phases[i] == Locking && base.stack == [] && base.running < base.cap
    ensures Reach(m, n, Filled(base, k, phases[i := Spawning], workers))
  {
    SetPhase(k, phases, i, Spawning);
    MoveFilled(m, n, Filled(base, k, phases, workers), Retrieve(k + i), base, k, phases[i := Spawning], workers);
  }

  /** A call that finds the pool full waits. */
  lemma NoRoom(m: nat, n: nat, base: Pool, k: nat, phases: seq<SubPhase>, workers: seq<Worker>, i: nat)
    requires Reach(m, n, Filled(base, k, phases, workers)) && |phases| <= n && base.cap <= m
    requires i < |phases| && phases[i] == Locking && base.stack == [] && base.running >= base.cap
    ensures Reach(m, n, Filled(base.(waiting := base.waiting + 1), k, phases[i := Waiting], workers))
  {
    SetPhase(k, phases, i, Waiting);
    MoveFilled(m, n, Filled(base, k, phases, workers), Retrieve(k + i),
               base.(waiting := base.waiting + 1), k, phases[i := Waiting], workers);
  }

  /** A spawning call takes a fresh worker out of the cache. */
  lemma Fetch(m: nat, n: nat, base: Pool, k: nat, phases: seq<SubPhase>, workers: seq<Worker>, i: nat)
    requires Reach(m, n, Filled(base, k, phases, workers)) && |phases| <= n && base.cap <= m
    requires i < |phases| && phases[i] == Spawning
    ensures Reach(m, n, Filled(base, k, phases[i := Got(|workers|)], workers + [Worker(Empty, Taken)]))
  {
    var w := |workers|;
    SetPhase(k, phases, i, Got(w));
    MoveFilled(m, n, Filled(base, k, phases, workers), Get(k + i, w), base, k, phases[i := Got(w)],
        workers + [Worker(Empty, Taken)]);
  }

  /** And starts it. */
  lemma Launch(m: nat, n: nat, base: Pool, k: nat, phases: seq<SubPhase>, workers: seq<Worker>, i: nat)
    requires Reach(m, n, Filled(base, k, phases, workers)) && |phases| <= n && base.cap <= m
    requires i < |phases| && phases[i] == Spawning
    ensures Reach(m, n, Filled(base.(running := base.running + 1), k, phases[i := Holding(|workers|)],
                               workers + [Worker(Empty, Receiving)]))
  {
    var w := |workers|;
    var got, taken := phases[i := Got(w)], workers + [Worker(Empty, Taken)];
    Fetch(m, n, base, k, phases, workers, i);
    SetPhase(k, got, i, Holding(w));
    assert got[i := Holding(w)] == phases[i := Holding(w)];
    assert taken[w := Worker(Empty, Receiving)] == workers + [Worker(Empty, Receiving)];
    MoveFilled(m, n, Filled(base, k, got, taken), Run(k + i), base.(running := base.running + 1), k,
               phases[i := Holding(w)], workers + [Worker(Empty, Receiving)]);
  }

  /** The only open call sends its task. */
  lemma Post0(m: nat, n: nat, base: Pool, k: nat)
    requires n >= 1 && base.cap <= m && Reach(m, n, Filled(base, k, [Holding(k)], Busy(k) + [Worker(Empty, Receiving)]))
    ensures Reach(m, n, Filled(base, k, [Accepted], Busy(k) + [Worker(Full(Work(0)), Receiving)]))
  {
    var workers, mailed := Busy(k) + [Worker(Empty, Receiving)], Busy(k) + [Worker(Full(Work(0)), Receiving)];
    SetPhase(k, [Holding(k)], 0, Accepted);
    assert [Holding(k)][0 := Accepted] == [Accepted];
    assert workers[k := Worker(Full(Work(0)), Receiving)] == mailed;
    MoveFilled(m, n, Filled(base, k, [Holding(k)], workers), Send(k), base, k, [Accepted], mailed);
  }

  /** And the worker starts it. */
  lemma Deliver(m: nat, n: nat, base: Pool, k: nat)
    requires n >= 1 && base.cap <= m && Reach(m, n, Filled(base, k, [Holding(k)], Busy(k) + [Worker(Empty, Receiving)]))
    ensures Reach(m, n, Filled(base, k + 1, [], Busy(k + 1)))
  {
    var mailed := Busy(k) + [Worker(Full(Work(0)), Receiving)];
    Post0(m, n, base, k);
    assert Calls(k, [Accepted]) == Calls(k + 1, []);
    assert mailed[k := Worker(Empty, Executing(0))] == Busy(k + 1);
    assert seq(k, _ => 0) + [0] == seq(k + 1, _ => 0);
    MoveFilled(m, n, Filled(base, k, [Accepted], mailed), Receive(k), base, k + 1, [], Busy(k + 1));
  }

  /** One call after the other fills the pool with k busy workers. */
  lemma {:induction false} Fill(m: nat, n: nat, base: Pool, k: nat)
    requires n >= 1 && base.cap <= m && k <= base.cap && base.stack == [] && base.running == 0 && !base.closed
    requires Reach(m, n, Filled(base, 0, [], Busy(0)))
    ensures Reach(m, n, Filled(base.(running := k), k, [], Busy(k)))
  {
    hide Reach, Filled, Calls, Busy;
    if k == 0 {
      assert base.(running := 0) == base;
    } else {
      var b := base.(running := k - 1);
      Fill(m, n, base, k - 1);
      Join(m, n, b, k - 1, [], Busy(k - 1));
      assert [] + [Locking] == [Locking];
      Room(m, n, b, k - 1, [Locking], Busy(k - 1), 0);
      assert [Locking][0 := Spawning] == [Spawning];
      Launch(m, n, b, k - 1, [Spawning], Busy(k - 1), 0);
      BusyLength(k - 1);
      assert [Spawning][0 := Holding(k - 1)] == [Holding(k - 1)];
      assert b.(running := b.running + 1) == base.(running := k);
      Deliver(m, n, base.(running := k), k - 1);
    }
  }

  lemma BusyLength(k: nat)
    ensures |Busy(k)| == k
  {
  }

  lemma FillNew(m: nat, n: nat, k: nat)
    requires n >= 1 && k <= m
    ensures Reach(m, n, Filled(Init(m).(running := k), k, [], Busy(k)))
  {
    Begin(m, n);
    assert Filled(Init(m), 0, [], Busy(0)) == Init(m);
    Fill(m, n, Init(m), k);
  }

  function Many(j: nat, p: SubPhase): seq<SubPhase> { seq(j, _ => p) }

  /** j more calls, up to the lock. */
  lemma {:induction false} JoinMany(m: nat, n: nat, base: Pool, k: nat, workers: seq<Worker>, j: nat)
    requires Reach(m, n, Filled(base, k, [], workers)) && j <= n && base.cap <= m && !base.closed
    ensures Reach(m, n, Filled(base, k, Many(j, Locking), workers))
  {
    hide Reach, Filled;
    if j == 0 {
      assert Many(0, Locking) == [];
    } else {
      JoinMany(m, n, base, k, workers, j - 1);
      Join(m, n, base, k, Many(j - 1, Locking), workers);
      assert Many(j - 1, Locking) + [Locking] == Many(j, Locking);
    }
  }

  // How many wait and how many goroutines there are in such a state.

  lemma {:induction false} CountCalls(k: nat, over: nat, j: nat)
    ensures var subs := Calls(k, Many(over, Rejected) + Many(j, Waiting));
      Waiters(subs) == j && Woken(subs) == 0 && Spawns(subs) == 0
    decreases k, over, j
  {
    var phases := Many(over, Rejected) + Many(j, Waiting);
    if k > 0 {
      assert Calls(k, phases)[1..] == Calls(k - 1, phases);
      CountCalls(k - 1, over, j);
    } else if over > 0 {
      assert phases[1..] == Many(over - 1, Rejected) + Many(j, Waiting);
      assert Calls(0, phases)[1..] == Calls(0, phases[1..]);
      CountCalls(0, over - 1, j);
    } else if j > 0 {
      assert phases[1..] == Many(0, Rejected) + Many(j - 1, Waiting);
      assert Calls(0, phases)[1..] == Calls(0, phases[1..]);
      CountCalls(0, 0, j - 1);
    }
  }

  lemma {:induction false} BusyStays(k: nat)
    ensures Leaving(Busy(k)) == 0
  {
    if k > 0 {
      assert Busy(k)[1..] == Busy(k - 1);
      BusyStays(k - 1);
    }
  }
}

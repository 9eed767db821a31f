/** How far the number of goroutines can exceed the capacity. */
module PoolCapacity {
  import opened Sums
  import opened PoolMachine
  import opened PoolInvariant

  predicate Over(p: SubPhase) { p.Accepted? || p.Rejected? }
  function IsInFlight(u: Sub, k: nat): int { if Over(u.phase) then 0 else 1 }
  function InFlight(subs: seq<Sub>): int { Sum(IsInFlight, subs, 0) }

  /** In flight, and not about to spawn. */
  function IsBeside(u: Sub, k: nat): int { IsInFlight(u, k) - IsSpawning(u, k) }

  lemma {:induction false} InFlightSplit(subs: seq<Sub>)
    ensures InFlight(subs) == Spawns(subs) + Sum(IsBeside, subs, 0)
  {
    if subs != [] {
      InFlightSplit(subs[1..]);
    }
  }

  /** A submission that has still to decide leaves at most the others to be spawning. */
  lemma OthersSpawn(subs: seq<Sub>, i: nat)
    requires i < |subs| && (subs[i].phase.Locking? || subs[i].phase.Notified?)
    ensures Spawns(subs) <= InFlight(subs) - 1
  {
    InFlightSplit(subs);
    SumMember(IsBeside, subs, 0, i);
  }

  /** Along the run the capacity is at most m and at most n calls are in flight. */
  predicate Within(s: Pool, acts: seq<Action>, m: nat, n: nat)
    requires Legal(s, acts)
    decreases |acts|
  {
    s.cap <= m && InFlight(s.subs) <= n && (acts == [] || Within(Apply(s, acts[0]), acts[1..], m, n))
  }

  lemma CapacityStep(s: Pool, a: Action, m: nat, n: nat)
    requires Inv(s) && Enabled(s, a) && s.cap <= m && InFlight(s.subs) <= n
    requires s.running + Spawns(s.subs) <= m + n - 1
    ensures var t := Apply(s, a); t.running + Spawns(t.subs) <= m + n - 1
  {
    QueueMoves(s, a);
    WorkerMoves(s, a);
    if MovesOneSub(a) {
      SpawnDecision(s, a);
      if a.Retrieve? || a.Retry? {
        OthersSpawn(s.subs, a.i);
      }
    }
    hide Apply, Enabled;
  }

  /** A submission is told to spawn when it finds room, and has spawned with its Run. */
  lemma SpawnDecision(s: Pool, a: Action)
    requires Enabled(s, a) && MovesOneSub(a)
    ensures var t := Apply(s, a);
      var change := IsSpawning(t.subs[a.i], 0) - IsSpawning(s.subs[a.i], 0);
      && |t.subs| == |s.subs|
      && (if a.Retrieve? || a.Retry? then s.subs[a.i].phase.Locking? || s.subs[a.i].phase.Notified?
          else change <= if a.Run? then -1 else 0)
      && (change > 0 ==> s.running < s.cap) && change <= 1
  {
  }

  lemma {:induction false} CapacityRun(s: Pool, acts: seq<Action>, m: nat, n: nat)
    requires Inv(s) && Legal(s, acts) && Within(s, acts, m, n)
    requires s.running + Spawns(s.subs) <= m + n - 1
    ensures var t := Exec(s, acts); t.running + Spawns(t.subs) <= m + n - 1
    decreases |acts|
  {
    if acts != [] {
      StepKeeps(s, acts[0]);
      CapacityStep(s, acts[0], m, n);
      CapacityRun(Apply(s, acts[0]), acts[1..], m, n);
    }
  }

  function IsBusy(w: Worker, k: nat): int { if w.mail.Full? || w.phase.Executing? then 1 else 0 }

  /**
   * With at most n calls in flight and capacities up to m, at most m + n - 1 goroutines run or are
   * being spawned, and no more tasks are mailed or executing than goroutines run.
   */
  lemma Capacity(cap: nat, acts: seq<Action>, m: nat, n: nat)
    requires cap >= 1 && n >= 1 && Legal(Init(cap), acts) && Within(Init(cap), acts, m, n)
    ensures var s := Exec(Init(cap), acts);
      Sum(IsBusy, s.workers, 0) <= s.running <= s.running + Spawns(s.subs) <= m + n - 1
  {
    var s := Exec(Init(cap), acts);
    Start(cap);
    RunKeeps(Init(cap), acts);
    CapacityRun(Init(cap), acts, m, n);
    SumNonNegative(IsSpawning, s.subs, 0);
    SumBound(IsBusy, IsStarted, s.workers, 0);
  }
}

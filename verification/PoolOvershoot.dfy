/** The capacity bound is reached: n calls that check together overshoot the capacity by n - 1. */
module PoolOvershoot {
  import opened PoolMachine
  import opened PoolWakeup
  import opened PoolCapacity
  import opened PoolRuns

  /** j calls that have all found room for one. */
  lemma {:induction false} RoomForAll(m: nat, n: nat, j: nat)
    requires 1 <= m && j <= n && n >= 1
    ensures Reach(m, n,
        Filled(Init(m).(running := m - 1), m - 1, Many(j, Spawning) + Many(n - j, Locking), Busy(m - 1)))
  {
    hide Reach, Filled;
    var b := Init(m).(running := m - 1);
    var after := Many(j, Spawning) + Many(n - j, Locking);
    if j == 0 {
      FillNew(m, n, m - 1);
      JoinMany(m, n, b, m - 1, Busy(m - 1), n);
      assert after == Many(n, Locking);
    } else {
      var before := Many(j - 1, Spawning) + Many(n - j + 1, Locking);
      RoomForAll(m, n, j - 1);
      Room(m, n, b, m - 1, before, Busy(m - 1), j - 1);
      assert before[j - 1 := Spawning] == after;
    }
  }

  function Launched(m: nat, n: nat, j: nat): seq<SubPhase>
    requires m >= 1
  {
    seq(n, i => if 0 <= i < j then Holding(m - 1 + i) else Spawning)
  }

  function Receivers(j: nat): seq<Worker> { seq(j, _ => Worker(Empty, Receiving)) }

  lemma {:induction false} LaunchAll(m: nat, n: nat, j: nat)
    requires m >= 1 && n >= 1 && j <= n
    ensures Reach(m, n, Filled(Init(m).(running := m - 1 + j), m - 1, Launched(m, n, j), Busy(m - 1) + Receivers(j)))
  {
    hide Reach, Filled;
    if j == 0 {
      RoomForAll(m, n, n);
      assert Launched(m, n, 0) == Many(n, Spawning) + Many(0, Locking);
      assert Busy(m - 1) + Receivers(0) == Busy(m - 1);
    } else {
      var before, workers := Launched(m, n, j - 1), Busy(m - 1) + Receivers(j - 1);
      LaunchAll(m, n, j - 1);
      Launch(m, n, Init(m).(running := m + j - 2), m - 1, before, workers, j - 1);
      assert before[j - 1 := Holding(|workers|)] == Launched(m, n, j);
      assert workers + [Worker(Empty, Receiving)] == Busy(m - 1) + Receivers(j);
    }
  }

  /** For every capacity and every number of concurrent calls there is a run to the bound. */
  lemma BoundIsReached(m: nat, n: nat) returns (acts: seq<Action>)
    requires m >= 1 && n >= 1
    ensures Legal(Init(m), acts) && Within(Init(m), acts, m, n) && Exec(Init(m), acts).running == m + n - 1
  {
    LaunchAll(m, n, n);
    var s := Filled(Init(m).(running := m - 1 + n), m - 1, Launched(m, n, n), Busy(m - 1) + Receivers(n));
    acts :| Legal(Init(m), acts) && CalmRun(Init(m), acts) && Within(Init(m), acts, m, n) && Exec(Init(m), acts) == s;
  }
}

/** Exactly-once work: what happens to the tasks of all calls, over every run of the pool. */
module PoolWork {
  import opened Sums
  import opened PoolMachine
  import opened PoolInvariant

  function TaskOf(m: Msg): multiset<Task> { if m.Work? then multiset{m.task} else multiset{} }

  /** The non-nil tasks of the calls that returned without an error. */
  function Accepted(subs: seq<Sub>): multiset<Task> {
    if subs == [] then multiset{}
    else (if subs[0].phase.Accepted? then TaskOf(subs[0].msg) else multiset{}) + Accepted(subs[1..])
  }

  /** The non-nil tasks in the mailboxes. */
  function Mailed(workers: seq<Worker>): multiset<Task> {
    if workers == [] then multiset{}
    else (if workers[0].mail.Full? then TaskOf(workers[0].mail.msg) else multiset{}) + Mailed(workers[1..])
  }

  lemma {:induction false} AcceptedCount(subs: seq<Sub>, t: Task)
    ensures Accepted(subs)[t] == Sum(AcceptedIs, subs, t)
  {
    if subs != [] {
      AcceptedCount(subs[1..], t);
    }
  }

  lemma {:induction false} MailedCount(workers: seq<Worker>, t: Task)
    ensures Mailed(workers)[t] == Sum(MailIs, workers, t)
  {
    if workers != [] {
      MailedCount(workers[1..], t);
    }
  }

  lemma Balance(s: Pool)
    requires Inv(s)
    ensures Accepted(s.subs) == Mailed(s.workers) + multiset(s.started)
  {
    forall t: Task ensures Accepted(s.subs)[t] == Mailed(s.workers)[t] + multiset(s.started)[t] {
      AcceptedCount(s.subs, t);
      MailedCount(s.workers, t);
      Occurrences(s.started, t);
    }
  }

  /**
   * Whatever Release, Reboot, Tune, panics and the purger do: accepted tasks are mailed or started,
   * each exactly as often.
   */
  lemma ExactlyOnce(cap: nat, acts: seq<Action>)
    requires cap >= 1 && Legal(Init(cap), acts)
    ensures var s := Exec(Init(cap), acts); Accepted(s.subs) == Mailed(s.workers) + multiset(s.started)
  {
    Start(cap);
    RunKeeps(Init(cap), acts);
    Balance(Exec(Init(cap), acts));
  }

  /** A task that only call i submits: it is mailed or started, once, if the call was accepted, and neither if not. */
  lemma OnceByInvariant(s: Pool, i: nat, t: Task)
    requires Inv(s) && i < |s.subs| && s.subs[i].msg == Work(t)
    requires forall j :: 0 <= j < |s.subs| && j != i ==> s.subs[j].msg != Work(t)
    ensures Mailed(s.workers)[t] + multiset(s.started)[t] == if s.subs[i].phase.Accepted? then 1 else 0
  {
    Balance(s);
    AcceptedCount(s.subs, t);
    SumOnly(AcceptedIs, s.subs, t, i);
    assert Accepted(s.subs)[t] == (Mailed(s.workers) + multiset(s.started))[t];
  }

  /** A worker that is in task k. */
  function ExecutingIs(w: Worker, k: nat): int { if w.phase == Executing(k) then 1 else 0 }

  predicate Begins(s: Pool, a: Action, k: Task)
    requires Enabled(s, a)
  {
    a.Receive? && s.workers[a.w].mail == Full(Work(k))
  }

  predicate Ends(s: Pool, a: Action, k: Task)
    requires Enabled(s, a)
  {
    (a.Return? || a.Panic?) && s.workers[a.w].phase.task == k
  }

  /**
   * What a step adds to the workers in task k: a receive begins it, a return or a panic ends it,
   * nothing else does either.
   */
  function ExecutingChange(s: Pool, a: Action, k: Task): int
    requires Enabled(s, a)
  {
    if Begins(s, a, k) then 1 else if Ends(s, a, k) then -1 else 0
  }

  lemma ExecutingMoves(s: Pool, a: Action, k: Task)
    requires Inv(s) && Enabled(s, a)
    ensures var t := Apply(s, a);
      && Sum(ExecutingIs, t.workers, k) == Sum(ExecutingIs, s.workers, k) + ExecutingChange(s, a, k)
      && Sum(IsKey, t.started, k) == Sum(IsKey, s.started, k) + if Begins(s, a, k) then 1 else 0
  {
    if BySubmission(a) {
      SubmissionExecutes(s, a, k);
    } else if ByWorker(a) {
      WorkerExecutes(s, a, k);
    } else if ByPurger(a) {
      PurgerExecutes(s, a, k);
    } else {
      ControlExecutes(s, a, k);
    }
  }

  lemma SubmissionExecutes(s: Pool, a: Action, k: Task)
    requires Inv(s) && Enabled(s, a) && BySubmission(a)
    ensures Sum(ExecutingIs, Apply(s, a).workers, k) == Sum(ExecutingIs, s.workers, k)
        && Apply(s, a).started == s.started
  {
    hide Sum;
    var t := Apply(s, a);
    if a.Get? && a.w < |s.workers| {
      SumUpdate(ExecutingIs, s.workers, k, a.w, t.workers[a.w]);
    } else if a.Get? {
      SumAppend(ExecutingIs, s.workers, Worker(Empty, Taken), k);
    } else if a.Run? || a.Send? {
      var w := s.subs[a.i].phase.w;
      if a.Run? { GotIsTaken(s, a.i); }
      SumUpdate(ExecutingIs, s.workers, k, w, t.workers[w]);
    }
  }

  lemma WorkerExecutes(s: Pool, a: Action, k: Task)
    requires Enabled(s, a) && ByWorker(a)
    ensures var t := Apply(s, a);
      && Sum(ExecutingIs, t.workers, k) == Sum(ExecutingIs, s.workers, k) + ExecutingChange(s, a, k)
      && Sum(IsKey, t.started, k) == Sum(IsKey, s.started, k) + if Begins(s, a, k) then 1 else 0
  {
    hide Sum;
    if !a.Signal? {
      SumUpdate(ExecutingIs, s.workers, k, a.w, Apply(s, a).workers[a.w]);
      if a.Receive? && s.workers[a.w].mail.msg.Work? {
        SumAppend(IsKey, s.started, s.workers[a.w].mail.msg.task, k);
      }
    }
  }

  lemma PurgerExecutes(s: Pool, a: Action, k: Task)
    requires Enabled(s, a) && ByPurger(a)
    ensures Sum(ExecutingIs, Apply(s, a).workers, k) == Sum(ExecutingIs, s.workers, k)
        && Apply(s, a).started == s.started
  {
    if a.FinishOne? {
      SumUpdate(ExecutingIs, s.workers, k, s.purger.left[0], Apply(s, a).workers[s.purger.left[0]]);
    }
  }

  lemma ControlExecutes(s: Pool, a: Action, k: Task)
    requires Enabled(s, a) && ByControl(a)
    ensures Sum(ExecutingIs, Apply(s, a).workers, k) == Sum(ExecutingIs, s.workers, k)
        && Apply(s, a).started == s.started
  {
    if a.Reset? {
      FinishAllExecuting(s.workers, s.stack, k);
    }
  }

  lemma {:induction false} FinishAllExecuting(workers: seq<Worker>, ids: seq<nat>, k: Task)
    requires CanFinishAll(workers, ids)
    ensures Sum(ExecutingIs, FinishAll(workers, ids), k) == Sum(ExecutingIs, workers, k)
    decreases |ids|
  {
    if ids != [] {
      var next := PoolMachine.Post(workers, ids[0], Nil);
      SumUpdate(ExecutingIs, workers, k, ids[0], next[ids[0]]);
      FinishAllExecuting(next, ids[1..], k);
    }
  }

  /** A call that has been told to spawn, or has a worker, or has sent its task. */
  predicate Committed(s: Pool, i: nat) {
    i < |s.subs| && match s.subs[i].phase
      case Spawning => true
      case Got(_) => true
      case Holding(_) => true
      case Accepted => true
      case _ => false
  }

  lemma CommittedStep(s: Pool, i: nat, a: Action)
    requires Committed(s, i) && Enabled(s, a)
    ensures Committed(Apply(s, a), i)
  {
    if !BySubmission(a) {
      OthersOnlyWake(s, a);
      hide Apply, Enabled;
    }
  }

  /** No call is turned away once it has been told to spawn or has a worker, whatever Release does meanwhile. */
  lemma {:induction false} CommittedRun(s: Pool, i: nat, acts: seq<Action>)
    requires Committed(s, i) && Legal(s, acts)
    ensures Committed(Exec(s, acts), i)
    decreases |acts|
  {
    if acts != [] {
      CommittedStep(s, i, acts[0]);
      CommittedRun(Apply(s, acts[0]), i, acts[1..]);
    }
  }

  /** No send on a mailbox ever blocks, and an object in the cache has no stale message. */
  lemma SendsNeverBlock(cap: nat, acts: seq<Action>)
    requires cap >= 1 && Legal(Init(cap), acts)
    ensures var s := Exec(Init(cap), acts);
      && (forall i: nat :: i < |s.subs| && s.subs[i].phase.Holding? ==> Enabled(s, Send(i)))
      && (s.purger.Finishing? && s.purger.left != [] ==> Enabled(s, FinishOne))
      && (forall w: nat :: WorkerAt(s, w, Cached) || WorkerAt(s, w, Taken) ==> s.workers[w].mail.Empty?)
  {
    var s := Exec(Init(cap), acts);
    Start(cap);
    RunKeeps(Init(cap), acts);
    forall i: nat | i < |s.subs| && s.subs[i].phase.Holding? ensures Enabled(s, Send(i)) {
      RefIsIdle(s, s.subs[i].phase.w);
    }
    if s.purger.Finishing? && s.purger.left != [] {
      RefIsIdle(s, s.purger.left[0]);
    }
  }

  predicate Occupied(p: WorkerPhase) { (Live(p) && !p.Receiving?) || p.Decremented? }

  /**
   * Every worker object is in exactly one place: the cache, the hands of one submission before or
   * after its start, the idle stack, the purge list, full mailbox, or on its way through a task.
   */
  lemma OnePlace(cap: nat, acts: seq<Action>, w: nat)
    requires cap >= 1 && Legal(Init(cap), acts) && w < |Exec(Init(cap), acts).workers|
    ensures var s := Exec(Init(cap), acts);
      var x := s.workers[w];
      (if x.phase.Cached? then 1 else 0) + Sum(GotIs, s.subs, w) + Sum(HoldingIs, s.subs, w)
      + Sum(IsKey, s.stack, w) + Sum(IsKey, PurgeList(s.purger), w)
      + (if x.mail.Full? then 1 else 0) + (if Occupied(x.phase) then 1 else 0) == 1
  {
    var s := Exec(Init(cap), acts);
    Start(cap);
    RunKeeps(Init(cap), acts);
    assert IdleRefs(s, w) == IdleAt(s, w);
    assert Sum(GotIs, s.subs, w) == if WorkerAt(s, w, Taken) then 1 else 0;
  }
}

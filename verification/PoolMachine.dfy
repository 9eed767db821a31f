/**
 * The goroutine pool as a state machine. One action is one atomic step of one goroutine: an access
 * to an atomic variable, a lock section, a mailbox send or receive, a signal. GPool and
 * GPoolWithFunc run the same protocol; a task stands for the closure or the argument submitted.
 */
module PoolMachine {

  type Task = nat

  /** A message in a worker's mailbox; Nil tells the worker to stop. Submitting a nil task sends it too. */
  datatype Msg = Nil | Work(task: Task)

  /** The one-slot channel of a worker. */
  datatype Mail = Empty | Full(msg: Msg)

  datatype WorkerPhase =
    | Cached                  // in the object cache, no goroutine
    | Taken                   // taken out of the cache, goroutine not started
    | Receiving               // in the receive of the run loop
    | Executing(task: Task)   // in the task
    | Returned                // the task returned, before the first test of revertWorker
    | Declining               // that test failed, before the broadcast
    | Stamped                 // that test passed, before the lock of revertWorker
    | Exiting                 // in the deferred exit, before the decrement
    | Decremented             // before the object goes back to the cache

  datatype Worker = Worker(mail: Mail, phase: WorkerPhase)

  datatype SubPhase =
    | Entering                // before the IsClosed test of Submit
    | Locking                 // before the lock of retrieveWorker
    | Spawning                // told to spawn, lock released
    | Got(w: nat)             // has a worker object, before its run
    | Holding(w: nat)         // has a running worker, before the send
    | Waiting                 // in the condition's notify list
    | Notified                // woken, before it has the lock again
    | Accepted                // Submit returned nil
    | Rejected                // Submit returned an error

  /** One call of Submit or Invoke. */
  datatype Sub = Sub(msg: Msg, phase: SubPhase)

  datatype Purger =
    | Sleeping                               // waiting for the ticker
    | Ticked                                 // the pool was open, before the lock
    | Finishing(left: seq<nat>, dormant: bool) // sending finish to the stale workers
    | Gone

  /** One call of Tune. */
  datatype Tune =
    | Loaded(capacity: nat, size: nat)       // has read the capacity
    | Owing(rise: nat)                       // has stored, owes a signal or a broadcast
    | Finished

  datatype Pool = Pool(
    cap: nat,
    running: int,
    closed: bool,
    waiting: int,
    stack: seq<nat>,          // the idle workers, last inserted last
    workers: seq<Worker>,     // every worker object ever made
    subs: seq<Sub>,           // every submission ever made
    purger: Purger,
    tunes: seq<Tune>,
    owed: nat,                // exited goroutines that still have to signal
    resets: nat,              // Release calls before the reset of the stack
    closers: nat,             // Release calls before their broadcast
    started: seq<Task>)       // tasks in the order in which they were started

  datatype Action =
    // a submission
    | Call(msg: Msg)
    | Enter(i: nat)
    | Retrieve(i: nat)
    | Get(i: nat, w: nat)
    | Run(i: nat)
    | Send(i: nat)
    | Retry(i: nat)
    // a worker goroutine
    | Receive(w: nat)
    | Return(w: nat)
    | Panic(w: nat)
    | Check(w: nat)
    | Decline(w: nat)
    | Insert(w: nat, i: nat)
    | Decrement(w: nat)
    | Put(w: nat)
    | Signal(i: nat)
    // the purger
    | Tick
    | StopPurge
    | Refresh(k: nat)
    | FinishOne
    | EndPurge
    // control calls
    | Close
    | Reset
    | CloseBroadcast
    | Reboot
    | TuneLoad(size: nat)
    | TuneStore(j: nat)
    | TuneWake(j: nat, i: nat)

  function Init(cap: nat): Pool {
    Pool(cap, 0, false, 0, [], [], [], Sleeping, [], 0, 0, 0, [])
  }

  /** Pointers into the machine that are in range and point at the given phase. */
  predicate SubAt(s: Pool, i: nat, p: SubPhase) { i < |s.subs| && s.subs[i].phase == p }
  predicate WorkerAt(s: Pool, w: nat, p: WorkerPhase) { w < |s.workers| && s.workers[w].phase == p }

  function SetSub(s: Pool, i: nat, p: SubPhase): Pool
    requires i < |s.subs|
  {
    s.(subs := s.subs[i := s.subs[i].(phase := p)])
  }

  function SetWorker(s: Pool, w: nat, p: WorkerPhase): Pool
    requires w < |s.workers|
  {
    s.(workers := s.workers[w := s.workers[w].(phase := p)])
  }

  function Post(workers: seq<Worker>, w: nat, msg: Msg): seq<Worker>
    requires w < |workers|
  {
    workers[w := workers[w].(mail := Full(msg))]
  }

  predicate CanPost(workers: seq<Worker>, w: nat) { w < |workers| && workers[w].mail.Empty? }

  // The condition variable. Signal wakes some waiter if there is one, Broadcast wakes them all.

  predicate CanSignal(subs: seq<Sub>, i: nat) {
    if i < |subs| then subs[i].phase.Waiting? else forall k :: 0 <= k < |subs| ==> !subs[k].phase.Waiting?
  }

  function SignalOne(subs: seq<Sub>, i: nat): seq<Sub> {
    if i < |subs| then subs[i := subs[i].(phase := Notified)] else subs
  }

  function NotifyAll(subs: seq<Sub>): seq<Sub> {
    seq(|subs|, i requires 0 <= i < |subs| => if subs[i].phase.Waiting? then subs[i].(phase := Notified) else subs[i])
  }

  // The reset of the stack sends finish to the idle workers one after the other, in stack order.

  predicate CanFinishAll(workers: seq<Worker>, ids: seq<nat>)
    decreases |ids|
  {
    ids == [] || (CanPost(workers, ids[0]) && CanFinishAll(Post(workers, ids[0], Nil), ids[1..]))
  }

  function FinishAll(workers: seq<Worker>, ids: seq<nat>): seq<Worker>
    requires CanFinishAll(workers, ids)
    decreases |ids|
  {
    if ids == [] then workers else FinishAll(Post(workers, ids[0], Nil), ids[1..])
  }

  /** Waiting for the condition: the counter goes up and the submission joins the notify list. */
  function Park(s: Pool, i: nat): Pool
    requires i < |s.subs|
  {
    SetSub(s, i, Waiting).(waiting := s.waiting + 1)
  }

  function Pop(s: Pool, i: nat): Pool
    requires i < |s.subs| && s.stack != []
  {
    SetSub(s, i, Holding(s.stack[|s.stack| - 1])).(stack := s.stack[..|s.stack| - 1])
  }

  predicate Enabled(s: Pool, a: Action) {
    match a
    case Call(_) => true
    case Enter(i) => SubAt(s, i, Entering)
    case Retrieve(i) => SubAt(s, i, Locking)
    case Get(i, w) => SubAt(s, i, Spawning) && (w == |s.workers| || WorkerAt(s, w, Cached))
    case Run(i) => i < |s.subs| && s.subs[i].phase.Got? && s.subs[i].phase.w < |s.workers|
    case Send(i) => i < |s.subs| && s.subs[i].phase.Holding? && CanPost(s.workers, s.subs[i].phase.w)
    case Retry(i) => SubAt(s, i, Notified)
    case Receive(w) => WorkerAt(s, w, Receiving) && s.workers[w].mail.Full?
    case Return(w) => w < |s.workers| && s.workers[w].phase.Executing?
    case Panic(w) => w < |s.workers| && s.workers[w].phase.Executing?
    case Check(w) => WorkerAt(s, w, Returned)
    case Decline(w) => WorkerAt(s, w, Declining)
    case Insert(w, i) => WorkerAt(s, w, Stamped) && CanSignal(s.subs, i)
    case Decrement(w) => WorkerAt(s, w, Exiting)
    case Put(w) => WorkerAt(s, w, Decremented)
    case Signal(i) => s.owed > 0 && CanSignal(s.subs, i)
    case Tick => s.purger.Sleeping?
    case StopPurge => s.purger.Sleeping?
    case Refresh(k) => s.purger.Ticked? && k <= |s.stack| && (k == 0 <==> s.stack == [])
    case FinishOne => s.purger.Finishing? && s.purger.left != [] && CanPost(s.workers, s.purger.left[0])
    case EndPurge => s.purger.Finishing? && s.purger.left == []
    case Close => true
    case Reset => s.resets > 0 && CanFinishAll(s.workers, s.stack)
    case CloseBroadcast => s.closers > 0
    case Reboot => s.closed && s.purger.Gone?
    case TuneLoad(_) => true
    case TuneStore(j) => j < |s.tunes| && s.tunes[j].Loaded?
    case TuneWake(j, i) => j < |s.tunes| && s.tunes[j].Owing? && CanSignal(s.subs, i)
  }

  // Whose step it is.

  predicate BySubmission(a: Action) {
    a.Call? || a.Enter? || a.Retrieve? || a.Get? || a.Run? || a.Send? || a.Retry?
  }

  predicate ByWorker(a: Action) {
    a.Receive? || a.Return? || a.Panic? || a.Check? || a.Decline? || a.Insert? || a.Decrement? || a.Put? || a.Signal?
  }

  predicate ByPurger(a: Action) {
    a.Tick? || a.StopPurge? || a.Refresh? || a.FinishOne? || a.EndPurge?
  }

  predicate ByControl(a: Action) {
    a.Close? || a.Reset? || a.CloseBroadcast? || a.Reboot? || a.TuneLoad? || a.TuneStore? || a.TuneWake?
  }

  /** A step of a submission. */
  function SubmissionStep(s: Pool, a: Action): Pool
    requires Enabled(s, a) && BySubmission(a)
  {
    match a
    case Call(msg) => s.(subs := s.subs + [Sub(msg, Entering)])
    case Enter(i) => SetSub(s, i, if s.closed then Rejected else Locking)
    case Retrieve(i) =>
      if s.stack != [] then Pop(s, i)
      else if s.cap > s.running then SetSub(s, i, Spawning)
      else Park(s, i)
    case Get(i, w) =>
      if w == |s.workers| then SetSub(s, i, Got(w)).(workers := s.workers + [Worker(Empty, Taken)])
      else SetSub(SetWorker(s, w, Taken), i, Got(w))
    case Run(i) =>
      var w := s.subs[i].phase.w;
      SetSub(SetWorker(s, w, Receiving), i, Holding(w)).(running := s.running + 1)
    case Send(i) =>
      SetSub(s, i, Accepted).(workers := Post(s.workers, s.subs[i].phase.w, s.subs[i].msg))
    case Retry(i) =>
      var t := s.(waiting := s.waiting - 1);
      if s.closed then SetSub(t, i, Rejected)
      else if s.stack != [] then Pop(t, i)
      else if s.cap - s.running > 0 then SetSub(t, i, Spawning)
      else Park(t, i)
  }

  /** A step of a worker goroutine. */
  function WorkerStep(s: Pool, a: Action): Pool
    requires Enabled(s, a) && ByWorker(a)
  {
    match a
    case Receive(w) =>
      (match s.workers[w].mail.msg
       case Nil => s.(workers := s.workers[w := Worker(Empty, Exiting)])
       case Work(t) => s.(workers := s.workers[w := Worker(Empty, Executing(t))], started := s.started + [t]))
    case Return(w) => SetWorker(s, w, Returned)
    case Panic(w) => SetWorker(s, w, Exiting)
    case Check(w) => SetWorker(s, w, if s.running > s.cap || s.closed then Declining else Stamped)
    case Decline(w) => SetWorker(s, w, Exiting).(subs := NotifyAll(s.subs))
    case Insert(w, i) =>
      if s.closed then SetWorker(s, w, Exiting)
      else SetWorker(s, w, Receiving).(stack := s.stack + [w], subs := SignalOne(s.subs, i))
    case Decrement(w) => SetWorker(s, w, Decremented).(running := s.running - 1)
    case Put(w) => SetWorker(s, w, Cached).(owed := s.owed + 1)
    case Signal(i) => s.(owed := s.owed - 1, subs := SignalOne(s.subs, i))
  }

  /** A step of the purger. */
  function PurgerStep(s: Pool, a: Action): Pool
    requires Enabled(s, a) && ByPurger(a)
  {
    match a
    case Tick => s.(purger := if s.closed then Gone else Ticked)
    case StopPurge => s.(purger := Gone)
    case Refresh(k) =>
      s.(stack := s.stack[k..], purger := Finishing(s.stack[..k], s.running == 0 || s.running == k))
    case FinishOne =>
      s.(workers := Post(s.workers, s.purger.left[0], Nil),
         purger := Finishing(s.purger.left[1..], s.purger.dormant))
    case EndPurge =>
      s.(purger := Sleeping, subs := if s.purger.dormant && s.waiting > 0 then NotifyAll(s.subs) else s.subs)
  }

  /** A step of Release, Reboot or Tune. */
  function ControlStep(s: Pool, a: Action): Pool
    requires Enabled(s, a) && ByControl(a)
  {
    match a
    case Close => if s.closed then s else s.(closed := true, resets := s.resets + 1)
    case Reset =>
      s.(workers := FinishAll(s.workers, s.stack), stack := [], resets := s.resets - 1, closers := s.closers + 1)
    case CloseBroadcast => s.(closers := s.closers - 1, subs := NotifyAll(s.subs))
    case Reboot => s.(closed := false, purger := Sleeping)
    case TuneLoad(size) =>
      if size == 0 || size == s.cap then s else s.(tunes := s.tunes + [Loaded(s.cap, size)])
    case TuneStore(j) =>
      var t := s.tunes[j];
      s.(cap := t.size, tunes := s.tunes[j := if t.size > t.capacity then Owing(t.size - t.capacity) else Finished])
    case TuneWake(j, i) =>
      s.(tunes := s.tunes[j := Finished],
         subs := if s.tunes[j].rise == 1 then SignalOne(s.subs, i) else NotifyAll(s.subs))
  }

  function Apply(s: Pool, a: Action): Pool
    requires Enabled(s, a)
  {
    if BySubmission(a) then SubmissionStep(s, a)
    else if ByWorker(a) then WorkerStep(s, a)
    else if ByPurger(a) then PurgerStep(s, a)
    else ControlStep(s, a)
  }

  /** A run: each action is enabled where it is taken. */
  predicate Legal(s: Pool, acts: seq<Action>)
    decreases |acts|
  {
    acts == [] || (Enabled(s, acts[0]) && Legal(Apply(s, acts[0]), acts[1..]))
  }

  function Exec(s: Pool, acts: seq<Action>): Pool
    requires Legal(s, acts)
    decreases |acts|
  {
    if acts == [] then s else Exec(Apply(s, acts[0]), acts[1..])
  }
}

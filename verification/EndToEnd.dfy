/**
 * Readers, pool and message handler together: any number of connections feed one pool, each reader
 * submits one request at a time and reads on when Invoke has returned.
 */
module EndToEnd {
  import opened Sums
  import opened Codec
  import opened Framing
  import opened Dispatch
  import PM = PoolMachine
  import PI = PoolInvariant
  import PG = PoolGrain
  import PW = PoolWork

  /** A reader with the bytes that are still to come, and the call of Invoke it is in. */
  datatype Inbound = Inbound(unread: seq<Byte>, busy: bool, call: nat)

  datatype Request = Request(conn: nat, msg: Message)

  /**
   * Request k is the argument of submission k. Each worker has its own program counter in the three
   * calls of DoMsgHandler: stage[w] is the next call of what worker w executes, 3 if none is left.
   */
  datatype Server = Server(
    pool: PM.Pool,
    parking: PG.Parking,     // the submission that holds the lock on its way into the notify list
    conns: seq<Inbound>,
    requests: seq<Request>,
    stage: seq<nat>,
    trace: seq<Event>,       // the stages entered, by all workers
    returned: seq<nat>,      // requests whose handling returned without a panic
    panicked: seq<nat>)      // requests whose handling panicked

  datatype Action =
    | ReadFrame(c: nat)
    | Resume(c: nat)
    | PoolStep(a: PM.Action)
    | FindFull(i: nat)
    | Enqueue
    | HandlerStep(w: nat)

  type Routes = map<Word32, RouterId>

  predicate Registered(s: Server, routes: Routes, k: nat) { k < |s.requests| && s.requests[k].msg.id in routes }

  /** The handler that worker w executes has no call left. */
  predicate HandlerDone(s: Server, routes: Routes, w: nat) {
    w < |s.pool.workers| && s.pool.workers[w].phase.Executing? && w < |s.stage| &&
    (Registered(s, routes, s.pool.workers[w].phase.task) ==> s.stage[w] == 3)
  }

  /** The pool with the wait in two steps. */
  function FineOf(s: Server): PG.Fine { PG.Fine(s.pool, s.parking) }

  predicate Enabled(s: Server, routes: Routes, max: Word32, act: Action) {
    match act
    case ReadFrame(c) => c < |s.conns| && !s.conns[c].busy && !CutOne(s.conns[c].unread, max).Blocked?
    case Resume(c) =>
      && c < |s.conns| && s.conns[c].busy && s.conns[c].call < |s.pool.subs|
      && (s.pool.subs[s.conns[c].call].phase.Accepted? || s.pool.subs[s.conns[c].call].phase.Rejected?)
    case PoolStep(a) =>
      && !a.Call? && PG.CanStep(FineOf(s), PG.Plain(a))
      && (a.Return? ==> HandlerDone(s, routes, a.w))
    case FindFull(i) => PG.CanStep(FineOf(s), PG.FindFull(i))
    case Enqueue => PG.CanStep(FineOf(s), PG.Enqueue)
    case HandlerStep(w) =>
      && w < |s.pool.workers| && s.pool.workers[w].phase.Executing? && w < |s.stage|
      && Registered(s, routes, s.pool.workers[w].phase.task) && s.stage[w] < 3
  }

  /** A worker that starts a task is at the first call of its handler. */
  function StageAfter(p: PM.Pool, stage: seq<nat>, a: PM.Action): seq<nat>
    requires PM.Enabled(p, a)
  {
    if a.Get? && a.w == |p.workers| then stage + [3]
    else if a.Receive? && p.workers[a.w].mail.msg.Work? && a.w < |stage| then stage[a.w := 0]
    else stage
  }

  function Apply(s: Server, routes: Routes, max: Word32, act: Action): Server
    requires Enabled(s, routes, max, act)
  {
    match act
    case ReadFrame(c) =>
      var r := s.conns[c];
      (match CutOne(r.unread, max)
       case Dropped(rest) => s.(conns := s.conns[c := r.(unread := rest)])
       case Frame(msg, rest) =>
         if msg.id == HEARTBEAT_ID then s.(conns := s.conns[c := r.(unread := rest)])
         else s.(conns := s.conns[c := Inbound(rest, true, |s.pool.subs|)],
                 requests := s.requests + [Request(c, msg)],
                 pool := PM.Apply(s.pool, PM.Call(PM.Work(|s.requests|)))))
    case Resume(c) => s.(conns := s.conns[c := s.conns[c].(busy := false)])
    case PoolStep(a) =>
      s.(pool := PM.Apply(s.pool, a),
         stage := StageAfter(s.pool, s.stage, a),
         returned := if a.Return? then s.returned + [s.pool.workers[a.w].phase.task] else s.returned,
         panicked := if a.Panic? then s.panicked + [s.pool.workers[a.w].phase.task] else s.panicked)
    case FindFull(i) => s.(parking := PG.Holder(i))
    case Enqueue => s.(pool := PG.Wait(s.pool, s.parking.i), parking := PG.Nobody)
    case HandlerStep(w) =>
      var k := s.pool.workers[w].phase.task;
      s.(stage := s.stage[w := s.stage[w] + 1],
         trace := s.trace + [Event(k, routes[s.requests[k].msg.id], STAGES[s.stage[w]])])
  }

  predicate Legal(s: Server, routes: Routes, max: Word32, acts: seq<Action>)
    decreases |acts|
  {
    acts == [] || (Enabled(s, routes, max, acts[0]) && Legal(Apply(s, routes, max, acts[0]), routes, max, acts[1..]))
  }

  function Exec(s: Server, routes: Routes, max: Word32, acts: seq<Action>): Server
    requires Legal(s, routes, max, acts)
    decreases |acts|
  {
    if acts == [] then s else Exec(Apply(s, routes, max, acts[0]), routes, max, acts[1..])
  }

  /** Connection c will receive the packed messages of streams[c]. */
  function Init(cap: nat, streams: seq<seq<Message>>): Server {
    var conns := seq(|streams|, c requires 0 <= c < |streams| => Inbound(Stream(streams[c]), false, 0));
    Server(PM.Init(cap), PG.Nobody, conns, [], [], [], [], [])
  }

  /** The requests of one connection, in the order in which they were read. */
  function From(requests: seq<Request>, c: nat): seq<Message> {
    if requests == [] then []
    else (if requests[0].conn == c then [requests[0].msg] else []) + From(requests[1..], c)
  }

  lemma {:induction false} FromAppend(requests: seq<Request>, r: Request, c: nat)
    ensures From(requests + [r], c) == From(requests, c) + if r.conn == c then [r.msg] else []
  {
    if requests == [] {
      assert requests + [r] == [r];
      assert [r][1..] == [];
    } else {
      var first := if requests[0].conn == c then [requests[0].msg] else [];
      var last := if r.conn == c then [r.msg] else [];
      assert (requests + [r])[1..] == requests[1..] + [r];
      FromAppend(requests[1..], r, c);
      assert first + (From(requests[1..], c) + last) == (first + From(requests[1..], c)) + last;
    }
  }

  /** Submission k carries request k. */
  predicate Paired(s: Server) {
    && |s.pool.subs| == |s.requests|
    && forall k :: 0 <= k < |s.requests| ==> s.pool.subs[k].msg == PM.Work(k)
  }

  /** What has been read and what is still to come make up the requests of each stream; no request is a heartbeat. */
  predicate Complete(s: Server, streams: seq<seq<Message>>, max: Word32) {
    && |s.conns| == |streams|
    && (forall c: nat {:trigger streams[c]} :: c < |streams| ==>
         From(s.requests, c) + Requests(Parse(s.conns[c].unread, max).msgs) == Requests(streams[c]))
    && forall k :: 0 <= k < |s.requests| ==> s.requests[k].msg.id != HEARTBEAT_ID
  }

  /** What a worker executes has been started, and has entered the stages before the worker's next one. */
  predicate Underway(s: Server) {
    && |s.stage| == |s.pool.workers| && (forall w :: 0 <= w < |s.stage| ==> s.stage[w] <= 3)
    && forall w :: 0 <= w < |s.pool.workers| && s.pool.workers[w].phase.Executing? ==>
      var k := s.pool.workers[w].phase.task;
      k in s.pool.started && StagesOf(s.trace, k) == STAGES[..s.stage[w]]
  }

  /** Only started requests with a router have entered stages, in order. */
  ghost predicate StagesOrdered(s: Server, routes: Routes) {
    && (forall k: nat :: InOrder(StagesOf(s.trace, k)))
    && (forall k: nat :: StagesOf(s.trace, k) != [] ==> Registered(s, routes, k) && k in s.pool.started)
  }

  /** The stages were those of the router of the request. */
  predicate RouterRight(s: Server, routes: Routes, e: Event) {
    Registered(s, routes, e.request) && e.router == routes[s.requests[e.request].msg.id]
  }

  predicate RoutersRight(s: Server, routes: Routes) {
    forall i :: 0 <= i < |s.trace| ==> RouterRight(s, routes, s.trace[i])
  }

  /** A request that has returned has entered all its stages. */
  predicate ReturnComplete(s: Server, routes: Routes, k: nat) {
    k < |s.requests| && (Registered(s, routes, k) ==> StagesOf(s.trace, k) == STAGES)
  }

  predicate ReturnsComplete(s: Server, routes: Routes) {
    forall i :: 0 <= i < |s.returned| ==> ReturnComplete(s, routes, s.returned[i])
  }

  ghost predicate Traced(s: Server, routes: Routes) {
    StagesOrdered(s, routes) && RoutersRight(s, routes) && ReturnsComplete(s, routes)
  }

  /** Each started request is being handled, or its handling has returned or panicked. */
  ghost predicate Accounted(s: Server) {
    forall k: nat :: Sum(IsKey, s.pool.started, k) ==
      Sum(PW.ExecutingIs, s.pool.workers, k) + Sum(IsKey, s.returned, k) + Sum(IsKey, s.panicked, k)
  }

  ghost predicate Inv(s: Server, routes: Routes, streams: seq<seq<Message>>, max: Word32) {
    PG.FineInv(FineOf(s)) && Paired(s) && Complete(s, streams, max) && Accounted(s) && Underway(s) && Traced(s, routes)
  }

  /** What a step of the pool keeps of the submissions and of the started tasks. */
  predicate Carried(p: PM.Pool, t: PM.Pool) {
    && |t.subs| == |p.subs| && (forall i :: 0 <= i < |p.subs| ==> t.subs[i].msg == p.subs[i].msg)
    && p.started <= t.started
  }

  lemma SubmissionCarries(p: PM.Pool, a: PM.Action)
    requires PM.Enabled(p, a) && PM.BySubmission(a) && !a.Call?
    ensures Carried(p, PM.Apply(p, a))
  {
  }

  lemma WorkerCarries(p: PM.Pool, a: PM.Action)
    requires PM.Enabled(p, a) && PM.ByWorker(a)
    ensures Carried(p, PM.Apply(p, a))
  {
  }

  lemma PurgerCarries(p: PM.Pool, a: PM.Action)
    requires PM.Enabled(p, a) && PM.ByPurger(a)
    ensures Carried(p, PM.Apply(p, a))
  {
  }

  lemma ControlCarries(p: PM.Pool, a: PM.Action)
    requires PM.Enabled(p, a) && PM.ByControl(a)
    ensures Carried(p, PM.Apply(p, a))
  {
  }

  lemma PoolStepFacts(p: PM.Pool, a: PM.Action)
    requires PM.Enabled(p, a) && !a.Call?
    ensures Carried(p, PM.Apply(p, a))
  {
    hide PM.Apply, PM.Enabled, Carried;
    if PM.BySubmission(a) {
      SubmissionCarries(p, a);
    } else if PM.ByWorker(a) {
      WorkerCarries(p, a);
    } else if PM.ByPurger(a) {
      PurgerCarries(p, a);
    } else {
      ControlCarries(p, a);
    }
  }

  /** A started task is the argument of some submission, so it is a request. */
  lemma StartedIsRequest(s: Server, k: nat)
    requires PI.Inv(s.pool) && Paired(s) && k in s.pool.started
    ensures k < |s.requests| && s.pool.subs[k].phase.Accepted?
  {
    var i :| 0 <= i < |s.pool.started| && s.pool.started[i] == k;
    PI.NonNegatives(s.pool, k);
    SumMember(IsKey, s.pool.started, k, i);
    SumNonNegative(PI.MailIs, s.pool.workers, k);
    var j := SumSource(PI.AcceptedIs, s.pool.subs, k);
  }

  lemma StillStarted(p: PM.Pool, t: PM.Pool, k: nat)
    requires p.started <= t.started && k in p.started
    ensures k in t.started
  {
    var i :| 0 <= i < |p.started| && p.started[i] == k;
    assert t.started[i] == k;
  }

  /** No request is started twice. */
  lemma StartedOnce(s: Server, k: nat)
    requires PI.Inv(s.pool) && Paired(s)
    ensures Sum(IsKey, s.pool.started, k) <= 1
  {
    Occurrences(s.pool.started, k);
    if k in s.pool.started {
      StartedIsRequest(s, k);
      hide PI.Inv;
      PW.OnceByInvariant(s.pool, k, k);
    }
  }

  /** So what worker w executes is executed by no other worker and has not ended before. */
  lemma ExecutedOnce(s: Server, w: nat)
    requires PI.Inv(s.pool) && Paired(s) && Accounted(s)
    requires w < |s.pool.workers| && s.pool.workers[w].phase.Executing?
    ensures var k := s.pool.workers[w].phase.task;
      && (forall v :: 0 <= v < |s.pool.workers| && s.pool.workers[v].phase == PM.Executing(k) ==> v == w)
      && k !in s.returned && k !in s.panicked
  {
    var k := s.pool.workers[w].phase.task;
    StartedOnce(s, k);
    hide PI.Inv;
    assert Sum(IsKey, s.pool.started, k) ==
      Sum(PW.ExecutingIs, s.pool.workers, k) + Sum(IsKey, s.returned, k) + Sum(IsKey, s.panicked, k);
    SumNonNegative(IsKey, s.returned, k);
    SumNonNegative(IsKey, s.panicked, k);
    SumMember(PW.ExecutingIs, s.pool.workers, k, w);
    forall v | 0 <= v < |s.pool.workers| && s.pool.workers[v].phase == PM.Executing(k) ensures v == w {
      if v < w { SumTwo(PW.ExecutingIs, s.pool.workers, k, v, w); }
      if w < v { SumTwo(PW.ExecutingIs, s.pool.workers, k, w, v); }
    }
    Occurrences(s.returned, k);
    Occurrences(s.panicked, k);
  }

  /** Worker w executes what it has executed before, or what it has just received. */
  predicate ExecutesAfter(p: PM.Pool, a: PM.Action, t: PM.Pool, w: nat)
    requires w < |t.workers| && t.workers[w].phase.Executing?
  {
    var k := t.workers[w].phase.task;
    if a.Receive? && a.w == w then
      w < |p.workers| && p.workers[w].mail == PM.Full(PM.Work(k)) && t.started == p.started + [k]
    else
      w < |p.workers| && p.workers[w].phase == t.workers[w].phase
  }

  /** How a step of the pool moves the executing workers. */
  predicate ExecutingCarried(p: PM.Pool, a: PM.Action, t: PM.Pool)
    requires PM.Enabled(p, a)
  {
    && |t.workers| == |p.workers| + (if a.Get? && a.w == |p.workers| then 1 else 0)
    && forall w: nat :: w < |t.workers| && t.workers[w].phase.Executing? ==> ExecutesAfter(p, a, t, w)
  }

  lemma SubmissionMovesExecuting(p: PM.Pool, a: PM.Action)
    requires PM.Enabled(p, a) && PM.BySubmission(a)
    ensures ExecutingCarried(p, a, PM.Apply(p, a))
  {
  }

  lemma WorkerMovesExecuting(p: PM.Pool, a: PM.Action)
    requires PM.Enabled(p, a) && PM.ByWorker(a)
    ensures ExecutingCarried(p, a, PM.Apply(p, a))
  {
  }

  lemma PurgerMovesExecuting(p: PM.Pool, a: PM.Action)
    requires PM.Enabled(p, a) && PM.ByPurger(a)
    ensures ExecutingCarried(p, a, PM.Apply(p, a))
  {
  }

  lemma ControlMovesExecuting(p: PM.Pool, a: PM.Action)
    requires PM.Enabled(p, a) && PM.ByControl(a)
    ensures ExecutingCarried(p, a, PM.Apply(p, a))
  {
    if a.Reset? {
      PI.FinishAllChanges(p.workers, p.stack, 0);
    }
  }

  lemma PoolStepExecuting(p: PM.Pool, a: PM.Action)
    requires PM.Enabled(p, a)
    ensures ExecutingCarried(p, a, PM.Apply(p, a))
  {
    hide PM.Apply, PM.Enabled, ExecutingCarried;
    if PM.BySubmission(a) {
      SubmissionMovesExecuting(p, a);
    } else if PM.ByWorker(a) {
      WorkerMovesExecuting(p, a);
    } else if PM.ByPurger(a) {
      PurgerMovesExecuting(p, a);
    } else {
      ControlMovesExecuting(p, a);
    }
  }

  /** A task that is about to start has not entered a stage: it would have been started before. */
  lemma NothingEntered(s: Server, routes: Routes, a: PM.Action, k: nat)
    requires PI.Inv(s.pool) && Paired(s) && Traced(s, routes) && PM.Enabled(s.pool, a) && !a.Call?
    requires a.Receive? && s.pool.workers[a.w].mail == PM.Full(PM.Work(k))
    ensures StagesOf(s.trace, k) == []
  {
    var t := s.(pool := PM.Apply(s.pool, a));
    PI.StepKeeps(s.pool, a);
    PoolStepFacts(s.pool, a);
    StartedOnce(t, k);
    PW.ExecutingMoves(s.pool, a, k);
    hide PM.Apply, PI.Inv, StagesOf;
    if k in s.pool.started {
      var i :| 0 <= i < |s.pool.started| && s.pool.started[i] == k;
      SumMember(IsKey, s.pool.started, k, i);
    }
  }

  lemma PoolStepUnderway(s: Server, routes: Routes, max: Word32, a: PM.Action)
    requires PI.Inv(s.pool) && Paired(s) && Underway(s) && Traced(s, routes) && Enabled(s, routes, max, PoolStep(a))
    ensures Underway(Apply(s, routes, max, PoolStep(a)))
  {
    var t := Apply(s, routes, max, PoolStep(a));
    PoolStepFacts(s.pool, a);
    PoolStepExecuting(s.pool, a);
    forall k: nat | a.Receive? && s.pool.workers[a.w].mail == PM.Full(PM.Work(k)) ensures StagesOf(s.trace, k) == [] {
      NothingEntered(s, routes, a, k);
    }
    hide PM.Apply, PI.Inv, StagesOf;
    forall w | 0 <= w < |t.pool.workers| && t.pool.workers[w].phase.Executing?
      ensures var k := t.pool.workers[w].phase.task;
        k in t.pool.started && StagesOf(t.trace, k) == STAGES[..t.stage[w]]
    {
      var k := t.pool.workers[w].phase.task;
      if a.Receive? && w == a.w {
        assert t.pool.started[|s.pool.started|] == k;
        assert STAGES[..0] == [];
      } else {
        StillStarted(s.pool, t.pool, k);
      }
    }
  }

  lemma PoolStepOrdered(s: Server, routes: Routes, max: Word32, a: PM.Action)
    requires StagesOrdered(s, routes) && Enabled(s, routes, max, PoolStep(a))
    ensures StagesOrdered(Apply(s, routes, max, PoolStep(a)), routes)
  {
    var t := Apply(s, routes, max, PoolStep(a));
    PoolStepFacts(s.pool, a);
    hide PM.Apply, StagesOf;
    forall k: nat | k in s.pool.started ensures k in t.pool.started {
      StillStarted(s.pool, t.pool, k);
    }
  }

  lemma PoolStepReturns(s: Server, routes: Routes, max: Word32, a: PM.Action)
    requires PI.Inv(s.pool) && Paired(s) && Underway(s) && ReturnsComplete(s, routes)
        && Enabled(s, routes, max, PoolStep(a))
    ensures ReturnsComplete(Apply(s, routes, max, PoolStep(a)), routes)
  {
    hide PI.Inv, StagesOf;
    var t := Apply(s, routes, max, PoolStep(a));
    if a.Return? {
      var k := s.pool.workers[a.w].phase.task;
      assert k in s.pool.started;
      StartedIsRequest(s, k);
      assert STAGES[..3] == STAGES;
      assert ReturnComplete(s, routes, k);
    }
    hide PM.Apply, Underway;
    forall i | 0 <= i < |t.returned| ensures ReturnComplete(t, routes, t.returned[i]) {
      assert ReturnComplete(s, routes, t.returned[i]);
    }
  }

  lemma PoolStepTraced(s: Server, routes: Routes, max: Word32, a: PM.Action)
    requires PI.Inv(s.pool) && Paired(s) && Underway(s) && Traced(s, routes) && Enabled(s, routes, max, PoolStep(a))
    ensures Traced(Apply(s, routes, max, PoolStep(a)), routes)
  {
    PoolStepOrdered(s, routes, max, a);
    PoolStepReturns(s, routes, max, a);
    hide PM.Apply, PI.Inv, StagesOrdered, ReturnsComplete, Underway;
  }

  lemma PoolStepAccounted(s: Server, routes: Routes, max: Word32, a: PM.Action)
    requires PI.Inv(s.pool) && Accounted(s) && Enabled(s, routes, max, PoolStep(a))
    ensures Accounted(Apply(s, routes, max, PoolStep(a)))
  {
    var t := Apply(s, routes, max, PoolStep(a));
    forall k: nat
      ensures Sum(IsKey, t.pool.started, k) ==
        Sum(PW.ExecutingIs, t.pool.workers, k) + Sum(IsKey, t.returned, k) + Sum(IsKey, t.panicked, k)
    {
      PW.ExecutingMoves(s.pool, a, k);
      hide PM.Apply, PI.Inv;
      if a.Return? {
        SumAppend(IsKey, s.returned, s.pool.workers[a.w].phase.task, k);
      } else if a.Panic? {
        SumAppend(IsKey, s.panicked, s.pool.workers[a.w].phase.task, k);
      }
    }
  }

  lemma PoolStepKeeps(s: Server, routes: Routes, streams: seq<seq<Message>>, max: Word32, a: PM.Action)
    requires Inv(s, routes, streams, max) && Enabled(s, routes, max, PoolStep(a))
    ensures Inv(Apply(s, routes, max, PoolStep(a)), routes, streams, max)
  {
    PG.FineStep(FineOf(s), PG.Plain(a));
    PoolStepFacts(s.pool, a);
    PoolStepAccounted(s, routes, max, a);
    PoolStepUnderway(s, routes, max, a);
    PoolStepTraced(s, routes, max, a);
    hide PM.Apply, PM.Enabled, Underway, Traced, Accounted;
    assert Complete(Apply(s, routes, max, PoolStep(a)), streams, max);
  }

  /** The stages of every request after a worker has entered its next one. */
  lemma StagesAfter(s: Server, routes: Routes, max: Word32, w: nat, j: nat)
    requires Underway(s) && Enabled(s, routes, max, HandlerStep(w))
    ensures var t, k := Apply(s, routes, max, HandlerStep(w)), s.pool.workers[w].phase.task;
      StagesOf(t.trace, j) == if j == k then STAGES[..s.stage[w] + 1] else StagesOf(s.trace, j)
  {
    var k := s.pool.workers[w].phase.task;
    StagesAppend(s.trace, Event(k, routes[s.requests[k].msg.id], STAGES[s.stage[w]]), j);
  }

  lemma HandlerStepUnderway(s: Server, routes: Routes, max: Word32, w: nat)
    requires PI.Inv(s.pool) && Paired(s) && Accounted(s) && Underway(s) && Enabled(s, routes, max, HandlerStep(w))
    ensures Underway(Apply(s, routes, max, HandlerStep(w)))
  {
    var t := Apply(s, routes, max, HandlerStep(w));
    ExecutedOnce(s, w);
    hide StagesOf, PI.Inv, Accounted;
    forall v | 0 <= v < |t.pool.workers| && t.pool.workers[v].phase.Executing?
      ensures StagesOf(t.trace, t.pool.workers[v].phase.task) == STAGES[..t.stage[v]]
    {
      StagesAfter(s, routes, max, w, t.pool.workers[v].phase.task);
    }
  }

  lemma HandlerStepOrdered(s: Server, routes: Routes, max: Word32, w: nat)
    requires Underway(s) && StagesOrdered(s, routes) && Enabled(s, routes, max, HandlerStep(w))
    ensures StagesOrdered(Apply(s, routes, max, HandlerStep(w)), routes)
  {
    hide StagesOf;
    var t := Apply(s, routes, max, HandlerStep(w));
    forall j: nat
      ensures InOrder(StagesOf(t.trace, j))
      ensures StagesOf(t.trace, j) != [] ==> Registered(t, routes, j) && j in t.pool.started
    {
      StagesAfter(s, routes, max, w, j);
    }
  }

  lemma HandlerStepReturns(s: Server, routes: Routes, max: Word32, w: nat)
    requires PI.Inv(s.pool) && Paired(s) && Accounted(s) && Underway(s) && ReturnsComplete(s, routes)
    requires Enabled(s, routes, max, HandlerStep(w))
    ensures ReturnsComplete(Apply(s, routes, max, HandlerStep(w)), routes)
  {
    hide StagesOf, PI.Inv, Accounted;
    var t := Apply(s, routes, max, HandlerStep(w));
    ExecutedOnce(s, w);
    forall i | 0 <= i < |t.returned| ensures ReturnComplete(t, routes, t.returned[i]) {
      assert ReturnComplete(s, routes, s.returned[i]);
      StagesAfter(s, routes, max, w, s.returned[i]);
    }
  }

  lemma HandlerStepTraced(s: Server, routes: Routes, max: Word32, w: nat)
    requires PI.Inv(s.pool) && Paired(s) && Accounted(s) && Underway(s) && Traced(s, routes)
    requires Enabled(s, routes, max, HandlerStep(w))
    ensures Traced(Apply(s, routes, max, HandlerStep(w)), routes)
  {
    HandlerStepOrdered(s, routes, max, w);
    HandlerStepReturns(s, routes, max, w);
    hide StagesOf, PI.Inv, Accounted, Underway, StagesOrdered, ReturnsComplete;
  }

  lemma HandlerStepKeeps(s: Server, routes: Routes, streams: seq<seq<Message>>, max: Word32, w: nat)
    requires Inv(s, routes, streams, max) && Enabled(s, routes, max, HandlerStep(w))
    ensures Inv(Apply(s, routes, max, HandlerStep(w)), routes, streams, max)
  {
    HandlerStepUnderway(s, routes, max, w);
    HandlerStepTraced(s, routes, max, w);
    hide StagesOf, Parse, From, Requests, Underway, Traced;
    assert Complete(Apply(s, routes, max, HandlerStep(w)), streams, max);
  }

  /** What stream d has delivered and still has to deliver, after a frame of connection c. */
  lemma ReadFrameSplits(s: Server, routes: Routes, max: Word32, c: nat, d: nat)
    requires Enabled(s, routes, max, ReadFrame(c)) && d < |s.conns|
    ensures var t := Apply(s, routes, max, ReadFrame(c));
      From(t.requests, d) + Requests(Parse(t.conns[d].unread, max).msgs) ==
      From(s.requests, d) + Requests(Parse(s.conns[d].unread, max).msgs)
  {
    hide Parse, Requests;
    var t := Apply(s, routes, max, ReadFrame(c));
    var cut := CutOne(s.conns[c].unread, max);
    if cut.Dropped? {
      DroppedRequests(s.conns[c].unread, max);
    }
    if cut.Frame? {
      FrameRequests(s.conns[c].unread, max);
      if cut.msg.id != HEARTBEAT_ID {
        FromAppend(s.requests, Request(c, cut.msg), d);
      }
    }
  }

  lemma DroppedRequests(b: seq<Byte>, max: Word32)
    requires CutOne(b, max).Dropped?
    ensures Parse(b, max) == Parse(CutOne(b, max).rest, max)
  {
  }

  lemma FrameRequests(b: seq<Byte>, max: Word32)
    requires CutOne(b, max).Frame?
    ensures var cut := CutOne(b, max);
      Requests(Parse(b, max).msgs) ==
          (if cut.msg.id == HEARTBEAT_ID then [] else [cut.msg]) + Requests(Parse(cut.rest, max).msgs)
  {
    var cut := CutOne(b, max);
    OneRequest(cut.msg);
    RequestsConcat([cut.msg], Parse(cut.rest, max).msgs);
  }

  lemma ReadFrameCompletes(s: Server, routes: Routes, streams: seq<seq<Message>>, max: Word32, c: nat)
    requires Complete(s, streams, max) && Enabled(s, routes, max, ReadFrame(c))
    ensures Complete(Apply(s, routes, max, ReadFrame(c)), streams, max)
  {
    hide Parse, From, Requests;
    var t := Apply(s, routes, max, ReadFrame(c));
    forall d: nat | d < |streams|
      ensures From(t.requests, d) + Requests(Parse(t.conns[d].unread, max).msgs) == Requests(streams[d])
    {
      ReadFrameSplits(s, routes, max, c, d);
    }
  }

  lemma ReadFrameKeeps(s: Server, routes: Routes, streams: seq<seq<Message>>, max: Word32, c: nat)
    requires Inv(s, routes, streams, max) && Enabled(s, routes, max, ReadFrame(c))
    ensures Inv(Apply(s, routes, max, ReadFrame(c)), routes, streams, max)
  {
    hide Complete, Parse, From, Requests;
    ReadFrameCompletes(s, routes, streams, max, c);
    PG.FineStep(FineOf(s), PG.Plain(PM.Call(PM.Work(|s.requests|))));
    var t := Apply(s, routes, max, ReadFrame(c));
    assert Traced(t, routes) && Underway(t) && Accounted(t) by {
      hide StagesOf;
      assert t.trace == s.trace && t.returned == s.returned && t.stage == s.stage;
      assert t.pool.started == s.pool.started && t.pool.workers == s.pool.workers;
      assert s.requests <= t.requests;
    }
  }

  /** An entry into the notify list moves nothing but the phase of its submission. */
  lemma EnqueueKeeps(s: Server, routes: Routes, streams: seq<seq<Message>>, max: Word32)
    requires Inv(s, routes, streams, max) && Enabled(s, routes, max, Enqueue)
    ensures Inv(Apply(s, routes, max, Enqueue), routes, streams, max)
  {
    PG.FineStep(FineOf(s), PG.Enqueue);
    hide Parse, From, Requests, StagesOf, PI.Inv;
    assert Complete(Apply(s, routes, max, Enqueue), streams, max);
  }

  lemma FindFullKeeps(s: Server, routes: Routes, streams: seq<seq<Message>>, max: Word32, i: nat)
    requires Inv(s, routes, streams, max) && Enabled(s, routes, max, FindFull(i))
    ensures Inv(Apply(s, routes, max, FindFull(i)), routes, streams, max)
  {
    PG.FineStep(FineOf(s), PG.FindFull(i));
    hide Parse, From, Requests, StagesOf, PI.Inv;
    assert Complete(Apply(s, routes, max, FindFull(i)), streams, max);
  }

  lemma ResumeKeeps(s: Server, routes: Routes, streams: seq<seq<Message>>, max: Word32, c: nat)
    requires Inv(s, routes, streams, max) && Enabled(s, routes, max, Resume(c))
    ensures Inv(Apply(s, routes, max, Resume(c)), routes, streams, max)
  {
    hide Parse, From, Requests, StagesOf;
    assert Complete(Apply(s, routes, max, Resume(c)), streams, max);
  }

  lemma StepKeeps(s: Server, routes: Routes, streams: seq<seq<Message>>, max: Word32, act: Action)
    requires Inv(s, routes, streams, max) && Enabled(s, routes, max, act)
    ensures Inv(Apply(s, routes, max, act), routes, streams, max)
  {
    hide *;
    match act
    case ReadFrame(c) => ReadFrameKeeps(s, routes, streams, max, c);
    case Resume(c) => ResumeKeeps(s, routes, streams, max, c);
    case PoolStep(a) => PoolStepKeeps(s, routes, streams, max, a);
    case FindFull(i) => FindFullKeeps(s, routes, streams, max, i);
    case Enqueue => EnqueueKeeps(s, routes, streams, max);
    case HandlerStep(w) => HandlerStepKeeps(s, routes, streams, max, w);
  }

  lemma {:induction false} RunKeeps(s: Server, routes: Routes, streams: seq<seq<Message>>, max: Word32,
      acts: seq<Action>)
    requires Inv(s, routes, streams, max) && Legal(s, routes, max, acts)
    ensures Inv(Exec(s, routes, max, acts), routes, streams, max)
    decreases |acts|
  {
    if acts != [] {
      StepKeeps(s, routes, streams, max, acts[0]);
      RunKeeps(Apply(s, routes, max, acts[0]), routes, streams, max, acts[1..]);
    }
  }

  lemma Start(cap: nat, routes: Routes, streams: seq<seq<Message>>, max: Word32)
    requires cap >= 1 && forall c :: 0 <= c < |streams| ==> AllFit(streams[c], max)
    ensures Inv(Init(cap, streams), routes, streams, max)
  {
    PI.Start(cap);
    var s := Init(cap, streams);
    forall c: nat | c < |streams|
      ensures From(s.requests, c) + Requests(Parse(s.conns[c].unread, max).msgs) == Requests(streams[c])
    {
      ParseOfStream(streams[c], max);
    }
  }

  // What the invariant says to somebody who knows the streams, the calls and the routers only.

  /**
   * The requests read from each stream are a prefix of its non-heartbeat messages, and all of them
   * once it is read up.
   */
  predicate Arrived(s: Server, streams: seq<seq<Message>>) {
    && |s.conns| == |streams|
    && (forall c: nat {:trigger streams[c]} :: c < |streams| ==>
         From(s.requests, c) <= Requests(streams[c])
             && (s.conns[c].unread == [] ==> From(s.requests, c) == Requests(streams[c])))
    && forall k :: 0 <= k < |s.requests| ==> s.requests[k].msg.id != HEARTBEAT_ID
  }

  /** Request k is mailed or started exactly once if its call was accepted, and not at all otherwise. */
  predicate HandedOnce(s: Server) {
    && |s.pool.subs| == |s.requests|
    && forall k: nat {:trigger s.pool.subs[k]} :: k < |s.requests| ==>
      PW.Mailed(s.pool.workers)[k] + multiset(s.pool.started)[k] == if s.pool.subs[k].phase.Accepted? then 1 else 0
  }

  /** A started request is being handled, or has returned, or has panicked: exactly one of them. */
  ghost predicate EndedOnce(s: Server) {
    forall k: nat :: multiset(s.pool.started)[k] ==
      Sum(PW.ExecutingIs, s.pool.workers, k) + multiset(s.returned)[k] + multiset(s.panicked)[k]
  }

  /**
   * Only started requests with a router enter stages, those of that router, in order and each at
   * most once; a request that has returned has entered all of them.
   */
  ghost predicate Routed(s: Server, routes: Routes) {
    && (forall k: nat :: InOrder(StagesOf(s.trace, k)))
    && (forall k: nat :: StagesOf(s.trace, k) != [] ==> Registered(s, routes, k) && k in s.pool.started)
    && (forall i :: 0 <= i < |s.trace| ==> RouterRight(s, routes, s.trace[i]))
    && (forall k: nat :: k in s.returned && Registered(s, routes, k) ==> StagesOf(s.trace, k) == STAGES)
  }

  lemma ReadUp(s: Server, streams: seq<seq<Message>>, max: Word32)
    requires Complete(s, streams, max)
    ensures Arrived(s, streams)
  {
    forall c: nat | c < |streams|
      ensures From(s.requests, c) <= Requests(streams[c])
          && (s.conns[c].unread == [] ==> From(s.requests, c) == Requests(streams[c]))
    {
      assert From(s.requests, c) + Requests(Parse(s.conns[c].unread, max).msgs) == Requests(streams[c]);
    }
  }

  lemma Once(s: Server)
    requires PI.Inv(s.pool) && Paired(s)
    ensures HandedOnce(s)
  {
    hide PI.Inv;
    forall k: nat | k < |s.requests|
      ensures PW.Mailed(s.pool.workers)[k] + multiset(s.pool.started)[k] ==
        if s.pool.subs[k].phase.Accepted? then 1 else 0
    {
      PW.OnceByInvariant(s.pool, k, k);
    }
  }

  lemma EndsOnce(s: Server)
    requires Accounted(s)
    ensures EndedOnce(s)
  {
    forall k: nat
      ensures multiset(s.pool.started)[k] ==
        Sum(PW.ExecutingIs, s.pool.workers, k) + multiset(s.returned)[k] + multiset(s.panicked)[k]
    {
      Occurrences(s.pool.started, k);
      Occurrences(s.returned, k);
      Occurrences(s.panicked, k);
    }
  }

  lemma TracedIsRouted(s: Server, routes: Routes)
    requires Traced(s, routes)
    ensures Routed(s, routes)
  {
    hide StagesOf;
  }

  /** For any streams of well-formed frames, any routers and any schedule of readers, pool and handlers. */
  lemma HandledInOrder(cap: nat, routes: Routes, streams: seq<seq<Message>>, max: Word32, acts: seq<Action>)
    requires cap >= 1 && (forall c :: 0 <= c < |streams| ==> AllFit(streams[c], max))
    requires Legal(Init(cap, streams), routes, max, acts)
    ensures var s := Exec(Init(cap, streams), routes, max, acts);
      Arrived(s, streams) && HandedOnce(s) && EndedOnce(s) && Routed(s, routes)
  {
    hide Legal, Exec, Init, Arrived, HandedOnce, EndedOnce, Routed, Traced, Underway, Accounted, Complete, Paired;
    var s := Exec(Init(cap, streams), routes, max, acts);
    Start(cap, routes, streams, max);
    RunKeeps(Init(cap, streams), routes, streams, max, acts);
    ReadUp(s, streams, max);
    Once(s);
    EndsOnce(s);
    TracedIsRouted(s, routes);
  }
}

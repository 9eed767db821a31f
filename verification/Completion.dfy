/**
 * Nothing is forgotten: the steps of a server come to an end, and when one whose pool is not released
 * has no step left to take, every request of every stream has been handled, unless submissions wait
 * in an empty pool; then each round of the ticker gets another one accepted.
 */
module Completion {
  import opened Sums
  import opened Codec
  import opened Framing
  import opened EndToEnd
  import PU = PoolWakeup
  import PD = PoolDrain
  import PR = PoolRescue

  /** The steps that are under way; the rest are the ticker and the control calls that may still come. */
  predicate InternalStep(act: Action) { act.PoolStep? ==> PD.Internal(act.a) }

  /** Those, the ticker and Tune, but no Release, Reboot or end of the purger. */
  predicate WorkingStep(act: Action) { act.PoolStep? ==> PR.Working(act.a) }

  ghost predicate Quiet(s: Server, routes: Routes, max: Word32) {
    forall act: Action :: InternalStep(act) ==> !Enabled(s, routes, max, act)
  }

  predicate AllWorking(acts: seq<Action>) { forall i :: 0 <= i < |acts| ==> WorkingStep(acts[i]) }
  predicate AllInternal(acts: seq<Action>) { forall i :: 0 <= i < |acts| ==> InternalStep(acts[i]) }

  /** The pool is open and has turned nobody away, and its purger is alive. */
  predicate OpenPool(p: PM.Pool) {
    !p.closed && !p.purger.Gone? && forall i :: 0 <= i < |p.subs| ==> !p.subs[i].phase.Rejected?
  }

  predicate CallsKnown(s: Server) {
    forall c :: 0 <= c < |s.conns| && s.conns[c].busy ==> s.conns[c].call < |s.pool.subs|
  }

  predicate Serving(s: Server) { OpenPool(s.pool) && PR.Matched(s.pool) && CallsKnown(s) }

  lemma StaysOpen(p: PM.Pool, a: PM.Action)
    requires OpenPool(p) && PM.Enabled(p, a) && PR.Working(a)
    ensures OpenPool(PM.Apply(p, a)) && |PM.Apply(p, a).subs| >= |p.subs|
  {
    if PM.BySubmission(a) {
      hide PM.WorkerStep, PM.PurgerStep, PM.ControlStep;
    } else {
      PI.OthersOnlyWake(p, a);
      OthersDoNotClose(p, a);
      hide PM.Apply, PM.Enabled;
    }
  }

  lemma OthersDoNotClose(p: PM.Pool, a: PM.Action)
    requires !p.closed && !p.purger.Gone? && PM.Enabled(p, a) && PR.Working(a)
    ensures !PM.Apply(p, a).closed && !PM.Apply(p, a).purger.Gone?
  {
  }

  lemma EntryStaysOpen(p: PM.Pool, i: nat)
    requires OpenPool(p) && PG.Looks(p, i)
    ensures OpenPool(PG.Wait(p, i)) && |PG.Wait(p, i).subs| == |p.subs|
  {
  }

  lemma ServingStep(s: Server, routes: Routes, max: Word32, act: Action)
    requires PG.FineInv(FineOf(s)) && Serving(s) && Enabled(s, routes, max, act) && WorkingStep(act)
    ensures Serving(Apply(s, routes, max, act))
  {
    match act
    case PoolStep(a) =>
      StaysOpen(s.pool, a);
      PR.FineMatchedStep(FineOf(s), PG.Plain(a));
      hide PM.Apply, PM.Enabled, PI.Inv, PR.Matched, OpenPool;
    case ReadFrame(c) =>
      var call := PM.Call(PM.Work(|s.requests|));
      StaysOpen(s.pool, call);
      PR.MatchedStep(s.pool, call);
      hide PI.Inv, PR.Matched, OpenPool, CutOne;
    case Enqueue =>
      EntryStaysOpen(s.pool, s.parking.i);
      PR.FineMatchedStep(FineOf(s), PG.Enqueue);
      hide PI.Inv, PR.Matched, OpenPool;
    case _ =>
  }

  lemma InvParts(s: Server, routes: Routes, streams: seq<seq<Message>>, max: Word32)
    requires Inv(s, routes, streams, max)
    ensures PG.FineInv(FineOf(s)) && PI.Inv(s.pool) && Underway(s)
    ensures HandedOnce(s) && EndedOnce(s) && Arrived(s, streams) && Routed(s, routes) && Complete(s, streams, max)
  {
    hide PI.Inv, Paired, Complete, Accounted, Underway, Traced, HandedOnce, EndedOnce, Arrived, Routed;
    ReadUp(s, streams, max);
    Once(s);
    EndsOnce(s);
    TracedIsRouted(s, routes);
  }

  lemma {:induction false} ServingRun(s: Server, routes: Routes, streams: seq<seq<Message>>, max: Word32,
      acts: seq<Action>)
    requires Inv(s, routes, streams, max) && Serving(s) && Legal(s, routes, max, acts) && AllWorking(acts)
    ensures Inv(Exec(s, routes, max, acts), routes, streams, max) && Serving(Exec(s, routes, max, acts))
    decreases |acts|
  {
    hide Enabled, Apply, Inv, Serving;
    if acts != [] {
      InvParts(s, routes, streams, max);
      StepKeeps(s, routes, streams, max, acts[0]);
      ServingStep(s, routes, max, acts[0]);
      ServingRun(Apply(s, routes, max, acts[0]), routes, streams, max, acts[1..]);
    }
  }

  /** A handler that is not done can enter its next stage, so it does not keep a pool from settling. */
  lemma QuietPoolSettled(s: Server, routes: Routes, max: Word32)
    requires PG.FineInv(FineOf(s)) && Underway(s) && Quiet(s, routes, max)
    ensures PD.Settled(s.pool) && s.parking.Nobody?
  {
    hide PI.Inv, PD.Settled, PM.Enabled;
    PG.MovesUnlessSettled(FineOf(s));
    if PG.CanMove(FineOf(s)) {
      var x: PG.Step :| PG.CanStep(FineOf(s), x) && (x.Plain? ==> PD.Internal(x.a));
      var act := StepOf(s, routes, max, x);
      assert false;
    }
  }

  lemma StepOf(s: Server, routes: Routes, max: Word32, x: PG.Step) returns (act: Action)
    requires Underway(s) && PG.CanStep(FineOf(s), x) && (x.Plain? ==> PD.Internal(x.a))
    ensures InternalStep(act) && Enabled(s, routes, max, act)
  {
    match x
    case Plain(a) => act := if a.Return? && !HandlerDone(s, routes, a.w) then HandlerStep(a.w) else PoolStep(a);
    case FindFull(i) => act := FindFull(i);
    case Enqueue => act := Enqueue;
  }

  /** If nobody waits all calls have returned, and none with an error. */
  lemma QuietCallAccepted(s: Server, i: nat)
    requires PD.Settled(s.pool) && OpenPool(s.pool) && PI.Waiters(s.pool.subs) == 0 && i < |s.pool.subs|
    ensures s.pool.subs[i].phase.Accepted?
  {
    PI.NonNegatives(s.pool, 0);
    if s.pool.subs[i].phase.Waiting? {
      SumMember(PI.IsWaiting, s.pool.subs, 0, i);
    }
    assert PD.SubSettled(s.pool.subs[i]);
  }

  lemma ResumeReady(s: Server, routes: Routes, max: Word32, c: nat)
    requires c < |s.conns| && s.conns[c].busy && s.conns[c].call < |s.pool.subs|
    requires s.pool.subs[s.conns[c].call].phase.Accepted?
    ensures InternalStep(Resume(c)) && Enabled(s, routes, max, Resume(c))
  {
  }

  /** Then every reader has read what its stream holds. */
  lemma QuietReadersDone(s: Server, routes: Routes, max: Word32, c: nat)
    requires PG.FineInv(FineOf(s)) && Underway(s) && Serving(s) && Quiet(s, routes, max)
    requires PI.Waiters(s.pool.subs) == 0 && c < |s.conns|
    ensures Parse(s.conns[c].unread, max).msgs == []
  {
    QuietPoolSettled(s, routes, max);
    hide PI.Inv, Underway, PR.Matched, PD.Settled, OpenPool;
    if s.conns[c].busy {
      QuietCallAccepted(s, s.conns[c].call);
      ResumeReady(s, routes, max, c);
      assert false;
    }
    assert InternalStep(ReadFrame(c)) && !Enabled(s, routes, max, ReadFrame(c));
  }

  /** And no task is mailed or executing, so what was accepted has been started and has ended. */
  lemma QuietRequestEnded(s: Server, routes: Routes, max: Word32, k: nat)
    requires PG.FineInv(FineOf(s)) && Underway(s) && Serving(s) && Quiet(s, routes, max)
    requires HandedOnce(s) && EndedOnce(s) && PI.Waiters(s.pool.subs) == 0 && k < |s.requests|
    ensures multiset(s.returned)[k] + multiset(s.panicked)[k] == 1
  {
    QuietPoolSettled(s, routes, max);
    QuietCallAccepted(s, k);
    MailEmpty(s.pool);
    AllZero(PI.MailIs, s.pool.workers, k);
    AllZero(PW.ExecutingIs, s.pool.workers, k);
    PW.MailedCount(s.pool.workers, k);
  }

  lemma MailEmpty(p: PM.Pool)
    requires PI.Inv(p) && PD.Settled(p)
    ensures forall w :: 0 <= w < |p.workers| ==> p.workers[w].mail.Empty? && !p.workers[w].phase.Executing?
  {
    forall w | 0 <= w < |p.workers| ensures p.workers[w].mail.Empty? && !p.workers[w].phase.Executing? {
      assert PD.WorkerSettled(p.workers[w]);
    }
  }

  /** Every request of every stream has been read, and its handling has returned or panicked, once. */
  ghost predicate Done(s: Server, streams: seq<seq<Message>>, routes: Routes) {
    && (forall c: nat {:trigger streams[c]} :: c < |streams| ==> From(s.requests, c) == Requests(streams[c]))
    && (forall k: nat {:trigger s.requests[k]} :: k < |s.requests| ==>
        multiset(s.returned)[k] + multiset(s.panicked)[k] == 1)
    && Routed(s, routes)
  }

  /** A request that has ended was accepted, so its call does not wait. */
  lemma EndedWasAccepted(s: Server, k: nat)
    requires HandedOnce(s) && EndedOnce(s) && k < |s.requests|
    requires multiset(s.returned)[k] + multiset(s.panicked)[k] == 1
    ensures k < |s.pool.subs| && s.pool.subs[k].phase.Accepted?
  {
    PI.NonNegatives(s.pool, k);
    ExecutingCounts(s.pool, k);
    assert multiset(s.pool.started)[k] >= 1;
    assert s.pool.subs[k] == s.pool.subs[k];
  }

  lemma ExecutingCounts(p: PM.Pool, k: nat)
    ensures Sum(PW.ExecutingIs, p.workers, k) >= 0
  {
    SumNonNegative(PW.ExecutingIs, p.workers, k);
  }

  lemma DoneHasNoWaiter(s: Server, streams: seq<seq<Message>>, routes: Routes)
    requires HandedOnce(s) && EndedOnce(s) && Done(s, streams, routes)
    ensures PI.Waiters(s.pool.subs) == 0
  {
    forall i | 0 <= i < |s.pool.subs| ensures PI.IsWaiting(s.pool.subs[i], 0) == 0 {
      assert s.requests[i] == s.requests[i];
      EndedWasAccepted(s, i);
    }
    AllZero(PI.IsWaiting, s.pool.subs, 0);
  }

  /**
   * A server without a step left is done if and only if no submission waits, and those that wait find
   * their pool empty: every worker has left.
   */
  lemma QuietExact(s: Server, routes: Routes, streams: seq<seq<Message>>, max: Word32)
    requires Inv(s, routes, streams, max) && Serving(s) && Quiet(s, routes, max)
    ensures Done(s, streams, routes) <==> PI.Waiters(s.pool.subs) == 0
    ensures PI.Waiters(s.pool.subs) > 0 ==> s.pool.stack == [] && s.pool.running == 0
    ensures PD.Settled(s.pool) && s.parking.Nobody? && s.pool.purger.Sleeping?
  {
    InvParts(s, routes, streams, max);
    QuietPoolSettled(s, routes, max);
    hide Quiet, Inv, HandedOnce, EndedOnce, Arrived, Routed, Underway, Complete, From, Requests, Parse;
    PU.CreditNonNegative(s.pool);
    if PI.Waiters(s.pool.subs) > 0 {
      PR.SettledIsEmpty(s.pool);
      if Done(s, streams, routes) {
        DoneHasNoWaiter(s, streams, routes);
      }
    } else {
      hide PI.Inv, PD.Settled, PR.Matched;
      forall c: nat | c < |streams| ensures From(s.requests, c) == Requests(streams[c]) {
        NothingMore(s, routes, streams, max, c);
      }
      forall k: nat | k < |s.requests| ensures multiset(s.returned)[k] + multiset(s.panicked)[k] == 1 {
        QuietRequestEnded(s, routes, max, k);
      }
    }
  }

  lemma NothingMore(s: Server, routes: Routes, streams: seq<seq<Message>>, max: Word32, c: nat)
    requires PG.FineInv(FineOf(s)) && Underway(s) && Serving(s) && Quiet(s, routes, max) && PI.Waiters(s.pool.subs) == 0
    requires Complete(s, streams, max) && c < |streams|
    ensures From(s.requests, c) == Requests(streams[c])
  {
    QuietReadersDone(s, routes, max, c);
    assert From(s.requests, c) + Requests(Parse(s.conns[c].unread, max).msgs) == Requests(streams[c]);
  }

  // Runs without a lost wake-up.

  /** Entries that would still find the pool full, and stores of Tune that announce what they raise. */
  predicate CalmStep(s: Server, routes: Routes, max: Word32, act: Action)
    requires Enabled(s, routes, max, act)
  {
    match act
    case PoolStep(a) => PU.Calm(s.pool, a)
    case Enqueue => PG.CalmStep(FineOf(s), PG.Enqueue)
    case _ => true
  }

  predicate CalmRun(s: Server, routes: Routes, max: Word32, acts: seq<Action>)
    requires Legal(s, routes, max, acts)
    decreases |acts|
  {
    acts == [] || (
      && CalmStep(s, routes, max, acts[0])
      && CalmRun(Apply(s, routes, max, acts[0]), routes, max, acts[1..]))
  }

  lemma WakeStep(s: Server, routes: Routes, max: Word32, act: Action)
    requires PG.FineInv(FineOf(s)) && PU.Wake(s.pool) && Enabled(s, routes, max, act) && CalmStep(s, routes, max, act)
    ensures PU.Wake(Apply(s, routes, max, act).pool)
  {
    match act
    case PoolStep(a) => PU.WakeStep(s.pool, a);
    case Enqueue => PG.FineWakeStep(FineOf(s), PG.Enqueue);
    case ReadFrame(c) =>
      PU.WakeStep(s.pool, PM.Call(PM.Work(|s.requests|)));
      hide PU.Wake, PI.Inv, CutOne;
    case _ =>
  }

  lemma {:induction false} WakeRun(s: Server, routes: Routes, streams: seq<seq<Message>>, max: Word32,
      acts: seq<Action>)
    requires Inv(s, routes, streams, max) && PU.Wake(s.pool) && Legal(s, routes, max, acts)
        && CalmRun(s, routes, max, acts)
    ensures PU.Wake(Exec(s, routes, max, acts).pool)
    decreases |acts|
  {
    hide Enabled, Apply, Inv, PU.Wake, CalmStep;
    if acts != [] {
      InvParts(s, routes, streams, max);
      StepKeeps(s, routes, streams, max, acts[0]);
      WakeStep(s, routes, max, acts[0]);
      WakeRun(Apply(s, routes, max, acts[0]), routes, streams, max, acts[1..]);
    }
  }

  /** In such a run a server that has no step left is done, without any ticker. */
  lemma CalmIsDone(s: Server, routes: Routes, streams: seq<seq<Message>>, max: Word32)
    requires Inv(s, routes, streams, max) && Serving(s) && PU.Wake(s.pool) && Quiet(s, routes, max)
    ensures Done(s, streams, routes)
  {
    InvParts(s, routes, streams, max);
    QuietExact(s, routes, streams, max);
    hide Inv, Done, Quiet, PI.Inv;
    PD.SettledOpenHasNoWaiter(s.pool);
  }

  // The steps under way come to an end. Each byte still to be read may become part of a request,
  // whose call adds to the measure of the pool.

  function Length(r: Inbound, k: nat): int { |r.unread| }
  function Pending(conns: seq<Inbound>): int { Sum(Length, conns, 0) }

  function ReaderWeight(r: Inbound, n: nat): int { PD.Times(|r.unread|, 4 * n + 74) + if r.busy then 1 else 0 }
  function StagesLeft(x: nat, k: nat): int { 3 - x }

  function Measure(s: Server, n: nat): int {
    4 * PD.Measure(s.pool, n) + Sum(StagesLeft, s.stage, 0) + Sum(ReaderWeight, s.conns, n)
    + if s.parking.Nobody? then 1 else 0
  }

  /** No more than n calls will ever be made. */
  predicate Bounded(s: Server, n: nat) { |s.pool.subs| + Pending(s.conns) <= n }

  lemma {:induction false} TimesLess(a: nat, b: nat, x: nat)
    requires a < b
    ensures PD.Times(a, x) + x <= PD.Times(b, x)
    decreases b
  {
    if a < b - 1 {
      TimesLess(a, b - 1, x);
    }
  }

  /** A reader that consumes bytes gives up more than a call can add. */
  lemma ReadFalls(s: Server, routes: Routes, max: Word32, c: nat, n: nat)
    requires Enabled(s, routes, max, ReadFrame(c)) && Bounded(s, n)
    ensures var t := Apply(s, routes, max, ReadFrame(c)); Measure(t, n) < Measure(s, n) && Bounded(t, n)
  {
    hide Sum, PD.Times, CutOne, PM.Apply;
    var t := Apply(s, routes, max, ReadFrame(c));
    SumUpdate(Length, s.conns, 0, c, t.conns[c]);
    SumUpdate(ReaderWeight, s.conns, n, c, t.conns[c]);
    TimesLess(|t.conns[c].unread|, |s.conns[c].unread|, 4 * n + 74);
    CallWeight(s.pool, PM.Work(|s.requests|), n);
  }

  lemma CallWeight(p: PM.Pool, msg: PM.Msg, n: nat)
    ensures var t := PM.Apply(p, PM.Call(msg));
      PD.Measure(t, n) == PD.Measure(p, n) + n + 18 && |t.subs| == |p.subs| + 1
  {
    SumAppend(PD.SubWeight, p.subs, PM.Sub(msg, PM.Entering), n);
  }

  lemma ResumeFalls(s: Server, routes: Routes, max: Word32, c: nat, n: nat)
    requires Enabled(s, routes, max, Resume(c)) && Bounded(s, n)
    ensures var t := Apply(s, routes, max, Resume(c)); Measure(t, n) < Measure(s, n) && Bounded(t, n)
  {
    hide Sum, PD.Times;
    var t := Apply(s, routes, max, Resume(c));
    SumUpdate(Length, s.conns, 0, c, t.conns[c]);
    SumUpdate(ReaderWeight, s.conns, n, c, t.conns[c]);
  }

  lemma HandlerFalls(s: Server, routes: Routes, max: Word32, w: nat, n: nat)
    requires Enabled(s, routes, max, HandlerStep(w)) && Bounded(s, n)
    ensures var t := Apply(s, routes, max, HandlerStep(w)); Measure(t, n) < Measure(s, n) && Bounded(t, n)
  {
    hide Sum;
    SumUpdate(StagesLeft, s.stage, 0, w, s.stage[w] + 1);
  }

  lemma PoolFalls(s: Server, routes: Routes, max: Word32, a: PM.Action, n: nat)
    requires PI.Inv(s.pool) && Underway(s) && Enabled(s, routes, max, PoolStep(a)) && PD.Internal(a) && Bounded(s, n)
    ensures var t := Apply(s, routes, max, PoolStep(a)); Measure(t, n) < Measure(s, n) && Bounded(t, n)
  {
    hide Sum, PM.Apply, PI.Inv, PD.Measure;
    LengthNonNegative(s.conns);
    PD.WorkStep(s.pool, a, n);
    PD.SameCalls(s.pool, a);
    if a.Get? && a.w == |s.pool.workers| {
      SumAppend(StagesLeft, s.stage, 3, 0);
    } else if a.Receive? && a.w < |s.stage| {
      SumUpdate(StagesLeft, s.stage, 0, a.w, 0);
    }
  }

  lemma LengthNonNegative(conns: seq<Inbound>)
    ensures Pending(conns) >= 0
  {
    SumNonNegative(Length, conns, 0);
  }

  lemma EntryFalls(s: Server, routes: Routes, max: Word32, act: Action, n: nat)
    requires Enabled(s, routes, max, act) && (act.FindFull? || act.Enqueue?) && Bounded(s, n)
    ensures var t := Apply(s, routes, max, act); Measure(t, n) < Measure(s, n) && Bounded(t, n)
  {
    hide Sum, PD.SubWeight;
    if act.Enqueue? {
      EntryWeight(s.pool, s.parking.i, n);
    }
  }

  lemma EntryWeight(p: PM.Pool, i: nat, n: nat)
    requires PG.Looks(p, i)
    ensures PD.Measure(PG.Wait(p, i), n) == PD.Measure(p, n) - 1 && |PG.Wait(p, i).subs| == |p.subs|
  {
    SumUpdate(PD.SubWeight, p.subs, n, i, PG.Wait(p, i).subs[i]);
    hide Sum;
  }

  /** What a tick or a Tune call may add to the steps under way. */
  function Extra(act: Action, n: nat): nat {
    if act.PoolStep? && act.a.Tick? then 4 * n + 13
    else if act.PoolStep? && act.a.TuneLoad? then 4 * n + 9
    else 0
  }

  lemma OutsideRises(s: Server, routes: Routes, max: Word32, a: PM.Action, n: nat)
    requires Enabled(s, routes, max, PoolStep(a)) && (a.Tick? || a.TuneLoad?) && Bounded(s, n)
    ensures var t := Apply(s, routes, max, PoolStep(a));
      Measure(t, n) < Measure(s, n) + Extra(PoolStep(a), n) && Bounded(t, n)
  {
    hide Sum, PM.SubmissionStep, PM.WorkerStep;
    if a.TuneLoad? {
      SumAppend(PD.TuneWeight, s.pool.tunes, PM.Loaded(s.pool.cap, a.size), n);
    }
  }

  /** Every step under way lowers the measure, and a tick or a Tune call raises it by no more than Extra. */
  lemma MeasureFalls(s: Server, routes: Routes, max: Word32, act: Action, n: nat)
    requires PI.Inv(s.pool) && Underway(s) && Enabled(s, routes, max, act) && WorkingStep(act) && Bounded(s, n)
    ensures var t := Apply(s, routes, max, act); Measure(t, n) < Measure(s, n) + Extra(act, n) && Bounded(t, n)
  {
    hide Measure, Bounded, PM.Apply, PI.Inv, Underway;
    match act
    case ReadFrame(c) => ReadFalls(s, routes, max, c, n);
    case Resume(c) => ResumeFalls(s, routes, max, c, n);
    case PoolStep(a) =>
      if a.Tick? || a.TuneLoad? {
        OutsideRises(s, routes, max, a, n);
      } else {
        PoolFalls(s, routes, max, a, n);
      }
    case HandlerStep(w) => HandlerFalls(s, routes, max, w, n);
    case _ => EntryFalls(s, routes, max, act, n);
  }

  lemma MeasureNonNegative(s: Server, n: nat)
    requires Underway(s)
    ensures Measure(s, n) >= 0
  {
    PD.MeasureNonNegative(s.pool, n);
    SumNonNegative(StagesLeft, s.stage, 0);
    SumNonNegative(ReaderWeight, s.conns, n);
  }

  function Extras(acts: seq<Action>, n: nat): nat {
    if acts == [] then 0 else Extra(acts[0], n) + Extras(acts[1..], n)
  }

  /** Every run is bounded, in any interleaving, in terms of the ticks and Tune calls in it. */
  lemma {:induction false} WorkEnds(s: Server, routes: Routes, streams: seq<seq<Message>>, max: Word32,
      acts: seq<Action>, n: nat)
    requires Inv(s, routes, streams, max) && Legal(s, routes, max, acts) && AllWorking(acts) && Bounded(s, n)
    ensures var t := Exec(s, routes, max, acts);
      Bounded(t, n) && |acts| <= Measure(s, n) - Measure(t, n) + Extras(acts, n) && Measure(t, n) >= 0
    decreases |acts|
  {
    hide Measure, Bounded, Apply, Enabled, Inv, Extra;
    InvParts(s, routes, streams, max);
    if acts == [] {
      MeasureNonNegative(s, n);
    } else {
      MeasureFalls(s, routes, max, acts[0], n);
      StepKeeps(s, routes, streams, max, acts[0]);
      WorkEnds(Apply(s, routes, max, acts[0]), routes, streams, max, acts[1..], n);
    }
  }

  /** The steps under way can be continued to a state without a step left. */
  lemma {:induction false} Finish(s: Server, routes: Routes, streams: seq<seq<Message>>, max: Word32, n: nat)
      returns (acts: seq<Action>)
    requires Inv(s, routes, streams, max) && Bounded(s, n)
    ensures Legal(s, routes, max, acts) && AllInternal(acts) && Quiet(Exec(s, routes, max, acts), routes, max)
    decreases Measure(s, n)
  {
    hide Measure, Bounded, Apply, Enabled, Inv, Extra;
    acts := [];
    if !Quiet(s, routes, max) {
      InvParts(s, routes, streams, max);
      MeasureNonNegative(s, n);
      var act: Action :| InternalStep(act) && Enabled(s, routes, max, act);
      MeasureFalls(s, routes, max, act, n);
      InternalIsWorking(act, n);
      StepKeeps(s, routes, streams, max, act);
      var rest := Finish(Apply(s, routes, max, act), routes, streams, max, n);
      acts := [act] + rest;
      assert acts[1..] == rest;
    }
  }

  lemma InternalIsWorking(act: Action, n: nat)
    requires InternalStep(act)
    ensures WorkingStep(act) && Extra(act, n) == 0
  {
  }

  // Rounds of the ticker.

  /** The state of the pool is barren, or another call has got on its way, and accepted calls stay so. */
  ghost predicate Advanced(s: Server, before: seq<PM.Sub>) {
    (PR.Barren(FineOf(s)) || PR.Progress(s.pool, before)) && PR.Grown(before, s.pool.subs)
  }

  lemma PoolAdvances(f: PG.Fine, x: PG.Step, before: seq<PM.Sub>)
    requires PG.FineInv(f) && PG.CanStep(f, x) && (x.Plain? ==> PR.Working(x.a))
    requires (PR.Barren(f) || PR.Progress(f.pool, before)) && PR.Grown(before, f.pool.subs)
    ensures var g := PG.Next(f, x); (PR.Barren(g) || PR.Progress(g.pool, before)) && PR.Grown(before, g.pool.subs)
  {
    hide PI.Inv, PR.Barren, PR.Progress, PR.Grown, PG.CanStep, PG.Next;
    PR.GrownStep(f, x, before);
    if PR.Barren(f) {
      PR.BarrenStep(f, x, before);
    } else {
      PR.ProgressStep(f, x, before);
    }
  }

  lemma AdvancedStep(s: Server, routes: Routes, max: Word32, act: Action, before: seq<PM.Sub>)
    requires PG.FineInv(FineOf(s)) && Advanced(s, before) && Enabled(s, routes, max, act) && WorkingStep(act)
    ensures Advanced(Apply(s, routes, max, act), before)
  {
    hide PI.Inv, PR.Barren, PR.Progress, PR.Grown, CutOne;
    match act
    case PoolStep(a) => PoolAdvances(FineOf(s), PG.Plain(a), before);
    case ReadFrame(c) => PoolAdvances(FineOf(s), PG.Plain(PM.Call(PM.Work(|s.requests|))), before);
    case FindFull(i) => PoolAdvances(FineOf(s), PG.FindFull(i), before);
    case Enqueue => PoolAdvances(FineOf(s), PG.Enqueue, before);
    case Resume(c) => assert FineOf(Apply(s, routes, max, act)) == FineOf(s);
    case HandlerStep(w) => assert FineOf(Apply(s, routes, max, act)) == FineOf(s);
  }

  lemma {:induction false} AdvancedRun(s: Server, routes: Routes, streams: seq<seq<Message>>, max: Word32,
      acts: seq<Action>, before: seq<PM.Sub>)
    requires Inv(s, routes, streams, max) && Advanced(s, before) && Legal(s, routes, max, acts) && AllWorking(acts)
    ensures Advanced(Exec(s, routes, max, acts), before)
    decreases |acts|
  {
    hide Enabled, Apply, Inv, Advanced;
    if acts != [] {
      InvParts(s, routes, streams, max);
      StepKeeps(s, routes, streams, max, acts[0]);
      AdvancedStep(s, routes, max, acts[0], before);
      AdvancedRun(Apply(s, routes, max, acts[0]), routes, streams, max, acts[1..], before);
    }
  }

  const TICK := PoolStep(PM.Tick)

  /** The tick finds the purger asleep and turns a quiet server with waiting submissions barren. */
  lemma TickStarts(s: Server, routes: Routes, max: Word32)
    requires PI.Inv(s.pool) && OpenPool(s.pool) && PD.Settled(s.pool) && s.parking.Nobody? && s.pool.purger.Sleeping?
    ensures Enabled(s, routes, max, TICK)
    ensures s.pool.stack == [] && s.pool.running == 0 ==> Advanced(Apply(s, routes, max, TICK), s.pool.subs)
  {
    hide Sum, PI.Inv, PM.SubmissionStep, PM.WorkerStep, PM.ControlStep;
    forall i: nat | i < |s.pool.subs| && PW.Committed(s.pool, i) ensures PR.AcceptedAt(s.pool.subs, i) {
      assert PD.SubSettled(s.pool.subs[i]);
    }
    var t := Apply(s, routes, max, TICK);
    assert t.pool.subs == s.pool.subs;
    assert forall i: nat :: PW.Committed(t.pool, i) ==> PW.Committed(s.pool, i);
  }

  /** What a quiet server has won in a round: it is done, or more calls are accepted than before. */
  lemma Won(s: Server, routes: Routes, streams: seq<seq<Message>>, max: Word32, before: seq<PM.Sub>)
    requires Inv(s, routes, streams, max) && Serving(s) && Quiet(s, routes, max) && Advanced(s, before)
    ensures Done(s, streams, routes) || PR.AcceptedCount(before) < PR.AcceptedCount(s.pool.subs)
  {
    QuietExact(s, routes, streams, max);
    hide Inv, Quiet, Done, Serving, Sum;
    PR.CountGrows(before, s.pool.subs);
    if i: nat :| PW.Committed(s.pool, i) && !PR.AcceptedAt(before, i) {
      assert PD.SubSettled(s.pool.subs[i]);
      assert PR.AcceptedAt(s.pool.subs, i);
    } else {
      assert PR.Barren(FineOf(s));
    }
  }

  /**
   * One round: after a tick, whatever steps follow, further ticks, Tune calls and new requests
   * included, the next time the server has no step left it is done or has accepted more calls.
   */
  lemma RoundHelps(s: Server, routes: Routes, streams: seq<seq<Message>>, max: Word32, acts: seq<Action>)
    requires Inv(s, routes, streams, max) && Serving(s) && Quiet(s, routes, max) && !Done(s, streams, routes)
    requires Enabled(s, routes, max, TICK) && Legal(Apply(s, routes, max, TICK), routes, max, acts) && AllWorking(acts)
    ensures var t := Exec(Apply(s, routes, max, TICK), routes, max, acts);
      Inv(t, routes, streams, max) && Serving(t) && (Quiet(t, routes, max) ==>
        Done(t, streams, routes) || PR.AcceptedCount(s.pool.subs) < PR.AcceptedCount(t.pool.subs))
  {
    QuietExact(s, routes, streams, max);
    InvParts(s, routes, streams, max);
    PU.CreditNonNegative(s.pool);
    TickStarts(s, routes, max);
    hide Enabled, Apply, Inv, Advanced, Serving, Quiet, Done, Legal, Exec;
    var u := Apply(s, routes, max, TICK);
    StepKeeps(s, routes, streams, max, TICK);
    ServingStep(s, routes, max, TICK);
    ServingRun(u, routes, streams, max, acts);
    AdvancedRun(u, routes, streams, max, acts, s.pool.subs);
    var t := Exec(u, routes, max, acts);
    if Quiet(t, routes, max) {
      Won(t, routes, streams, max, s.pool.subs);
    }
  }

  /** From one quiet state to the next: a tick, and then any steps. */
  predicate RoundFits(s: Server, routes: Routes, max: Word32, acts: seq<Action>) {
    Enabled(s, routes, max, TICK) && Legal(Apply(s, routes, max, TICK), routes, max, acts) && AllWorking(acts)
  }

  function AfterRound(s: Server, routes: Routes, max: Word32, acts: seq<Action>): Server
    requires RoundFits(s, routes, max, acts)
  {
    Exec(Apply(s, routes, max, TICK), routes, max, acts)
  }

  /** The ticker fires whenever the server is quiet. */
  ghost predicate Rounds(s: Server, routes: Routes, max: Word32, rounds: seq<seq<Action>>)
    decreases |rounds|
  {
    Quiet(s, routes, max) && (rounds == [] || (
      RoundFits(s, routes, max, rounds[0]) && Rounds(AfterRound(s, routes, max, rounds[0]), routes, max, rounds[1..])))
  }

  ghost predicate DoneAtSomeRound(s: Server, routes: Routes, streams: seq<seq<Message>>, max: Word32,
      rounds: seq<seq<Action>>)
    requires Rounds(s, routes, max, rounds)
    decreases |rounds|
  {
    Done(s, streams, routes) || (
      rounds != [] && DoneAtSomeRound(AfterRound(s, routes, max, rounds[0]), routes, streams, max, rounds[1..]))
  }

  /** As many rounds as there can be calls handle everything, whatever entries come late. */
  lemma {:induction false} RoundsHandleAll(s: Server, routes: Routes, streams: seq<seq<Message>>, max: Word32,
      rounds: seq<seq<Action>>, n: nat)
    requires Inv(s, routes, streams, max) && Serving(s) && Bounded(s, n) && Rounds(s, routes, max, rounds)
    requires PR.AcceptedCount(s.pool.subs) + |rounds| >= n
    ensures DoneAtSomeRound(s, routes, streams, max, rounds)
    decreases |rounds|
  {
    QuietExact(s, routes, streams, max);
    InvParts(s, routes, streams, max);
    hide Inv, Serving, Quiet, Done, Enabled, Apply, Legal, Exec, PI.Inv;
    if !Done(s, streams, routes) {
      WaitingLeavesRoom(s, n);
      RoundHelps(s, routes, streams, max, rounds[0]);
      RoundBounded(s, routes, streams, max, rounds[0], n);
      if !Done(AfterRound(s, routes, max, rounds[0]), streams, routes) {
        RoundsHandleAll(AfterRound(s, routes, max, rounds[0]), routes, streams, max, rounds[1..], n);
      }
    }
  }

  lemma WaitingLeavesRoom(s: Server, n: nat)
    requires PI.Waiters(s.pool.subs) != 0 && PI.Inv(s.pool) && Bounded(s, n)
    ensures PR.AcceptedCount(s.pool.subs) < n
  {
    PU.CreditNonNegative(s.pool);
    PR.CountBound(s.pool.subs);
    LengthNonNegative(s.conns);
  }

  lemma RoundBounded(s: Server, routes: Routes, streams: seq<seq<Message>>, max: Word32, acts: seq<Action>, n: nat)
    requires Inv(s, routes, streams, max) && Bounded(s, n) && RoundFits(s, routes, max, acts)
    ensures Bounded(AfterRound(s, routes, max, acts), n)
  {
    hide Inv, Enabled, Apply, Legal, Exec, Measure, Bounded, Extra;
    InvParts(s, routes, streams, max);
    StepKeeps(s, routes, streams, max, TICK);
    MeasureFalls(s, routes, max, TICK, n);
    WorkEnds(Apply(s, routes, max, TICK), routes, streams, max, acts, n);
  }

  /** Such rounds are always possible. */
  lemma {:induction false} MakeRounds(s: Server, routes: Routes, streams: seq<seq<Message>>, max: Word32,
      n: nat, k: nat)
      returns (rounds: seq<seq<Action>>)
    requires Inv(s, routes, streams, max) && Serving(s) && Bounded(s, n) && Quiet(s, routes, max)
    ensures |rounds| == k && Rounds(s, routes, max, rounds)
    decreases k
  {
    rounds := [];
    if k > 0 {
      QuietExact(s, routes, streams, max);
      InvParts(s, routes, streams, max);
      TickStarts(s, routes, max);
      hide Inv, Quiet, Enabled, Apply, Legal, Exec, Measure, Bounded, Extra, PI.Inv, Serving;
      StepKeeps(s, routes, streams, max, TICK);
      ServingStep(s, routes, max, TICK);
      MeasureFalls(s, routes, max, TICK, n);
      var acts := Finish(Apply(s, routes, max, TICK), routes, streams, max, n);
      InternalRunWorks(acts);
      RoundBounded(s, routes, streams, max, acts, n);
      ServingRun(Apply(s, routes, max, TICK), routes, streams, max, acts);
      var rest := MakeRounds(AfterRound(s, routes, max, acts), routes, streams, max, n, k - 1);
      rounds := [acts] + rest;
      assert rounds[1..] == rest;
    }
  }

  lemma InternalRunWorks(acts: seq<Action>)
    requires AllInternal(acts)
    ensures AllWorking(acts)
  {
    forall i | 0 <= i < |acts| ensures WorkingStep(acts[i]) {
      InternalIsWorking(acts[i], 0);
    }
  }

  // A server left to itself.

  lemma ServingAtStart(cap: nat, streams: seq<seq<Message>>)
    ensures Serving(Init(cap, streams)) && PU.Wake(Init(cap, streams).pool)
  {
  }

  lemma BoundOf(cap: nat, streams: seq<seq<Message>>) returns (n: nat)
    ensures n == Pending(Init(cap, streams).conns) && Bounded(Init(cap, streams), n)
  {
    LengthNonNegative(Init(cap, streams).conns);
    n := Pending(Init(cap, streams).conns);
  }

  /**
   * Total correctness of a server that is not released, with the wait in its two steps. Every schedule
   * of readers, workers, handlers, ticks and Tune calls has a bound in terms of the ticks and Tune
   * calls in it, and can be continued to a state without a step left. There the server is done if
   * and only if nobody waits: so if no entry came late and no Tune calls crossed, and otherwise after
   * at most n rounds of the ticker, n being the bytes of all streams.
   */
  lemma EveryScheduleHandlesAll(cap: nat, routes: Routes, streams: seq<seq<Message>>, max: Word32, acts: seq<Action>)
      returns (n: nat, more: seq<Action>, rounds: seq<seq<Action>>)
    requires cap >= 1 && (forall c :: 0 <= c < |streams| ==> AllFit(streams[c], max))
    requires Legal(Init(cap, streams), routes, max, acts) && AllWorking(acts)
    ensures n == Pending(Init(cap, streams).conns) && |acts| <= Measure(Init(cap, streams), n) + Extras(acts, n)
    ensures var s := Exec(Init(cap, streams), routes, max, acts);
      && Legal(s, routes, max, more) && AllInternal(more) && Quiet(Exec(s, routes, max, more), routes, max)
      && (Quiet(s, routes, max) ==> (Done(s, streams, routes) <==> PI.Waiters(s.pool.subs) == 0))
      && (Quiet(s, routes, max) && CalmRun(Init(cap, streams), routes, max, acts) ==> Done(s, streams, routes))
    ensures var t := Exec(Exec(Init(cap, streams), routes, max, acts), routes, max, more);
      |rounds| == n && Rounds(t, routes, max, rounds) && DoneAtSomeRound(t, routes, streams, max, rounds)
  {
    hide Legal, CalmRun, Exec, Quiet, Measure, Inv, Done, Bounded, Serving, PU.Wake, Rounds, DoneAtSomeRound, Extras;
    var s0 := Init(cap, streams);
    var s := Exec(s0, routes, max, acts);
    n := BoundOf(cap, streams);
    Start(cap, routes, streams, max);
    ServingAtStart(cap, streams);
    hide Init;
    ServingRun(s0, routes, streams, max, acts);
    WorkEnds(s0, routes, streams, max, acts, n);
    more := Finish(s, routes, streams, max, n);
    InternalRunWorks(more);
    ServingRun(s, routes, streams, max, more);
    WorkEnds(s, routes, streams, max, more, n);
    var t := Exec(s, routes, max, more);
    rounds := MakeRounds(t, routes, streams, max, n, n);
    PR.CountNonNegative(t.pool.subs);
    RoundsHandleAll(t, routes, streams, max, rounds, n);
    if Quiet(s, routes, max) {
      QuietExact(s, routes, streams, max);
      if CalmRun(s0, routes, max, acts) {
        WakeRun(s0, routes, streams, max, acts);
        CalmIsDone(s, routes, streams, max);
      }
    }
  }
}

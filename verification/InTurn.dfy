/** Each connection has one request at a time on its way into the pool: its reader waits for Invoke to return. */
module InTurn {
  import opened Codec
  import opened Framing
  import opened EndToEnd
  import PM = PoolMachine
  import PI = PoolInvariant

  predicate CallReturned(p: PM.Pool, k: nat) { PM.SubAt(p, k, PM.Accepted) || PM.SubAt(p, k, PM.Rejected) }

  predicate OwnRequest(s: Server, k: nat, c: nat) { k < |s.requests| && s.requests[k].conn == c }

  /** A busy reader is in the call of a request of its own. */
  predicate OwnCall(s: Server, c: nat) {
    c < |s.conns| && s.conns[c].busy ==> OwnRequest(s, s.conns[c].call, c)
  }

  predicate InCall(s: Server, c: nat, k: nat) { c < |s.conns| && s.conns[c].busy && s.conns[c].call == k }

  /** The call of request k has returned, or the reader that read the request is in it. */
  predicate InTurnAt(s: Server, k: nat) {
    k < |s.requests| ==> CallReturned(s.pool, k) || InCall(s, s.requests[k].conn, k)
  }

  ghost predicate InTurn(s: Server) {
    && |s.pool.subs| == |s.requests|
    && (forall c: nat :: OwnCall(s, c))
    && forall k: nat :: InTurnAt(s, k)
  }

  lemma SubmissionReturns(p: PM.Pool, a: PM.Action, k: nat)
    requires PM.Enabled(p, a) && PM.BySubmission(a) && CallReturned(p, k)
    ensures CallReturned(PM.Apply(p, a), k)
  {
  }

  /** A call that has returned is over. */
  lemma ReturnedStays(p: PM.Pool, a: PM.Action, k: nat)
    requires PM.Enabled(p, a) && CallReturned(p, k)
    ensures CallReturned(PM.Apply(p, a), k)
  {
    if PM.BySubmission(a) {
      SubmissionReturns(p, a, k);
    } else {
      PI.OthersOnlyWake(p, a);
      hide PM.Apply, PM.Enabled;
    }
  }

  /** A step that reads nothing leaves the requests, and the readers with what they are waiting for. */
  lemma QuietTurn(s: Server, t: Server)
    requires InTurn(s) && t.conns == s.conns && t.requests == s.requests && |t.pool.subs| == |s.pool.subs|
    requires forall k: nat :: CallReturned(s.pool, k) ==> CallReturned(t.pool, k)
    ensures InTurn(t)
  {
    hide CallReturned;
    forall c: nat ensures OwnCall(t, c) { assert OwnCall(s, c); }
    forall k: nat ensures InTurnAt(t, k) { assert InTurnAt(s, k); }
  }

  lemma PoolTurn(s: Server, routes: Routes, max: Word32, a: PM.Action)
    requires InTurn(s) && Enabled(s, routes, max, PoolStep(a))
    ensures InTurn(Apply(s, routes, max, PoolStep(a)))
  {
    var t := Apply(s, routes, max, PoolStep(a));
    forall k: nat | CallReturned(s.pool, k) ensures CallReturned(t.pool, k) {
      ReturnedStays(s.pool, a, k);
    }
    PoolKeepsCalls(s.pool, a);
    hide PM.Apply, PM.Enabled, CallReturned, InTurn;
    QuietTurn(s, t);
  }

  lemma PoolKeepsCalls(p: PM.Pool, a: PM.Action)
    requires PM.Enabled(p, a) && !a.Call?
    ensures |PM.Apply(p, a).subs| == |p.subs|
  {
    if !PM.BySubmission(a) {
      PI.OthersOnlyWake(p, a);
      hide PM.Apply, PM.Enabled;
    }
  }

  lemma ReadTurn(s: Server, routes: Routes, max: Word32, c: nat)
    requires InTurn(s) && Enabled(s, routes, max, ReadFrame(c))
    ensures InTurn(Apply(s, routes, max, ReadFrame(c)))
  {
    hide CutOne;
    var t := Apply(s, routes, max, ReadFrame(c));
    forall k: nat | CallReturned(s.pool, k) ensures CallReturned(t.pool, k) {}
    hide CallReturned, Enabled, Apply;
    forall d: nat ensures OwnCall(t, d) { assert OwnCall(s, d); }
    forall k: nat ensures InTurnAt(t, k) { assert InTurnAt(s, k); }
  }

  lemma ResumeTurn(s: Server, routes: Routes, max: Word32, c: nat)
    requires InTurn(s) && Enabled(s, routes, max, Resume(c))
    ensures InTurn(Apply(s, routes, max, Resume(c)))
  {
    var t := Apply(s, routes, max, Resume(c));
    forall d: nat ensures OwnCall(t, d) { assert OwnCall(s, d); }
    forall k: nat ensures InTurnAt(t, k) { assert InTurnAt(s, k); }
  }

  lemma StepTurn(s: Server, routes: Routes, max: Word32, act: Action)
    requires InTurn(s) && Enabled(s, routes, max, act)
    ensures InTurn(Apply(s, routes, max, act))
  {
    hide InTurn;
    match act
    case ReadFrame(c) => ReadTurn(s, routes, max, c);
    case Resume(c) => ResumeTurn(s, routes, max, c);
    case PoolStep(a) => PoolTurn(s, routes, max, a);
    case _ => QuietTurn(s, Apply(s, routes, max, act));
  }

  lemma {:induction false} RunTurn(s: Server, routes: Routes, max: Word32, acts: seq<Action>)
    requires InTurn(s) && Legal(s, routes, max, acts)
    ensures InTurn(Exec(s, routes, max, acts))
    decreases |acts|
  {
    hide InTurn, Enabled, Apply;
    if acts != [] {
      StepTurn(s, routes, max, acts[0]);
      RunTurn(Apply(s, routes, max, acts[0]), routes, max, acts[1..]);
    }
  }

  /**
   * Over every run: of two requests of one connection at most one is in a call that has not returned,
   * and none as long as the reader is not in a call.
   */
  lemma OneAtATime(cap: nat, streams: seq<seq<Message>>, routes: Routes, max: Word32, acts: seq<Action>,
      k: nat, j: nat)
    requires Legal(Init(cap, streams), routes, max, acts)
    requires var s := Exec(Init(cap, streams), routes, max, acts);
      k < |s.requests| && j < |s.requests| && k != j && s.requests[k].conn == s.requests[j].conn
    ensures var s := Exec(Init(cap, streams), routes, max, acts);
      var c := s.requests[k].conn;
      && (CallReturned(s.pool, k) || CallReturned(s.pool, j))
      && (c < |s.conns| && !s.conns[c].busy ==> CallReturned(s.pool, k))
  {
    var s := Exec(Init(cap, streams), routes, max, acts);
    RunTurn(Init(cap, streams), routes, max, acts);
    hide Exec, Legal;
    assert InTurnAt(s, k) && InTurnAt(s, j);
  }
}

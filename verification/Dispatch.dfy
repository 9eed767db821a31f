/** The message handler: routers by message id, and the three calls that handle a request. */
module Dispatch {
  import opened Codec

  type RouterId = nat

  datatype Stage = PreHandle | Handle | PostHandle

  /** Router `router` enters a stage of its handling of a request. */
  datatype Event = Event(request: nat, router: RouterId, stage: Stage)

  const STAGES := [PreHandle, Handle, PostHandle]

  /** The stages that one request has entered. */
  function StagesOf(trace: seq<Event>, k: nat): seq<Stage> {
    if trace == [] then []
    else (if trace[0].request == k then [trace[0].stage] else []) + StagesOf(trace[1..], k)
  }

  lemma {:induction false} StagesAppend(trace: seq<Event>, e: Event, k: nat)
    ensures StagesOf(trace + [e], k) == StagesOf(trace, k) + if e.request == k then [e.stage] else []
  {
    if trace == [] {
      assert trace + [e] == [e];
      assert [e][1..] == [];
    } else {
      var first := if trace[0].request == k then [trace[0].stage] else [];
      var last := if e.request == k then [e.stage] else [];
      assert (trace + [e])[0] == trace[0] && (trace + [e])[1..] == trace[1..] + [e];
      StagesAppend(trace[1..], e, k);
      var rest := StagesOf(trace[1..], k);
      assert StagesOf(trace, k) == first + rest && StagesOf(trace + [e], k) == first + (rest + last);
      hide StagesOf;
      assert first + (rest + last) == (first + rest) + last;
    }
  }

  /** Entered in order, each at most once, without gaps. */
  predicate InOrder(stages: seq<Stage>) { stages <= STAGES }

  class MsgHandle {
    var apis: map<Word32, RouterId>
    var trace: seq<Event>

    constructor ()
      ensures apis == map[] && trace == []
    {
      apis, trace := map[], [];
    }

    /** A second router for the same id is a panic. */
    method AddRouter(id: Word32, router: RouterId) returns (panics: bool)
      modifies this`apis
      ensures panics <==> id in old(apis)
      ensures apis == if panics then old(apis) else old(apis)[id := router]
    {
      if id in apis {
        return true;
      }
      apis := apis[id := router];
      panics := false;
    }

    /** Handles request k, whose router panics in its n-th stage if n is less than three. */
    method DoMsgHandler(k: nat, id: Word32, n: nat) returns (panics: bool)
      modifies this`trace
      ensures StagesOf(trace, k) == StagesOf(old(trace), k) +
        if id !in apis then [] else if n < 3 then STAGES[..n + 1] else STAGES
      ensures forall j: nat :: j != k ==> StagesOf(trace, j) == StagesOf(old(trace), j)
      ensures id in apis && n >= 3 ==> StagesOf(trace, k) == StagesOf(old(trace), k) + [PreHandle, Handle, PostHandle]
      ensures id in apis && n == 1 ==> StagesOf(trace, k) == StagesOf(old(trace), k) + [PreHandle, Handle]
      ensures id in apis && n == 0 ==> StagesOf(trace, k) == StagesOf(old(trace), k) + [PreHandle]
      ensures old(trace) <= trace
      ensures forall i :: |old(trace)| <= i < |trace| ==> id in apis && trace[i].router == apis[id]
      ensures panics <==> id in apis && n < 3
    {
      if id !in apis {
        return false;
      }
      for i := 0 to 3
        invariant i <= n && StagesOf(trace, k) == StagesOf(old(trace), k) + STAGES[..i]
        invariant forall j: nat :: j != k ==> StagesOf(trace, j) == StagesOf(old(trace), j)
        invariant old(trace) <= trace && forall i :: |old(trace)| <= i < |trace| ==> trace[i].router == apis[id]
      {
        ghost var before := trace;
        trace := trace + [Event(k, apis[id], STAGES[i])];
        forall j: nat ensures StagesOf(trace, j) == StagesOf(before, j) + if j == k then [STAGES[i]] else [] {
          StagesAppend(before, Event(k, apis[id], STAGES[i]), j);
        }
        if i == n {
          return true;
        }
      }
      panics := false;
    }
  }
}

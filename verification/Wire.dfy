/** The sending side of a connection: Send puts frames on a channel, one writer goroutine takes them to the socket. */
module Wire {
  import opened Codec
  import opened Framing

  datatype Writer = Selecting | Writing(frame: seq<Byte>) | Stopped

  /** What a caller of Send gives. */
  datatype Outgoing = Outgoing(id: Word32, data: seq<Byte>)

  /**
   * checked: sends past the isClosed test that are not on the channel yet. accepted: sends in the
   * order in which the channel took them; taken: how many of them the writer has taken.
   */
  datatype Link = Link(
    capacity: nat,
    closed: bool,
    checked: seq<Outgoing>,
    queue: seq<seq<Byte>>,
    writer: Writer,
    wire: seq<Byte>,
    accepted: seq<Outgoing>,
    taken: nat)

  datatype Action =
    | Check(id: Word32, data: seq<Byte>)  // the isClosed test of Send, then the packing
    | Enqueue(k: nat)                     // the channel takes the k-th checked send
    | Take                                // the writer receives a frame
    | HandOver(k: nat)                    // an unbuffered channel: both at once
    | Write(n: nat)                       // the socket takes n bytes of the frame; fewer than all is an error
    | Leave                               // the writer sees that the context is done
    | Stop                                // Stop from outside

  function Open(capacity: nat): Link { Link(capacity, false, [], [], Selecting, [], [], 0) }

  predicate Enabled(s: Link, a: Action) {
    match a
    case Check(_, _) => true
    case Enqueue(k) => k < |s.checked| && |s.queue| < s.capacity
    case Take => s.writer.Selecting? && s.queue != []
    case HandOver(k) => s.writer.Selecting? && s.queue == [] && k < |s.checked|
    case Write(n) => s.writer.Writing? && n <= |s.writer.frame|
    case Leave => s.writer.Selecting? && s.closed
    case Stop => true
  }

  function FrameOf(o: Outgoing): seq<Byte> { Packed(Package(o.id, o.data)) }

  function Without(checked: seq<Outgoing>, k: nat): seq<Outgoing>
    requires k < |checked|
  {
    checked[..k] + checked[k + 1..]
  }

  function Apply(s: Link, a: Action): Link
    requires Enabled(s, a)
  {
    match a
    case Check(id, data) => if s.closed then s else s.(checked := s.checked + [Outgoing(id, data)])
    case Enqueue(k) =>
      s.(checked := Without(s.checked, k), queue := s.queue + [FrameOf(s.checked[k])],
          accepted := s.accepted + [s.checked[k]])
    case Take => s.(writer := Writing(s.queue[0]), queue := s.queue[1..], taken := s.taken + 1)
    case HandOver(k) =>
      s.(checked := Without(s.checked, k), writer := Writing(FrameOf(s.checked[k])),
         accepted := s.accepted + [s.checked[k]], taken := s.taken + 1)
    case Write(n) =>
      var out := s.wire + s.writer.frame[..n];
      if n == |s.writer.frame| then s.(wire := out, writer := Selecting)
      else s.(wire := out, writer := Stopped, closed := true)
    case Leave => s.(writer := Stopped)
    case Stop => s.(closed := true)
  }

  predicate Legal(s: Link, acts: seq<Action>)
    decreases |acts|
  {
    acts == [] || (Enabled(s, acts[0]) && Legal(Apply(s, acts[0]), acts[1..]))
  }

  function Exec(s: Link, acts: seq<Action>): Link
    requires Legal(s, acts)
    decreases |acts|
  {
    if acts == [] then s else Exec(Apply(s, acts[0]), acts[1..])
  }

  function Frames(os: seq<Outgoing>): seq<seq<Byte>> { seq(|os|, i requires 0 <= i < |os| => FrameOf(os[i])) }

  /** The messages that the sends make. */
  function Messages(os: seq<Outgoing>): seq<Message> {
    seq(|os|, i requires 0 <= i < |os| => Package(os[i].id, os[i].data))
  }

  function Sent(os: seq<Outgoing>): seq<Byte> { Stream(Messages(os)) }

  /** Taken and queued messages make up the accepted ones, in channel order; the wire has the taken ones. */
  ghost predicate Inv(s: Link) {
    && s.taken <= |s.accepted| && |s.queue| <= s.capacity
    && s.queue == Frames(s.accepted[s.taken..])
    && (s.writer.Stopped? ==> s.closed)
    && match s.writer
       case Selecting => s.wire == Sent(s.accepted[..s.taken])
       case Writing(frame) => s.wire + frame == Sent(s.accepted[..s.taken])
       case Stopped => s.wire <= Sent(s.accepted[..s.taken])
  }

  lemma {:induction false} StreamAppend(ms: seq<Message>, m: Message)
    ensures Stream(ms + [m]) == Stream(ms) + Packed(m)
  {
    if ms == [] {
      assert Stream([m]) == Packed(m) + Stream([m][1..]);
      assert ms + [m] == [m];
    } else {
      assert (ms + [m])[1..] == ms[1..] + [m];
      StreamAppend(ms[1..], m);
    }
  }

  lemma SentAppend(os: seq<Outgoing>, o: Outgoing)
    ensures Sent(os + [o]) == Sent(os) + FrameOf(o)
  {
    StreamAppend(Messages(os), Package(o.id, o.data));
    assert Messages(os + [o]) == Messages(os) + [Package(o.id, o.data)];
  }

  /** The bytes of a prefix are a prefix of the bytes. */
  lemma {:induction false} SentPrefix(os: seq<Outgoing>, k: nat)
    requires k <= |os|
    ensures Sent(os[..k]) <= Sent(os)
    decreases |os| - k
  {
    if k == |os| {
      assert os[..k] == os;
    } else {
      assert os[..k + 1] == os[..k] + [os[k]];
      SentAppend(os[..k], os[k]);
      SentPrefix(os, k + 1);
    }
  }

  lemma TakeKeeps(s: Link)
    requires Inv(s) && Enabled(s, Take)
    ensures Inv(Apply(s, Take))
  {
    var o := s.accepted[s.taken];
    assert s.accepted[..s.taken + 1] == s.accepted[..s.taken] + [o];
    SentAppend(s.accepted[..s.taken], o);
  }

  lemma EnqueueKeeps(s: Link, k: nat)
    requires Inv(s) && Enabled(s, Enqueue(k))
    ensures Inv(Apply(s, Enqueue(k)))
  {
    var t := Apply(s, Enqueue(k));
    assert t.accepted[..t.taken] == s.accepted[..s.taken];
    assert t.accepted[t.taken..] == s.accepted[s.taken..] + [s.checked[k]];
  }

  lemma HandOverKeeps(s: Link, k: nat)
    requires Inv(s) && Enabled(s, HandOver(k))
    ensures Inv(Apply(s, HandOver(k)))
  {
    var t := Apply(s, HandOver(k));
    assert |Frames(s.accepted[s.taken..])| == |s.accepted| - s.taken;
    assert s.accepted[..s.taken] == s.accepted;
    assert t.accepted[..t.taken] == s.accepted + [s.checked[k]];
    SentAppend(s.accepted, s.checked[k]);
  }

  lemma WriteKeeps(s: Link, n: nat)
    requires Inv(s) && Enabled(s, Write(n))
    ensures Inv(Apply(s, Write(n)))
  {
    var frame := s.writer.frame;
    assert frame == frame[..n] + frame[n..];
    assert s.wire + frame == (s.wire + frame[..n]) + frame[n..];
  }

  lemma StepKeeps(s: Link, a: Action)
    requires Inv(s) && Enabled(s, a)
    ensures Inv(Apply(s, a))
  {
    match a
    case Enqueue(k) => EnqueueKeeps(s, k);
    case Take => TakeKeeps(s);
    case HandOver(k) => HandOverKeeps(s, k);
    case Write(n) => WriteKeeps(s, n);
    case _ =>
  }

  lemma {:induction false} RunKeeps(s: Link, acts: seq<Action>)
    requires Inv(s) && Legal(s, acts)
    ensures Inv(Exec(s, acts))
    decreases |acts|
  {
    if acts != [] {
      StepKeeps(s, acts[0]);
      RunKeeps(Apply(s, acts[0]), acts[1..]);
    }
  }

  lemma {:induction false} CapacityStays(s: Link, acts: seq<Action>)
    requires Legal(s, acts)
    ensures Exec(s, acts).capacity == s.capacity
    decreases |acts|
  {
    if acts != [] {
      CapacityStays(Apply(s, acts[0]), acts[1..]);
    }
  }

  /** In every run the bytes on the wire are a prefix of the concatenated frames of the accepted sends. */
  lemma WireOrder(capacity: nat, acts: seq<Action>)
    requires Legal(Open(capacity), acts)
    ensures var s := Exec(Open(capacity), acts);
      && Inv(s) && s.wire <= Sent(s.accepted)
      && s.queue == Frames(s.accepted[s.taken..]) && |s.queue| <= capacity
  {
    RunKeeps(Open(capacity), acts);
    CapacityStays(Open(capacity), acts);
    var s := Exec(Open(capacity), acts);
    SentPrefix(s.accepted, s.taken);
  }

  /** Data that a receiver with this limit lets pass; 0 is no limit. */
  predicate Deliverable(os: seq<Outgoing>, maxPacketSize: Word32) {
    forall i :: 0 <= i < |os| ==> |os[i].data| < 4294967296 && (maxPacketSize == 0 || |os[i].data| <= maxPacketSize)
  }

  /** The messages are the first of the sends: with their ids, their data and the length of their data, in order. */
  predicate FirstOf(ms: seq<Message>, os: seq<Outgoing>) {
    && |ms| <= |os|
    && forall i :: 0 <= i < |ms| ==>
         ms[i].id == os[i].id && ms[i].data == os[i].data && ms[i].dataLen == |os[i].data|
  }

  lemma DeliverableFits(os: seq<Outgoing>, maxPacketSize: Word32)
    requires Deliverable(os, maxPacketSize)
    ensures AllFit(Messages(os), maxPacketSize)
  {
  }

  lemma PrefixIsFirst(ms: seq<Message>, os: seq<Outgoing>, maxPacketSize: Word32)
    requires Deliverable(os, maxPacketSize) && ms <= Messages(os)
    ensures FirstOf(ms, os)
  {
    assert forall i :: 0 <= i < |ms| ==> ms[i] == Messages(os)[i];
  }

  /**
   * So the peer, whatever part of the wire has reached it and in whatever chunks, has parsed a
   * prefix of the accepted sends.
   */
  lemma PeerReceivesInOrder(capacity: nat, acts: seq<Action>, chunks: seq<seq<Byte>>, maxPacketSize: Word32)
    requires Legal(Open(capacity), acts)
    requires var s := Exec(Open(capacity), acts);
      Concat(chunks) <= s.wire && Deliverable(s.accepted, maxPacketSize)
    ensures var s := Exec(Open(capacity), acts);
      FirstOf(ParseChunks([], chunks, maxPacketSize).msgs, s.accepted)
  {
    var s := Exec(Open(capacity), acts);
    WireOrder(capacity, acts);
    DeliverableFits(s.accepted, maxPacketSize);
    hide Inv, Exec, Legal, Deliverable, Parse, ParseChunks, AllFit, FirstOf, Messages, Sent;
    ChunkingIrrelevant([], chunks, maxPacketSize);
    assert [] + Concat(chunks) == Concat(chunks);
    PrefixOfStream(Messages(s.accepted), Concat(chunks), maxPacketSize);
    PrefixIsFirst(ParseChunks([], chunks, maxPacketSize).msgs, s.accepted, maxPacketSize);
  }

  /** With an idle writer and an empty channel the peer that has got every byte has got every accepted send. */
  lemma PeerReceivesAll(capacity: nat, acts: seq<Action>, maxPacketSize: Word32)
    requires Legal(Open(capacity), acts)
    requires var s := Exec(Open(capacity), acts);
      s.writer.Selecting? && s.queue == [] && Deliverable(s.accepted, maxPacketSize)
    ensures var s := Exec(Open(capacity), acts);
      var p := Parse(s.wire, maxPacketSize);
      FirstOf(p.msgs, s.accepted) && |p.msgs| == |s.accepted| && p.rest == []
  {
    var s := Exec(Open(capacity), acts);
    WireOrder(capacity, acts);
    DeliverableFits(s.accepted, maxPacketSize);
    hide Exec, Legal, Deliverable, Parse, AllFit;
    assert |Frames(s.accepted[s.taken..])| == |s.accepted| - s.taken;
    assert s.accepted[..s.taken] == s.accepted;
    ParseOfStream(Messages(s.accepted), maxPacketSize);
    PrefixIsFirst(Messages(s.accepted), s.accepted, maxPacketSize);
  }

  // Which sends the connection has let through.

  /** The calls of Send that found the connection open, along a run. */
  function Passed(s: Link, acts: seq<Action>): multiset<Outgoing>
    requires Legal(s, acts)
    decreases |acts|
  {
    if acts == [] then multiset{}
    else
      (if acts[0].Check? && !s.closed then multiset{Outgoing(acts[0].id, acts[0].data)} else multiset{})
      + Passed(Apply(s, acts[0]), acts[1..])
  }

  function Carried(s: Link): multiset<Outgoing> { multiset(s.accepted) + multiset(s.checked) }

  lemma StepCarries(s: Link, a: Action)
    requires Enabled(s, a)
    ensures Carried(Apply(s, a)) ==
      Carried(s) + if a.Check? && !s.closed then multiset{Outgoing(a.id, a.data)} else multiset{}
  {
    if a.Enqueue? || a.HandOver? {
      assert s.checked == s.checked[..a.k] + [s.checked[a.k]] + s.checked[a.k + 1..];
    }
  }

  lemma {:induction false} RunCarries(s: Link, acts: seq<Action>)
    requires Legal(s, acts)
    ensures Carried(Exec(s, acts)) == Carried(s) + Passed(s, acts)
    decreases |acts|
  {
    hide Enabled, Apply, Carried;
    if acts != [] {
      StepCarries(s, acts[0]);
      RunCarries(Apply(s, acts[0]), acts[1..]);
    }
  }

  /** Over every run each send that found the connection open is on its way to the channel or accepted, once. */
  lemma EverySendOnce(capacity: nat, acts: seq<Action>)
    requires Legal(Open(capacity), acts)
    ensures var s := Exec(Open(capacity), acts);
      multiset(s.accepted) + multiset(s.checked) == Passed(Open(capacity), acts)
  {
    RunCarries(Open(capacity), acts);
  }

  /** A connection that is closed stays closed and lets no send through. */
  lemma {:induction false} ClosedRefuses(s: Link, acts: seq<Action>)
    requires Legal(s, acts) && s.closed
    ensures Exec(s, acts).closed && Passed(s, acts) == multiset{}
    decreases |acts|
  {
    if acts != [] {
      ClosedRefuses(Apply(s, acts[0]), acts[1..]);
    }
  }

  lemma {:induction false} StoppedWritesNothing(s: Link, acts: seq<Action>)
    requires Legal(s, acts) && s.writer == Stopped
    ensures Exec(s, acts).wire == s.wire && Exec(s, acts).writer == Stopped
    decreases |acts|
  {
    if acts != [] {
      StoppedWritesNothing(Apply(s, acts[0]), acts[1..]);
    }
  }

  /** Stop closes the connection, and an idle writer can leave then: what is still in the channel stays there. */
  lemma StopAlone(s: Link)
    requires s.writer == Selecting
    ensures Legal(s, [Stop, Leave]) && Exec(s, [Stop, Leave]) == s.(closed := true, writer := Stopped)
  {
    var t := s.(closed := true);
    assert [Stop, Leave][1..] == [Leave] && [Leave][1..] == [];
    assert Exec(t, [Leave]) == s.(closed := true, writer := Stopped);
  }

  /** In an open connection the writer is at work. */
  lemma WriterLeavesClosed(capacity: nat, acts: seq<Action>)
    requires Legal(Open(capacity), acts) && !Exec(Open(capacity), acts).closed
    ensures Exec(Open(capacity), acts).writer != Stopped
  {
    RunKeeps(Open(capacity), acts);
  }

  /** After a write of which the socket takes only a part, no send is let through and no byte follows. */
  lemma ShortWriteEnds(s: Link, n: nat, acts: seq<Action>)
    requires Enabled(s, Write(n)) && n < |s.writer.frame| && Legal(Apply(s, Write(n)), acts)
    ensures var t := Exec(Apply(s, Write(n)), acts);
      && t.closed && t.writer == Stopped && t.wire == s.wire + s.writer.frame[..n]
      && Passed(Apply(s, Write(n)), acts) == multiset{} && Carried(t) == Carried(s)
  {
    var r := Apply(s, Write(n));
    ClosedRefuses(r, acts);
    StoppedWritesNothing(r, acts);
    StepCarries(s, Write(n));
    RunCarries(r, acts);
  }

  /**
   * The frame of a send: the length of the data and the id in front of the data, byte by byte, so
   * that a receiver with any limit that allows the data gets exactly what was sent.
   */
  ghost predicate CarriesSend(frame: seq<Byte>, id: Word32, data: seq<Byte>) {
    && HeadIs(frame, |data| % 4294967296, id) && frame[8..] == data
    && forall limit: Word32 :: |data| < 4294967296 && (limit == 0 || |data| <= limit) ==>
         Unpacked(frame, limit) == Ok(Message(id, |data|, data))
  }

  lemma SendCarried(id: Word32, data: seq<Byte>)
    ensures CarriesSend(FrameOf(Outgoing(id, data)), id, data)
  {
    PackedBytes(Package(id, data));
    hide Packed, Unpacked, HeadIs;
    forall limit: Word32 | |data| < 4294967296 && (limit == 0 || |data| <= limit)
      ensures Unpacked(FrameOf(Outgoing(id, data)), limit) == Ok(Message(id, |data|, data))
    {
      SentIsReceived(id, data, limit);
      assert data[..|data|] == data;
    }
  }

  /** The connection object: its methods take the steps of the machine. */
  class Connection {
    var isClosed: bool
    var msgChan: seq<seq<Byte>>
    var socket: seq<Byte>
    const pack: DataPack
    ghost var machine: Link

    ghost predicate Valid()
      reads this
    {
      Inv(machine) && isClosed == machine.closed && msgChan == machine.queue && socket == machine.wire
    }

    constructor (capacity: nat, maxPacketSize: Word32)
      ensures Valid() && machine == Open(capacity)
    {
      isClosed, msgChan, socket := false, [], [];
      pack := new DataPack(maxPacketSize);
      machine := Open(capacity);
    }

    /** Send up to the channel: the frame to put on it, unless the connection is closed. */
    method CheckAndPack(id: Word32, data: seq<Byte>) returns (ok: bool, frame: seq<Byte>)
      requires Valid()
      modifies this
      ensures Valid() && machine == Apply(old(machine), Check(id, data)) && ok == !old(isClosed)
      ensures machine.checked == old(machine.checked) + if ok then [Outgoing(id, data)] else []
      ensures ok ==> frame == FrameOf(Outgoing(id, data)) && CarriesSend(frame, id, data)
    {
      SendCarried(id, data);
      hide CarriesSend;
      StepKeeps(machine, Check(id, data));
      machine := Apply(machine, Check(id, data));
      if isClosed {
        return false, [];
      }
      frame := pack.Pack(Package(id, data));
      ok := true;
    }

    /** Stop from outside; the writer leaves when it looks next. */
    method Stop()
      requires Valid()
      modifies this
      ensures Valid() && isClosed && machine == Apply(old(machine), Action.Stop)
      ensures msgChan == old(msgChan) && socket == old(socket)
    {
      StepKeeps(machine, Action.Stop);
      isClosed := true;
      machine := Apply(machine, Action.Stop);
    }

    method PutOnChannel(frame: seq<Byte>, ghost k: nat)
      requires Valid() && Enabled(machine, Enqueue(k)) && frame == FrameOf(machine.checked[k])
      modifies this
      ensures Valid() && machine == Apply(old(machine), Enqueue(k)) && msgChan == old(msgChan) + [frame]
    {
      StepKeeps(machine, Enqueue(k));
      machine := Apply(machine, Enqueue(k));
      msgChan := msgChan + [frame];
    }

    method TakeFromChannel() returns (frame: seq<Byte>)
      requires Valid() && Enabled(machine, Take)
      modifies this
      ensures Valid() && machine == Apply(old(machine), Take) && machine.writer == Writing(frame)
      ensures old(msgChan) == [frame] + msgChan
    {
      StepKeeps(machine, Take);
      frame := msgChan[0];
      msgChan := msgChan[1..];
      machine := Apply(machine, Take);
    }

    /** One write of the writer, of which the socket takes n bytes. */
    method WriteFrame(frame: seq<Byte>, n: nat) returns (ok: bool)
      requires Valid() && machine.writer == Writing(frame) && n <= |frame|
      modifies this
      ensures Valid() && machine == Apply(old(machine), Write(n)) && (ok <==> n == |frame|)
      ensures socket == old(socket) + frame[..n] && isClosed == (old(isClosed) || !ok)
      ensures machine.writer == if ok then Selecting else Stopped
    {
      StepKeeps(machine, Write(n));
      socket := socket + frame[..n];
      ok := n == |frame|;
      if !ok {
        isClosed := true;
      }
      machine := Apply(machine, Write(n));
    }
  }
}

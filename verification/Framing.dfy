/** Cutting a byte stream into messages: the read loop of a connection. */
module Framing {
  import opened Codec

  /** What the read loop does with the bytes that are there. */
  datatype Cut = Blocked | Dropped(rest: seq<Byte>) | Frame(msg: Message, rest: seq<Byte>)

  /** One round of the loop. After a head that is too large, only the head has been consumed. */
  function CutOne(b: seq<Byte>, maxPacketSize: Word32): (c: Cut)
    ensures !c.Blocked? ==> |c.rest| < |b|
  {
    match HeadOf(b, maxPacketSize)
    case Err(ShortRead) => Blocked
    case Err(TooLarge) => Dropped(b[HEAD_LEN..])
    case Ok(head) =>
      var end := HEAD_LEN + head.dataLen;
      if |b| < end then Blocked else Frame(head.(data := b[HEAD_LEN..end]), b[end..])
  }

  datatype Parsed = Parsed(msgs: seq<Message>, rest: seq<Byte>)

  function Parse(b: seq<Byte>, maxPacketSize: Word32): Parsed
    decreases |b|
  {
    match CutOne(b, maxPacketSize)
    case Blocked => Parsed([], b)
    case Dropped(rest) => Parse(rest, maxPacketSize)
    case Frame(msg, rest) =>
      var p := Parse(rest, maxPacketSize);
      Parsed([msg] + p.msgs, p.rest)
  }

  function Stream(ms: seq<Message>): seq<Byte> {
    if ms == [] then [] else Packed(ms[0]) + Stream(ms[1..])
  }

  predicate AllFit(ms: seq<Message>, maxPacketSize: Word32) {
    forall i :: 0 <= i < |ms| ==> Fits(ms[i], maxPacketSize)
  }

  lemma CutPacked(m: Message, after: seq<Byte>, maxPacketSize: Word32)
    requires Fits(m, maxPacketSize)
    ensures CutOne(Packed(m) + after, maxPacketSize) == Frame(m, after)
  {
    HeadOfPacked(m, after, maxPacketSize);
    var b := Packed(m) + after;
    var end := HEAD_LEN + m.dataLen;
    assert b[HEAD_LEN..end] == m.data;
    assert b[end..] == after;
  }

  /** No sticking: a stream of packed messages is cut back into exactly those messages. */
  lemma {:induction false} ParseOfStream(ms: seq<Message>, maxPacketSize: Word32)
    requires AllFit(ms, maxPacketSize)
    ensures Parse(Stream(ms), maxPacketSize) == Parsed(ms, [])
  {
    if ms != [] {
      CutPacked(ms[0], Stream(ms[1..]), maxPacketSize);
      ParseOfStream(ms[1..], maxPacketSize);
    }
  }

  /** More bytes do not change what was cut already. */
  lemma CutMore(a: seq<Byte>, b: seq<Byte>, maxPacketSize: Word32)
    requires !CutOne(a, maxPacketSize).Blocked?
    ensures CutOne(a + b, maxPacketSize) ==
      match CutOne(a, maxPacketSize)
      case Dropped(rest) => Dropped(rest + b)
      case Frame(msg, rest) => Frame(msg, rest + b)
  {
    assert (a + b)[..4] == a[..4] && (a + b)[4..][..4] == a[4..][..4];
    WordPrefix(a); WordPrefix(a + b); WordPrefix(a[4..]); WordPrefix((a + b)[4..]);
    assert (a + b)[HEAD_LEN..] == a[HEAD_LEN..] + b;
    match CutOne(a, maxPacketSize)
    case Frame(msg, rest) =>
      var end := HEAD_LEN + msg.dataLen;
      assert (a + b)[HEAD_LEN..end] == a[HEAD_LEN..end];
      assert (a + b)[end..] == a[end..] + b;
    case _ =>
  }

  /** For any bytes, well formed or not: reading in two chunks gives what reading at once gives. */
  lemma {:induction false} ParseInChunks(a: seq<Byte>, b: seq<Byte>, maxPacketSize: Word32)
    ensures var p, q := Parse(a, maxPacketSize), Parse(Parse(a, maxPacketSize).rest + b, maxPacketSize);
      Parse(a + b, maxPacketSize) == Parsed(p.msgs + q.msgs, q.rest)
    decreases |a|
  {
    match CutOne(a, maxPacketSize)
    case Blocked =>
    case Dropped(rest) =>
      CutMore(a, b, maxPacketSize);
      ParseInChunks(rest, b, maxPacketSize);
    case Frame(msg, rest) =>
      CutMore(a, b, maxPacketSize);
      ParseInChunks(rest, b, maxPacketSize);
      var p, q := Parse(rest, maxPacketSize), Parse(Parse(rest, maxPacketSize).rest + b, maxPacketSize);
      assert [msg] + (p.msgs + q.msgs) == ([msg] + p.msgs) + q.msgs;
  }

  function Concat(chunks: seq<seq<Byte>>): seq<Byte> {
    if chunks == [] then [] else chunks[0] + Concat(chunks[1..])
  }

  /** Reading chunk by chunk, keeping what is not a whole frame yet. */
  function ParseChunks(kept: seq<Byte>, chunks: seq<seq<Byte>>, maxPacketSize: Word32): Parsed
    decreases |chunks|
  {
    var p := Parse(kept, maxPacketSize);
    if chunks == [] then p else
      var q := ParseChunks(p.rest + chunks[0], chunks[1..], maxPacketSize);
      Parsed(p.msgs + q.msgs, q.rest)
  }

  /** However the bytes are chunked, the messages are the same. */
  lemma {:induction false} ChunkingIrrelevant(kept: seq<Byte>, chunks: seq<seq<Byte>>, maxPacketSize: Word32)
    ensures ParseChunks(kept, chunks, maxPacketSize) == Parse(kept + Concat(chunks), maxPacketSize)
    decreases |chunks|
  {
    if chunks == [] {
      assert kept + Concat(chunks) == kept;
    } else {
      var p := Parse(kept, maxPacketSize);
      ChunkingIrrelevant(p.rest + chunks[0], chunks[1..], maxPacketSize);
      assert (p.rest + chunks[0]) + Concat(chunks[1..]) == p.rest + Concat(chunks);
      ParseInChunks(kept, Concat(chunks), maxPacketSize);
    }
  }

  /** Any prefix of the bytes gives a prefix of the messages. */
  lemma PrefixOfStream(ms: seq<Message>, b: seq<Byte>, maxPacketSize: Word32)
    requires AllFit(ms, maxPacketSize) && b <= Stream(ms)
    ensures Parse(b, maxPacketSize).msgs <= ms
  {
    var after := Stream(ms)[|b|..];
    assert b + after == Stream(ms);
    ParseInChunks(b, after, maxPacketSize);
    ParseOfStream(ms, maxPacketSize);
  }

  /** Two lists of messages never share a stream. */
  lemma StreamInjective(ms: seq<Message>, ns: seq<Message>, maxPacketSize: Word32)
    requires AllFit(ms, maxPacketSize) && AllFit(ns, maxPacketSize) && Stream(ms) == Stream(ns)
    ensures ms == ns
  {
    ParseOfStream(ms, maxPacketSize);
    ParseOfStream(ns, maxPacketSize);
  }

  // The reader of a connection.

  const HEARTBEAT_ID: Word32 := 99999

  function Requests(ms: seq<Message>): seq<Message> {
    if ms == [] then []
    else (if ms[0].id == HEARTBEAT_ID then [] else [ms[0]]) + Requests(ms[1..])
  }

  lemma {:induction false} RequestsConcat(ms: seq<Message>, ns: seq<Message>)
    ensures Requests(ms + ns) == Requests(ms) + Requests(ns)
  {
    if ms == [] {
      assert ms + ns == ns;
    } else {
      assert (ms + ns)[1..] == ms[1..] + ns;
      RequestsConcat(ms[1..], ns);
    }
  }

  lemma {:induction false} NoHeartbeat(ms: seq<Message>)
    ensures forall i :: 0 <= i < |Requests(ms)| ==> Requests(ms)[i].id != HEARTBEAT_ID
  {
    if ms != [] {
      NoHeartbeat(ms[1..]);
    }
  }

  lemma OneRequest(m: Message)
    ensures Requests([m]) == if m.id == HEARTBEAT_ID then [] else [m]
  {
    assert [m][1..] == [];
  }

  /** Requests are the messages whose id is not 99999, in their order. */
  lemma {:induction false} RequestsAreTheOthers(ms: seq<Message>, m: Message)
    ensures Requests(ms + [m]) == Requests(ms) + if m.id == 99999 then [] else [m]
  {
    RequestsConcat(ms, [m]);
    OneRequest(m);
  }

  datatype Outcome = WouldBlock | HeadError | Handled

  /** The id that bytes 4 to 7 carry. */
  function LittleId(b: seq<Byte>): int { if |b| < 8 then 0 else Little(b[4], b[5], b[6], b[7]) }

  /** A frame with id 99999 reaches no handler, any other one does, under its id and with the data it carries. */
  predicate HandsOver(b: seq<Byte>, before: seq<Message>, after: seq<Message>)
    requires |b| >= 8 && |b| >= 8 + LengthIn(b)
  {
    if LittleId(b) == 99999 then after == before
    else
      && |after| == |before| + 1 && after[..|before|] == before
      && after[|before|].id == LittleId(b) && after[|before|].data == b[8..8 + LengthIn(b)]
  }

  /** What the bytes that are there, and the limit, make of a round. */
  function Expected(b: seq<Byte>, maxPacketSize: Word32): Outcome {
    if |b| < 8 then WouldBlock
    else if 0 < maxPacketSize < LengthIn(b) then HeadError
    else if |b| < 8 + LengthIn(b) then WouldBlock
    else Handled
  }

  class Connection {
    var unread: seq<Byte>          // received by the socket, not read yet
    var requests: seq<Message>     // handed to the message handler, in order
    var lastActivity: int
    const hasHeartbeat: bool
    const pack: DataPack

    constructor (hasHeartbeat: bool, maxPacketSize: Word32)
      ensures unread == [] && requests == [] && pack.maxPacketSize == maxPacketSize && this.hasHeartbeat == hasHeartbeat
    {
      unread, requests, lastActivity := [], [], 0;
      this.hasHeartbeat := hasHeartbeat;
      pack := new DataPack(maxPacketSize);
    }

    /** The peer's bytes arrive in chunks of any size. */
    method Receive(chunk: seq<Byte>)
      modifies this`unread
      ensures unread == old(unread) + chunk
    {
      unread := unread + chunk;
    }

    /** One round of the read loop; it blocks as long as the head or the body is not complete. */
    method Read(now: int) returns (outcome: Outcome)
      modifies this
      ensures match CutOne(old(unread), pack.maxPacketSize)
        case Blocked => outcome == WouldBlock && unread == old(unread) && requests == old(requests)
            && lastActivity == old(lastActivity)
        case Dropped(rest) => outcome == HeadError && unread == rest && requests == old(requests)
            && lastActivity == old(lastActivity)
        case Frame(msg, rest) => (
          && outcome == Handled && unread == rest && requests == old(requests) + Requests([msg])
          && lastActivity == if msg.id == HEARTBEAT_ID && hasHeartbeat then now else old(lastActivity))
      ensures outcome == Expected(old(unread), pack.maxPacketSize)
      ensures lastActivity ==
        if outcome == Handled && LittleId(old(unread)) == 99999 && hasHeartbeat then now else old(lastActivity)
      ensures outcome == HeadError ==> unread == old(unread)[8..]
      ensures outcome == Handled ==> unread == old(unread)[8 + LengthIn(old(unread))..]
      ensures outcome == Handled ==> HandsOver(old(unread), old(requests), requests)
    {
      if |unread| < HEAD_LEN {
        return WouldBlock;
      }
      var head := unread[..HEAD_LEN];
      HeadIsPrefix(unread, pack.maxPacketSize);
      HeadBytes(unread, pack.maxPacketSize);
      var msg := pack.UnpackHead(head);
      if msg.Err? {
        unread := unread[HEAD_LEN..];
        return HeadError;
      }
      var len := msg.value.dataLen;
      var data: seq<Byte> := [];
      if len > 0 {
        if |unread| < HEAD_LEN + len {
          return WouldBlock;
        }
        data := unread[HEAD_LEN..HEAD_LEN + len];
      }
      unread := unread[HEAD_LEN + len..];
      var m := msg.value.(data := data);
      assert CutOne(old(unread), pack.maxPacketSize) == Frame(m, unread);
      OneRequest(m);
      if m.id == HEARTBEAT_ID {
        if hasHeartbeat {
          lastActivity := now;
        }
      } else {
        requests := requests + [m];
      }
      outcome := Handled;
    }

    /** The read loop, up to the point where it blocks. */
    method StartReader(now: int)
      modifies this
      ensures unread == Parse(old(unread), pack.maxPacketSize).rest
      ensures requests == old(requests) + Requests(Parse(old(unread), pack.maxPacketSize).msgs)
    {
      hide Parse, Requests, HandsOver, Expected, LengthIn, LittleId, Little;
      var outcome := Handled;
      ghost var read: seq<Message> := [];
      NothingRead(old(unread), pack.maxPacketSize);
      while outcome != WouldBlock
        invariant ReadSoFar(old(unread), read, unread, pack.maxPacketSize)
        invariant requests == old(requests) + Requests(read)
        invariant outcome == WouldBlock ==> CutOne(unread, pack.maxPacketSize).Blocked?
        decreases |unread|, outcome != WouldBlock
      {
        ghost var before := unread;
        outcome := Read(now);
        ReadMore(old(unread), read, before, pack.maxPacketSize);
        if CutOne(before, pack.maxPacketSize).Frame? {
          RequestsConcat(read, [CutOne(before, pack.maxPacketSize).msg]);
          read := read + [CutOne(before, pack.maxPacketSize).msg];
        }
      }
      AllRead(old(unread), read, unread, pack.maxPacketSize);
    }
  }

  /** Of the bytes `all`, the messages `read` have been cut and the bytes `unread` are left. */
  predicate ReadSoFar(all: seq<Byte>, read: seq<Message>, unread: seq<Byte>, maxPacketSize: Word32) {
    var q := Parse(unread, maxPacketSize);
    Parse(all, maxPacketSize) == Parsed(read + q.msgs, q.rest)
  }

  lemma NothingRead(all: seq<Byte>, maxPacketSize: Word32)
    ensures ReadSoFar(all, [], all, maxPacketSize) && Requests([]) == []
  {
    assert [] + Parse(all, maxPacketSize).msgs == Parse(all, maxPacketSize).msgs;
  }

  lemma ReadMore(all: seq<Byte>, read: seq<Message>, unread: seq<Byte>, maxPacketSize: Word32)
    requires ReadSoFar(all, read, unread, maxPacketSize)
    ensures match CutOne(unread, maxPacketSize)
      case Blocked => true
      case Dropped(rest) => ReadSoFar(all, read, rest, maxPacketSize)
      case Frame(msg, rest) => ReadSoFar(all, read + [msg], rest, maxPacketSize)
  {
    match CutOne(unread, maxPacketSize)
    case Frame(msg, rest) =>
      var q := Parse(rest, maxPacketSize);
      assert read + ([msg] + q.msgs) == (read + [msg]) + q.msgs;
    case _ =>
  }

  lemma AllRead(all: seq<Byte>, read: seq<Message>, unread: seq<Byte>, maxPacketSize: Word32)
    requires ReadSoFar(all, read, unread, maxPacketSize) && CutOne(unread, maxPacketSize).Blocked?
    ensures Parse(all, maxPacketSize) == Parsed(read, unread)
  {
    assert read + [] == read;
  }

  lemma HeadIsPrefix(b: seq<Byte>, maxPacketSize: Word32)
    requires |b| >= HEAD_LEN
    ensures HeadOf(b[..HEAD_LEN], maxPacketSize) == HeadOf(b, maxPacketSize)
  {
    assert b[..HEAD_LEN][..4] == b[..4] && b[..HEAD_LEN][4..][..4] == b[4..][..4];
    WordPrefix(b); WordPrefix(b[..HEAD_LEN]); WordPrefix(b[4..]); WordPrefix(b[..HEAD_LEN][4..]);
  }

  /** What the handler of a connection has got is, at any moment, a prefix of the requests the peer sent. */
  lemma RequestsOfPrefix(ms: seq<Message>, b: seq<Byte>, maxPacketSize: Word32)
    requires AllFit(ms, maxPacketSize) && b <= Stream(ms)
    ensures Requests(Parse(b, maxPacketSize).msgs) <= Requests(ms)
  {
    hide Parse, Requests;
    PrefixOfStream(ms, b, maxPacketSize);
    var k := |Parse(b, maxPacketSize).msgs|;
    assert ms == ms[..k] + ms[k..];
    assert Parse(b, maxPacketSize).msgs == ms[..k];
    RequestsConcat(ms[..k], ms[k..]);
  }
}

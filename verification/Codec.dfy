/** The TLV format: length and id as little-endian 32-bit words, then the data. */
module Codec {

  type Byte = x: int | 0 <= x < 256
  type Word32 = x: int | 0 <= x < 4294967296

  datatype Message = Message(id: Word32, dataLen: Word32, data: seq<Byte>)

  datatype Error = ShortRead | TooLarge
  datatype Result<T> = Ok(value: T) | Err(error: Error)

  const HEAD_LEN := 8

  /** NewMsgPackage: the length of the data is truncated to 32 bits. */
  function Package(id: Word32, data: seq<Byte>): Message { Message(id, |data| % 4294967296, data) }

  /** A zero MaxPacketSize means no limit. */
  predicate Allowed(len: Word32, maxPacketSize: Word32) { maxPacketSize == 0 || len <= maxPacketSize }

  function PutWord(v: Word32): (b: seq<Byte>)
    ensures |b| == 4
  {
    [v % 256, v / 256 % 256, v / 65536 % 256, v / 16777216]
  }

  function GetWord(b: seq<Byte>): Word32
    requires |b| >= 4
  {
    (b[0] as int) + 256 * (b[1] as int) + 65536 * (b[2] as int) + 16777216 * (b[3] as int)
  }

  lemma PutGet(v: Word32)
    ensures GetWord(PutWord(v)) == v
  {
    var n: int := v;
    var n1, n2, n3 := n / 256, n / 65536, n / 16777216;
    assert n1 / 256 == n2 && n2 / 256 == n3;
    assert n == 256 * n1 + n % 256;
    assert n1 == 256 * n2 + n1 % 256;
    assert n2 == 256 * n3 + n2 % 256;
  }

  lemma GetPut(b: seq<Byte>)
    requires |b| >= 4
    ensures PutWord(GetWord(b)) == b[..4]
  {
    var b0, b1, b2, b3: int := b[0], b[1], b[2], b[3];
    BytesOf(b0, b1, b2, b3);
    var put := PutWord(GetWord(b));
    assert put[0] == b0 && put[1] == b1 && put[2] == b2 && put[3] == b3;
  }

  lemma BytesOf(b0: Byte, b1: Byte, b2: Byte, b3: Byte)
    ensures var v: int := b0 as int + 256 * (b1 as int) + 65536 * (b2 as int) + 16777216 * (b3 as int);
      v % 256 == b0 && v / 256 % 256 == b1 && v / 65536 % 256 == b2 && v / 16777216 == b3
  {
    var c0, c1, c2, c3: int := b0, b1, b2, b3;
    var v3, v2 := c3, c2 + 256 * c3;
    var v1 := c1 + 256 * v2;
    var v := c0 + 256 * v1;
    assert v / 256 == v1 && v1 / 256 == v2 && v2 / 256 == v3;
    assert v / 65536 == v2 && v / 16777216 == v3;
  }

  /** Four bytes, the lowest first. */
  function Little(b0: int, b1: int, b2: int, b3: int): int { b0 + 256 * b1 + 65536 * b2 + 16777216 * b3 }

  /** The first eight bytes of b carry a length and an id, each with its lowest byte first. */
  predicate HeadIs(b: seq<Byte>, len: int, id: int) {
    && |b| >= 8
    && len == Little(b[0], b[1], b[2], b[3])
    && id == Little(b[4], b[5], b[6], b[7])
  }

  function Packed(m: Message): (b: seq<Byte>)
    ensures |b| == HEAD_LEN + |m.data|
  {
    PutWord(m.dataLen) + PutWord(m.id) + m.data
  }

  /** What a head says: length and id. */
  function HeadOf(b: seq<Byte>, maxPacketSize: Word32): Result<Message> {
    if |b| < HEAD_LEN then Err(ShortRead)
    else if !Allowed(GetWord(b), maxPacketSize) then Err(TooLarge)
    else Ok(Message(GetWord(b[4..]), GetWord(b), []))
  }

  function Unpacked(b: seq<Byte>, maxPacketSize: Word32): Result<Message> {
    match HeadOf(b, maxPacketSize)
    case Err(e) => Err(e)
    case Ok(head) =>
      if |b| < HEAD_LEN + head.dataLen then Err(ShortRead)
      else Ok(head.(data := b[HEAD_LEN..HEAD_LEN + head.dataLen]))
  }

  /** The length that the first four bytes carry. */
  function LengthIn(b: seq<Byte>): int
    requires |b| >= 8
  {
    Little(b[0], b[1], b[2], b[3])
  }

  /** What the head of any bytes gives: length and id byte by byte, and the limit, which 0 switches off. */
  lemma HeadBytes(b: seq<Byte>, maxPacketSize: Word32)
    ensures var r := HeadOf(b, maxPacketSize);
      && (r == Err(ShortRead) <==> |b| < 8)
      && (r == Err(TooLarge) <==> |b| >= 8 && 0 < maxPacketSize < LengthIn(b))
      && (r.Ok? ==> HeadIs(b, r.value.dataLen, r.value.id) && r.value.data == [])
  {
  }

  /** Reader over a byte slice, as bytes.Reader: a short read fails and leaves nothing. */
  class Reader {
    var rest: seq<Byte>

    constructor (b: seq<Byte>)
      ensures rest == b
    {
      rest := b;
    }

    method Take(n: nat) returns (r: Result<seq<Byte>>)
      modifies this
      ensures if n <= |old(rest)| then r == Ok(old(rest)[..n]) && rest == old(rest)[n..]
              else r == Err(ShortRead) && rest == []
    {
      if n <= |rest| {
        r := Ok(rest[..n]);
        rest := rest[n..];
      } else {
        r := Err(ShortRead);
        rest := [];
      }
    }
  }

  class DataPack {
    const maxPacketSize: Word32

    constructor (maxPacketSize: Word32)
      ensures this.maxPacketSize == maxPacketSize
    {
      this.maxPacketSize := maxPacketSize;
    }

    method Pack(m: Message) returns (buffer: seq<Byte>)
      ensures buffer == Packed(m)
      ensures HeadIs(buffer, m.dataLen, m.id) && buffer[8..] == m.data
    {
      PackedBytes(m);
      buffer := [];
      buffer := buffer + PutWord(m.dataLen);
      buffer := buffer + PutWord(m.id);
      buffer := buffer + m.data;
    }

    /** Reads length and id from the reader and checks the length. */
    method ReadHead(reader: Reader) returns (r: Result<Message>)
      modifies reader
      ensures r == HeadOf(old(reader.rest), maxPacketSize)
      ensures r.Ok? ==> reader.rest == old(reader.rest)[HEAD_LEN..]
    {
      var len := reader.Take(4);
      if len.Err? { return Err(ShortRead); }
      var id := reader.Take(4);
      if id.Err? { return Err(ShortRead); }
      assert len.value + id.value == old(reader.rest)[..8];
      if maxPacketSize > 0 && GetWord(len.value) > maxPacketSize { return Err(TooLarge); }
      r := Ok(Message(GetWord(id.value), GetWord(len.value), []));
    }

    method UnpackHead(b: seq<Byte>) returns (r: Result<Message>)
      ensures r == HeadOf(b, maxPacketSize)
      ensures r == Err(ShortRead) <==> |b| < 8
      ensures r == Err(TooLarge) <==> |b| >= 8 && 0 < maxPacketSize < LengthIn(b)
      ensures r.Ok? ==> HeadIs(b, r.value.dataLen, r.value.id) && r.value.data == []
    {
      HeadBytes(b, maxPacketSize);
      var reader := new Reader(b);
      r := ReadHead(reader);
    }

    method Unpack(b: seq<Byte>) returns (r: Result<Message>)
      ensures r == Unpacked(b, maxPacketSize)
      ensures r == Err(TooLarge) <==> |b| >= 8 && 0 < maxPacketSize < LengthIn(b)
      ensures r.Ok? <==> |b| >= 8 && |b| >= 8 + LengthIn(b) && (maxPacketSize == 0 || LengthIn(b) <= maxPacketSize)
      ensures r.Ok? ==> HeadIs(b, r.value.dataLen, r.value.id) && r.value.data == b[8..8 + LengthIn(b)]
    {
      HeadBytes(b, maxPacketSize);
      var reader := new Reader(b);
      r := ReadHead(reader);
      if r.Err? { return; }
      var body := reader.Take(r.value.dataLen);
      if body.Err? { return Err(ShortRead); }
      assert body.value == b[HEAD_LEN..HEAD_LEN + r.value.dataLen];
      r := Ok(r.value.(data := body.value));
    }
  }

  /** A message that can travel: its length field matches its data and is allowed. */
  predicate Fits(m: Message, maxPacketSize: Word32) { m.dataLen == |m.data| && Allowed(m.dataLen, maxPacketSize) }

  /** The head of a packed message, whatever follows it. */
  lemma HeadOfPacked(m: Message, after: seq<Byte>, maxPacketSize: Word32)
    ensures HeadOf(Packed(m) + after, maxPacketSize) ==
      if Allowed(m.dataLen, maxPacketSize) then Ok(m.(data := [])) else Err(TooLarge)
  {
    var b := Packed(m) + after;
    var len, id := PutWord(m.dataLen), PutWord(m.id);
    PutGet(m.dataLen);
    PutGet(m.id);
    hide PutWord, GetWord, Allowed;
    assert |b| >= HEAD_LEN && b[..4] == len;
    assert b[4..] == id + m.data + after && b[4..][..4] == id;
    WordPrefix(b);
    WordPrefix(b[4..]);
  }

  /** The bytes of a packed message: the head, lowest bytes first, then the data. */
  lemma PackedBytes(m: Message)
    ensures HeadIs(Packed(m), m.dataLen, m.id) && Packed(m)[8..] == m.data
  {
    PutGet(m.dataLen);
    PutGet(m.id);
    var b := Packed(m);
    assert b[..4] == PutWord(m.dataLen) && b[4..8] == PutWord(m.id);
    assert b[0] == b[..4][0] && b[1] == b[..4][1] && b[2] == b[..4][2] && b[3] == b[..4][3];
    assert b[4] == b[4..8][0] && b[5] == b[4..8][1] && b[6] == b[4..8][2] && b[7] == b[4..8][3];
  }

  lemma WordPrefix(b: seq<Byte>)
    requires |b| >= 4
    ensures GetWord(b) == GetWord(b[..4])
  {
  }

  /** Unpack undoes Pack exactly for the messages that fit. */
  lemma UnpackOfPack(m: Message, maxPacketSize: Word32)
    ensures Unpacked(Packed(m), maxPacketSize) == Ok(m) <==> Fits(m, maxPacketSize)
  {
    HeadOfPacked(m, [], maxPacketSize);
    assert Packed(m) + [] == Packed(m);
    if Fits(m, maxPacketSize) {
      assert Packed(m)[HEAD_LEN..HEAD_LEN + m.dataLen] == m.data;
    }
  }

  /** Whatever Unpack accepts is the packed form of what it returns, followed by bytes it ignores. */
  lemma PackOfUnpack(b: seq<Byte>, maxPacketSize: Word32)
    ensures var r := Unpacked(b, maxPacketSize);
      r.Ok? ==> Fits(r.value, maxPacketSize) && Packed(r.value) <= b && |Packed(r.value)| == HEAD_LEN + r.value.dataLen
  {
    var r := Unpacked(b, maxPacketSize);
    if r.Ok? {
      GetPut(b);
      GetPut(b[4..]);
      assert b[..HEAD_LEN + r.value.dataLen] == b[..4] + b[4..][..4] + b[HEAD_LEN..HEAD_LEN + r.value.dataLen];
    }
  }

  /**
   * The sender's view, for data of any length: what comes back, if the limit allows it, has the id it was
   * sent under and is the whole of the data if that is shorter than 2^32 bytes, and no other data is whole.
   */
  lemma SentIsReceived(id: Word32, data: seq<Byte>, maxPacketSize: Word32)
    ensures var r, n := Unpacked(Packed(Package(id, data)), maxPacketSize), |data| % 4294967296;
      && r == (if 0 < maxPacketSize < n then Err(TooLarge) else Ok(Message(id, n, data[..n])))
      && (data[..n] == data <==> |data| < 4294967296)
  {
    var m := Package(id, data);
    HeadOfPacked(m, [], maxPacketSize);
    assert Packed(m) + [] == Packed(m);
    assert Packed(m)[HEAD_LEN..HEAD_LEN + m.dataLen] == data[..m.dataLen];
    hide Packed, HeadOf, PutWord;
  }

  /** Which messages that are packaged fit. */
  lemma PackageFits(id: Word32, data: seq<Byte>, maxPacketSize: Word32)
    ensures Fits(Package(id, data), maxPacketSize) <==>
      (|data| < 4294967296 && Allowed(|data| % 4294967296, maxPacketSize))
  {
  }
}

/** The framing protocol: `FStreamer` writes frames, the three states of `FreeGrok::on_received`
    read them back from whatever pieces the socket delivers. */
module Framing {
  import opened Bytes
  import opened ByteBuffer
  import opened ProtoSpec

  datatype ContentSize = ExactSize(n: nat) | Unknown | Bad

  /** ZSTD as the program uses it.  `compress` fails when the result does not fit the length of its
      input; `decompress` fills a buffer of the frame's content size. */
  datatype Zstd = Zstd(
    compress: seq<Byte> -> Option<seq<Byte>>,
    contentSize: seq<Byte> -> ContentSize,
    decompress: seq<Byte> -> Option<seq<Byte>>)

  ghost predicate Lawful(z: Zstd) {
    && (forall x: seq<Byte> {:trigger z.compress(x)} :: x != [] && z.compress(x).Some? ==>
          var c := z.compress(x).value;
          c != [] && z.contentSize(c) == ExactSize(|x|) && z.decompress(c) == Some(x))
    && (forall c: seq<Byte> {:trigger z.decompress(c)} :: z.decompress(c).Some? && z.contentSize(c).ExactSize? ==>
          |z.decompress(c).value| == z.contentSize(c).n)
  }

  datatype Message = Message(kind: Byte, payload: seq<Byte>)

  const MAX32 := 0xffff_ffff

  /** What `FStreamer::send` puts behind the header, and whether it is compressed. */
  function Packed(z: Zstd, payload: seq<Byte>): (seq<Byte>, bool) {
    if |payload| >= COMPRESS_MIN_THRESHOLD && z.compress(payload).Some? && |z.compress(payload).value| < |payload|
    then (z.compress(payload).value, true)
    else (payload, false)
  }

  /** `send_header`, given the low 32 bits of a length: two bytes if they fit one, else five. */
  function Header(kind: Byte, size: nat, compressed: bool): (h: seq<Byte>)
    ensures |h| == if size % (MAX32 + 1) <= 0xff then 2 else 5
  {
    var length := size % (MAX32 + 1);
    if length <= 0xff then [StoreFlags(compressed, true, kind), length]
    else [StoreFlags(compressed, false, kind)] + LittleEndian(length, 4)
  }

  /** `FStreamer::send`: the bytes of a frame. */
  function Encode(z: Zstd, m: Message): seq<Byte> {
    if m.payload == [] then Header(m.kind, 0, false)
    else
      var (body, compressed) := Packed(z, m.payload);
      Header(m.kind, |body|, compressed) + body
  }

  function EncodeAll(z: Zstd, ms: seq<Message>): seq<Byte> {
    if ms == [] then [] else EncodeAll(z, ms[..|ms| - 1]) + Encode(z, ms[|ms| - 1])
  }

  // ---------------------------------------------------------------- reading frames

  datatype PacketState = TypeGot | HeaderGot | BufferGot

  /** The read item at the head of a control client's read queue. */
  datatype Reader = Reader(state: PacketState, length: nat, u64: int, received: seq<Byte>)

  /** A frame handed to `process_message`, or answered with an error. */
  datatype Received = Deliver(m: Message) | Reject(error: Byte)

  const NewMessage := Reader(TypeGot, 2, 0, [])

  ghost predicate Waits(r: Reader) {
    && |r.received| < r.length
    && match r.state
       case TypeGot => r.length == 2
       case HeaderGot => r.length == 3
       case BufferGot => true
  }

  /** (data << 32) | length, and (data << 8) | length_chunk. */
  function Merge(data: int, length: int): int { data * 0x1_0000_0000 + length }

  function Meta(data: int, lengthChunk: int): int { data * 0x100 + lengthChunk }

  /** `FreeGrok::on_received` when the item is full: what it hands on, and what it reads next. */
  function OnReceived(z: Zstd, r: Reader): (Reader, seq<Received>)
    requires |r.received| == r.length && (r.state.TypeGot? ==> r.length == 2)
  {
    match r.state
    case TypeGot =>
      var data, lengthChunk: int := r.received[0], r.received[1];
      if IsShort(data) then
        if lengthChunk == 0 then (NewMessage, [Deliver(Message(GetType(data), []))])
        else (Reader(BufferGot, lengthChunk, Merge(data, lengthChunk), []), [])
      else (Reader(HeaderGot, 3, Meta(data, lengthChunk), []), [])
    case HeaderGot =>
      var meta := r.u64 % 0x1_0000;
      var lengthChunk, data := meta % 0x100, meta / 0x100;
      var length := FromLittleEndian([lengthChunk] + r.received);
      if length == 0 then (NewMessage, [Deliver(Message(GetType(data), []))])
      else (Reader(BufferGot, length, Merge(data, length), []), [])
    case BufferGot =>
      var data, length := r.u64 / 0x1_0000_0000 % 0x100, r.u64 % 0x1_0000_0000;
      (NewMessage, [Unpack(z, data, r.received)])
  }

  function Unpack(z: Zstd, data: Byte, buffer: seq<Byte>): Received {
    if !IsCompressed(data) then Deliver(Message(GetType(data), buffer))
    else
      match z.contentSize(buffer)
      case ExactSize(n) =>
        if n == 0 then Reject(DECOMPRESSION_ERROR)
        else if n > MAX_DECOMPRESSED_SIZE then Reject(TOO_LONG_BUFFER)
        else
          (match z.decompress(buffer)
           case None => Reject(DECOMPRESSION_ERROR)
           case Some(content) => Deliver(Message(GetType(data), content)))
      case _ => Reject(DECOMPRESSION_ERROR)
  }

  /** One byte more. */
  function Take(z: Zstd, r: Reader, b: Byte): (Reader, seq<Received>)
    requires Waits(r)
  {
    var t := r.(received := r.received + [b]);
    if |t.received| == t.length then OnReceived(z, t) else (t, [])
  }

  lemma TakeWaits(z: Zstd, r: Reader, b: Byte)
    requires Waits(r)
    ensures Waits(Take(z, r, b).0)
  {}

  /** The reference: the stream read byte by byte. */
  function ReadStream(z: Zstd, r: Reader, bytes: seq<Byte>): (Reader, seq<Received>)
    requires Waits(r)
    ensures Waits(ReadStream(z, r, bytes).0)
    decreases |bytes|
  {
    if bytes == [] then (r, []) else
      var (t, out) := Take(z, r, bytes[0]);
      var (u, more) := ReadStream(z, t, bytes[1..]);
      (u, out + more)
  }

  /** `perform_read_queue` on a control client: the socket delivers some of what the item lacks. */
  function ReadChunk(z: Zstd, r: Reader, chunk: seq<Byte>): (Reader, seq<Received>)
    requires Waits(r) && 0 < |chunk| <= r.length - |r.received|
  {
    var t := r.(received := r.received + chunk);
    if |t.received| >= t.length then OnReceived(z, t) else (t, [])
  }

  lemma {:induction false} ReadStreamConcat(z: Zstd, r: Reader, a: seq<Byte>, b: seq<Byte>)
    requires Waits(r)
    ensures var (t, out) := ReadStream(z, r, a);
            var (u, more) := ReadStream(z, t, b);
            ReadStream(z, r, a + b) == (u, out + more)
    decreases |a|
  {
    if a == [] {
      assert a + b == b;
      var (u, more) := ReadStream(z, r, b);
      assert [] + more == more;
    } else {
      assert (a + b)[1..] == a[1..] + b;
      var (t, out) := Take(z, r, a[0]);
      TakeWaits(z, r, a[0]);
      ReadStreamConcat(z, t, a[1..], b);
      var (v, mid) := ReadStream(z, t, a[1..]);
      var (u, more) := ReadStream(z, v, b);
      Associates(out, mid, more);
    }
  }

  /** A chunk is as good as its bytes one by one. */
  lemma {:induction false} ChunkIsStream(z: Zstd, r: Reader, chunk: seq<Byte>)
    requires Waits(r) && 0 < |chunk| <= r.length - |r.received|
    ensures ReadChunk(z, r, chunk) == ReadStream(z, r, chunk)
    decreases |chunk|
  {
    var (t, out) := Take(z, r, chunk[0]);
    assert r.received + [chunk[0]] + chunk[1..] == r.received + chunk;
    if |chunk| == 1 {
      assert chunk == [chunk[0]] && chunk[1..] == [];
      assert ReadStream(z, t, []) == (t, []);
      assert out + [] == out;
    } else {
      ChunkIsStream(z, t, chunk[1..]);
      var (u, more) := ReadStream(z, t, chunk[1..]);
      assert [] + more == more;
    }
  }

  /** A piece of the item's buffer arrives whole. */
  lemma PieceArrives(z: Zstd, r: Reader, piece: seq<Byte>)
    requires Waits(r) && r.received == [] && |piece| == r.length
    ensures ReadStream(z, r, piece) == OnReceived(z, r.(received := piece))
  {
    ChunkIsStream(z, r, piece);
    assert [] + piece == piece;
  }

  // ---------------------------------------------------------------- round trip

  /** What comes of a message at the other end: its type keeps six bits; a compressed original above
      the limit is refused. */
  function Arrives(z: Zstd, m: Message): Received {
    if Packed(z, m.payload).1 && |m.payload| > MAX_DECOMPRESSED_SIZE then Reject(TOO_LONG_BUFFER)
    else Deliver(Message(m.kind % 64, m.payload))
  }

  function ArriveAll(z: Zstd, ms: seq<Message>): seq<Received> {
    if ms == [] then [] else ArriveAll(z, ms[..|ms| - 1]) + [Arrives(z, ms[|ms| - 1])]
  }

  /** Lengths are 32 bits on the wire. */
  predicate Fits32(m: Message) {
    |m.payload| <= MAX32
  }

  lemma HeaderOf32(kind: Byte, length: nat, compressed: bool)
    requires length <= MAX32
    ensures Header(kind, length, compressed) ==
            if length <= 0xff then [StoreFlags(compressed, true, kind), length]
            else [StoreFlags(compressed, false, kind)] + LittleEndian(length, 4)
  {}

  lemma ShortHeaderRead(z: Zstd, kind: Byte, length: nat, compressed: bool)
    requires 0 < length <= 0xff
    ensures var data := StoreFlags(compressed, true, kind);
            ReadStream(z, NewMessage, [data, length]) == (Reader(BufferGot, length, Merge(data, length), []), [])
  {
    UnpacksPacked(compressed, true, kind);
    PieceArrives(z, NewMessage, [StoreFlags(compressed, true, kind), length]);
  }

  lemma LongHeaderRead(z: Zstd, kind: Byte, length: nat, compressed: bool)
    requires 0xff < length <= MAX32
    ensures var data := StoreFlags(compressed, false, kind);
            ReadStream(z, NewMessage, [data] + LittleEndian(length, 4)) ==
            (Reader(BufferGot, length, Merge(data, length), []), [])
  {
    UnpacksPacked(compressed, false, kind);
    FourBytesRead(z, StoreFlags(compressed, false, kind), length);
  }

  /** The reader after the header of a frame. */
  lemma HeaderRead(z: Zstd, kind: Byte, length: nat, compressed: bool)
    requires 0 < length <= MAX32
    ensures var data := StoreFlags(compressed, length <= 0xff, kind);
            ReadStream(z, NewMessage, Header(kind, length, compressed)) ==
            (Reader(BufferGot, length, Merge(data, length), []), [])
  {
    HeaderOf32(kind, length, compressed);
    if length <= 0xff {
      ShortHeaderRead(z, kind, length, compressed);
    } else {
      LongHeaderRead(z, kind, length, compressed);
    }
  }

  /** Any message: the reader is back where it was, and has handed on what the message comes to. */
  lemma FrameRoundTrip(z: Zstd, m: Message)
    requires Lawful(z) && Fits32(m)
    ensures ReadStream(z, NewMessage, Encode(z, m)) == (NewMessage, [Arrives(z, m)])
  {
    if m.payload == [] {
      UnpacksPacked(false, true, m.kind);
      PieceArrives(z, NewMessage, Encode(z, m));
    } else {
      var (body, compressed) := Packed(z, m.payload);
      var data := StoreFlags(compressed, |body| <= 0xff, m.kind);
      assert body != [] && |body| <= |m.payload|;
      HeaderRead(z, m.kind, |body|, compressed);
      UnpacksPacked(compressed, |body| <= 0xff, m.kind);
      BodyRead(z, data, body);
      ReadStreamConcat(z, NewMessage, Header(m.kind, |body|, compressed), body);
      assert [] + [Arrives(z, m)] == [Arrives(z, m)];
    }
  }

  lemma {:induction false} FramesRoundTrip(z: Zstd, ms: seq<Message>)
    requires Lawful(z) && forall m | m in ms :: Fits32(m)
    ensures ReadStream(z, NewMessage, EncodeAll(z, ms)) == (NewMessage, ArriveAll(z, ms))
    decreases |ms|
  {
    if ms != [] {
      var init, m := ms[..|ms| - 1], ms[|ms| - 1];
      FramesRoundTrip(z, init);
      FrameRoundTrip(z, m);
      ReadStreamConcat(z, NewMessage, EncodeAll(z, init), Encode(z, m));
    }
  }

  // ---------------------------------------------------------------- on the wire

  /** ZSTD makes it shorter, and it is long enough to try. */
  predicate Shrinks(z: Zstd, payload: seq<Byte>) {
    |payload| >= COMPRESS_MIN_THRESHOLD && z.compress(payload).Some? && |z.compress(payload).value| < |payload|
  }

  /** What is sent of it: the shorter of the two. */
  function Shorter(z: Zstd, payload: seq<Byte>): seq<Byte> {
    if Shrinks(z, payload) then z.compress(payload).value else payload
  }

  lemma HeaderBytes(kind: Byte, length: nat, compressed: bool)
    requires length <= MAX32
    ensures var h := Header(kind, length, compressed);
            && GetType(h[0]) == kind % 64 && (IsCompressed(h[0]) <==> compressed) && (IsShort(h[0]) <==> length <= 0xff)
            && FromLittleEndian(h[1..]) == length && |h| == if length <= 0xff then 2 else 5
  {
    var h := Header(kind, length, compressed);
    HeaderOf32(kind, length, compressed);
    UnpacksPacked(compressed, length <= 0xff, kind);
    if length <= 0xff {
      assert h[1..] == [length] && [length][1..] == [];
    } else {
      assert h[1..] == LittleEndian(length, 4);
      assert Power256(4) == 0x1_0000_0000 by { assert Power256(2) == 0x1_0000; }
      BytesOfNumber(length, 4);
    }
  }

  /** The frame of any message: its type in six bits, whether it is compressed and whether its length has
      one byte or four; the length of what follows, lowest byte first; and the payload, or what ZSTD makes
      of it just if that is shorter and the payload is not too short to try. */
  lemma WireFormat(z: Zstd, m: Message)
    requires Fits32(m)
    ensures var frame, body := Encode(z, m), Shorter(z, m.payload);
            var n := if |body| <= 0xff then 2 else 5;
            && |frame| == n + |body| && frame[n..] == body && FromLittleEndian(frame[1..n]) == |body|
            && GetType(frame[0]) == m.kind % 64
            && (IsCompressed(frame[0]) <==> Shrinks(z, m.payload)) && (IsShort(frame[0]) <==> |body| <= 0xff)
  {
    var body := Shorter(z, m.payload);
    var h := Header(m.kind, |body|, Shrinks(z, m.payload));
    HeaderBytes(m.kind, |body|, Shrinks(z, m.payload));
    assert Encode(z, m) == h + body;
    assert (h + body)[|h|..] == body && (h + body)[1..|h|] == h[1..];
  }

  /** A message is handed on as it was sent, its type cut to six bits, if and only if it is not both
      longer than the limit and made shorter by ZSTD. */
  lemma DeliveredIff(z: Zstd, m: Message)
    requires Lawful(z) && Fits32(m)
    ensures ReadStream(z, NewMessage, Encode(z, m)).1 == [Deliver(Message(m.kind % 64, m.payload))] <==>
            !(|m.payload| > MAX_DECOMPRESSED_SIZE && Shrinks(z, m.payload))
  {
    FrameRoundTrip(z, m);
  }

  // ---------------------------------------------------------------- any frame

  /** A length of one byte behind a first byte that says so, or of four behind one that does not. */
  function AnyHeader(data: Byte, length: nat): seq<Byte>
    requires length <= if IsShort(data) then 0xff else MAX32
  {
    if IsShort(data) then [data, length] else [data] + LittleEndian(length, 4)
  }

  /** The first bytes are no frame yet; the others make it one. */
  lemma ThenRead(z: Zstd, r: Reader, a: seq<Byte>, b: seq<Byte>, t: Reader, u: Reader, out: seq<Received>)
    requires Waits(r) && Waits(t) && ReadStream(z, r, a) == (t, []) && ReadStream(z, t, b) == (u, out)
    ensures ReadStream(z, r, a + b) == (u, out)
  {
    ReadStreamConcat(z, r, a, b);
    assert [] + out == out;
  }

  lemma AnyHeaderRead(z: Zstd, data: Byte, length: nat)
    requires 0 < length <= if IsShort(data) then 0xff else MAX32
    ensures ReadStream(z, NewMessage, AnyHeader(data, length)) ==
            (Reader(BufferGot, length, Merge(data, length), []), [])
  {
    if IsShort(data) {
      PieceArrives(z, NewMessage, [data, length]);
    } else {
      FourBytesRead(z, data, length);
      LengthBytes(length);
    }
  }

  lemma LengthBytes(length: nat)
    requires length <= MAX32
    ensures FromLittleEndian(LittleEndian(length, 4)) == length
  {
    BytesOfNumber(length, 4);
    assert Power256(4) == 0x1_0000_0000 by { assert Power256(2) == 0x1_0000; }
  }

  /** What the reader remembers of the first two bytes. */
  function HalfRead(data: Byte, low: Byte): Reader {
    Reader(HeaderGot, 3, Meta(data, low), [])
  }

  lemma ThreeBytesRead(z: Zstd, data: Byte, low: Byte, rest: seq<Byte>)
    requires |rest| == 3
    ensures var length := FromLittleEndian([low] + rest);
            ReadStream(z, HalfRead(data, low), rest) ==
            if length == 0 then (NewMessage, [Deliver(Message(GetType(data), []))])
            else (Reader(BufferGot, length, Merge(data, length), []), [])
  {
    var meta := Meta(data, low);
    assert meta % 0x1_0000 == meta && meta % 0x100 == low && meta / 0x100 == data;
    PieceArrives(z, HalfRead(data, low), rest);
  }

  lemma TwoBytesRead(z: Zstd, data: Byte, low: Byte)
    requires !IsShort(data)
    ensures ReadStream(z, NewMessage, [data, low]) == (HalfRead(data, low), [])
  {
    PieceArrives(z, NewMessage, [data, low]);
  }

  lemma FourBytesRead(z: Zstd, data: Byte, length: nat)
    requires length <= MAX32 && !IsShort(data)
    ensures ReadStream(z, NewMessage, [data] + LittleEndian(length, 4)) ==
            if length == 0 then (NewMessage, [Deliver(Message(GetType(data), []))])
            else (Reader(BufferGot, length, Merge(data, length), []), [])
  {
    var bytes := LittleEndian(length, 4);
    var low, rest := bytes[0], bytes[1..];
    assert [data] + bytes == [data, low] + rest && [low] + rest == bytes;
    TwoBytesRead(z, data, low);
    ThreeBytesRead(z, data, low, rest);
    LengthBytes(length);
    var (u, out) := ReadStream(z, HalfRead(data, low), rest);
    ThenRead(z, NewMessage, [data, low], rest, HalfRead(data, low), u, out);
  }

  lemma EmptyFrameRead(z: Zstd, data: Byte)
    ensures ReadStream(z, NewMessage, AnyHeader(data, 0)) == (NewMessage, [Deliver(Message(GetType(data), []))])
  {
    if IsShort(data) {
      PieceArrives(z, NewMessage, [data, 0]);
    } else {
      FourBytesRead(z, data, 0);
    }
  }

  lemma BodyRead(z: Zstd, data: Byte, body: seq<Byte>)
    requires 0 < |body| <= MAX32
    ensures ReadStream(z, Reader(BufferGot, |body|, Merge(data, |body|), []), body) ==
            (NewMessage, [Unpack(z, data, body)])
  {
    var u64 := Merge(data, |body|);
    assert u64 / 0x1_0000_0000 == data && u64 % 0x1_0000_0000 == |body| && data % 0x100 == data;
    PieceArrives(z, Reader(BufferGot, |body|, u64, []), body);
  }

  lemma FrameRead(z: Zstd, data: Byte, body: seq<Byte>)
    requires |body| <= if IsShort(data) then 0xff else MAX32
    ensures ReadStream(z, NewMessage, AnyHeader(data, |body|) + body) ==
            (NewMessage, [if body == [] then Deliver(Message(GetType(data), [])) else Unpack(z, data, body)])
  {
    var header := AnyHeader(data, |body|);
    if body == [] {
      assert header + body == header;
      EmptyFrameRead(z, data);
    } else {
      AnyHeaderRead(z, data, |body|);
      BodyRead(z, data, body);
      var r := Reader(BufferGot, |body|, Merge(data, |body|), []);
      ThenRead(z, NewMessage, header, body, r, NewMessage, [Unpack(z, data, body)]);
    }
  }

  /** Whatever follows a header, it is read to its end and comes to one message or one error: as it is, if
      it is not said to be compressed; what ZSTD makes of it; or the error, that it is longer than the limit
      or that ZSTD cannot tell how long it is, tells nothing, or cannot read it. */
  lemma AnyFrameRead(z: Zstd, data: Byte, body: seq<Byte>)
    requires |body| <= if IsShort(data) then 0xff else MAX32
    ensures ReadStream(z, NewMessage, AnyHeader(data, |body|) + body).0 == NewMessage
    ensures var out, size := ReadStream(z, NewMessage, AnyHeader(data, |body|) + body).1, z.contentSize(body);
            && (body == [] || data % 2 == 0 ==> out == [Deliver(Message(data / 4, body))])
            && (body != [] && data % 2 == 1 ==>
                if !size.ExactSize? || size.n == 0 then out == [Reject(DECOMPRESSION_ERROR)]
                else if size.n > MAX_DECOMPRESSED_SIZE then out == [Reject(TOO_LONG_BUFFER)]
                else if z.decompress(body).None? then out == [Reject(DECOMPRESSION_ERROR)]
                else out == [Deliver(Message(data / 4, z.decompress(body).value))])
  {
    FrameRead(z, data, body);
  }
}

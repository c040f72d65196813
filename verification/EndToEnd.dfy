/** Messages from one end of a connection to the other: queued by `FStreamer`, taken by the socket
    in parts, delivered by the socket in parts, decoded by `on_received`. */
module EndToEnd {
  import opened Bytes
  import opened Framing
  import opened EventLoop

  /** The sender's loop and socket, what is on the wire, and the receiver. */
  datatype Link = Link(
    loop: Loop, sent: seq<Message>, wire: seq<Byte>, reader: Reader, received: seq<Received>)

  datatype Event = Said(m: Message) | Written(k: nat) | Arrived(k: nat)

  ghost predicate Enabled(z: Zstd, s: Sock, c: Link, e: Event) {
    match e
    case Said(m) => Tracked(c.loop) && Fits32(m)
    case Written(k) => CanWrite(c.loop, s, k)
    case Arrived(k) => Waits(c.reader) && 0 < k <= |c.wire| && k <= c.reader.length - |c.reader.received|
  }

  function Next(z: Zstd, s: Sock, c: Link, e: Event): Link
    requires Enabled(z, s, c, e)
  {
    match e
    case Said(m) => c.(loop := SendMessage(c.loop, z, s, m), sent := c.sent + [m])
    case Written(k) =>
      var w := c.loop.queues[s].write[0];
      c.(loop := WriteSome(c.loop, s, k), wire := c.wire + w.buffer[w.sent..w.sent + k])
    case Arrived(k) =>
      var (reader, out) := ReadChunk(z, c.reader, c.wire[..k]);
      c.(wire := c.wire[k..], reader := reader, received := c.received + out)
  }

  ghost predicate IsStep(z: Zstd, s: Sock, c: Link, e: Event, d: Link) {
    Enabled(z, s, c, e) && d == Next(z, s, c, e)
  }

  /** The links cs, from a fresh one, and the events es between them. */
  ghost predicate IsRun(z: Zstd, s: Sock, cs: seq<Link>, es: seq<Event>) {
    && |cs| == |es| + 1 && cs[0] == Fresh(s)
    && forall i {:trigger IsStep(z, s, cs[i], es[i], cs[i + 1])} | 0 <= i < |es| ::
       IsStep(z, s, cs[i], es[i], cs[i + 1])
  }

  lemma StepOf(z: Zstd, s: Sock, cs: seq<Link>, es: seq<Event>, i: nat)
    requires IsRun(z, s, cs, es) && i < |es|
    ensures IsStep(z, s, cs[i], es[i], cs[i + 1])
  {}

  /** A fresh connection. */
  function Fresh(s: Sock): Link {
    Link(Loop(map[s := NoQueues], {}, map[], map[s := []], map[s := []]), [], [], NewMessage, [])
  }

  /** read is what the receiver has read so far; with the wire it is what the sender's socket took. */
  ghost predicate Consistent(z: Zstd, s: Sock, c: Link, read: seq<Byte>) {
    && Tracked(c.loop) && s in c.loop.queues && QueueOk(c.loop, s)
    && (forall m | m in c.sent :: Fits32(m))
    && c.loop.accepted[s] == EncodeAll(z, c.sent)
    && c.loop.handed[s] == read + c.wire
    && Waits(c.reader) && ReadStream(z, NewMessage, read) == (c.reader, c.received)
  }

  lemma MessageKeeps(z: Zstd, s: Sock, c: Link, m: Message, read: seq<Byte>)
    requires Lawful(z) && Consistent(z, s, c, read) && Fits32(m)
    ensures Consistent(z, s, Next(z, s, c, Said(m)), read)
  {
    SendsFrame(c.loop, z, s, m);
    var sent := c.sent + [m];
    assert sent[..|sent| - 1] == c.sent;
  }

  lemma WrittenIsHanded(s: Sock, c: Link, k: nat, read: seq<Byte>)
    requires CanWrite(c.loop, s, k) && c.loop.handed[s] == read + c.wire
    ensures var w := c.loop.queues[s].write[0];
            WriteSome(c.loop, s, k).handed[s] == read + (c.wire + w.buffer[w.sent..w.sent + k])
  {
    var w := c.loop.queues[s].write[0];
    Associates(read, c.wire, w.buffer[w.sent..w.sent + k]);
  }

  lemma WrittenKeeps(z: Zstd, s: Sock, c: Link, k: nat, read: seq<Byte>)
    requires Consistent(z, s, c, read) && CanWrite(c.loop, s, k)
    ensures Consistent(z, s, Next(z, s, c, Written(k)), read)
  {
    WriteKeeps(c.loop, s, k);
    WrittenIsHanded(s, c, k, read);
  }

  lemma ReadsOn(z: Zstd, reader: Reader, received: seq<Received>, read: seq<Byte>, chunk: seq<Byte>)
    requires Waits(reader) && 0 < |chunk| <= reader.length - |reader.received|
    requires ReadStream(z, NewMessage, read) == (reader, received)
    ensures var (r, out) := ReadChunk(z, reader, chunk);
            Waits(r) && ReadStream(z, NewMessage, read + chunk) == (r, received + out)
  {
    ChunkIsStream(z, reader, chunk);
    ReadStreamConcat(z, NewMessage, read, chunk);
  }

  lemma Splits(read: seq<Byte>, wire: seq<Byte>, k: nat)
    requires k <= |wire|
    ensures read + wire == read + wire[..k] + wire[k..]
  {
    assert wire == wire[..k] + wire[k..];
    Associates(read, wire[..k], wire[k..]);
  }

  lemma ArrivedKeeps(z: Zstd, s: Sock, c: Link, k: nat, read: seq<Byte>)
    requires Consistent(z, s, c, read) && Enabled(z, s, c, Arrived(k))
    ensures Consistent(z, s, Next(z, s, c, Arrived(k)), read + c.wire[..k])
  {
    ReadsOn(z, c.reader, c.received, read, c.wire[..k]);
    Splits(read, c.wire, k);
  }

  lemma StepKeeps(z: Zstd, s: Sock, c: Link, e: Event, d: Link, read: seq<Byte>) returns (all: seq<Byte>)
    requires Lawful(z) && Consistent(z, s, c, read) && IsStep(z, s, c, e, d)
    ensures Consistent(z, s, d, all)
  {
    all := read;
    match e {
      case Said(m) => MessageKeeps(z, s, c, m, read);
      case Written(k) => WrittenKeeps(z, s, c, k, read);
      case Arrived(k) =>
        ArrivedKeeps(z, s, c, k, read);
        all := read + c.wire[..k];
    }
  }

  lemma FreshIsConsistent(z: Zstd, s: Sock)
    ensures Consistent(z, s, Fresh(s), [])
  {
    assert EncodeAll(z, []) == [] + [] && Pending(NoQueues) == [];
  }

  lemma {:induction false} RunKeeps(z: Zstd, s: Sock, cs: seq<Link>, es: seq<Event>, t: nat) returns (read: seq<Byte>)
    requires Lawful(z) && IsRun(z, s, cs, es) && t < |cs|
    ensures Consistent(z, s, cs[t], read)
    decreases t
  {
    if t == 0 {
      FreshIsConsistent(z, s);
      read := [];
    } else {
      var before := RunKeeps(z, s, cs, es, t - 1);
      read := StepOfRun(z, s, cs, es, t - 1, before);
    }
  }

  lemma StepOfRun(z: Zstd, s: Sock, cs: seq<Link>, es: seq<Event>, t: nat, before: seq<Byte>) returns (read: seq<Byte>)
    requires Lawful(z) && IsRun(z, s, cs, es) && t < |es| && Consistent(z, s, cs[t], before)
    ensures Consistent(z, s, cs[t + 1], read)
  {
    StepOf(z, s, cs, es, t);
    read := StepKeeps(z, s, cs[t], es[t], cs[t + 1], before);
  }

  lemma ConsistentMeans(z: Zstd, s: Sock, c: Link, read: seq<Byte>)
    requires Lawful(z) && Consistent(z, s, c, read)
    ensures c.received <= ArriveAll(z, c.sent)
    ensures c.loop.queues[s].write == [] && c.wire == [] ==>
            c.received == ArriveAll(z, c.sent) && c.reader == NewMessage
  {
    var rest := c.wire + Pending(c.loop.queues[s]);
    Associates(read, c.wire, Pending(c.loop.queues[s]));
    FramesRoundTrip(z, c.sent);
    ReadStreamConcat(z, NewMessage, read, rest);
    var (r, more) := ReadStream(z, c.reader, rest);
    assert ArriveAll(z, c.sent) == c.received + more;
    if c.loop.queues[s].write == [] && c.wire == [] {
      assert rest == [];
      assert ReadStream(z, c.reader, []) == (c.reader, []);
    }
  }

  /** In every run, at every moment, what has come out at the far end is a prefix of what was put in,
      message for message; and once the queue and the wire are empty it is all of it, the reader
      waiting for a new message. */
  lemma EndToEndFraming(z: Zstd, s: Sock, cs: seq<Link>, es: seq<Event>, t: nat)
    requires Lawful(z) && IsRun(z, s, cs, es) && t < |cs|
    ensures s in cs[t].loop.queues
    ensures var c := cs[t];
            && c.received <= ArriveAll(z, c.sent)
            && (c.loop.queues[s].write == [] && c.wire == [] ==>
                  c.received == ArriveAll(z, c.sent) && c.reader == NewMessage)
  {
    var read := RunKeeps(z, s, cs, es, t);
    ConsistentMeans(z, s, cs[t], read);
  }
}

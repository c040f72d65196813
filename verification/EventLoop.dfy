/** loop.cpp and loop.hpp: the queues of every socket and the registry of connected clients, as
    values; `class Loop` of LiveLoop.dfy updates them in place. */
module EventLoop {
  import opened Bytes
  import opened Framing

  /** `sock_t`, a file descriptor. */
  type Sock = s: int | 0 <= s < 0x8000_0000

  /** Whom a connected socket belongs to: the main server, or the proxy listening on a socket. */
  datatype Observer = Main | Tunnel(listener: Sock)

  datatype WriteItem = WriteItem(buffer: seq<Byte>, sent: nat) {
    /** `merge_buffers`: what was sent already stays in front. */
    function Merged(src: seq<Byte>): WriteItem { this.(buffer := buffer + src) }

    function Unsent(): seq<Byte>
      requires sent <= |buffer|
    {
      buffer[sent..]
    }
  }

  datatype ReadItem = Capture | Read(reader: Reader)

  datatype Queues = Queues(write: seq<WriteItem>, read: seq<ReadItem>)

  /** `armed` holds the sockets whose EPOLLOUT is asked for.  `accepted` and `handed` remember what
      `send` took for a socket, and what the socket took, since it was opened. */
  datatype Loop = Loop(
    queues: map<Sock, Queues>, armed: set<Sock>, linked: map<Sock, Observer>,
    accepted: map<Sock, seq<Byte>>, handed: map<Sock, seq<Byte>>)

  const NoQueues := Queues([], [])

  /** `gather_queue` */
  function Gather(l: Loop, s: Sock): (r: Loop)
    ensures s in r.queues
  {
    if s in l.queues then l
    else l.(queues := l.queues[s := NoQueues], accepted := l.accepted[s := []], handed := l.handed[s := []])
  }

  predicate Tracked(l: Loop) {
    l.accepted.Keys == l.queues.Keys == l.handed.Keys
  }

  /** `Loop::send` */
  function Send(l: Loop, s: Sock, bytes: seq<Byte>): (r: Loop)
    requires Tracked(l)
    ensures Tracked(r)
  {
    var g := Gather(l, s);
    var w := g.queues[s].write;
    var w' := if w == [] then [WriteItem(bytes, 0)] else w[0 := w[0].Merged(bytes)];
    g.(queues := g.queues[s := g.queues[s].(write := w')],
       armed := if w == [] then g.armed + {s} else g.armed,
       accepted := g.accepted[s := g.accepted[s] + bytes])
  }

  /** `capture` and `recv` */
  function Expect(l: Loop, s: Sock, item: ReadItem): (r: Loop)
    requires Tracked(l)
    ensures Tracked(r)
  {
    var g := Gather(l, s);
    g.(queues := g.queues[s := g.queues[s].(read := g.queues[s].read + [item])])
  }

  ghost predicate CanWrite(l: Loop, s: Sock, k: nat) {
    && Tracked(l) && s in l.queues && l.queues[s].write != []
    && var w := l.queues[s].write[0];
       w.sent <= |w.buffer| && 0 < k <= |w.buffer| - w.sent
  }

  /** `perform_write_queue`, the socket taking k bytes. */
  function WriteSome(l: Loop, s: Sock, k: nat): (r: Loop)
    requires CanWrite(l, s, k)
    ensures Tracked(r)
  {
    var w := l.queues[s].write;
    var front := w[0].(sent := w[0].sent + k);
    var w' := if front.sent >= |front.buffer| then w[1..] else w[0 := front];
    l.(queues := l.queues[s := l.queues[s].(write := w')],
       armed := if w' == [] then l.armed - {s} else l.armed,
       handed := l.handed[s := l.handed[s] + w[0].buffer[w[0].sent..front.sent]])
  }

  /** `remove_queues` */
  function RemoveQueues(l: Loop, s: Sock): Loop {
    l.(queues := l.queues - {s}, accepted := l.accepted - {s}, handed := l.handed - {s})
  }

  /** The tail of `force_disconnect`: the socket's queues, its registry entry and its interest. */
  function Detach(l: Loop, s: Sock): Loop {
    var r := RemoveQueues(l, s);
    r.(linked := r.linked - {s}, armed := r.armed - {s})
  }

  function Link(l: Loop, s: Sock, o: Observer): Loop {
    l.(linked := l.linked[s := o])
  }

  // ---------------------------------------------------------------- what a write queue keeps

  /** What the socket has still to take. */
  function Pending(q: Queues): seq<Byte>
    requires |q.write| <= 1 && (q.write != [] ==> q.write[0].sent <= |q.write[0].buffer|)
  {
    if q.write == [] then [] else q.write[0].Unsent()
  }

  /** At most one item, never all sent; EPOLLOUT asked for just while there is one; what was accepted
      is what the socket took and what it has still to take. */
  ghost predicate QueueOk(l: Loop, s: Sock)
    requires Tracked(l) && s in l.queues
  {
    var q := l.queues[s];
    && |q.write| <= 1 && (q.write != [] ==> q.write[0].sent < |q.write[0].buffer|)
    && (s in l.armed <==> q.write != [])
    && l.accepted[s] == l.handed[s] + Pending(q)
  }

  /** `send` keeps a queue in order if and only if it is given a byte to send, or the queue holds one
      already: an empty item would never be taken by the socket. */
  lemma SendKeepsIff(l: Loop, s: Sock, bytes: seq<Byte>)
    requires Tracked(l) && s in l.queues && QueueOk(l, s)
    ensures QueueOk(Send(l, s, bytes), s) <==> bytes != [] || l.queues[s].write != []
  {
    var q, q' := l.queues[s], Send(l, s, bytes).queues[s];
    if q.write == [] {
      assert bytes[0..] == bytes && l.handed[s] + [] == l.handed[s];
    } else {
      var w := q.write[0];
      assert (w.buffer + bytes)[w.sent..] == w.buffer[w.sent..] + bytes;
      Associates(l.handed[s], w.buffer[w.sent..], bytes);
    }
  }

  lemma WriteKeeps(l: Loop, s: Sock, k: nat)
    requires CanWrite(l, s, k) && QueueOk(l, s)
    ensures QueueOk(WriteSome(l, s, k), s)
    ensures WriteSome(l, s, k).handed[s] == l.handed[s] + Pending(l.queues[s])[..k]
    ensures WriteSome(l, s, k).accepted == l.accepted
  {
    var w := l.queues[s].write[0];
    var taken := w.buffer[w.sent..w.sent + k];
    assert w.buffer[w.sent..] == taken + w.buffer[w.sent + k..] && w.buffer[w.sent..][..k] == taken;
    Associates(l.handed[s], taken, w.buffer[w.sent + k..]);
    if w.sent + k == |w.buffer| {
      assert w.buffer[w.sent + k..] == [];
      assert l.handed[s] + taken + [] == l.handed[s] + taken;
    }
  }

  /** Traffic on one socket leaves the queue of every other alone. */
  lemma OthersKeep(l: Loop, s: Sock, bytes: seq<Byte>, k: nat, other: Sock)
    requires Tracked(l) && other in l.queues && other != s && QueueOk(l, other)
    ensures QueueOk(Send(l, s, bytes), other)
    ensures CanWrite(l, s, k) ==> QueueOk(WriteSome(l, s, k), other)
  {}

  /** A run of one socket's queue: the program sends, the socket takes. */
  datatype Traffic = Sends(bytes: seq<Byte>) | Takes(k: nat)

  ghost predicate Possible(l: Loop, s: Sock, t: Traffic) {
    match t
    case Sends(bytes) => Tracked(l) && s in l.queues && bytes != []
    case Takes(k) => CanWrite(l, s, k)
  }

  function After(l: Loop, s: Sock, t: Traffic): Loop
    requires Possible(l, s, t)
  {
    match t
    case Sends(bytes) => Send(l, s, bytes)
    case Takes(k) => WriteSome(l, s, k)
  }

  ghost predicate PossibleRun(l: Loop, s: Sock, run: seq<Traffic>)
    decreases |run|
  {
    run != [] ==> Possible(l, s, run[0]) && PossibleRun(After(l, s, run[0]), s, run[1..])
  }

  function AfterRun(l: Loop, s: Sock, run: seq<Traffic>): Loop
    requires PossibleRun(l, s, run)
    decreases |run|
  {
    if run == [] then l else AfterRun(After(l, s, run[0]), s, run[1..])
  }

  function BytesSent(run: seq<Traffic>): seq<Byte> {
    if run == [] then [] else (if run[0].Sends? then run[0].bytes else []) + BytesSent(run[1..])
  }

  /** Whatever the program sends and however the socket takes it: nothing is lost, repeated or put
      out of order. */
  lemma {:induction false} WriteQueueConserves(l: Loop, s: Sock, run: seq<Traffic>)
    requires Tracked(l) && s in l.queues && QueueOk(l, s) && PossibleRun(l, s, run)
    ensures var r := AfterRun(l, s, run);
            && Tracked(r) && s in r.queues && QueueOk(r, s)
            && l.accepted[s] + BytesSent(run) == r.handed[s] + Pending(r.queues[s])
    decreases |run|
  {
    if run == [] {
      assert l.accepted[s] + [] == l.accepted[s];
    } else {
      match run[0] {
        case Sends(bytes) =>
          SendKeepsIff(l, s, bytes);
          Associates(l.accepted[s], bytes, BytesSent(run[1..]));
        case Takes(k) =>
          WriteKeeps(l, s, k);
          assert [] + BytesSent(run[1..]) == BytesSent(run[1..]);
      }
      WriteQueueConserves(After(l, s, run[0]), s, run[1..]);
    }
  }

  // ---------------------------------------------------------------- frames on the queue

  /** `FStreamer::send`: the header, then the payload as it is packed. */
  function SendMessage(l: Loop, z: Zstd, s: Sock, m: Message): (r: Loop)
    requires Tracked(l)
    ensures Tracked(r)
  {
    if m.payload == [] then Send(l, s, Header(m.kind, 0, false))
    else
      var (body, compressed) := Packed(z, m.payload);
      Send(Send(l, s, Header(m.kind, |body|, compressed)), s, body)
  }

  /** A message puts its frame on the queue of its socket, in order, and touches nothing else. */
  lemma SendsFrame(l: Loop, z: Zstd, s: Sock, m: Message)
    requires Lawful(z) && Tracked(l) && s in l.queues && QueueOk(l, s)
    ensures var r := SendMessage(l, z, s, m);
            && r.queues.Keys == l.queues.Keys && QueueOk(r, s) && r.linked == l.linked
            && r.accepted == l.accepted[s := l.accepted[s] + Encode(z, m)] && r.handed == l.handed
            && (forall t | t in l.queues && t != s :: r.queues[t] == l.queues[t] && (t in r.armed <==> t in l.armed))
            && r.queues[s].read == l.queues[s].read
  {
    if m.payload == [] {
      SendKeepsIff(l, s, Header(m.kind, 0, false));
    } else {
      var (body, compressed) := Packed(z, m.payload);
      var header := Header(m.kind, |body|, compressed);
      SendKeepsIff(l, s, header);
      SendKeepsIff(Send(l, s, header), s, body);
      Associates(l.accepted[s], header, body);
      var a, b := l.accepted[s] + header, l.accepted[s] + Encode(z, m);
      assert l.accepted[s := a][s := b] == l.accepted[s := b];
    }
  }
}

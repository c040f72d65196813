/** `Loop` and `FStreamer` as objects: their methods update the queues in place. */
module LiveLoop {
  import opened Bytes
  import opened ByteBuffer
  import opened ProtoSpec
  import opened Framing
  import Spec = EventLoop
  import opened EventLoop

  lemma SetThenRemoved<T>(m: map<Sock, T>, s: Sock, x: T)
    ensures m[s := x] - {s} == m - {s}
  {}

  class Loop {
    var queues: map<Sock, Queues>
    var armed: set<Sock>
    var linked: map<Sock, Observer>
    /** What `send` took for a socket, and what the socket took. */
    ghost var accepted: map<Sock, seq<Byte>>
    ghost var handed: map<Sock, seq<Byte>>

    ghost function Value(): Spec.Loop
      reads this
    {
      Spec.Loop(queues, armed, linked, accepted, handed)
    }

    ghost predicate Valid()
      reads this
    {
      Tracked(Value())
    }

    constructor ()
      ensures Valid() && Value() == Spec.Loop(map[], {}, map[], map[], map[])
    {
      queues, armed, linked, accepted, handed := map[], {}, map[], map[], map[];
    }

    method GatherQueue(s: Sock)
      requires Valid()
      modifies this`queues, this`accepted, this`handed
      ensures Valid() && Value() == Gather(old(Value()), s)
    {
      if s !in queues {
        queues := queues[s := NoQueues];
        accepted, handed := accepted[s := []], handed[s := []];
      }
    }

    method Push(s: Sock, item: ReadItem)
      requires Valid()
      modifies this`queues, this`accepted, this`handed
      ensures Valid() && Value() == Expect(old(Value()), s, item)
    {
      GatherQueue(s);
      var q := queues[s];
      queues := queues[s := q.(read := q.read + [item])];
    }

    method Capture(s: Sock)
      requires Valid()
      modifies this`queues, this`accepted, this`handed
      ensures Valid() && Value() == Expect(old(Value()), s, ReadItem.Capture)
    {
      Push(s, ReadItem.Capture);
    }

    method Recv(s: Sock, length: nat, state: PacketState, u64: int)
      requires Valid()
      modifies this`queues, this`accepted, this`handed
      ensures Valid() && Value() == Expect(old(Value()), s, Read(Reader(state, length, u64, [])))
    {
      Push(s, Read(Reader(state, length, u64, [])));
    }

    method Send(s: Sock, buffer: seq<Byte>)
      requires Valid()
      modifies this`queues, this`armed, this`accepted, this`handed
      ensures Valid() && Value() == Spec.Send(old(Value()), s, buffer)
    {
      GatherQueue(s);
      var q := queues[s];
      accepted := accepted[s := accepted[s] + buffer];
      if q.write == [] {
        armed := armed + {s};
      } else {
        var front := q.write[0].Merged(buffer);
        queues := queues[s := q.(write := q.write[0 := front])];
        return;
      }
      assert q.write + [WriteItem(buffer, 0)] == [WriteItem(buffer, 0)];
      queues := queues[s := q.(write := q.write + [WriteItem(buffer, 0)])];
    }

    /** The socket takes k of the bytes it is offered. */
    method PerformWriteQueue(s: Sock, k: nat)
      requires Valid() && CanWrite(Value(), s, k)
      modifies this`queues, this`armed, this`handed
      ensures Valid() && Value() == WriteSome(old(Value()), s, k)
    {
      var q := queues[s];
      var front := q.write[0];
      handed := handed[s := handed[s] + front.buffer[front.sent..front.sent + k]];
      front := front.(sent := front.sent + k);
      var write := q.write[0 := front];
      if front.sent >= |front.buffer| {
        write := write[1..];
      }
      queues := queues[s := q.(write := write)];
      if write == [] {
        armed := armed - {s};
      }
    }

    /** The read item at the front gets some of the bytes it lacks; and a full one leaves. */
    method Fill(s: Sock, chunk: seq<Byte>) returns (front: Reader)
      requires Valid() && s in queues && queues[s].read != [] && queues[s].read[0].Read?
      modifies this`queues
      ensures front == old(queues)[s].read[0].reader.(received := old(queues)[s].read[0].reader.received + chunk)
      ensures Valid() &&
              queues == old(queues)[s := old(queues)[s].(read := old(queues)[s].read[0 := ReadItem.Read(front)])]
    {
      var q := queues[s];
      front := q.read[0].reader;
      front := front.(received := front.received + chunk);
      queues := queues[s := q.(read := q.read[0 := ReadItem.Read(front)])];
    }

    method PopRead(s: Sock)
      requires Valid() && s in queues && queues[s].read != []
      modifies this`queues
      ensures Valid() && queues == old(queues)[s := old(queues)[s].(read := old(queues)[s].read[1..])]
    {
      var q := queues[s];
      queues := queues[s := q.(read := q.read[1..])];
    }

    method RemoveQueues(s: Sock)
      requires Valid()
      modifies this`queues, this`accepted, this`handed
      ensures Valid() && Value() == Spec.RemoveQueues(old(Value()), s)
    {
      ghost var was := Value();
      GatherQueue(s);
      queues := queues[s := NoQueues];
      SetThenRemoved(was.queues, s, NoQueues);
      SetThenRemoved(Gather(was, s).queues, s, NoQueues);
      SetThenRemoved(was.accepted, s, []);
      SetThenRemoved(was.handed, s, []);
      queues, accepted, handed := queues - {s}, accepted - {s}, handed - {s};
    }

    /** What `force_disconnect` takes from the loop's own tables and from the selector. */
    method Close(s: Sock)
      requires Valid()
      modifies this
      ensures Valid() && Value() == Detach(old(Value()), s)
    {
      RemoveQueues(s);
      linked := linked - {s};
      armed := armed - {s};
    }
  }

  /** `FStreamer`: frames for one socket. */
  class FStreamer {
    const loop: Loop
    const target: Sock
    const zstd: Zstd

    constructor (loop: Loop, target: Sock, zstd: Zstd)
      ensures this.loop == loop && this.target == target && this.zstd == zstd
    {
      this.loop, this.target, this.zstd := loop, target, zstd;
    }

    method SendHeader(kind: Byte, size: nat, compressed: bool)
      requires loop.Valid()
      modifies loop`queues, loop`armed, loop`accepted, loop`handed
      ensures loop.Valid() && loop.Value() == Spec.Send(old(loop.Value()), target, Header(kind, size, compressed))
    {
      var length := size % (MAX32 + 1);
      if length <= 0xff {
        loop.Send(target, [StoreFlags(compressed, true, kind), length]);
        return;
      }
      var buf := new Byte[4];
      IntToBytes(length, buf, 4);
      assert buf[..] == buf[..4];
      loop.Send(target, [StoreFlags(compressed, false, kind)] + buf[..]);
    }

    method Send(m: Message)
      requires loop.Valid()
      modifies loop`queues, loop`armed, loop`accepted, loop`handed
      ensures loop.Valid() && loop.Value() == SendMessage(old(loop.Value()), zstd, target, m)
    {
      var length := |m.payload|;
      if length == 0 {
        SendHeader(m.kind, 0, false);
        return;
      }
      var targetBuf, compressed := m.payload, false;
      if length >= COMPRESS_MIN_THRESHOLD {
        var packed := zstd.compress(m.payload);
        if packed.Some? && |packed.value| < length {
          targetBuf, compressed := packed.value, true;
        }
      }
      SendHeader(m.kind, |targetBuf|, compressed);
      loop.Send(target, targetBuf);
    }
  }
}

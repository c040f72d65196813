/** The byte streams of the tunnel server: what is queued, what was said and what was heard. */
module TunnelStreams {
  import opened Bytes
  import opened Framing
  import opened EventLoop
  import opened Tunnel
  import opened TunnelRegistry

  function ToldIn(trace: seq<Event>): seq<Message> {
    if trace == [] then [] else
      var (init, e) := (trace[..|trace| - 1], trace[|trace| - 1]);
      ToldIn(init) + if e.Told? then [e.m] else []
  }

  function HeardIn(trace: seq<Event>): seq<Message> {
    if trace == [] then [] else
      var (init, e) := (trace[..|trace| - 1], trace[|trace| - 1]);
      HeardIn(init) + if e.Heard? then [e.m] else []
  }

  function Delivered(out: seq<Received>): seq<Message> {
    if out == [] then [] else
      var (init, r) := (out[..|out| - 1], out[|out| - 1]);
      Delivered(init) + if r.Deliver? then [r.m] else []
  }

  /** A control client's streams: it was sent just the frames of what it was told, and what was heard
      from it is what the bytes read from it stand for. */
  ghost predicate ControlOk(z: Zstd, q: Queues, accepted: seq<Byte>, trace: seq<Event>, read: seq<Byte>) {
    && accepted == EncodeAll(z, ToldIn(trace))
    && (forall m | m in ToldIn(trace) :: Fits32(m))
    && |q.read| == 1 && q.read[0].Read? && Waits(q.read[0].reader)
    && var (reader, out) := ReadStream(z, NewMessage, read);
       q.read[0].reader == reader && HeardIn(trace) == Delivered(out)
  }

  ghost predicate StreamOk(z: Zstd, w: World, s: Sock)
    requires KeysOk(w) && s in w.loop.queues
  {
    && QueueOk(w.loop, s)
    && if s in w.clients then ControlOk(z, w.loop.queues[s], w.loop.accepted[s], w.trace[s], w.read[s])
       else w.loop.queues[s].read == [Capture]
  }

  ghost predicate StreamsOk(cfg: Config, w: World)
    requires KeysOk(w)
  {
    forall s | s in w.loop.queues :: StreamOk(cfg.zstd, w, s)
  }

  // ---------------------------------------------------------------- one socket

  lemma ToldOne(z: Zstd, q: Queues, accepted: seq<Byte>, trace: seq<Event>, read: seq<Byte>, q': Queues, m: Message)
    requires ControlOk(z, q, accepted, trace, read) && q'.read == q.read && Fits32(m)
    ensures ControlOk(z, q', accepted + Encode(z, m), trace + [Told(m)], read)
  {
    var trace' := trace + [Told(m)];
    assert trace'[..|trace|] == trace;
    var told := ToldIn(trace');
    assert told == ToldIn(trace) + [m] && told[..|told| - 1] == ToldIn(trace);
    assert HeardIn(trace') == HeardIn(trace) + [] == HeardIn(trace);
  }

  lemma HeardMore(z: Zstd, q: Queues, accepted: seq<Byte>, trace: seq<Event>, read: seq<Byte>, chunk: seq<Byte>)
    requires ControlOk(z, q, accepted, trace, read) &&
             0 < |chunk| <= q.read[0].reader.length - |q.read[0].reader.received|
    ensures var (r, out) := ReadChunk(z, q.read[0].reader, chunk);
            ControlOk(z, q.(read := [Read(r)]), accepted,
                      if out != [] && out[0].Deliver? then trace + [Heard(out[0].m)] else trace, read + chunk)
  {
    var (r, more) := ReadChunk(z, q.read[0].reader, chunk);
    ChunkIsStream(z, q.read[0].reader, chunk);
    ReadStreamConcat(z, NewMessage, read, chunk);
    var out := ReadStream(z, NewMessage, read).1;
    assert more == [] || more == [more[0]];
    if more == [] {
      assert out + [] == out;
    } else {
      assert (out + more)[..|out|] == out;
      assert Delivered(out + more) == Delivered(out) + if more[0].Deliver? then [more[0].m] else [];
      if more[0].Deliver? {
        var trace' := trace + [Heard(more[0].m)];
        assert trace'[..|trace|] == trace;
        assert ToldIn(trace') == ToldIn(trace) + [] == ToldIn(trace);
      } else {
        assert Delivered(out) + [] == Delivered(out);
      }
    }
  }

  lemma ControlStarts(z: Zstd)
    ensures ControlOk(z, Queues([], [Read(NewMessage)]), [], [], [])
  {}

  /** From w to v, something was done to the socket fd, and nothing to any other. */
  ghost predicate SameElsewhere(w: World, v: World, fd: Sock)
    requires KeysOk(w) && KeysOk(v)
  {
    forall s | s in v.loop.queues && s != fd :: s in w.loop.queues && SameAt(w, v, s)
  }

  ghost predicate SameAt(w: World, v: World, s: Sock)
    requires KeysOk(w) && KeysOk(v) && s in w.loop.queues && s in v.loop.queues
  {
    && v.loop.queues[s] == w.loop.queues[s] && (s in v.loop.armed <==> s in w.loop.armed)
    && v.loop.accepted[s] == w.loop.accepted[s] && v.loop.handed[s] == w.loop.handed[s]
    && (s in v.clients <==> s in w.clients)
    && v.read[s] == w.read[s] && (s in w.clients ==> v.trace[s] == w.trace[s])
  }

  lemma OneChanged(cfg: Config, w: World, v: World, fd: Sock)
    requires KeysOk(w) && KeysOk(v) && StreamsOk(cfg, w) && SameElsewhere(w, v, fd)
    requires fd in v.loop.queues ==> StreamOk(cfg.zstd, v, fd)
    ensures StreamsOk(cfg, v)
  {
    forall s | s in v.loop.queues ensures StreamOk(cfg.zstd, v, s) {
      if s != fd {
        assert StreamOk(cfg.zstd, w, s) && SameAt(w, v, s);
      }
    }
  }

  // ---------------------------------------------------------------- event by event

  lemma TellElsewhere(cfg: Config, w: World, fd: Sock, m: Message)
    requires Lawful(cfg.zstd) && KeysOk(w) && fd in w.clients && fd in w.loop.queues && QueueOk(w.loop, fd)
    ensures var v := Tell(cfg, w, fd, m); KeysOk(v) && SameElsewhere(w, v, fd)
  {
    TellKeepsKeys(cfg, w, fd, m);
    Tells(cfg, w, fd, m);
  }

  lemma TellHere(cfg: Config, w: World, fd: Sock, m: Message)
    requires Lawful(cfg.zstd) && KeysOk(w) && fd in w.clients && fd in w.loop.queues && Fits32(m) &&
             StreamOk(cfg.zstd, w, fd)
    ensures var v := Tell(cfg, w, fd, m); KeysOk(v) && StreamOk(cfg.zstd, v, fd)
  {
    TellKeepsKeys(cfg, w, fd, m);
    Tells(cfg, w, fd, m);
    var q := Tell(cfg, w, fd, m).loop.queues[fd];
    ToldOne(cfg.zstd, w.loop.queues[fd], w.loop.accepted[fd], w.trace[fd], w.read[fd], q, m);
  }

  lemma TellKeepsStreams(cfg: Config, w: World, fd: Sock, m: Message)
    requires Lawful(cfg.zstd) && KeysOk(w) && StreamsOk(cfg, w) && fd in w.clients && fd in w.loop.queues && Fits32(m)
    ensures KeysOk(Tell(cfg, w, fd, m)) && StreamsOk(cfg, Tell(cfg, w, fd, m))
  {
    TellElsewhere(cfg, w, fd, m);
    TellHere(cfg, w, fd, m);
    OneChanged(cfg, w, Tell(cfg, w, fd, m), fd);
  }

  lemma AcceptControlHere(cfg: Config, w: World, fd: Sock)
    requires KeysOk(w) && fd !in w.loop.queues
    ensures KeysOk(AcceptControl(w, fd)) && StreamOk(cfg.zstd, AcceptControl(w, fd), fd)
  {
    AcceptControlKeepsKeys(w, fd);
    ControlStarts(cfg.zstd);
    assert AcceptControl(w, fd).loop.queues[fd] == Queues([], [Read(NewMessage)]);
  }

  lemma AcceptControlElsewhere(w: World, fd: Sock)
    requires KeysOk(w) && fd !in w.loop.queues
    ensures KeysOk(AcceptControl(w, fd)) && SameElsewhere(w, AcceptControl(w, fd), fd)
  {
    AcceptControlKeepsKeys(w, fd);
  }

  lemma AcceptControlKeepsStreams(cfg: Config, w: World, fd: Sock)
    requires KeysOk(w) && StreamsOk(cfg, w) && fd !in w.loop.queues
    ensures KeysOk(AcceptControl(w, fd)) && StreamsOk(cfg, AcceptControl(w, fd))
  {
    AcceptControlHere(cfg, w, fd);
    AcceptControlElsewhere(w, fd);
    OneChanged(cfg, w, AcceptControl(w, fd), fd);
  }

  lemma FillHere(cfg: Config, w: World, fd: Sock, chunk: seq<Byte>)
    requires KeysOk(w) && fd in w.clients && CanRead(w, fd, chunk) && StreamOk(cfg.zstd, w, fd)
    ensures var v := Fill(cfg, w, fd, chunk).0; KeysOk(v) && StreamOk(cfg.zstd, v, fd)
  {
    FillKeepsKeys(cfg, w, fd, chunk);
    HeardMore(cfg.zstd, w.loop.queues[fd], w.loop.accepted[fd], w.trace[fd], w.read[fd], chunk);
  }

  lemma FillElsewhere(cfg: Config, w: World, fd: Sock, chunk: seq<Byte>)
    requires KeysOk(w) && fd in w.clients && CanRead(w, fd, chunk)
    ensures var v := Fill(cfg, w, fd, chunk).0; KeysOk(v) && SameElsewhere(w, v, fd)
  {
    FillKeepsKeys(cfg, w, fd, chunk);
  }

  lemma FillKeepsStreams(cfg: Config, w: World, fd: Sock, chunk: seq<Byte>)
    requires KeysOk(w) && StreamsOk(cfg, w) && fd in w.clients && CanRead(w, fd, chunk)
    ensures KeysOk(Fill(cfg, w, fd, chunk).0) && StreamsOk(cfg, Fill(cfg, w, fd, chunk).0)
  {
    FillHere(cfg, w, fd, chunk);
    FillElsewhere(cfg, w, fd, chunk);
    OneChanged(cfg, w, Fill(cfg, w, fd, chunk).0, fd);
  }

  lemma AdmitHere(cfg: Config, w: World, l: Sock, fd: Sock)
    requires KeysOk(w) && fd !in w.loop.queues && fd !in w.clients && l in w.proxies
    ensures KeysOk(Admit(w, l, fd)) && StreamOk(cfg.zstd, Admit(w, l, fd), fd)
  {
    AdmitKeepsKeys(w, l, fd);
    assert Admit(w, l, fd).loop.queues[fd] == Queues([], [Capture]);
  }

  lemma AdmitElsewhere(w: World, l: Sock, fd: Sock)
    requires KeysOk(w) && fd !in w.loop.queues && l in w.proxies
    ensures KeysOk(Admit(w, l, fd)) && SameElsewhere(w, Admit(w, l, fd), fd)
  {
    AdmitKeepsKeys(w, l, fd);
  }

  lemma AdmitKeepsStreams(cfg: Config, w: World, l: Sock, fd: Sock)
    requires KeysOk(w) && StreamsOk(cfg, w) && fd !in w.loop.queues && fd !in w.clients && l in w.proxies
    ensures KeysOk(Admit(w, l, fd)) && StreamsOk(cfg, Admit(w, l, fd))
  {
    AdmitHere(cfg, w, l, fd);
    AdmitElsewhere(w, l, fd);
    OneChanged(cfg, w, Admit(w, l, fd), fd);
  }

  lemma ReadMoreKeepsStreams(cfg: Config, w: World, fd: Sock, data: seq<Byte>)
    requires KeysOk(w) && StreamsOk(cfg, w) && fd in w.read && fd !in w.clients
    ensures var v := w.(read := w.read[fd := w.read[fd] + data]); KeysOk(v) && StreamsOk(cfg, v)
  {
    ReadMoreKeepsKeys(w, fd, data);
    assert StreamOk(cfg.zstd, w, fd);
    OneChanged(cfg, w, w.(read := w.read[fd := w.read[fd] + data]), fd);
  }

  lemma SendHere(cfg: Config, w: World, fd: Sock, bytes: seq<Byte>)
    requires KeysOk(w) && fd in w.loop.queues && StreamOk(cfg.zstd, w, fd) && fd !in w.clients && bytes != []
    ensures KeysOk(PassOn(w, fd, bytes)) && StreamOk(cfg.zstd, PassOn(w, fd, bytes), fd)
  {
    SendKeepsKeys(w, fd, bytes);
    SendKeepsIff(w.loop, fd, bytes);
  }

  lemma SendElsewhere(w: World, fd: Sock, bytes: seq<Byte>)
    requires KeysOk(w) && fd in w.loop.queues
    ensures KeysOk(PassOn(w, fd, bytes)) && SameElsewhere(w, PassOn(w, fd, bytes), fd)
  {
    SendKeepsKeys(w, fd, bytes);
  }

  lemma SendKeepsStreams(cfg: Config, w: World, fd: Sock, bytes: seq<Byte>)
    requires KeysOk(w) && StreamsOk(cfg, w) && fd in w.loop.queues && fd !in w.clients && bytes != []
    ensures KeysOk(PassOn(w, fd, bytes)) && StreamsOk(cfg, PassOn(w, fd, bytes))
  {
    SendHere(cfg, w, fd, bytes);
    SendElsewhere(w, fd, bytes);
    OneChanged(cfg, w, PassOn(w, fd, bytes), fd);
  }

  lemma WriteHere(cfg: Config, w: World, fd: Sock, k: nat)
    requires KeysOk(w) && CanWrite(w.loop, fd, k) && StreamOk(cfg.zstd, w, fd)
    ensures var v := w.(loop := WriteSome(w.loop, fd, k)); KeysOk(v) && StreamOk(cfg.zstd, v, fd)
  {
    WriteKeepsKeys(w, fd, k);
    WriteKeeps(w.loop, fd, k);
  }

  lemma WriteKeepsStreams(cfg: Config, w: World, fd: Sock, k: nat)
    requires KeysOk(w) && StreamsOk(cfg, w) && CanWrite(w.loop, fd, k)
    ensures var v := w.(loop := WriteSome(w.loop, fd, k)); KeysOk(v) && StreamsOk(cfg, v)
  {
    WriteKeepsKeys(w, fd, k);
    WriteHere(cfg, w, fd, k);
    OneChanged(cfg, w, w.(loop := WriteSome(w.loop, fd, k)), fd);
  }

  /** Sockets go, with their queues and all that is remembered of them. */
  lemma SomeGone(cfg: Config, w: World, v: World)
    requires KeysOk(w) && KeysOk(v) && StreamsOk(cfg, w)
    requires forall s | s in v.loop.queues :: s in w.loop.queues && SameAt(w, v, s)
    ensures StreamsOk(cfg, v)
  {
    forall s | s in v.loop.queues ensures StreamOk(cfg.zstd, v, s) {
      assert StreamOk(cfg.zstd, w, s) && SameAt(w, v, s);
    }
  }

  /** Users and proxies are nothing to the streams. */
  lemma TablesChange(cfg: Config, w: World, users: map<Sock, User>, proxies: map<Sock, Proxy>)
    requires KeysOk(w) && StreamsOk(cfg, w)
    ensures var v := w.(users := users, proxies := proxies); KeysOk(v) && StreamsOk(cfg, v)
  {
    SomeGone(cfg, w, w.(users := users, proxies := proxies));
  }

  lemma ForgetKeepsStreams(cfg: Config, w: World, l: Sock, fd: Sock)
    requires KeysOk(w) && StreamsOk(cfg, w) && l in w.proxies && fd in w.proxies[l].sockToId
    ensures KeysOk(Forget(w, l, fd)) && StreamsOk(cfg, Forget(w, l, fd))
  {
    ForgetKeepsKeys(w, l, fd);
    SomeGone(cfg, w, Forget(w, l, fd));
  }

  lemma CloseKeepsStreams(cfg: Config, w: World, l: Sock, order: seq<Sock>)
    requires KeysOk(w) && StreamsOk(cfg, w) && l in w.proxies && forall s | s in order :: s in w.proxies[l].sockToId
    ensures KeysOk(CloseProxy(w, l, order)) && StreamsOk(cfg, CloseProxy(w, l, order))
  {
    CloseKeepsKeys(w, l, order);
    SomeGone(cfg, w, CloseProxy(w, l, order));
  }

  lemma LeaveKeepsStreams(cfg: Config, w: World, fd: Sock)
    requires KeysOk(w) && StreamsOk(cfg, w)
    ensures KeysOk(Leave(w, fd)) && StreamsOk(cfg, Leave(w, fd))
  {
    LeaveKeepsKeys(w, fd);
    SomeGone(cfg, w, Leave(w, fd));
  }

  lemma HangUpControlKeepsStreams(cfg: Config, w: World, fd: Sock, order: seq<Sock>)
    requires KeysOk(w) && StreamsOk(cfg, w) && Settled(w)
    requires HasServer(w, fd) ==> forall s | s in order :: s in w.proxies[UserOf(w, fd).server.value].sockToId
    ensures KeysOk(HangUpControl(w, fd, order)) && StreamsOk(cfg, HangUpControl(w, fd, order))
  {
    if HasServer(w, fd) {
      CloseKeepsStreams(cfg, w, w.users[fd].server.value, order);
      var v := CloseProxy(w, w.users[fd].server.value, order);
      TablesChange(cfg, v, w.users - {fd}, v.proxies);
    }
    LeaveKeepsStreams(cfg, LoseServer(w, fd, order), fd);
  }
}

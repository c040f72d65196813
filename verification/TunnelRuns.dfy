/** Every run of the tunnel server: what holds at each quiescent point, whatever the selector reports. */
module TunnelRuns {
  import opened Bytes
  import opened ByteBuffer
  import opened ProtoSpec
  import opened Framing
  import opened EventLoop
  import opened IdPool
  import opened Tunnel
  import opened TunnelIds
  import opened TunnelRegistry
  import opened TunnelStreams
  import opened TunnelSessions

  ghost predicate Inv(cfg: Config, w: World) {
    Sound(cfg, w) && StreamsOk(cfg, w) && SessionsMatch(w, w.trace)
  }

  /** ZSTD keeps its promises, and the server's name fits a frame. */
  ghost predicate Proper(cfg: Config) {
    Lawful(cfg.zstd) && |cfg.serverName| <= MAX32
  }

  /** What the selector can report: descriptors from `accept` are not in use, events are for registered
      descriptors, a readable socket has a byte, and a map is walked through in some order. */
  ghost predicate Enabled(cfg: Config, w: World, e: Signal) {
    match e
    case ControlConnects(fd) => Unused(cfg, w, fd)
    case ClientConnects(l, fd) => l in w.proxies && Unused(cfg, w, fd)
    case Readable(fd, data, sys) =>
      && fd in w.loop.linked
      && (match w.loop.linked[fd]
          case Main => CanRead(w, fd, data) && Unused(cfg, w, sys.listener)
          case Tunnel(_) => 0 < |data| <= REDIR_BUF_SIZE)
    case Writable(fd, k) => CanWrite(w.loop, fd, k)
    case HangsUp(fd, order) =>
      && fd in w.loop.linked
      && (w.loop.linked[fd] == Main && HasServer(w, fd) ==>
            && UserOf(w, fd).server.value in w.proxies
            && Enumerates(order, w.proxies[UserOf(w, fd).server.value].sockToId.Keys))
  }

  // ---------------------------------------------------------------- telling

  lemma Talkable(cfg: Config, w: World, fd: Sock)
    requires Sound(cfg, w) && StreamsOk(cfg, w) && fd in w.clients
    ensures fd in w.loop.linked && w.loop.linked[fd] == Main
    ensures fd in w.loop.queues && fd in w.trace && QueueOk(w.loop, fd)
  {
    OfKeys(w, fd);
    assert StreamOk(cfg.zstd, w, fd);
  }

  lemma TellKeeps(cfg: Config, w: World, fd: Sock, m: Message)
    requires Proper(cfg) && Sound(cfg, w) && StreamsOk(cfg, w) && fd in w.clients && Fits32(m)
    requires fd in w.trace && SessionsMatch(w, w.trace[fd := w.trace[fd] + [Told(m)]])
    ensures Inv(cfg, Tell(cfg, w, fd, m))
  {
    Talkable(cfg, w, fd);
    TellKeepsSound(cfg, w, fd, m);
    TellKeepsStreams(cfg, w, fd, m);
    TellMatches(cfg, w, fd, m);
  }

  lemma TellQuietlyKeeps(cfg: Config, w: World, fd: Sock, m: Message)
    requires Proper(cfg) && Inv(cfg, w) && fd in w.clients && Fits32(m) && m.kind !in {CONNECTED, PACKET, DISCONNECT}
    ensures Inv(cfg, Tell(cfg, w, fd, m))
  {
    Talkable(cfg, w, fd);
    TellKeepsSound(cfg, w, fd, m);
    TellKeepsStreams(cfg, w, fd, m);
    TellQuietly(cfg, w, fd, m);
  }

  lemma RefuseKeeps(cfg: Config, w: World, fd: Sock, code: Byte)
    requires Proper(cfg) && Inv(cfg, w) && fd in w.clients
    ensures Inv(cfg, Refuse(cfg, w, fd, code))
  {
    TellQuietlyKeeps(cfg, w, fd, Message(ERROR, [code]));
  }

  // ---------------------------------------------------------------- connections

  lemma AcceptControlKeeps(cfg: Config, w: World, fd: Sock)
    requires Inv(cfg, w) && Unused(cfg, w, fd)
    ensures Inv(cfg, AcceptControl(w, fd))
  {
    AcceptControlKeepsSound(cfg, w, fd);
    AcceptControlKeepsStreams(cfg, w, fd);
    AcceptControlMatches(cfg, w, fd);
  }

  lemma Initiates(cfg: Config, w: World, l: Sock)
    requires Sound(cfg, w) && l in w.proxies
    ensures w.proxies[l].initiator in w.clients && w.proxies[l].initiator in w.trace
  {
    OfProxy(w.users, w.clients, w.proxies, l);
  }

  lemma AcceptProxiedKeeps(cfg: Config, w: World, l: Sock, fd: Sock)
    requires Proper(cfg) && Inv(cfg, w) && l in w.proxies && Unused(cfg, w, fd)
    ensures w.proxies[l].initiator in w.trace && Inv(cfg, AcceptProxied(cfg, w, l, fd))
  {
    Initiates(cfg, w, l);
    AdmitKeepsSound(cfg, w, l, fd);
    NotAmongClients(cfg, w, fd);
    AdmitKeepsStreams(cfg, w, l, fd);
    AdmitMatches(cfg, w, l, fd);
    TellKeeps(cfg, Admit(w, l, fd), w.proxies[l].initiator, Message(CONNECTED, IdBytes(Get(w.pool).1)));
  }

  lemma NotAmongClients(cfg: Config, w: World, fd: Sock)
    requires Sound(cfg, w) && fd !in w.loop.linked
    ensures fd !in w.clients
  {}

  // ---------------------------------------------------------------- traffic

  /** A registered socket that is not a control client is the client of the proxy it is registered for. */
  lemma ProxiedIsBound(cfg: Config, w: World, l: Sock, fd: Sock)
    requires Sound(cfg, w) && fd in w.loop.linked && w.loop.linked[fd] == Tunnel(l)
    ensures l in w.proxies && fd in w.proxies[l].sockToId && fd in w.read && fd !in w.clients
  {
    assert Paired(w.proxies[l]);
    OfKeys(w, fd);
  }

  lemma ReadProxiedKeeps(cfg: Config, w: World, l: Sock, fd: Sock, data: seq<Byte>)
    requires Proper(cfg) && Inv(cfg, w) && fd in w.loop.linked && w.loop.linked[fd] == Tunnel(l) &&
             |data| <= REDIR_BUF_SIZE
    ensures l in w.proxies && w.proxies[l].initiator in w.trace && fd in w.proxies[l].sockToId && fd in w.read
    ensures Inv(cfg, ReadProxied(cfg, w, l, fd, data))
  {
    ProxiedIsBound(cfg, w, l, fd);
    Initiates(cfg, w, l);
    ReadMoreKeepsSound(cfg, w, fd, data);
    ReadMoreKeepsStreams(cfg, w, fd, data);
    ReadMoreMatches(cfg, w, l, fd, data);
    TellKeeps(cfg, w.(read := w.read[fd := w.read[fd] + data]), w.proxies[l].initiator,
              Message(PACKET, IdBytes(w.proxies[l].sockToId[fd]) + data));
  }

  lemma WriteSomeKeeps(cfg: Config, w: World, fd: Sock, k: nat)
    requires Inv(cfg, w) && CanWrite(w.loop, fd, k)
    ensures Inv(cfg, w.(loop := WriteSome(w.loop, fd, k)))
  {
    WriteKeepsSound(cfg, w, fd, k);
    WriteKeepsStreams(cfg, w, fd, k);
    WriteMatches(w, fd, k);
  }

  // ---------------------------------------------------------------- commands

  /** A message of fd was just noted in its trace, and not yet acted on. */
  ghost predicate JustHeard(cfg: Config, w: World, fd: Sock, m: Message, traces: map<Sock, seq<Event>>) {
    && Sound(cfg, w) && StreamsOk(cfg, w) && fd in w.clients && fd in traces
    && w.trace == traces[fd := traces[fd] + [Heard(m)]] && SessionsMatch(w, traces)
  }

  lemma IdleKeeps(cfg: Config, w: World, fd: Sock, m: Message, traces: map<Sock, seq<Event>>)
    requires JustHeard(cfg, w, fd, m, traces)
    requires Acts(m) ==> forall id: nat | Names(m, id) :: !Held(w, fd, id).Open?
    ensures Inv(cfg, w)
  {
    HeardQuietly(w, fd, m, traces);
  }

  lemma AuthKeeps(cfg: Config, w: World, fd: Sock, payload: seq<Byte>)
    requires Inv(cfg, w)
    ensures Inv(cfg, Auth(cfg, w, fd, payload))
  {
    AuthKeepsSound(cfg, w, fd);
    TablesChange(cfg, w, w.users[fd := UserOf(w, fd).(canSelectPort := true)], w.proxies);
    GrantMatches(w, fd, UserOf(w, fd).(canSelectPort := true), w.trace);
  }

  lemma CreatesKeeps(cfg: Config, w: World, fd: Sock, l: Sock)
    requires Inv(cfg, w) && fd in w.clients && !HasServer(w, fd) && Unused(cfg, w, l)
    ensures Inv(cfg, w.(users := w.users[fd := UserOf(w, fd).(server := Some(l))],
                        proxies := w.proxies[l := Proxy(fd, map[], map[], {})]))
  {
    var v := w.(users := w.users[fd := UserOf(w, fd).(server := Some(l))],
                proxies := w.proxies[l := Proxy(fd, map[], map[], {})]);
    CreatesServerKeepsSound(cfg, w, fd, l);
    TablesChange(cfg, w, v.users, v.proxies);
    CreatesServerMatches(w, fd, UserOf(w, fd).(server := Some(l)), l, w.trace);
  }

  lemma CreateServerKeeps(cfg: Config, w: World, fd: Sock, payload: seq<Byte>, sys: System)
    requires Proper(cfg) && Inv(cfg, w) && fd in w.clients && fd in w.trace && Unused(cfg, w, sys.listener)
    ensures Inv(cfg, CreateServer(cfg, w, fd, payload, sys))
  {
    if HasServer(w, fd) {
      RefuseKeeps(cfg, w, fd, SERVER_ALREADY_CREATED);
    } else if |payload| == 2 && UserOf(w, fd).canSelectPort && !sys.portAvailable {
      RefuseKeeps(cfg, w, fd, UNAVAILABLE_PORT);
    } else {
      CreatesKeeps(cfg, w, fd, sys.listener);
      var v := w.(users := w.users[fd := UserOf(w, fd).(server := Some(sys.listener))],
                  proxies := w.proxies[sys.listener := Proxy(fd, map[], map[], {})]);
      TellQuietlyKeeps(cfg, v, fd, Message(CREATE_SERVER, LittleEndian(sys.port, 2)));
    }
  }

  /** The proxy of a user, and the client it has under an id. */
  lemma Bound(cfg: Config, w: World, fd: Sock, id: nat)
    requires Sound(cfg, w) && HasServer(w, fd)
    ensures var l := UserOf(w, fd).server.value;
            && l in w.proxies && w.proxies[l].initiator == fd
            && (id in w.proxies[l].idToSock ==>
                  var s := w.proxies[l].idToSock[id];
                  && s in w.proxies[l].sockToId && w.proxies[l].sockToId[s] == id
                  && s in w.loop.queues && s !in w.clients)
  {
    OfUser(w.users, w.clients, w.proxies, fd);
    if ClientOf(w, fd, id).Some? {
      ClientIsRegistered(cfg, w, fd, id);
      OfKeys(w, ClientOf(w, fd, id).value);
    }
  }

  lemma PassOnKeeps(cfg: Config, w: World, s: Sock, data: seq<Byte>)
    requires Sound(cfg, w) && StreamsOk(cfg, w) && s in w.loop.queues && s !in w.clients && |data| > 0
    requires SessionsMatch(PassOn(w, s, data), w.trace)
    ensures Inv(cfg, PassOn(w, s, data))
  {
    SendKeepsSound(cfg, w, s, data);
    SendKeepsStreams(cfg, w, s, data);
  }

  lemma SessionGoesOn(cfg: Config, w: World, l: Sock, s: Sock, m: Message, traces: map<Sock, seq<Event>>)
    requires l in w.proxies && JustHeard(cfg, w, w.proxies[l].initiator, m, traces) && s in w.proxies[l].sockToId
    requires m.kind == PACKET && |m.payload| > ID_SIZE && IdOf(m.payload) == w.proxies[l].sockToId[s]
    ensures SessionsMatch(PassOn(w, s, m.payload[ID_SIZE..]), w.trace)
  {
    SendMatches(cfg, w, l, s, m, traces);
  }

  lemma RestIsThere(payload: seq<Byte>)
    requires |payload| > ID_SIZE
    ensures |payload[ID_SIZE..]| > 0
  {}

  /** A PACKET for an id that is not bound, or without an id, is refused. */
  lemma PacketKeeps(cfg: Config, w: World, fd: Sock, m: Message, traces: map<Sock, seq<Event>>)
    requires Proper(cfg) && JustHeard(cfg, w, fd, m, traces) && m.kind == PACKET && Settled(w) && fd in w.trace
    ensures Inv(cfg, Packet(cfg, w, fd, m.payload))
  {
    if HasServer(w, fd) && |m.payload| > ID_SIZE && IdOf(m.payload) in w.proxies[UserOf(w, fd).server.value].idToSock {
      var l := UserOf(w, fd).server.value;
      Bound(cfg, w, fd, IdOf(m.payload));
      var s := w.proxies[l].idToSock[IdOf(m.payload)];
      SessionGoesOn(cfg, w, l, s, m, traces);
      RestIsThere(m.payload);
      PassOnKeeps(cfg, w, s, m.payload[ID_SIZE..]);
    } else {
      IdleKeeps(cfg, w, fd, m, traces);
      RefuseKeeps(cfg, w, fd, if !HasServer(w, fd) then NO_SESSION
                              else if |m.payload| <= ID_SIZE then TOO_SHORT_BUFFER else NO_SUCH_CLIENT);
    }
  }

  lemma DisconnectKeeps(cfg: Config, w: World, fd: Sock, m: Message, traces: map<Sock, seq<Event>>)
    requires Proper(cfg) && JustHeard(cfg, w, fd, m, traces) && m.kind == DISCONNECT && Settled(w) && fd in w.trace
    ensures Inv(cfg, Disconnect(cfg, w, fd, m.payload))
  {
    if HasServer(w, fd) && |m.payload| == ID_SIZE {
      var id := IdOf(m.payload);
      Bound(cfg, w, fd, id);
      var l := UserOf(w, fd).server.value;
      if id in w.proxies[l].idToSock {
        var s := w.proxies[l].idToSock[id];
        ForgetKeepsSound(cfg, w, l, s);
        ForgetKeepsStreams(cfg, w, l, s);
        ForgetMatches(cfg, w, l, s, Heard(m), traces);
      } else {
        IdleKeeps(cfg, w, fd, m, traces);
        RefuseKeeps(cfg, w, fd, NO_SUCH_CLIENT);
      }
    } else {
      IdleKeeps(cfg, w, fd, m, traces);
      RefuseKeeps(cfg, w, fd, if !HasServer(w, fd) then NO_SESSION else BUFFER_SIZE_INCORRECT);
    }
  }

  /** The switch of `process_message`. */
  lemma Dispatches(cfg: Config, w: World, fd: Sock, m: Message, sys: System)
    requires Tracked(w.loop) && fd in w.trace && Settled(w)
    ensures m.kind == PACKET ==> Process(cfg, w, fd, m, sys) == Packet(cfg, w, fd, m.payload)
    ensures m.kind == DISCONNECT ==> Process(cfg, w, fd, m, sys) == Disconnect(cfg, w, fd, m.payload)
    ensures m.kind == AUTH ==> Process(cfg, w, fd, m, sys) == Auth(cfg, w, fd, m.payload)
  {}

  lemma PingIsAnswered(cfg: Config, w: World, fd: Sock, m: Message, sys: System)
    requires Proper(cfg) && Inv(cfg, w) && Settled(w) && fd in w.trace && fd in w.clients && m.kind == PING
    ensures Inv(cfg, Process(cfg, w, fd, m, sys))
  {
    TellQuietlyKeeps(cfg, w, fd, Message(PING, cfg.serverName));
  }

  lemma ServerIsAnswered(cfg: Config, w: World, fd: Sock, m: Message, sys: System)
    requires Proper(cfg) && Inv(cfg, w) && Settled(w) && fd in w.trace && fd in w.clients
    requires m.kind == CREATE_SERVER && Unused(cfg, w, sys.listener)
    ensures Inv(cfg, Process(cfg, w, fd, m, sys))
  {
    CreateServerKeeps(cfg, w, fd, m.payload, sys);
  }

  lemma AuthIsAnswered(cfg: Config, w: World, fd: Sock, m: Message, sys: System)
    requires Proper(cfg) && Inv(cfg, w) && Settled(w) && fd in w.trace && fd in w.clients && m.kind == AUTH
    ensures Inv(cfg, Process(cfg, w, fd, m, sys))
  {
    Dispatches(cfg, w, fd, m, sys);
    AuthKeeps(cfg, w, fd, m.payload);
  }

  lemma UnknownIsAnswered(cfg: Config, w: World, fd: Sock, m: Message, sys: System)
    requires Proper(cfg) && Inv(cfg, w) && Settled(w) && fd in w.trace && fd in w.clients
    requires m.kind !in {PING, CREATE_SERVER, PACKET, DISCONNECT, AUTH}
    ensures Inv(cfg, Process(cfg, w, fd, m, sys))
  {
    RefuseKeeps(cfg, w, fd, if m.kind == STAT then NOT_IMPLEMENTED else NO_SUCH_COMMAND);
  }

  lemma PacketIsAnswered(cfg: Config, w: World, fd: Sock, m: Message, sys: System, traces: map<Sock, seq<Event>>)
    requires Proper(cfg) && JustHeard(cfg, w, fd, m, traces) && Settled(w) && fd in w.trace && m.kind == PACKET
    ensures Inv(cfg, Process(cfg, w, fd, m, sys))
  {
    Dispatches(cfg, w, fd, m, sys);
    PacketKeeps(cfg, w, fd, m, traces);
  }

  lemma DisconnectIsAnswered(cfg: Config, w: World, fd: Sock, m: Message, sys: System, traces: map<Sock, seq<Event>>)
    requires Proper(cfg) && JustHeard(cfg, w, fd, m, traces) && Settled(w) && fd in w.trace && m.kind == DISCONNECT
    ensures Inv(cfg, Process(cfg, w, fd, m, sys))
  {
    Dispatches(cfg, w, fd, m, sys);
    DisconnectKeeps(cfg, w, fd, m, traces);
  }

  lemma SessionIsAnswered(cfg: Config, w: World, fd: Sock, m: Message, sys: System, traces: map<Sock, seq<Event>>)
    requires Proper(cfg) && JustHeard(cfg, w, fd, m, traces) && Settled(w) && fd in w.trace
    requires m.kind == PACKET || m.kind == DISCONNECT
    ensures Inv(cfg, Process(cfg, w, fd, m, sys))
  {
    if m.kind == PACKET {
      PacketIsAnswered(cfg, w, fd, m, sys, traces);
    } else {
      DisconnectIsAnswered(cfg, w, fd, m, sys, traces);
    }
  }

  lemma ProcessKeeps(cfg: Config, w: World, fd: Sock, m: Message, sys: System, traces: map<Sock, seq<Event>>)
    requires Proper(cfg) && JustHeard(cfg, w, fd, m, traces) && Unused(cfg, w, sys.listener)
    requires Settled(w) && fd in w.trace
    ensures Inv(cfg, Process(cfg, w, fd, m, sys))
  {
    if m.kind == PACKET || m.kind == DISCONNECT {
      SessionIsAnswered(cfg, w, fd, m, sys, traces);
    } else {
      IdleKeeps(cfg, w, fd, m, traces);
      if m.kind == PING {
        PingIsAnswered(cfg, w, fd, m, sys);
      } else if m.kind == CREATE_SERVER {
        ServerIsAnswered(cfg, w, fd, m, sys);
      } else if m.kind == AUTH {
        AuthIsAnswered(cfg, w, fd, m, sys);
      } else {
        UnknownIsAnswered(cfg, w, fd, m, sys);
      }
    }
  }

  lemma UnusedStays(cfg: Config, w: World, fd: Sock, chunk: seq<Byte>, s: Sock)
    requires KeysOk(w) && CanRead(w, fd, chunk) && Unused(cfg, w, s)
    ensures Unused(cfg, Fill(cfg, w, fd, chunk).0, s)
  {}

  /** A delivered message is noted, and nothing else is. */
  lemma FillNotes(cfg: Config, w: World, fd: Sock, chunk: seq<Byte>)
    requires KeysOk(w) && CanRead(w, fd, chunk)
    ensures var (v, out) := Fill(cfg, w, fd, chunk);
            v.clients == w.clients && v.trace == Noted(w.trace, fd, out)
  {}

  lemma ReadControlKeeps(cfg: Config, w: World, fd: Sock, chunk: seq<Byte>, sys: System)
    requires Proper(cfg) && Inv(cfg, w) && fd in w.clients && CanRead(w, fd, chunk) && Unused(cfg, w, sys.listener)
    requires Settled(w)
    ensures Inv(cfg, ReadControl(cfg, w, fd, chunk, sys))
  {
    var (v, out) := Fill(cfg, w, fd, chunk);
    FillKeepsSound(cfg, w, fd, chunk);
    FillKeepsStreams(cfg, w, fd, chunk);
    FillMatches(cfg, w, fd, chunk, w.trace);
    FillNotes(cfg, w, fd, chunk);
    UnusedStays(cfg, w, fd, chunk, sys.listener);
    SoundSettles(cfg, v);
    ActingKeeps(cfg, v, fd, out, sys, w.trace);
  }

  lemma ActingKeeps(cfg: Config, v: World, fd: Sock, out: seq<Received>, sys: System, traces: map<Sock, seq<Event>>)
    requires Proper(cfg) && Sound(cfg, v) && StreamsOk(cfg, v) && SessionsMatch(v, traces) && Settled(v)
    requires fd in v.clients && fd in v.trace && fd in traces && v.trace == Noted(traces, fd, out)
    requires Unused(cfg, v, sys.listener)
    ensures Inv(cfg, Acted(cfg, v, fd, out, sys))
  {
    if out != [] {
      match out[0] {
        case Reject(code) => RefuseKeeps(cfg, v, fd, code);
        case Deliver(m) => ProcessKeeps(cfg, v, fd, m, sys, traces);
      }
    }
  }

  // ---------------------------------------------------------------- hanging up

  lemma HangUpProxiedKeeps(cfg: Config, w: World, l: Sock, fd: Sock)
    requires Proper(cfg) && Inv(cfg, w) && fd in w.loop.linked && w.loop.linked[fd] == Tunnel(l)
    ensures l in w.proxies && w.proxies[l].initiator in w.trace && fd in w.proxies[l].sockToId
    ensures Inv(cfg, HangUpProxied(cfg, w, l, fd))
  {
    ProxiedIsBound(cfg, w, l, fd);
    Initiates(cfg, w, l);
    var p := w.proxies[l];
    var m := Message(DISCONNECT, IdBytes(p.sockToId[fd]));
    IdOfClient(cfg, w, l, fd);
    IdIsNamed(p.sockToId[fd], []);
    ForgetKeepsSound(cfg, w, l, fd);
    ForgetKeepsStreams(cfg, w, l, fd);
    ForgetMatches(cfg, w, l, fd, Told(m), w.trace);
    TellKeeps(cfg, Forget(w, l, fd), p.initiator, m);
  }

  lemma HangUpControlKeeps(cfg: Config, w: World, fd: Sock, order: seq<Sock>)
    requires Inv(cfg, w) && Settled(w) && fd in w.clients
    requires HasServer(w, fd) ==> Enumerates(order, w.proxies[UserOf(w, fd).server.value].sockToId.Keys)
    ensures Inv(cfg, HangUpControl(w, fd, order))
  {
    HangUpControlKeepsSound(cfg, w, fd, order);
    HangUpControlKeepsStreams(cfg, w, fd, order);
    HangUpControlMatches(cfg, w, fd, order);
  }

  // ---------------------------------------------------------------- runs

  lemma MainIsControl(cfg: Config, w: World, fd: Sock)
    requires Sound(cfg, w) && fd in w.loop.linked && w.loop.linked[fd] == Main
    ensures fd in w.clients
  {}

  /** One turn of `Loop::run`. */
  function Next(cfg: Config, w: World, e: Signal): (r: World)
    requires Proper(cfg) && Inv(cfg, w) && Enabled(cfg, w, e)
    ensures Inv(cfg, r)
  {
    SoundSettles(cfg, w);
    match e
    case ControlConnects(fd) =>
      AcceptControlKeeps(cfg, w, fd);
      AcceptControl(w, fd)
    case ClientConnects(l, fd) =>
      AcceptProxiedKeeps(cfg, w, l, fd);
      AcceptProxied(cfg, w, l, fd)
    case Readable(fd, data, sys) =>
      (match w.loop.linked[fd]
       case Main =>
         MainIsControl(cfg, w, fd);
         ReadControlKeeps(cfg, w, fd, data, sys);
         ReadControl(cfg, w, fd, data, sys)
       case Tunnel(l) =>
         ReadProxiedKeeps(cfg, w, l, fd, data);
         ReadProxied(cfg, w, l, fd, data))
    case Writable(fd, k) =>
      WriteSomeKeeps(cfg, w, fd, k);
      w.(loop := WriteSome(w.loop, fd, k))
    case HangsUp(fd, order) =>
      (match w.loop.linked[fd]
       case Main =>
         MainIsControl(cfg, w, fd);
         HangUpControlKeeps(cfg, w, fd, order);
         HangUpControl(w, fd, order)
       case Tunnel(l) =>
         HangUpProxiedKeeps(cfg, w, l, fd);
         HangUpProxied(cfg, w, l, fd))
  }

  lemma Starts(cfg: Config)
    ensures Inv(cfg, Initial())
  {}

  ghost predicate IsStep(cfg: Config, w: World, e: Signal, r: World) {
    Proper(cfg) && Inv(cfg, w) && Enabled(cfg, w, e) && r == Next(cfg, w, e)
  }

  /** A run: the worlds ws, from the start of the program, and the events es between them. */
  ghost predicate IsRun(cfg: Config, ws: seq<World>, es: seq<Signal>) {
    && Proper(cfg) && |ws| == |es| + 1 && ws[0] == Initial()
    && forall i {:trigger IsStep(cfg, ws[i], es[i], ws[i + 1])} | 0 <= i < |es| :: IsStep(cfg, ws[i], es[i], ws[i + 1])
  }

  lemma StepOf(cfg: Config, ws: seq<World>, es: seq<Signal>, i: nat)
    requires IsRun(cfg, ws, es) && i < |es|
    ensures IsStep(cfg, ws[i], es[i], ws[i + 1])
  {}

  /** The invariant holds at every moment of every run; a step is never barred for want of it. */
  lemma {:induction false} RunKeeps(cfg: Config, ws: seq<World>, es: seq<Signal>, i: nat)
    requires IsRun(cfg, ws, es) && i < |ws|
    ensures Inv(cfg, ws[i])
    decreases i
  {
    if i == 0 {
      Starts(cfg);
    } else {
      RunKeeps(cfg, ws, es, i - 1);
      StepOf(cfg, ws, es, i - 1);
    }
  }
}

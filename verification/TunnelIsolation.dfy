/** Tunnels do not disturb each other, and what a command of a control client comes to. */
module TunnelIsolation {
  import opened Bytes
  import opened ByteBuffer
  import opened ProtoSpec
  import opened Framing
  import opened EventLoop
  import opened IdPool
  import opened Tunnel
  import opened TunnelRegistry
  import opened TunnelStreams
  import opened TunnelSessions
  import opened TunnelRuns

  /** The control client a registered socket works for: itself, or the initiator of its proxy. */
  function OwnerOf(w: World, s: Sock): Option<Sock> {
    if s !in w.loop.linked then None
    else
      match w.loop.linked[s]
      case Main => Some(s)
      case Tunnel(l) => if l in w.proxies then Some(w.proxies[l].initiator) else None
  }

  /** The control client whose tunnel an event is about. */
  function ActorOf(w: World, e: Signal): Option<Sock> {
    match e
    case ControlConnects(fd) => Some(fd)
    case ClientConnects(l, _) => if l in w.proxies then Some(w.proxies[l].initiator) else None
    case Readable(fd, _, _) => OwnerOf(w, fd)
    case Writable(fd, _) => OwnerOf(w, fd)
    case HangsUp(fd, _) => OwnerOf(w, fd)
  }

  /** Nothing happened to a socket: its place in the registry, its queues, its streams, its trace. */
  ghost predicate Spared(w: World, v: World, s: Sock) {
    && s in w.loop.linked && s in v.loop.linked && v.loop.linked[s] == w.loop.linked[s]
    && KeysOk(w) && KeysOk(v) && SameAt(w, v, s)
  }

  lemma SparedTwice(w: World, u: World, v: World, s: Sock)
    requires Spared(w, u, s) && Spared(u, v, s)
    ensures Spared(w, v, s)
  {}

  // ---------------------------------------------------------------- one change

  lemma TellSpares(cfg: Config, w: World, fd: Sock, m: Message, s: Sock)
    requires Lawful(cfg.zstd) && KeysOk(w) && fd in w.clients && fd in w.loop.linked && QueueOk(w.loop, fd)
    requires s in w.loop.linked && s != fd
    ensures Spared(w, Tell(cfg, w, fd, m), s)
  {
    TellElsewhere(cfg, w, fd, m);
    Tells(cfg, w, fd, m);
    assert s in Tell(cfg, w, fd, m).loop.queues;
  }

  lemma PassOnSpares(w: World, fd: Sock, data: seq<Byte>, s: Sock)
    requires KeysOk(w) && fd in w.loop.queues && s in w.loop.linked && s != fd
    ensures Spared(w, PassOn(w, fd, data), s)
  {
    SendElsewhere(w, fd, data);
    assert s in PassOn(w, fd, data).loop.queues;
  }

  lemma ForgetSpares(w: World, l: Sock, fd: Sock, s: Sock)
    requires KeysOk(w) && l in w.proxies && fd in w.proxies[l].sockToId && s in w.loop.linked && s != fd
    ensures Spared(w, Forget(w, l, fd), s)
  {
    ForgetKeepsKeys(w, l, fd);
  }

  lemma FillSpares(cfg: Config, w: World, fd: Sock, chunk: seq<Byte>, s: Sock)
    requires KeysOk(w) && fd in w.clients && CanRead(w, fd, chunk) && s in w.loop.linked && s != fd
    ensures Spared(w, Fill(cfg, w, fd, chunk).0, s)
  {
    FillElsewhere(cfg, w, fd, chunk);
    assert s in Fill(cfg, w, fd, chunk).0.loop.queues;
  }

  lemma TablesSpare(w: World, users: map<Sock, User>, proxies: map<Sock, Proxy>, s: Sock)
    requires KeysOk(w) && s in w.loop.linked
    ensures Spared(w, w.(users := users, proxies := proxies), s)
  {}

  // ---------------------------------------------------------------- commands

  lemma ServerSpares(cfg: Config, w: World, fd: Sock, payload: seq<Byte>, sys: System, s: Sock)
    requires Lawful(cfg.zstd) && KeysOk(w) && fd in w.clients && fd in w.loop.linked && QueueOk(w.loop, fd)
    requires s in w.loop.linked && s != fd
    ensures Spared(w, CreateServer(cfg, w, fd, payload, sys), s)
  {
    if HasServer(w, fd) {
      TellSpares(cfg, w, fd, Message(ERROR, [SERVER_ALREADY_CREATED]), s);
    } else if |payload| == 2 && UserOf(w, fd).canSelectPort && !sys.portAvailable {
      TellSpares(cfg, w, fd, Message(ERROR, [UNAVAILABLE_PORT]), s);
    } else {
      var users := w.users[fd := UserOf(w, fd).(server := Some(sys.listener))];
      var proxies := w.proxies[sys.listener := Proxy(fd, map[], map[], {})];
      TablesSpare(w, users, proxies, s);
      var v := w.(users := users, proxies := proxies);
      var m := Message(CREATE_SERVER, LittleEndian(sys.port, 2));
      TellSpares(cfg, v, fd, m, s);
      SparedTwice(w, v, Tell(cfg, v, fd, m), s);
    }
  }

  /** The error a session command that acts on nothing is answered with. */
  function Refusal(w: World, fd: Sock, m: Message): Byte {
    if !HasServer(w, fd) then NO_SESSION
    else if !Acts(m) then if m.kind == PACKET then TOO_SHORT_BUFFER else BUFFER_SIZE_INCORRECT
    else NO_SUCH_CLIENT
  }

  /** The client a session command acts on. */
  function Target(w: World, fd: Sock, m: Message): Option<Sock> {
    if Acts(m) then ClientOf(w, fd, IdOf(m.payload)) else None
  }

  lemma ActsOnTarget(cfg: Config, w: World, fd: Sock, m: Message, sys: System)
    requires Tracked(w.loop) && fd in w.trace && Settled(w) && Target(w, fd, m).Some?
    ensures UserOf(w, fd).server.Some? && UserOf(w, fd).server.value in w.proxies
    ensures var l, c := UserOf(w, fd).server.value, Target(w, fd, m).value;
            && c in w.proxies[l].sockToId
            && Process(cfg, w, fd, m, sys) ==
               if m.kind == PACKET then PassOn(w, c, m.payload[ID_SIZE..]) else Forget(w, l, c)
  {}

  lemma RefusedWithoutTarget(cfg: Config, w: World, fd: Sock, m: Message, sys: System)
    requires Tracked(w.loop) && fd in w.trace && Settled(w) && (m.kind == PACKET || m.kind == DISCONNECT)
    requires Target(w, fd, m).None?
    ensures Process(cfg, w, fd, m, sys) == Refuse(cfg, w, fd, Refusal(w, fd, m))
  {}

  /** A PACKET or DISCONNECT is answered, by one error, if and only if it names no client of the user who
      sent it. */
  lemma RefusedIff(cfg: Config, w: World, fd: Sock, m: Message, sys: System)
    requires Tracked(w.loop) && fd in w.trace && Settled(w) && (m.kind == PACKET || m.kind == DISCONNECT)
    ensures Process(cfg, w, fd, m, sys).trace ==
            if Target(w, fd, m).Some? then w.trace
            else w.trace[fd := w.trace[fd] + [Told(Message(ERROR, [Refusal(w, fd, m)]))]]
  {
    if Target(w, fd, m).Some? {
      ActsOnTarget(cfg, w, fd, m, sys);
    } else {
      RefusedWithoutTarget(cfg, w, fd, m, sys);
    }
  }

  lemma TargetIsOwn(cfg: Config, w: World, fd: Sock, m: Message, s: Sock)
    requires Sound(cfg, w) && Target(w, fd, m).Some? && OwnerOf(w, s) != Some(fd)
    ensures Target(w, fd, m).value != s && Target(w, fd, m).value in w.loop.queues
  {
    ClientIsRegistered(cfg, w, fd, IdOf(m.payload));
    OfKeys(w, Target(w, fd, m).value);
  }

  /** A user's PACKETs and DISCONNECTs reach its own clients only. */
  lemma SessionSpares(cfg: Config, w: World, fd: Sock, m: Message, sys: System, s: Sock)
    requires Lawful(cfg.zstd) && Sound(cfg, w) && fd in w.clients && fd in w.trace && fd in w.loop.linked
    requires QueueOk(w.loop, fd) && Settled(w) && (m.kind == PACKET || m.kind == DISCONNECT)
    requires s in w.loop.linked && s != fd && OwnerOf(w, s) != Some(fd)
    ensures Spared(w, Process(cfg, w, fd, m, sys), s)
  {
    if Target(w, fd, m).Some? {
      TargetIsOwn(cfg, w, fd, m, s);
      ActsOnTarget(cfg, w, fd, m, sys);
      if m.kind == PACKET {
        PassOnSpares(w, Target(w, fd, m).value, m.payload[ID_SIZE..], s);
      } else {
        ForgetSpares(w, UserOf(w, fd).server.value, Target(w, fd, m).value, s);
      }
    } else {
      RefusedWithoutTarget(cfg, w, fd, m, sys);
      TellSpares(cfg, w, fd, Message(ERROR, [Refusal(w, fd, m)]), s);
    }
  }

  lemma OtherSpares(cfg: Config, w: World, fd: Sock, m: Message, sys: System, s: Sock)
    requires Lawful(cfg.zstd) && KeysOk(w) && fd in w.clients && fd in w.trace && fd in w.loop.linked
    requires QueueOk(w.loop, fd) && Settled(w) && m.kind != PACKET && m.kind != DISCONNECT
    requires s in w.loop.linked && s != fd
    ensures Spared(w, Process(cfg, w, fd, m, sys), s)
  {
    if m.kind == PING {
      TellSpares(cfg, w, fd, Message(PING, cfg.serverName), s);
    } else if m.kind == CREATE_SERVER {
      ServerSpares(cfg, w, fd, m.payload, sys, s);
    } else if m.kind == AUTH {
      TablesSpare(w, w.users[fd := UserOf(w, fd).(canSelectPort := true)], w.proxies, s);
      TablesSpare(w, w.users, w.proxies, s);
    } else {
      TellSpares(cfg, w, fd, Message(ERROR, [if m.kind == STAT then NOT_IMPLEMENTED else NO_SUCH_COMMAND]), s);
    }
  }

  lemma ProcessSpares(cfg: Config, w: World, fd: Sock, m: Message, sys: System, s: Sock)
    requires Lawful(cfg.zstd) && Sound(cfg, w) && fd in w.clients && fd in w.trace && fd in w.loop.linked
    requires QueueOk(w.loop, fd) && Settled(w) && s in w.loop.linked && s != fd && OwnerOf(w, s) != Some(fd)
    ensures Spared(w, Process(cfg, w, fd, m, sys), s)
  {
    if m.kind == PACKET || m.kind == DISCONNECT {
      SessionSpares(cfg, w, fd, m, sys, s);
    } else {
      OtherSpares(cfg, w, fd, m, sys, s);
    }
  }

  lemma ActedSpares(cfg: Config, w: World, fd: Sock, out: seq<Received>, sys: System, s: Sock)
    requires Lawful(cfg.zstd) && Sound(cfg, w) && fd in w.clients && fd in w.trace && fd in w.loop.linked
    requires QueueOk(w.loop, fd) && Settled(w) && s in w.loop.linked && s != fd && OwnerOf(w, s) != Some(fd)
    requires out != []
    ensures Spared(w, Acted(cfg, w, fd, out, sys), s)
  {
    match out[0] {
      case Reject(code) => TellSpares(cfg, w, fd, Message(ERROR, [code]), s);
      case Deliver(m) => ProcessSpares(cfg, w, fd, m, sys, s);
    }
  }

  lemma FillReady(cfg: Config, w: World, fd: Sock, chunk: seq<Byte>)
    requires Proper(cfg) && Inv(cfg, w) && fd in w.clients && CanRead(w, fd, chunk)
    ensures var v := Fill(cfg, w, fd, chunk).0;
            && Sound(cfg, v) && Settled(v) && v.clients == w.clients && v.loop.linked == w.loop.linked
            && v.proxies == w.proxies && fd in v.trace && fd in v.loop.linked && QueueOk(v.loop, fd)
  {
    FillKeepsSound(cfg, w, fd, chunk);
    FillKeepsStreams(cfg, w, fd, chunk);
    FillNotes(cfg, w, fd, chunk);
    SoundSettles(cfg, Fill(cfg, w, fd, chunk).0);
    Talkable(cfg, Fill(cfg, w, fd, chunk).0, fd);
  }

  lemma ReadControlSpares(cfg: Config, w: World, fd: Sock, chunk: seq<Byte>, sys: System, s: Sock)
    requires Proper(cfg) && Inv(cfg, w) && fd in w.clients && CanRead(w, fd, chunk) && Settled(w)
    requires s in w.loop.linked && s != fd && OwnerOf(w, s) != Some(fd)
    ensures Spared(w, ReadControl(cfg, w, fd, chunk, sys), s)
  {
    var (v, out) := Fill(cfg, w, fd, chunk);
    FillReady(cfg, w, fd, chunk);
    FillSpares(cfg, w, fd, chunk, s);
    if out != [] {
      ActedSpares(cfg, v, fd, out, sys, s);
      SparedTwice(w, v, Acted(cfg, v, fd, out, sys), s);
    }
  }

  // ---------------------------------------------------------------- events of proxied clients

  lemma AdmitSpares(w: World, l: Sock, fd: Sock, s: Sock)
    requires KeysOk(w) && fd !in w.loop.queues && l in w.proxies && s in w.loop.linked
    ensures Spared(w, Admit(w, l, fd), s)
  {
    AdmitElsewhere(w, l, fd);
    assert s in Admit(w, l, fd).loop.queues;
  }

  lemma AcceptProxiedSpares(cfg: Config, w: World, l: Sock, fd: Sock, s: Sock)
    requires Proper(cfg) && Inv(cfg, w) && l in w.proxies && Unused(cfg, w, fd)
    requires s in w.loop.linked && s != w.proxies[l].initiator
    ensures w.proxies[l].initiator in w.trace && Spared(w, AcceptProxied(cfg, w, l, fd), s)
  {
    var i, m := w.proxies[l].initiator, Message(CONNECTED, IdBytes(Get(w.pool).1));
    Initiates(cfg, w, l);
    AdmitSpares(w, l, fd, s);
    NotAmongClients(cfg, w, fd);
    AdmitKeepsSound(cfg, w, l, fd);
    AdmitKeepsStreams(cfg, w, l, fd);
    Talkable(cfg, Admit(w, l, fd), i);
    TellSpares(cfg, Admit(w, l, fd), i, m, s);
    SparedTwice(w, Admit(w, l, fd), AcceptProxied(cfg, w, l, fd), s);
  }

  lemma ReadMoreSpares(w: World, fd: Sock, data: seq<Byte>, s: Sock)
    requires KeysOk(w) && fd in w.read && s in w.loop.linked && s != fd
    ensures Spared(w, w.(read := w.read[fd := w.read[fd] + data]), s)
  {}

  lemma ReadProxiedSpares(cfg: Config, w: World, l: Sock, fd: Sock, data: seq<Byte>, s: Sock)
    requires Proper(cfg) && Inv(cfg, w) && fd in w.loop.linked && w.loop.linked[fd] == Tunnel(l)
    requires l in w.proxies && w.proxies[l].initiator in w.trace && fd in w.proxies[l].sockToId && fd in w.read
    requires s in w.loop.linked && s != fd && s != w.proxies[l].initiator
    ensures Spared(w, ReadProxied(cfg, w, l, fd, data), s)
  {
    var p := w.proxies[l];
    var v := w.(read := w.read[fd := w.read[fd] + data]);
    ReadMoreSpares(w, fd, data, s);
    ReadMoreKeepsSound(cfg, w, fd, data);
    ProxiedIsBound(cfg, w, l, fd);
    ReadMoreKeepsStreams(cfg, w, fd, data);
    Initiates(cfg, w, l);
    Talkable(cfg, v, p.initiator);
    TellSpares(cfg, v, p.initiator, Message(PACKET, IdBytes(p.sockToId[fd]) + data), s);
    SparedTwice(w, v, ReadProxied(cfg, w, l, fd, data), s);
  }

  lemma HangUpProxiedSpares(cfg: Config, w: World, l: Sock, fd: Sock, s: Sock)
    requires Proper(cfg) && Inv(cfg, w) && l in w.proxies && w.proxies[l].initiator in w.trace &&
             fd in w.proxies[l].sockToId
    requires s in w.loop.linked && s != fd && s != w.proxies[l].initiator
    ensures Spared(w, HangUpProxied(cfg, w, l, fd), s)
  {
    var p := w.proxies[l];
    var v, m := Forget(w, l, fd), Message(DISCONNECT, IdBytes(p.sockToId[fd]));
    ForgetSpares(w, l, fd, s);
    ForgetKeepsSound(cfg, w, l, fd);
    ForgetKeepsStreams(cfg, w, l, fd);
    Initiates(cfg, w, l);
    Talkable(cfg, v, p.initiator);
    TellSpares(cfg, v, p.initiator, m, s);
    SparedTwice(w, v, HangUpProxied(cfg, w, l, fd), s);
  }

  lemma WriteSpares(w: World, fd: Sock, k: nat, s: Sock)
    requires KeysOk(w) && CanWrite(w.loop, fd, k) && s in w.loop.linked && s != fd
    ensures Spared(w, w.(loop := WriteSome(w.loop, fd, k)), s)
  {
    WriteKeepsKeys(w, fd, k);
  }

  lemma CloseSpares(w: World, l: Sock, order: seq<Sock>, s: Sock)
    requires KeysOk(w) && l in w.proxies && (forall c | c in order :: c in w.proxies[l].sockToId)
    requires s in w.loop.linked && s !in w.proxies[l].clients
    ensures Spared(w, CloseProxy(w, l, order), s)
  {
    CloseKeepsKeys(w, l, order);
  }

  lemma LeaveSpares(w: World, fd: Sock, s: Sock)
    requires KeysOk(w) && s in w.loop.linked && s != fd
    ensures Spared(w, Leave(w, fd), s)
  {
    LeaveKeepsKeys(w, fd);
  }

  lemma OwnedByOther(cfg: Config, w: World, l: Sock, s: Sock)
    requires Sound(cfg, w) && l in w.proxies && s in w.loop.linked && OwnerOf(w, s) != Some(w.proxies[l].initiator)
    ensures s !in w.proxies[l].clients
  {
    if s in w.proxies[l].clients {
      OfClient(cfg.main, w.loop.linked, w.clients, w.proxies, l, s);
    }
  }

  lemma HangUpControlSpares(cfg: Config, w: World, fd: Sock, order: seq<Sock>, s: Sock)
    requires Sound(cfg, w) && fd in w.clients && Settled(w)
    requires HasServer(w, fd) ==> forall c | c in order :: c in w.proxies[UserOf(w, fd).server.value].sockToId
    requires s in w.loop.linked && s != fd && OwnerOf(w, s) != Some(fd)
    ensures Spared(w, HangUpControl(w, fd, order), s)
  {
    if HasServer(w, fd) {
      var l := w.users[fd].server.value;
      OfUser(w.users, w.clients, w.proxies, fd);
      OwnedByOther(cfg, w, l, s);
      CloseSpares(w, l, order, s);
      var v := CloseProxy(w, l, order);
      TablesSpare(v, w.users - {fd}, v.proxies, s);
      SparedTwice(w, v, LoseServer(w, fd, order), s);
    } else {
      TablesSpare(w, w.users, w.proxies, s);
    }
    LeaveSpares(LoseServer(w, fd, order), fd, s);
    SparedTwice(w, LoseServer(w, fd, order), HangUpControl(w, fd, order), s);
  }

  // ---------------------------------------------------------------- every event

  lemma AcceptControlSpares(w: World, fd: Sock, s: Sock)
    requires KeysOk(w) && fd !in w.loop.queues && s in w.loop.linked
    ensures Spared(w, AcceptControl(w, fd), s)
  {
    AcceptControlElsewhere(w, fd);
    assert s in AcceptControl(w, fd).loop.queues;
  }

  /** The sockets of another tunnel are neither the client of this one nor its initiator. */
  lemma Apart(cfg: Config, w: World, l: Sock, s: Sock)
    requires Sound(cfg, w) && l in w.proxies && s in w.loop.linked && OwnerOf(w, s) != Some(w.proxies[l].initiator)
    ensures s != w.proxies[l].initiator
  {
    OfProxy(w.users, w.clients, w.proxies, l);
  }

  lemma ReadableSpares(cfg: Config, w: World, e: Signal, s: Sock)
    requires Proper(cfg) && Inv(cfg, w) && Enabled(cfg, w, e) && e.Readable?
    requires s in w.loop.linked && OwnerOf(w, s) != ActorOf(w, e)
    ensures Spared(w, Next(cfg, w, e), s)
  {
    SoundSettles(cfg, w);
    match w.loop.linked[e.fd] {
      case Main =>
        MainIsControl(cfg, w, e.fd);
        ReadControlSpares(cfg, w, e.fd, e.data, e.sys, s);
      case Tunnel(l) =>
        ProxiedIsBound(cfg, w, l, e.fd);
        Initiates(cfg, w, l);
        Apart(cfg, w, l, s);
        ReadProxiedSpares(cfg, w, l, e.fd, e.data, s);
    }
  }

  lemma HangUpSpares(cfg: Config, w: World, e: Signal, s: Sock)
    requires Proper(cfg) && Inv(cfg, w) && Enabled(cfg, w, e) && e.HangsUp?
    requires s in w.loop.linked && OwnerOf(w, s) != ActorOf(w, e)
    ensures Spared(w, Next(cfg, w, e), s)
  {
    SoundSettles(cfg, w);
    match w.loop.linked[e.fd] {
      case Main =>
        MainIsControl(cfg, w, e.fd);
        HangUpControlSpares(cfg, w, e.fd, e.order, s);
      case Tunnel(l) =>
        ProxiedIsBound(cfg, w, l, e.fd);
        Initiates(cfg, w, l);
        Apart(cfg, w, l, s);
        HangUpProxiedSpares(cfg, w, l, e.fd, s);
    }
  }

  lemma StepSpares(cfg: Config, w: World, e: Signal, s: Sock)
    requires Proper(cfg) && Inv(cfg, w) && Enabled(cfg, w, e)
    requires s in w.loop.linked && OwnerOf(w, s) != ActorOf(w, e)
    ensures Spared(w, Next(cfg, w, e), s)
  {
    match e {
      case ControlConnects(fd) => AcceptControlSpares(w, fd, s);
      case ClientConnects(l, fd) =>
        Apart(cfg, w, l, s);
        AcceptProxiedSpares(cfg, w, l, fd, s);
      case Readable(_, _, _) => ReadableSpares(cfg, w, e, s);
      case Writable(fd, k) => WriteSpares(w, fd, k, s);
      case HangsUp(_, _) => HangUpSpares(cfg, w, e, s);
    }
  }

  // ---------------------------------------------------------------- the tables

  /** Of the proxies of other users than actor none changed, came or went: maps and client sets are
      the same. */
  ghost predicate ProxiesSpared(before: map<Sock, Proxy>, after: map<Sock, Proxy>, actor: Sock) {
    && (forall l | l in before && before[l].initiator != actor :: l in after && after[l] == before[l])
    && (forall l | l in after && after[l].initiator != actor :: l in before)
  }

  /** Of the users' entries only actor's changed, came or went. */
  ghost predicate UsersSpared(before: map<Sock, User>, after: map<Sock, User>, actor: Sock) {
    && (forall u | u in before && u != actor :: u in after && after[u] == before[u])
    && (forall u | u in after && u != actor :: u in before)
  }

  ghost predicate TablesSpared(w: World, v: World, actor: Sock) {
    ProxiesSpared(w.proxies, v.proxies, actor) && UsersSpared(w.users, v.users, actor)
  }

  lemma SameTables(w: World, v: World, actor: Sock)
    requires v.proxies == w.proxies && v.users == w.users
    ensures TablesSpared(w, v, actor)
  {}

  lemma ProxyChanges(before: map<Sock, Proxy>, l: Sock, p: Proxy, actor: Sock)
    requires p.initiator == actor && (l in before ==> before[l].initiator == actor)
    ensures ProxiesSpared(before, before[l := p], actor)
  {}

  lemma ProxyLeaves(before: map<Sock, Proxy>, l: Sock, actor: Sock)
    requires l in before ==> before[l].initiator == actor
    ensures ProxiesSpared(before, before - {l}, actor)
  {}

  lemma UserChanges(before: map<Sock, User>, u: User, actor: Sock)
    ensures UsersSpared(before, before[actor := u], actor) && UsersSpared(before, before - {actor}, actor)
  {}

  lemma CreateServerSparesTables(cfg: Config, w: World, fd: Sock, payload: seq<Byte>, sys: System)
    requires Tracked(w.loop) && fd in w.trace && sys.listener !in w.proxies
    ensures TablesSpared(w, CreateServer(cfg, w, fd, payload, sys), fd)
  {
    ProxyChanges(w.proxies, sys.listener, Proxy(fd, map[], map[], {}), fd);
    UserChanges(w.users, UserOf(w, fd).(server := Some(sys.listener)), fd);
    SameTables(w, w, fd);
  }

  lemma AuthSparesTables(cfg: Config, w: World, fd: Sock, payload: seq<Byte>)
    ensures TablesSpared(w, Auth(cfg, w, fd, payload), fd)
  {
    UserChanges(w.users, UserOf(w, fd).(canSelectPort := true), fd);
    SameTables(w, w, fd);
  }

  lemma ForgetSparesTables(w: World, l: Sock, fd: Sock)
    requires l in w.proxies && fd in w.proxies[l].sockToId
    ensures TablesSpared(w, Forget(w, l, fd), w.proxies[l].initiator)
  {
    ProxyChanges(w.proxies, l, Unbind(w.proxies[l], fd), w.proxies[l].initiator);
  }

  lemma DisconnectSparesTables(cfg: Config, w: World, fd: Sock, m: Message, sys: System)
    requires Sound(cfg, w) && fd in w.trace && Settled(w) && m.kind == DISCONNECT
    ensures TablesSpared(w, Process(cfg, w, fd, m, sys), fd)
  {
    if Target(w, fd, m).Some? {
      ClientIsRegistered(cfg, w, fd, IdOf(m.payload));
      ActsOnTarget(cfg, w, fd, m, sys);
      ForgetSparesTables(w, UserOf(w, fd).server.value, Target(w, fd, m).value);
    } else {
      RefusedWithoutTarget(cfg, w, fd, m, sys);
      SameTables(w, Refuse(cfg, w, fd, Refusal(w, fd, m)), fd);
    }
  }

  lemma PacketSparesTables(cfg: Config, w: World, fd: Sock, m: Message, sys: System)
    requires Sound(cfg, w) && fd in w.trace && Settled(w) && m.kind == PACKET
    ensures TablesSpared(w, Process(cfg, w, fd, m, sys), fd)
  {
    if Target(w, fd, m).Some? {
      ActsOnTarget(cfg, w, fd, m, sys);
      SameTables(w, PassOn(w, Target(w, fd, m).value, m.payload[ID_SIZE..]), fd);
    } else {
      RefusedWithoutTarget(cfg, w, fd, m, sys);
      SameTables(w, Refuse(cfg, w, fd, Refusal(w, fd, m)), fd);
    }
  }

  lemma RepliesSpareTables(cfg: Config, w: World, fd: Sock, m: Message, sys: System)
    requires Tracked(w.loop) && fd in w.trace && Settled(w) && m.kind != PACKET && m.kind != DISCONNECT
    requires m.kind != CREATE_SERVER && m.kind != AUTH
    ensures TablesSpared(w, Process(cfg, w, fd, m, sys), fd)
  {
    if m.kind == PING {
      SameTables(w, Tell(cfg, w, fd, Message(PING, cfg.serverName)), fd);
    } else {
      SameTables(w, Refuse(cfg, w, fd, if m.kind == STAT then NOT_IMPLEMENTED else NO_SUCH_COMMAND), fd);
    }
  }

  lemma TableCommandsSpareTables(cfg: Config, w: World, fd: Sock, m: Message, sys: System)
    requires Tracked(w.loop) && fd in w.trace && Settled(w) && sys.listener !in w.proxies
    requires m.kind == CREATE_SERVER || m.kind == AUTH
    ensures TablesSpared(w, Process(cfg, w, fd, m, sys), fd)
  {
    if m.kind == CREATE_SERVER {
      CreateServerSparesTables(cfg, w, fd, m.payload, sys);
    } else {
      AuthSparesTables(cfg, w, fd, m.payload);
    }
  }

  lemma ProcessSparesTables(cfg: Config, w: World, fd: Sock, m: Message, sys: System)
    requires Sound(cfg, w) && fd in w.trace && Settled(w) && sys.listener !in w.proxies
    ensures TablesSpared(w, Process(cfg, w, fd, m, sys), fd)
  {
    if m.kind == DISCONNECT {
      DisconnectSparesTables(cfg, w, fd, m, sys);
    } else if m.kind == PACKET {
      PacketSparesTables(cfg, w, fd, m, sys);
    } else if m.kind == CREATE_SERVER || m.kind == AUTH {
      TableCommandsSpareTables(cfg, w, fd, m, sys);
    } else {
      RepliesSpareTables(cfg, w, fd, m, sys);
    }
  }

  lemma ActedSparesTables(cfg: Config, w: World, fd: Sock, out: seq<Received>, sys: System)
    requires Sound(cfg, w) && fd in w.trace && Settled(w) && sys.listener !in w.proxies
    ensures TablesSpared(w, Acted(cfg, w, fd, out, sys), fd)
  {
    if out == [] {
      SameTables(w, w, fd);
    } else {
      match out[0] {
        case Reject(code) => SameTables(w, Refuse(cfg, w, fd, code), fd);
        case Deliver(m) => ProcessSparesTables(cfg, w, fd, m, sys);
      }
    }
  }

  lemma ReadControlSparesTables(cfg: Config, w: World, fd: Sock, chunk: seq<Byte>, sys: System)
    requires Proper(cfg) && Inv(cfg, w) && fd in w.clients && CanRead(w, fd, chunk) && Settled(w)
    requires sys.listener !in w.proxies
    ensures TablesSpared(w, ReadControl(cfg, w, fd, chunk, sys), fd)
  {
    var (v, out) := Fill(cfg, w, fd, chunk);
    FillReady(cfg, w, fd, chunk);
    ActedSparesTables(cfg, v, fd, out, sys);
  }

  lemma HangUpControlSparesTables(w: World, fd: Sock, order: seq<Sock>)
    requires UsersOk(w.users, w.clients, w.proxies) && Settled(w)
    requires HasServer(w, fd) ==> forall c | c in order :: c in w.proxies[UserOf(w, fd).server.value].sockToId
    ensures TablesSpared(w, HangUpControl(w, fd, order), fd)
  {
    if HasServer(w, fd) {
      OfUser(w.users, w.clients, w.proxies, fd);
      ProxyLeaves(w.proxies, w.users[fd].server.value, fd);
      UserChanges(w.users, NoUser, fd);
    } else {
      SameTables(w, HangUpControl(w, fd, order), fd);
    }
  }

  lemma AcceptProxiedSparesTables(cfg: Config, w: World, l: Sock, fd: Sock)
    requires Tracked(w.loop) && l in w.proxies && w.proxies[l].initiator in w.trace
    ensures TablesSpared(w, AcceptProxied(cfg, w, l, fd), w.proxies[l].initiator)
  {
    ProxyChanges(w.proxies, l, Bind(w.proxies[l], fd, Get(w.pool).1), w.proxies[l].initiator);
  }

  lemma ReadProxiedSparesTables(cfg: Config, w: World, l: Sock, fd: Sock, data: seq<Byte>, actor: Sock)
    requires Tracked(w.loop) && l in w.proxies && w.proxies[l].initiator in w.trace
    requires fd in w.proxies[l].sockToId && fd in w.read
    ensures TablesSpared(w, ReadProxied(cfg, w, l, fd, data), actor)
  {
    SameTables(w, ReadProxied(cfg, w, l, fd, data), actor);
  }

  lemma HangUpSparesTables(cfg: Config, w: World, e: Signal, actor: Sock)
    requires Proper(cfg) && Inv(cfg, w) && Enabled(cfg, w, e) && e.HangsUp? && ActorOf(w, e) == Some(actor)
    ensures TablesSpared(w, Next(cfg, w, e), actor)
  {
    SoundSettles(cfg, w);
    match w.loop.linked[e.fd] {
      case Main =>
        MainIsControl(cfg, w, e.fd);
        HangUpControlSparesTables(w, e.fd, e.order);
      case Tunnel(l) =>
        ProxiedIsBound(cfg, w, l, e.fd);
        Initiates(cfg, w, l);
        ForgetSparesTables(w, l, e.fd);
    }
  }

  lemma ReadableSparesTables(cfg: Config, w: World, e: Signal, actor: Sock)
    requires Proper(cfg) && Inv(cfg, w) && Enabled(cfg, w, e) && e.Readable? && ActorOf(w, e) == Some(actor)
    ensures TablesSpared(w, Next(cfg, w, e), actor)
  {
    SoundSettles(cfg, w);
    match w.loop.linked[e.fd] {
      case Main =>
        MainIsControl(cfg, w, e.fd);
        ReadControlSparesTables(cfg, w, e.fd, e.data, e.sys);
      case Tunnel(l) =>
        ProxiedIsBound(cfg, w, l, e.fd);
        Initiates(cfg, w, l);
        ReadProxiedSparesTables(cfg, w, l, e.fd, e.data, actor);
    }
  }

  lemma StepSparesTables(cfg: Config, w: World, e: Signal, actor: Sock)
    requires Proper(cfg) && Inv(cfg, w) && Enabled(cfg, w, e) && ActorOf(w, e) == Some(actor)
    ensures TablesSpared(w, Next(cfg, w, e), actor)
  {
    match e {
      case ControlConnects(fd) => SameTables(w, AcceptControl(w, fd), actor);
      case ClientConnects(l, fd) =>
        Initiates(cfg, w, l);
        AcceptProxiedSparesTables(cfg, w, l, fd);
      case Readable(_, _, _) => ReadableSparesTables(cfg, w, e, actor);
      case Writable(fd, k) => SameTables(w, w.(loop := WriteSome(w.loop, fd, k)), actor);
      case HangsUp(_, _) => HangUpSparesTables(cfg, w, e, actor);
    }
  }

  /** Every event is about some tunnel. */
  lemma SomeoneActs(cfg: Config, w: World, e: Signal)
    requires Inv(cfg, w) && Enabled(cfg, w, e)
    ensures ActorOf(w, e).Some?
  {
    if e.Writable? && w.loop.linked[e.fd].Tunnel? {
      ProxiedIsBound(cfg, w, w.loop.linked[e.fd].listener, e.fd);
    }
  }

  // ---------------------------------------------------------------- every run

  /** Whatever happens in one tunnel, no socket of another notices. */
  lemma TunnelsApart(cfg: Config, ws: seq<World>, es: seq<Signal>, t: nat, s: Sock)
    requires IsRun(cfg, ws, es) && t < |es|
    requires s in ws[t].loop.linked && OwnerOf(ws[t], s) != ActorOf(ws[t], es[t])
    ensures Spared(ws[t], ws[t + 1], s)
  {
    StepOf(cfg, ws, es, t);
    StepSpares(cfg, ws[t], es[t], s);
  }

  /** ... and the proxies and the users of all other tunnels are as they were: their id maps, their
      client sets, their rights. */
  lemma TablesApart(cfg: Config, ws: seq<World>, es: seq<Signal>, t: nat)
    requires IsRun(cfg, ws, es) && t < |es|
    ensures var actor := ActorOf(ws[t], es[t]); actor.Some? && TablesSpared(ws[t], ws[t + 1], actor.value)
  {
    StepOf(cfg, ws, es, t);
    SomeoneActs(cfg, ws[t], es[t]);
    StepSparesTables(cfg, ws[t], es[t], ActorOf(ws[t], es[t]).value);
  }
}

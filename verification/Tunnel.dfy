/** The tunnel server as a state machine: what each event of the loop does to the registry, the
    proxies, the id pool, the users and the queues.  (loop.cpp, server.cpp, proxy_server.cpp) */
module Tunnel {
  import opened Bytes
  import opened ByteBuffer
  import opened ProtoSpec
  import opened Framing
  import opened EventLoop
  import opened IdPool

  /** `GrokProxy`: its initiator, its two maps and its `clients`. */
  datatype Proxy = Proxy(
    initiator: Sock, sockToId: map<Sock, nat>, idToSock: map<nat, Sock>, clients: set<Sock>)

  /** The two maps and `clients` when a client comes and when it goes. */
  function Bind(p: Proxy, fd: Sock, id: nat): Proxy {
    Proxy(p.initiator, p.sockToId[fd := id], p.idToSock[id := fd], p.clients + {fd})
  }

  function Unbind(p: Proxy, fd: Sock): Proxy
    requires fd in p.sockToId
  {
    Proxy(p.initiator, p.sockToId - {fd}, p.idToSock - {p.sockToId[fd]}, p.clients - {fd})
  }

  datatype User = User(server: Option<Sock>, canSelectPort: bool)

  const NoUser := User(None, false)

  /** What passed between the server and one control client: messages queued to it, and messages
      of its that were processed. */
  datatype Event = Told(m: Message) | Heard(m: Message)

  /** proxies are keyed by their listening socket; clients are the main server's.  trace and read
      remember, since a socket was accepted, what was said on it and what was read from it. */
  datatype World = World(
    pool: Pool, users: map<Sock, User>, proxies: map<Sock, Proxy>, clients: set<Sock>, loop: Loop,
    trace: map<Sock, seq<Event>>, read: map<Sock, seq<Byte>>)

  datatype Config = Config(zstd: Zstd, serverName: seq<Byte>, magic: seq<Byte>, main: Sock)

  /** What the system answers while a message is processed: is the port free, which socket does a
      new proxy get, and which port does it listen on. */
  datatype System = System(portAvailable: bool, listener: Sock, port: nat)

  // ---------------------------------------------------------------- talking to control clients

  /** A message to a control client. */
  function Tell(cfg: Config, w: World, fd: Sock, m: Message): World
    requires Tracked(w.loop) && fd in w.trace
  {
    w.(loop := SendMessage(w.loop, cfg.zstd, fd, m), trace := w.trace[fd := w.trace[fd] + [Told(m)]])
  }

  /** `send_error` */
  function Refuse(cfg: Config, w: World, fd: Sock, code: Byte): World
    requires Tracked(w.loop) && fd in w.trace
  {
    Tell(cfg, w, fd, Message(ERROR, [code]))
  }

  function IdBytes(id: nat): seq<Byte> { LittleEndian(id, ID_SIZE) }

  function IdOf(payload: seq<Byte>): nat
    requires |payload| >= ID_SIZE
  {
    FromLittleEndian(payload[..ID_SIZE])
  }

  function UserOf(w: World, fd: Sock): User {
    if fd in w.users then w.users[fd] else NoUser
  }

  predicate HasServer(w: World, fd: Sock) {
    UserOf(w, fd).server.Some?
  }

  // ---------------------------------------------------------------- accepting

  ghost predicate Unused(cfg: Config, w: World, fd: Sock) {
    fd !in w.loop.linked && fd !in w.proxies && fd != cfg.main && fd !in w.loop.queues
  }

  /** A control client connects: `FreeGrok::on_connect`, then `link_client`. */
  function AcceptControl(w: World, fd: Sock): World
    requires Tracked(w.loop)
  {
    w.(loop := Link(Expect(w.loop, fd, Read(NewMessage)), fd, Main), clients := w.clients + {fd},
       trace := w.trace[fd := []], read := w.read[fd := []])
  }

  /** A client of a proxy: its queue, its id and its registry entry. */
  function Admit(w: World, l: Sock, fd: Sock): World
    requires Tracked(w.loop) && l in w.proxies
  {
    var (pool, id) := Get(w.pool);
    w.(pool := pool, proxies := w.proxies[l := Bind(w.proxies[l], fd, id)],
       loop := Link(Expect(w.loop, fd, Capture), fd, Tunnel(l)), read := w.read[fd := []])
  }

  /** It connects: `GrokProxy::on_connect`, which tells the initiator, and `link_client`. */
  function AcceptProxied(cfg: Config, w: World, l: Sock, fd: Sock): World
    requires Tracked(w.loop) && l in w.proxies && w.proxies[l].initiator in w.trace
  {
    Tell(cfg, Admit(w, l, fd), w.proxies[l].initiator, Message(CONNECTED, IdBytes(Get(w.pool).1)))
  }

  // ---------------------------------------------------------------- reading

  /** Bytes from a proxied client: `GrokProxy::on_received`. */
  function ReadProxied(cfg: Config, w: World, l: Sock, fd: Sock, data: seq<Byte>): World
    requires Tracked(w.loop) && l in w.proxies && w.proxies[l].initiator in w.trace
    requires fd in w.proxies[l].sockToId && fd in w.read
  {
    var p := w.proxies[l];
    Tell(cfg, w.(read := w.read[fd := w.read[fd] + data]), p.initiator, Message(PACKET, IdBytes(p.sockToId[fd]) + data))
  }

  ghost predicate CanRead(w: World, fd: Sock, chunk: seq<Byte>) {
    && fd in w.loop.queues && fd in w.read && fd in w.trace
    && |w.loop.queues[fd].read| == 1 && w.loop.queues[fd].read[0].Read?
    && var r := w.loop.queues[fd].read[0].reader;
       Waits(r) && 0 < |chunk| <= r.length - |r.received|
  }

  function Noted(trace: map<Sock, seq<Event>>, fd: Sock, out: seq<Received>): map<Sock, seq<Event>>
    requires fd in trace
  {
    if out != [] && out[0].Deliver? then trace[fd := trace[fd] + [Heard(out[0].m)]] else trace
  }

  /** The read item fills up; what is in a full one is heard. */
  function Fill(cfg: Config, w: World, fd: Sock, chunk: seq<Byte>): (World, seq<Received>)
    requires CanRead(w, fd, chunk)
  {
    var q := w.loop.queues[fd];
    var (r, out) := ReadChunk(cfg.zstd, q.read[0].reader, chunk);
    (w.(loop := w.loop.(queues := w.loop.queues[fd := q.(read := [Read(r)])]),
        read := w.read[fd := w.read[fd] + chunk],
        trace := Noted(w.trace, fd, out)), out)
  }

  /** Bytes from a control client: `perform_read_queue`, and a full item is acted on. */
  function ReadControl(cfg: Config, w: World, fd: Sock, chunk: seq<Byte>, sys: System): World
    requires Tracked(w.loop) && CanRead(w, fd, chunk) && Settled(w)
  {
    var (v, out) := Fill(cfg, w, fd, chunk);
    Acted(cfg, v, fd, out, sys)
  }

  function Acted(cfg: Config, w: World, fd: Sock, out: seq<Received>, sys: System): World
    requires Tracked(w.loop) && fd in w.trace && Settled(w)
  {
    if out == [] then w else
      match out[0]
      case Reject(code) => Refuse(cfg, w, fd, code)
      case Deliver(m) => Process(cfg, w, fd, m, sys)
  }

  /** What the source takes for granted while it processes a message: a server it knows exists. */
  ghost predicate Settled(w: World) {
    && (forall fd | fd in w.users && w.users[fd].server.Some? :: w.users[fd].server.value in w.proxies)
    && (forall l, id | l in w.proxies && id in w.proxies[l].idToSock ::
          w.proxies[l].idToSock[id] in w.proxies[l].sockToId)
  }

  // ---------------------------------------------------------------- commands

  /** `process_message` */
  function Process(cfg: Config, w: World, fd: Sock, m: Message, sys: System): World
    requires Tracked(w.loop) && fd in w.trace && Settled(w)
  {
    if m.kind == PING then Tell(cfg, w, fd, Message(PING, cfg.serverName))
    else if m.kind == CREATE_SERVER then CreateServer(cfg, w, fd, m.payload, sys)
    else if m.kind == PACKET then Packet(cfg, w, fd, m.payload)
    else if m.kind == DISCONNECT then Disconnect(cfg, w, fd, m.payload)
    else if m.kind == AUTH then Auth(cfg, w, fd, m.payload)
    else if m.kind == STAT then Refuse(cfg, w, fd, NOT_IMPLEMENTED)
    else Refuse(cfg, w, fd, NO_SUCH_COMMAND)
  }

  function Auth(cfg: Config, w: World, fd: Sock, payload: seq<Byte>): World {
    if payload == cfg.magic then w.(users := w.users[fd := UserOf(w, fd).(canSelectPort := true)]) else w
  }

  function CreateServer(cfg: Config, w: World, fd: Sock, payload: seq<Byte>, sys: System): World
    requires Tracked(w.loop) && fd in w.trace
  {
    if HasServer(w, fd) then Refuse(cfg, w, fd, SERVER_ALREADY_CREATED)
    else if |payload| == 2 && UserOf(w, fd).canSelectPort && !sys.portAvailable then
      Refuse(cfg, w, fd, UNAVAILABLE_PORT)
    else
      var v := w.(users := w.users[fd := UserOf(w, fd).(server := Some(sys.listener))],
                  proxies := w.proxies[sys.listener := Proxy(fd, map[], map[], {})]);
      Tell(cfg, v, fd, Message(CREATE_SERVER, LittleEndian(sys.port, 2)))
  }

  /** `GrokProxy::redirect_packet` */
  function PassOn(w: World, s: Sock, data: seq<Byte>): World
    requires Tracked(w.loop)
  {
    w.(loop := Send(w.loop, s, data))
  }

  function Packet(cfg: Config, w: World, fd: Sock, payload: seq<Byte>): World
    requires Tracked(w.loop) && fd in w.trace && Settled(w)
  {
    if !HasServer(w, fd) then Refuse(cfg, w, fd, NO_SESSION)
    else if |payload| <= ID_SIZE then Refuse(cfg, w, fd, TOO_SHORT_BUFFER)
    else
      var p := w.proxies[UserOf(w, fd).server.value];
      if IdOf(payload) !in p.idToSock then Refuse(cfg, w, fd, NO_SUCH_CLIENT)
      else PassOn(w, p.idToSock[IdOf(payload)], payload[ID_SIZE..])
  }

  function Disconnect(cfg: Config, w: World, fd: Sock, payload: seq<Byte>): World
    requires Tracked(w.loop) && fd in w.trace && Settled(w)
  {
    if !HasServer(w, fd) then Refuse(cfg, w, fd, NO_SESSION)
    else if |payload| != ID_SIZE then Refuse(cfg, w, fd, BUFFER_SIZE_INCORRECT)
    else
      var l := UserOf(w, fd).server.value;
      var p := w.proxies[l];
      if IdOf(payload) !in p.idToSock then Refuse(cfg, w, fd, NO_SUCH_CLIENT)
      else Forget(w, l, p.idToSock[IdOf(payload)])
  }

  // ---------------------------------------------------------------- disconnecting

  /** A proxied client goes: its id is released (`unlink_client`) and its socket detached
      (`force_disconnect`). */
  function Forget(w: World, l: Sock, fd: Sock): World
    requires l in w.proxies && fd in w.proxies[l].sockToId
  {
    var p := w.proxies[l];
    w.(pool := Release(w.pool, p.sockToId[fd]), proxies := w.proxies[l := Unbind(p, fd)],
       loop := Detach(w.loop, fd), read := w.read - {fd})
  }

  /** It hung up: the initiator is told. */
  function HangUpProxied(cfg: Config, w: World, l: Sock, fd: Sock): World
    requires Tracked(w.loop) && l in w.proxies && w.proxies[l].initiator in w.trace && fd in w.proxies[l].sockToId
  {
    var p := w.proxies[l];
    Tell(cfg, Forget(w, l, fd), p.initiator, Message(DISCONNECT, IdBytes(p.sockToId[fd])))
  }

  function DetachAll(l: Loop, gone: set<Sock>): Loop {
    Loop(l.queues - gone, l.armed - gone, l.linked - gone, l.accepted - gone, l.handed - gone)
  }

  ghost predicate Enumerates(order: seq<Sock>, all: set<Sock>) {
    && (forall s :: s in order <==> s in all)
    && (forall i, j | 0 <= i < j < |order| :: order[i] != order[j])
  }

  function IdsInOrder(p: Proxy, order: seq<Sock>): (ids: seq<nat>)
    requires forall s | s in order :: s in p.sockToId
    ensures |ids| == |order| && forall i | 0 <= i < |ids| :: ids[i] == p.sockToId[order[i]]
  {
    seq(|order|, i requires 0 <= i < |order| => p.sockToId[order[i]])
  }

  /** A proxy goes with all its clients: `shutdown`, which releases their ids in the order of its map,
      and `remove_observer`. */
  function CloseProxy(w: World, l: Sock, order: seq<Sock>): World
    requires l in w.proxies && forall s | s in order :: s in w.proxies[l].sockToId
  {
    var p := w.proxies[l];
    w.(pool := ReleaseAll(w.pool, IdsInOrder(p, order)), proxies := w.proxies - {l},
       loop := DetachAll(w.loop, p.clients), read := w.read - p.clients)
  }

  /** `FreeGrok::on_disconnect` */
  function LoseServer(w: World, fd: Sock, order: seq<Sock>): World
    requires Settled(w)
    requires HasServer(w, fd) ==> forall s | s in order :: s in w.proxies[UserOf(w, fd).server.value].sockToId
  {
    if HasServer(w, fd) then CloseProxy(w, UserOf(w, fd).server.value, order).(users := w.users - {fd}) else w
  }

  /** What `force_disconnect` does with a control client's socket. */
  function Leave(w: World, fd: Sock): World {
    w.(clients := w.clients - {fd}, loop := Detach(w.loop, fd), trace := w.trace - {fd}, read := w.read - {fd})
  }

  /** A control client hangs up. */
  function HangUpControl(w: World, fd: Sock, order: seq<Sock>): World
    requires Settled(w)
    requires HasServer(w, fd) ==> forall s | s in order :: s in w.proxies[UserOf(w, fd).server.value].sockToId
  {
    Leave(LoseServer(w, fd, order), fd)
  }

  // ---------------------------------------------------------------- the state machine

  /** What the loop's selector reports. */
  datatype Signal =
    | ControlConnects(fd: Sock)
    | ClientConnects(listener: Sock, fd: Sock)
    | Readable(fd: Sock, data: seq<Byte>, sys: System)
    | Writable(fd: Sock, k: nat)
    | HangsUp(fd: Sock, order: seq<Sock>)

  const REDIR_BUF_SIZE := 4096

  function Initial(): World {
    World(Pool(0, []), map[], map[], {}, Loop(map[], {}, map[], map[], map[]), map[], map[])
  }
}

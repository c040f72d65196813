/** `GrokProxy` and `FreeGrok` as objects: what their methods, and the parts of the loop that call
    them, do to the server's tables is what the state machine says. */
module LiveServer {
  import opened Bytes
  import opened ByteBuffer
  import opened ProtoSpec
  import opened Framing
  import opened EventLoop
  import Live = LiveLoop
  import opened IdPool
  import opened ReadOrder
  import Machine = Tunnel
  import opened Tunnel

  class GrokProxy {
    const initiator: Sock
    var sockToId: map<Sock, nat>
    var idToSock: map<nat, Sock>
    var clients: set<Sock>

    ghost function Value(): Proxy
      reads this
    {
      Proxy(initiator, sockToId, idToSock, clients)
    }

    constructor (initiator: Sock)
      ensures Value() == Proxy(initiator, map[], map[], {})
    {
      this.initiator, sockToId, idToSock, clients := initiator, map[], map[], {};
    }

    method LinkClient(pool: Ids, sock: Sock) returns (id: nat)
      modifies pool, this`sockToId, this`idToSock
      ensures (pool.Value(), id) == Get(old(pool.Value()))
      ensures sockToId == old(sockToId)[sock := id] && idToSock == old(idToSock)[id := sock]
    {
      id := pool.GetId();
      sockToId := sockToId[sock := id];
      idToSock := idToSock[id := sock];
    }

    method UnlinkClient(pool: Ids, id: nat, sock: Sock, erase: bool)
      modifies pool`ids, this`sockToId, this`idToSock
      ensures pool.Value() == Release(old(pool.Value()), id)
      ensures sockToId == if erase then old(sockToId) - {sock} else old(sockToId)
      ensures idToSock == if erase then old(idToSock) - {id} else old(idToSock)
    {
      pool.RemoveId(id);
      if erase {
        sockToId := sockToId - {sock};
        idToSock := idToSock - {id};
      }
    }

    predicate HasClient(id: nat)
      reads this
    {
      id in idToSock
    }

    /** It is the proxy listening on l. */
    ghost predicate Listens(server: FreeGrok, l: Sock)
      reads server, this
    {
      l in server.proxies && server.proxies[l] == this && initiator in server.trace
    }

    /** What `on_connect` does before it tells the initiator. */
    method Begin(server: FreeGrok, l: Sock, fd: Sock) returns (id: nat)
      requires server.Valid() && Listens(server, l)
      modifies this`sockToId, this`idToSock, server.pool, server.loop, server`table
      ensures server.Valid() && server.View() == Begun(old(server.View()), l, fd) &&
              id == Get(old(server.pool.Value())).1
    {
      server.loop.Capture(fd);
      id := LinkClient(server.pool, fd);
      server.table := server.table[l := Value()];
    }

    method OnConnect(server: FreeGrok, l: Sock, fd: Sock)
      requires server.Valid() && Listens(server, l)
      modifies this`sockToId, this`idToSock, server.pool, server.loop, server`trace, server`table
      ensures server.Valid() && server.View() == Connecting(server.cfg, old(server.View()), l, fd)
    {
      var id := Begin(server, l, fd);
      server.SendConnected(initiator, id);
    }

    method OnReceived(server: FreeGrok, l: Sock, fd: Sock, data: seq<Byte>)
      requires server.Valid() && Listens(server, l) && fd in server.read
      modifies server.loop, server`trace, server`read
      ensures server.Valid()
      ensures server.View() ==
              if fd in sockToId then ReadProxied(server.cfg, old(server.View()), l, fd, data) else old(server.View())
    {
      if fd !in sockToId {
        return;
      }
      server.read := server.read[fd := server.read[fd] + data];
      server.RedirectPacket(initiator, sockToId[fd], data);
    }

    method OnDisconnect(server: FreeGrok, l: Sock, fd: Sock)
      requires server.Valid() && Listens(server, l) && fd in sockToId
      modifies this`sockToId, this`idToSock, server.pool, server.loop, server`trace, server`table
      ensures server.Valid() && server.View() == Disconnecting(server.cfg, old(server.View()), l, fd)
    {
      var id := sockToId[fd];
      UnlinkClient(server.pool, id, fd, true);
      server.table := server.table[l := Value()];
      assert server.View() == Unlinked(old(server.View()), l, fd);
      server.SendDisconnected(initiator, id);
    }

    method RedirectPacket(loop: Live.Loop, clientId: nat, data: seq<Byte>)
      requires loop.Valid()
      modifies loop
      ensures loop.Valid()
      ensures loop.Value() ==
              if clientId in idToSock then Send(old(loop.Value()), idToSock[clientId], data) else old(loop.Value())
    {
      if clientId !in idToSock {
        return;
      }
      loop.Send(idToSock[clientId], data);
    }

    method DisconnectClient(server: FreeGrok, l: Sock, clientId: nat)
      requires server.Valid() && Listens(server, l)
      requires clientId in idToSock ==>
                 var s := idToSock[clientId];
                 s in sockToId && sockToId[s] == clientId && s in server.loop.linked &&
                   server.loop.linked[s] == Tunnel(l)
      modifies this, server.pool, server.loop, server`table, server`read
      ensures server.Valid()
      ensures server.View() ==
              if clientId in old(idToSock) then Forget(old(server.View()), l, old(idToSock[clientId]))
              else old(server.View())
    {
      if clientId !in idToSock {
        return;
      }
      var clientFd := idToSock[clientId];
      UnlinkClient(server.pool, clientId, clientFd, true);
      server.table := server.table[l := Value()];
      ForgottenInParts(old(server.View()), l, clientFd);
      server.CloseProxied(clientFd, l);
    }

    /** Frees the ids, in the order of the map, whatever that is. */
    method Shutdown(pool: Ids) returns (ghost order: seq<Sock>)
      modifies pool`ids, this`sockToId, this`idToSock
      ensures Enumerates(order, old(sockToId.Keys))
      ensures pool.Value() == ReleaseAll(old(pool.Value()), IdsInOrder(old(Value()), order))
      ensures sockToId == map[] && idToSock == map[]
    {
      order := [];
      var todo := sockToId.Keys;
      while todo != {}
        invariant todo <= old(sockToId.Keys) && Enumerates(order, old(sockToId.Keys) - todo)
        invariant pool.Value() == ReleaseAll(old(pool.Value()), IdsInOrder(old(Value()), order))
        invariant sockToId == old(sockToId) && idToSock == old(idToSock)
      {
        var sock :| sock in todo;
        UnlinkClient(pool, sockToId[sock], sock, false);
        todo := todo - {sock};
        ReleasedOneMore(old(pool.Value()), old(Value()), order, sock);
        order := order + [sock];
      }
      sockToId, idToSock := map[], map[];
    }
  }

  lemma ReleasedOneMore(pool: Pool, p: Proxy, order: seq<Sock>, sock: Sock)
    requires (forall s | s in order :: s in p.sockToId) && sock in p.sockToId
    ensures forall s | s in order + [sock] :: s in p.sockToId
    ensures Release(ReleaseAll(pool, IdsInOrder(p, order)), p.sockToId[sock]) ==
            ReleaseAll(pool, IdsInOrder(p, order + [sock]))
  {
    assert IdsInOrder(p, order + [sock]) == IdsInOrder(p, order) + [p.sockToId[sock]];
  }

  // ---------------------------------------------------------------- events in parts

  /** A client of a proxy before the loop links it. */
  function Begun(w: World, l: Sock, fd: Sock): World
    requires Tracked(w.loop) && l in w.proxies
  {
    var (pool, id) := Get(w.pool);
    var p := w.proxies[l];
    w.(pool := pool, loop := Expect(w.loop, fd, ReadItem.Capture),
       proxies := w.proxies[l := Proxy(p.initiator, p.sockToId[fd := id], p.idToSock[id := fd], p.clients)])
  }

  function Connecting(cfg: Config, w: World, l: Sock, fd: Sock): World
    requires Tracked(w.loop) && l in w.proxies && w.proxies[l].initiator in w.trace
    ensures l in Connecting(cfg, w, l, fd).proxies
  {
    Machine.Tell(cfg, Begun(w, l, fd), w.proxies[l].initiator, Message(CONNECTED, IdBytes(Get(w.pool).1)))
  }

  /** A client of a proxy without an id, its socket not yet closed. */
  function Unlinked(w: World, l: Sock, fd: Sock): World
    requires l in w.proxies && fd in w.proxies[l].sockToId
  {
    var p := w.proxies[l];
    var id := p.sockToId[fd];
    w.(pool := Release(w.pool, id),
       proxies := w.proxies[l := Proxy(p.initiator, p.sockToId - {fd}, p.idToSock - {id}, p.clients)])
  }

  function Disconnecting(cfg: Config, w: World, l: Sock, fd: Sock): World
    requires Tracked(w.loop) && l in w.proxies && w.proxies[l].initiator in w.trace && fd in w.proxies[l].sockToId
  {
    var p := w.proxies[l];
    Machine.Tell(cfg, Unlinked(w, l, fd), p.initiator, Message(DISCONNECT, IdBytes(p.sockToId[fd])))
  }

  method IdToBytes(id: nat) returns (bytes: seq<Byte>)
    ensures bytes == IdBytes(id)
  {
    var buffer := new Byte[ID_SIZE];
    IntToBytes(id, buffer, ID_SIZE);
    assert buffer[..] == buffer[..ID_SIZE];
    bytes := buffer[..];
  }

  class FreeGrok {
    const cfg: Config
    const loop: Live.Loop
    const pool: Ids
    var users: map<Sock, User>
    var clients: set<Sock>
    /** The proxies among the loop's observers, by listening socket. */
    var proxies: map<Sock, GrokProxy>
    ghost var trace: map<Sock, seq<Event>>
    ghost var read: map<Sock, seq<Byte>>

    /** What the proxies hold. */
    ghost var table: map<Sock, Proxy>

    ghost function View(): World
      reads this, loop, pool
    {
      World(pool.Value(), users, table, clients, loop.Value(), trace, read)
    }

    /** Proxies are objects of their own, and table is up to date. */
    ghost predicate Valid()
      reads this, loop, proxies.Values
    {
      && loop.Valid()
      && (forall l, m | l in proxies && m in proxies && proxies[l] == proxies[m] :: l == m)
      && proxies.Keys == table.Keys
      && (forall l | l in proxies :: table[l] == proxies[l].Value())
    }

    constructor (cfg: Config)
      ensures Valid() && this.cfg == cfg && View() == Initial()
      ensures fresh(loop) && fresh(pool)
    {
      this.cfg, users, clients, proxies, trace, read, table := cfg, map[], {}, map[], map[], map[], map[];
      loop := new Live.Loop();
      pool := new Ids();
    }

    // -------------------------------------------------------------- talking

    method Tell(fd: Sock, m: Message)
      requires Valid() && fd in trace
      modifies loop, this`trace
      ensures Valid() && View() == Machine.Tell(cfg, old(View()), fd, m)
    {
      var streamer := new Live.FStreamer(loop, fd, cfg.zstd);
      streamer.Send(m);
      trace := trace[fd := trace[fd] + [Told(m)]];
    }

    method SendError(fd: Sock, code: Byte)
      requires Valid() && fd in trace
      modifies loop, this`trace
      ensures Valid() && View() == Refuse(cfg, old(View()), fd, code)
    {
      Tell(fd, Message(ERROR, [code]));
    }

    method SendConnected(initiator: Sock, generatedId: nat)
      requires Valid() && initiator in trace
      modifies loop, this`trace
      ensures Valid() && View() == Machine.Tell(cfg, old(View()), initiator, Message(CONNECTED, IdBytes(generatedId)))
    {
      var idBuf := IdToBytes(generatedId);
      Tell(initiator, Message(CONNECTED, idBuf));
    }

    method RedirectPacket(initiator: Sock, sender: nat, data: seq<Byte>)
      requires Valid() && initiator in trace
      modifies loop, this`trace
      ensures Valid() && View() == Machine.Tell(cfg, old(View()), initiator, Message(PACKET, IdBytes(sender) + data))
    {
      var buf := IdToBytes(sender);
      Tell(initiator, Message(PACKET, buf + data));
    }

    method SendDisconnected(initiator: Sock, clientId: nat)
      requires Valid() && initiator in trace
      modifies loop, this`trace
      ensures Valid() && View() == Machine.Tell(cfg, old(View()), initiator, Message(DISCONNECT, IdBytes(clientId)))
    {
      var clientBuf := IdToBytes(clientId);
      Tell(initiator, Message(DISCONNECT, clientBuf));
    }

    // -------------------------------------------------------------- accepting

    /** `link_client`, the observer's and the loop's part; what is remembered of the socket begins. */
    method LinkMain(fd: Sock)
      requires Valid()
      modifies loop`linked, this`clients, this`trace, this`read
      ensures Valid() && View() == Linked(old(View()), fd, Main)
    {
      clients := clients + {fd};
      loop.linked := loop.linked[fd := Main];
      read, trace := read[fd := []], trace[fd := []];
    }

    method LinkToProxy(fd: Sock, l: Sock)
      requires Valid() && l in proxies
      modifies loop`linked, this`table, this`read, proxies[l]
      ensures Valid() && View() == Linked(old(View()), fd, Tunnel(l))
    {
      var p := proxies[l];
      p.clients := p.clients + {fd};
      table := table[l := p.Value()];
      loop.linked := loop.linked[fd := Tunnel(l)];
      read := read[fd := []];
    }

    method GoNewMessage(src: Sock)
      requires Valid()
      modifies loop
      ensures Valid() && View() == old(View()).(loop := Expect(old(View()).loop, src, ReadItem.Read(NewMessage)))
    {
      loop.Recv(src, 2, TypeGot, 0);
    }

    /** The main server's socket is readable: `on_connect` and `link_client`. */
    method AcceptMain(fd: Sock)
      requires Valid()
      modifies this, loop
      ensures Valid() && View() == AcceptControl(old(View()), fd)
    {
      GoNewMessage(fd);
      LinkMain(fd);
    }

    /** A proxy's socket is readable. */
    method AcceptAtProxy(l: Sock, fd: Sock)
      requires Valid() && l in proxies && proxies[l].initiator in trace
      modifies this`read, this`trace, this`clients, this`table, loop, pool, proxies.Values
      ensures Valid() && View() == AcceptProxied(cfg, old(View()), l, fd)
    {
      AcceptedInParts(cfg, View(), l, fd);
      proxies[l].OnConnect(this, l, fd);
      LinkToProxy(fd, l);
    }

    /** A client of the proxy on l has sent something. */
    method ReadFromProxied(l: Sock, fd: Sock, data: seq<Byte>)
      requires Valid() && l in proxies && proxies[l].initiator in trace && fd in proxies[l].sockToId && fd in read
      modifies loop, this`trace, this`read
      ensures Valid() && View() == ReadProxied(cfg, old(View()), l, fd, data)
    {
      proxies[l].OnReceived(this, l, fd, data);
    }

    // -------------------------------------------------------------- disconnecting

    /** `force_disconnect` without `on_disconnect`: of a client of a proxy that stays among its clients
        for now, of one that does not, and of a control client. */
    method CloseKept(client: Sock)
      requires Valid() && client in loop.linked && loop.linked[client] != Main
      modifies loop, this`read
      ensures Valid() && View() == Dropped(old(View()), client)
    {
      loop.Close(client);
      read := read - {client};
    }

    method CloseProxied(client: Sock, l: Sock)
      requires Valid() && client in loop.linked && loop.linked[client] == Tunnel(l) && l in proxies
      modifies loop, this`read, this`table, proxies[l]
      ensures Valid() && View() == Erased(Dropped(old(View()), client), client, l)
    {
      CloseKept(client);
      var p := proxies[l];
      p.clients := p.clients - {client};
      table := table[l := p.Value()];
    }

    method CloseControl(client: Sock)
      requires Valid() && client in loop.linked && loop.linked[client] == Main
      modifies loop, this`read, this`trace, this`clients
      ensures Valid() && View() == Leave(old(View()), client)
    {
      loop.Close(client);
      clients, trace, read := clients - {client}, trace - {client}, read - {client};
    }

    /** The loop of `remove_observer`: a proxy's clients are closed, in some order, and stay among its
        clients until all are. */
    method CloseClients(p: GrokProxy)
      requires Valid() && forall s | s in p.clients :: s in loop.linked && loop.linked[s] != Main
      modifies loop, this`read
      ensures Valid() && View() == Closed(old(View()), p.clients)
    {
      var todo := p.clients;
      ghost var was, gone := View(), {};
      NoneClosed(was);
      while todo != {}
        invariant Valid() && gone + todo == p.clients && View() == Closed(was, gone)
        invariant forall s | s in todo :: s in loop.linked && loop.linked[s] != Main
      {
        var client :| client in todo;
        ClosedOneMore(was, gone, client);
        CloseKept(client);
        todo, gone := todo - {client}, gone + {client};
      }
      assert gone == p.clients;
    }

    /** `remove_observer` of a proxy */
    method RemoveObserver(l: Sock)
      requires Valid() && l in proxies
      requires forall s | s in proxies[l].clients :: s in loop.linked && loop.linked[s] != Main
      modifies loop, this`read, this`table, this`proxies, proxies[l]
      ensures Valid() && View() == ObserverGone(old(View()), l)
    {
      var p := proxies[l];
      CloseClients(p);
      p.clients := {};
      proxies, table := proxies - {l}, table - {l};
    }

    /** `FreeGrok::on_disconnect` */
    method OnDisconnect(fd: Sock) returns (ghost order: seq<Sock>)
      requires Valid() && Settled(View()) && Teardown(View(), fd)
      modifies this, loop, pool, proxies.Values
      ensures HasServer(old(View()), fd) ==>
              Enumerates(order, old(View()).proxies[UserOf(old(View()), fd).server.value].sockToId.Keys)
      ensures Valid() && View() == LoseServer(old(View()), fd, order)
    {
      order := [];
      if fd in users && users[fd].server.Some? {
        order := LoseProxy(users[fd].server.value);
        users := users - {fd};
      }
    }

    /** `shutdown`, then `remove_observer` */
    method LoseProxy(l: Sock) returns (ghost order: seq<Sock>)
      requires Valid() && l in proxies
      requires forall s | s in proxies[l].clients :: s in loop.linked && loop.linked[s] != Main
      modifies loop, this`read, this`table, this`proxies, proxies[l], pool
      ensures Enumerates(order, old(View()).proxies[l].sockToId.Keys)
      ensures Valid() && View() == CloseProxy(old(View()), l, order)
    {
      var p := proxies[l];
      order := p.Shutdown(pool);
      LostInParts(old(View()), l, order);
      table := table[l := p.Value()];
      RemoveObserver(l);
    }

    /** A proxied client hangs up: `on_disconnect` of its proxy, then the rest of `force_disconnect`. */
    method HangUpAtProxy(l: Sock, fd: Sock)
      requires Valid() && l in proxies && proxies[l].initiator in trace && proxies[l].initiator != fd
      requires fd in proxies[l].sockToId && fd in loop.linked && loop.linked[fd] == Tunnel(l)
      modifies loop, pool, this`trace, this`read, this`table, proxies[l]
      ensures Valid() && View() == HangUpProxied(cfg, old(View()), l, fd)
    {
      HungUpInParts(cfg, View(), l, fd);
      proxies[l].OnDisconnect(this, l, fd);
      CloseProxied(fd, l);
    }

    /** A control client hangs up: `FreeGrok::on_disconnect`, then the rest of `force_disconnect`. */
    method HangUpMain(fd: Sock) returns (ghost order: seq<Sock>)
      requires Valid() && Settled(View()) && Teardown(View(), fd) && fd in loop.linked && loop.linked[fd] == Main
      requires HasServer(View(), fd) ==> fd !in View().proxies[UserOf(View(), fd).server.value].clients
      modifies this, loop, pool, proxies.Values
      ensures HasServer(old(View()), fd) ==>
              Enumerates(order, old(View()).proxies[UserOf(old(View()), fd).server.value].sockToId.Keys)
      ensures Valid() && View() == HangUpControl(old(View()), fd, order)
    {
      order := OnDisconnect(fd);
      CloseControl(fd);
    }

    // -------------------------------------------------------------- commands

    method CreateServer(fd: Sock, payload: seq<Byte>, sys: System)
      requires Valid() && fd in trace && sys.listener !in proxies
      modifies loop, this`users, this`proxies, this`table, this`trace
      ensures Valid() && View() == Machine.CreateServer(cfg, old(View()), fd, payload, sys)
      ensures fresh(proxies.Values - old(proxies.Values))
    {
      var user := if fd in users then users[fd] else NoUser;
      if user.server.Some? {
        SendError(fd, SERVER_ALREADY_CREATED);
        return;
      }
      if |payload| == 2 && user.canSelectPort && !sys.portAvailable {
        SendError(fd, UNAVAILABLE_PORT);
        return;
      }
      Register(fd, user, sys.listener);
      SendPort(fd, sys.port);
    }

    /** The answer: the port the new proxy listens on. */
    method SendPort(fd: Sock, port: nat)
      requires Valid() && fd in trace
      modifies loop, this`trace
      ensures Valid() && View() == Machine.Tell(cfg, old(View()), fd, Message(CREATE_SERVER, LittleEndian(port, 2)))
    {
      var portBuf := new Byte[2];
      IntToBytes(port, portBuf, 2);
      assert portBuf[..] == portBuf[..2];
      Tell(fd, Message(CREATE_SERVER, portBuf[..]));
    }

    /** A new proxy, `link_server` and `add_observer`. */
    method Register(fd: Sock, user: User, listener: Sock)
      requires Valid() && listener !in proxies
      modifies this`users, this`proxies, this`table
      ensures Valid()
      ensures View() == old(View()).(users := old(users)[fd := user.(server := Some(listener))],
                                     proxies := old(table)[listener := Proxy(fd, map[], map[], {})])
      ensures fresh(proxies.Values - old(proxies.Values))
    {
      var proxy := new GrokProxy(fd);
      users := users[fd := user.(server := Some(listener))];
      proxies := proxies[listener := proxy];
      table := table[listener := proxy.Value()];
    }

    method Packet(fd: Sock, payload: seq<Byte>)
      requires Valid() && fd in trace && Settled(View())
      modifies loop, this`trace
      ensures Valid() && View() == Machine.Packet(cfg, old(View()), fd, payload)
    {
      if fd !in users || users[fd].server.None? {
        SendError(fd, NO_SESSION);
        return;
      } else if |payload| <= ID_SIZE {
        SendError(fd, TOO_SHORT_BUFFER);
        return;
      }
      var reader := new BufferReader(payload);
      var clientId := reader.Read(ID_SIZE);
      assert payload[0..ID_SIZE] == payload[..ID_SIZE];
      var server := proxies[users[fd].server.value];
      if !server.HasClient(clientId) {
        SendError(fd, NO_SUCH_CLIENT);
        return;
      }
      server.RedirectPacket(loop, clientId, payload[reader.offset..]);
    }

    method Disconnect(fd: Sock, payload: seq<Byte>)
      requires Valid() && fd in trace && Settled(View()) && Bindings(View())
      modifies loop, pool, this`trace, this`table, this`read, proxies.Values
      ensures Valid() && View() == Machine.Disconnect(cfg, old(View()), fd, payload)
    {
      if fd !in users || users[fd].server.None? {
        SendError(fd, NO_SESSION);
        return;
      } else if |payload| != ID_SIZE {
        SendError(fd, BUFFER_SIZE_INCORRECT);
        return;
      }
      var reader := new BufferReader(payload);
      var clientId := reader.Read(ID_SIZE);
      assert payload[0..ID_SIZE] == payload[..ID_SIZE];
      var l := users[fd].server.value;
      var server := proxies[l];
      if !server.HasClient(clientId) {
        SendError(fd, NO_SUCH_CLIENT);
        return;
      }
      server.DisconnectClient(this, l, clientId);
    }

    method Auth(fd: Sock, payload: seq<Byte>)
      requires Valid()
      modifies this`users
      ensures Valid() && View() == Machine.Auth(cfg, old(View()), fd, payload)
    {
      if |payload| != |cfg.magic| {
        return;
      }
      if payload == cfg.magic {
        var user := if fd in users then users[fd] else NoUser;
        users := users[fd := user.(canSelectPort := true)];
      }
    }

    method ProcessMessage(fd: Sock, m: Message, sys: System)
      requires Valid() && fd in trace && Settled(View()) && Bindings(View()) && sys.listener !in proxies
      modifies this, loop, pool, proxies.Values
      ensures Valid() && View() == Process(cfg, old(View()), fd, m, sys)
    {
      if m.kind == PING {
        Tell(fd, Message(PING, cfg.serverName));
      } else if m.kind == CREATE_SERVER {
        CreateServer(fd, m.payload, sys);
      } else if m.kind == PACKET {
        Packet(fd, m.payload);
      } else if m.kind == DISCONNECT {
        Disconnect(fd, m.payload);
      } else if m.kind == AUTH {
        Auth(fd, m.payload);
      } else if m.kind == STAT {
        SendError(fd, NOT_IMPLEMENTED);
      } else {
        SendError(fd, NO_SUCH_COMMAND);
      }
    }

    // -------------------------------------------------------------- reading

    /** A message is noted, then acted on. */
    method Hear(fd: Sock, m: Message, sys: System)
      requires Valid() && fd in trace && Settled(View()) && Bindings(View()) && sys.listener !in proxies
      modifies this, loop, pool, proxies.Values
      ensures Valid() && View() == Process(cfg, Noting(old(View()), fd, [Deliver(m)]), fd, m, sys)
    {
      trace := trace[fd := trace[fd] + [Heard(m)]];
      ProcessMessage(fd, m, sys);
    }

    /** `on_received` of a full read item. */
    method OnReceived(fd: Sock, item: Reader, sys: System)
      requires Valid() && fd in trace && Settled(View()) && Bindings(View()) && sys.listener !in proxies
      requires |item.received| == item.length && (item.state.TypeGot? ==> item.length == 2)
      modifies this, loop, pool, proxies.Values
      ensures Valid() && View() == FullItem(cfg, old(View()), fd, item, sys)
    {
      match item.state {
        case TypeGot =>
          var data, lengthChunk: int := item.received[0], item.received[1];
          if IsShort(data) {
            if lengthChunk == 0 {
              Hear(fd, Message(GetType(data), []), sys);
              GoNewMessage(fd);
              return;
            }
            Await(fd, lengthChunk, BufferGot, Merge(data, lengthChunk));
          } else {
            Await(fd, 3, HeaderGot, Meta(data, lengthChunk));
          }
        case HeaderGot =>
          var meta := item.u64 % 0x1_0000;
          var lengthChunk, data := meta % 0x100, meta / 0x100;
          var length := BytesToInt([lengthChunk] + item.received);
          if length == 0 {
            Hear(fd, Message(GetType(data), []), sys);
            GoNewMessage(fd);
            return;
          }
          Await(fd, length, BufferGot, Merge(data, length));
        case BufferGot =>
          var data := item.u64 / 0x1_0000_0000 % 0x100;
          OnFrame(fd, data, item.received, sys);
          GoNewMessage(fd);
      }
    }

    method Await(fd: Sock, length: nat, state: PacketState, u64: int)
      requires Valid()
      modifies loop
      ensures Valid() && View() == Waiting(old(View()), fd, Reader(state, length, u64, []))
    {
      loop.Recv(fd, length, state, u64);
    }

    /** A frame's payload is there: it is unpacked and processed, or refused. */
    method OnFrame(fd: Sock, data: Byte, buffer: seq<Byte>, sys: System)
      requires Valid() && fd in trace && Settled(View()) && Bindings(View()) && sys.listener !in proxies
      modifies this, loop, pool, proxies.Values
      ensures var out := [Unpack(cfg.zstd, data, buffer)];
              Valid() && View() == Acted(cfg, Noting(old(View()), fd, out), fd, out, sys)
    {
      var usedBuffer := buffer;
      if IsCompressed(data) {
        var buffSize := cfg.zstd.contentSize(buffer);
        if !buffSize.ExactSize? || buffSize.n == 0 {
          SendError(fd, DECOMPRESSION_ERROR);
          return;
        } else if buffSize.n > MAX_DECOMPRESSED_SIZE {
          SendError(fd, TOO_LONG_BUFFER);
          return;
        }
        var response := cfg.zstd.decompress(buffer);
        if response.None? {
          SendError(fd, DECOMPRESSION_ERROR);
          return;
        }
        usedBuffer := response.value;
      }
      Hear(fd, Message(GetType(data), usedBuffer), sys);
    }

    method FillFront(fd: Sock, chunk: seq<Byte>) returns (front: Reader)
      requires Valid() && CanRead(View(), fd, chunk)
      modifies loop`queues, this`read
      ensures Valid() && Fills(old(View()), View(), fd, chunk, front)
    {
      front := loop.Fill(fd, chunk);
      assert old(loop.queues)[fd].read[0 := ReadItem.Read(front)] == [ReadItem.Read(front)];
      read := read[fd := read[fd] + chunk];
    }

    method PopFront(fd: Sock)
      requires Valid() && fd in loop.queues && loop.queues[fd].read != []
      modifies loop`queues
      ensures Valid() && View() == Popped(old(View()), fd)
    {
      loop.PopRead(fd);
    }

    method WriteTo(fd: Sock, k: nat)
      requires Valid() && CanWrite(View().loop, fd, k)
      modifies loop
      ensures Valid() && View() == old(View()).(loop := WriteSome(old(View()).loop, fd, k))
    {
      loop.PerformWriteQueue(fd, k);
    }

    /** `perform_read_queue` of a control client: the socket delivers chunk. */
    method ReadFromControl(fd: Sock, chunk: seq<Byte>, sys: System)
      requires Valid() && CanRead(View(), fd, chunk) && Settled(View()) && Bindings(View()) && sys.listener !in proxies
      requires NotProxied(View(), fd)
      modifies this, loop, pool, proxies.Values
      ensures Valid() && View() == ReadControl(cfg, old(View()), fd, chunk, sys)
    {
      ghost var was := View();
      var front := FillFront(fd, chunk);
      if |front.received| >= front.length {
        ItemIsFull(cfg, was, View(), fd, chunk, front, sys);
        OnReceived(fd, front, sys);
        PopFront(fd);
      } else {
        ItemIsNotFull(cfg, was, View(), fd, chunk, front, sys);
      }
    }
  }

  function Linked(w: World, fd: Sock, o: Observer): World
    requires o.Tunnel? ==> o.listener in w.proxies
  {
    var v := w.(loop := Link(w.loop, fd, o), read := w.read[fd := []]);
    match o
    case Main => v.(clients := w.clients + {fd}, trace := w.trace[fd := []])
    case Tunnel(l) => v.(proxies := w.proxies[l := w.proxies[l].(clients := w.proxies[l].clients + {fd})])
  }

  lemma LinkAside(l: EventLoop.Loop, z: Zstd, s: Sock, m: Message, linked: map<Sock, Observer>)
    requires Tracked(l)
    ensures SendMessage(l.(linked := linked), z, s, m) == SendMessage(l, z, s, m).(linked := linked)
    ensures SendMessage(l, z, s, m).linked == l.linked
  {
    if m.payload == [] {
      SendAside(l, s, Header(m.kind, 0, false), linked);
    } else {
      var (body, compressed) := Packed(z, m.payload);
      var header := Header(m.kind, |body|, compressed);
      SendAside(l, s, header, linked);
      SendAside(Send(l, s, header), s, body, linked);
    }
  }

  lemma SendAside(l: EventLoop.Loop, s: Sock, bytes: seq<Byte>, linked: map<Sock, Observer>)
    requires Tracked(l)
    ensures Send(l.(linked := linked), s, bytes) == Send(l, s, bytes).(linked := linked)
    ensures Send(l, s, bytes).linked == l.linked
  {}

  /** Telling has nothing to do with the registry, the proxies and what was read. */
  lemma TellAside(cfg: Config, w: World, fd: Sock, m: Message, linked: map<Sock, Observer>, proxies: map<Sock, Proxy>,
                  read: map<Sock, seq<Byte>>)
    requires Tracked(w.loop) && fd in w.trace
    ensures var v := Machine.Tell(cfg, w, fd, m);
            Machine.Tell(cfg, w.(loop := w.loop.(linked := linked), proxies := proxies, read := read), fd, m) ==
            v.(loop := v.loop.(linked := linked), proxies := proxies, read := read)
  {
    LinkAside(w.loop, cfg.zstd, fd, m, linked);
  }

  lemma AdmittedIsBegun(w: World, l: Sock, fd: Sock)
    requires Tracked(w.loop) && l in w.proxies
    ensures var b := Begun(w, l, fd);
            Admit(w, l, fd) ==
            b.(loop := b.loop.(linked := b.loop.linked[fd := Tunnel(l)]),
               proxies := b.proxies[l := b.proxies[l].(clients := b.proxies[l].clients + {fd})],
               read := b.read[fd := []])
  {
    var b := Begun(w, l, fd);
    assert b.proxies[l := b.proxies[l].(clients := b.proxies[l].clients + {fd})] == Admit(w, l, fd).proxies;
  }

  lemma AcceptedInParts(cfg: Config, w: World, l: Sock, fd: Sock)
    requires Tracked(w.loop) && l in w.proxies && w.proxies[l].initiator in w.trace
    ensures Linked(Connecting(cfg, w, l, fd), fd, Tunnel(l)) == AcceptProxied(cfg, w, l, fd)
  {
    var b := Begun(w, l, fd);
    var m := Message(CONNECTED, IdBytes(Get(w.pool).1));
    AdmittedIsBegun(w, l, fd);
    TellAside(cfg, b, w.proxies[l].initiator, m, b.loop.linked[fd := Tunnel(l)],
              b.proxies[l := b.proxies[l].(clients := b.proxies[l].clients + {fd})], b.read[fd := []]);
    LinkAside(b.loop, cfg.zstd, w.proxies[l].initiator, m, b.loop.linked);
  }

  /** A socket that is closed, its observer apart. */
  function Dropped(w: World, s: Sock): World {
    w.(loop := Detach(w.loop, s), read := w.read - {s})
  }

  function Erased(w: World, s: Sock, l: Sock): World
    requires l in w.proxies
  {
    w.(proxies := w.proxies[l := w.proxies[l].(clients := w.proxies[l].clients - {s})])
  }

  lemma SetBesides<T>(m: map<Sock, T>, s: Sock, x: T, gone: Sock)
    requires s != gone
    ensures (m - {gone})[s := x] == m[s := x] - {gone}
  {}

  lemma GatherBesides(l: EventLoop.Loop, s: Sock, gone: Sock)
    requires Tracked(l) && s != gone
    ensures Gather(Detach(l, gone), s) == Detach(Gather(l, s), gone)
  {
    SetBesides(l.queues, s, NoQueues, gone);
    SetBesides(l.accepted, s, [], gone);
    SetBesides(l.handed, s, [], gone);
  }

  lemma SendBesides(l: EventLoop.Loop, s: Sock, bytes: seq<Byte>, gone: Sock)
    requires Tracked(l) && s != gone
    ensures Tracked(Detach(l, gone)) && Send(Detach(l, gone), s, bytes) == Detach(Send(l, s, bytes), gone)
  {
    GatherBesides(l, s, gone);
    var g, r := Gather(l, s), Send(l, s, bytes);
    SetBesides(g.queues, s, r.queues[s], gone);
    SetBesides(g.accepted, s, r.accepted[s], gone);
    assert g.armed + {s} - {gone} == g.armed - {gone} + {s};
  }

  lemma SendMessageBesides(l: EventLoop.Loop, z: Zstd, s: Sock, m: Message, gone: Sock)
    requires Tracked(l) && s != gone
    ensures Tracked(Detach(l, gone)) && SendMessage(Detach(l, gone), z, s, m) == Detach(SendMessage(l, z, s, m), gone)
  {
    if m.payload == [] {
      SendBesides(l, s, Header(m.kind, 0, false), gone);
    } else {
      var (body, compressed) := Packed(z, m.payload);
      var header := Header(m.kind, |body|, compressed);
      SendBesides(l, s, header, gone);
      SendBesides(Send(l, s, header), s, body, gone);
    }
  }

  // ---------------------------------------------------------------- reading in parts

  function Noting(w: World, fd: Sock, out: seq<Received>): World
    requires fd in w.trace
  {
    w.(trace := Noted(w.trace, fd, out))
  }

  /** One read item more is waited for. */
  function Waiting(w: World, fd: Sock, item: Reader): World
    requires Tracked(w.loop)
  {
    w.(loop := Expect(w.loop, fd, ReadItem.Read(item)))
  }

  lemma NotingSettles(w: World, fd: Sock, out: seq<Received>)
    requires fd in w.trace && Settled(w)
    ensures Settled(Noting(w, fd, out)) && fd in Noting(w, fd, out).trace && Noting(w, fd, out).loop == w.loop
  {}

  lemma TellTracks(cfg: Config, w: World, fd: Sock, m: Message)
    requires Tracked(w.loop) && fd in w.trace
    ensures Tracked(Machine.Tell(cfg, w, fd, m).loop)
  {}

  lemma ProcessTracks(cfg: Config, w: World, fd: Sock, m: Message, sys: System)
    requires Tracked(w.loop) && fd in w.trace && Settled(w)
    ensures Tracked(Process(cfg, w, fd, m, sys).loop)
  {}

  lemma ActedTracks(cfg: Config, w: World, fd: Sock, out: seq<Received>, sys: System)
    requires Tracked(w.loop) && fd in w.trace && Settled(w)
    ensures Tracked(Acted(cfg, w, fd, out, sys).loop)
  {
    if out != [] {
      match out[0] {
        case Reject(code) => TellTracks(cfg, w, fd, Message(ERROR, [code]));
        case Deliver(m) => ProcessTracks(cfg, w, fd, m, sys);
      }
    }
  }

  /** A full read item: what is in it is noted and acted on, then the next is waited for. */
  function FullItem(cfg: Config, w: World, fd: Sock, item: Reader, sys: System): World
    requires Tracked(w.loop) && fd in w.trace && Settled(w)
    requires |item.received| == item.length && (item.state.TypeGot? ==> item.length == 2)
  {
    var (next, out) := Framing.OnReceived(cfg.zstd, item);
    NotingSettles(w, fd, out);
    ActedTracks(cfg, Noting(w, fd, out), fd, out, sys);
    Waiting(Acted(cfg, Noting(w, fd, out), fd, out, sys), fd, next)
  }

  /** From w to v, the item at the front of fd's read queue got what chunk adds to it. */
  ghost predicate Fills(w: World, v: World, fd: Sock, chunk: seq<Byte>, front: Reader) {
    && CanRead(w, fd, chunk)
    && front == w.loop.queues[fd].read[0].reader.(received := w.loop.queues[fd].read[0].reader.received + chunk)
    && v == w.(loop := w.loop.(queues := w.loop.queues[fd := w.loop.queues[fd].(read := [ReadItem.Read(front)])]),
               read := w.read[fd := w.read[fd] + chunk])
  }

  /** The item that was full leaves. */
  function Popped(w: World, fd: Sock): World
    requires fd in w.loop.queues && w.loop.queues[fd].read != []
  {
    w.(loop := w.loop.(queues := w.loop.queues[fd := w.loop.queues[fd].(read := w.loop.queues[fd].read[1..])]))
  }

  lemma FilledIsHeld(cfg: Config, w: World, v: World, fd: Sock, chunk: seq<Byte>, front: Reader)
    requires Fills(w, v, fd, chunk, front)
    ensures var (filled, out) := Machine.Fill(cfg, w, fd, chunk);
            var (next, _) := ReadChunk(cfg.zstd, w.loop.queues[fd].read[0].reader, chunk);
            fd in v.trace && fd in v.loop.queues && filled == Holding(Noting(v, fd, out), fd, [ReadItem.Read(next)])
  {
    var (next, _) := ReadChunk(cfg.zstd, w.loop.queues[fd].read[0].reader, chunk);
    var q := w.loop.queues[fd];
    assert w.loop.queues[fd := q.(read := [ReadItem.Read(front)])][fd := q.(read := [ReadItem.Read(next)])] ==
           w.loop.queues[fd := q.(read := [ReadItem.Read(next)])];
  }

  lemma ActedSame(cfg: Config, w: World, fd: Sock, out: seq<Received>, sys: System, items: seq<ReadItem>)
    requires Tracked(w.loop) && fd in w.loop.queues && fd in w.trace && Settled(w) && NotProxied(w, fd)
    ensures var w' := Holding(w, fd, items);
            && Tracked(w'.loop) && Settled(w')
            && Same(w, Acted(cfg, w, fd, out, sys), Acted(cfg, w', fd, out, sys), fd, items)
  {
    if out != [] {
      match out[0] {
        case Reject(code) => TellSame(cfg, w, fd, Message(ERROR, [code]), fd, items);
        case Deliver(m) => ProcessSame(cfg, w, fd, m, sys, items);
      }
    }
  }

  lemma WaitsThenPops(w: World, fd: Sock, item: ReadItem, next: Reader)
    requires Tracked(w.loop) && fd in w.loop.queues && w.loop.queues[fd].read == [item]
    ensures var v := Waiting(w, fd, next);
            && fd in v.loop.queues && v.loop.queues[fd].read != []
            && Popped(v, fd) == Holding(w, fd, [ReadItem.Read(next)])
  {
    var v := Waiting(w, fd, next);
    assert v.loop.queues[fd].read == [item, ReadItem.Read(next)];
    assert v.loop.queues[fd].read[1..] == [ReadItem.Read(next)];
    assert Popped(v, fd).loop.queues == Holding(w, fd, [ReadItem.Read(next)]).loop.queues;
  }

  lemma ItemIsFull(cfg: Config, w: World, v: World, fd: Sock, chunk: seq<Byte>, front: Reader, sys: System)
    requires Fills(w, v, fd, chunk, front) && Tracked(w.loop) && Settled(w) && NotProxied(w, fd)
    requires |front.received| >= front.length
    ensures Tracked(v.loop) && fd in v.trace && Settled(v)
    ensures |front.received| == front.length && (front.state.TypeGot? ==> front.length == 2)
    ensures var f := FullItem(cfg, v, fd, front, sys);
            fd in f.loop.queues && f.loop.queues[fd].read != [] && Popped(f, fd) == ReadControl(cfg, w, fd, chunk, sys)
  {
    var (next, out) := Framing.OnReceived(cfg.zstd, front);
    FilledIsHeld(cfg, w, v, fd, chunk, front);
    var noted := Noting(v, fd, out);
    NotingSettles(v, fd, out);
    ActedSame(cfg, noted, fd, out, sys, [ReadItem.Read(next)]);
    ActedTracks(cfg, noted, fd, out, sys);
    WaitsThenPops(Acted(cfg, noted, fd, out, sys), fd, ReadItem.Read(front), next);
  }

  lemma ItemIsNotFull(cfg: Config, w: World, v: World, fd: Sock, chunk: seq<Byte>, front: Reader, sys: System)
    requires Fills(w, v, fd, chunk, front) && Tracked(w.loop) && Settled(w) && |front.received| < front.length
    ensures ReadControl(cfg, w, fd, chunk, sys) == v
  {}

  // ---------------------------------------------------------------- teardown in parts

  /** Sockets closed for an observer that keeps them among its clients for now. */
  function Closed(w: World, gone: set<Sock>): World {
    w.(loop := DetachAll(w.loop, gone), read := w.read - gone)
  }

  function ObserverGone(w: World, l: Sock): World
    requires l in w.proxies
  {
    Closed(w, w.proxies[l].clients).(proxies := w.proxies - {l})
  }

  /** What the teardown of a user's server takes for granted. */
  ghost predicate Teardown(w: World, fd: Sock) {
    HasServer(w, fd) && UserOf(w, fd).server.value in w.proxies ==>
      var l := UserOf(w, fd).server.value;
      forall s | s in w.proxies[l].clients :: s in w.loop.linked && w.loop.linked[s] != Main
  }

  /** What a DISCONNECT takes for granted: ids and sockets of a proxy go together, and its initiator is
      connected. */
  ghost predicate Bindings(w: World) {
    forall l | l in w.proxies ::
      && w.proxies[l].initiator in w.trace
      && forall i | i in w.proxies[l].idToSock ::
           var s := w.proxies[l].idToSock[i];
           s in w.proxies[l].sockToId && w.proxies[l].sockToId[s] == i && s in w.loop.linked &&
             w.loop.linked[s] == Tunnel(l)
  }

  lemma NoneClosed(w: World)
    ensures Closed(w, {}) == w
  {
    assert w.loop.queues - {} == w.loop.queues && w.loop.linked - {} == w.loop.linked;
    assert w.loop.accepted - {} == w.loop.accepted && w.loop.handed - {} == w.loop.handed;
    assert w.loop.armed - {} == w.loop.armed && w.read - {} == w.read;
  }

  lemma ClosedOneMore(w: World, gone: set<Sock>, s: Sock)
    ensures Dropped(Closed(w, gone), s) == Closed(w, gone + {s})
  {
    assert w.loop.queues - gone - {s} == w.loop.queues - (gone + {s});
    assert w.loop.linked - gone - {s} == w.loop.linked - (gone + {s});
    assert w.loop.accepted - gone - {s} == w.loop.accepted - (gone + {s});
    assert w.loop.handed - gone - {s} == w.loop.handed - (gone + {s});
    assert w.loop.armed - gone - {s} == w.loop.armed - (gone + {s});
    assert w.read - gone - {s} == w.read - (gone + {s});
  }

  lemma LostInParts(w: World, l: Sock, order: seq<Sock>)
    requires l in w.proxies && (forall s | s in order :: s in w.proxies[l].sockToId)
    ensures var p := w.proxies[l];
            ObserverGone(w.(pool := ReleaseAll(w.pool, IdsInOrder(p, order)),
                            proxies := w.proxies[l := Proxy(p.initiator, map[], map[], p.clients)]), l) ==
            CloseProxy(w, l, order)
  {
    var p := w.proxies[l];
    assert w.proxies[l := Proxy(p.initiator, map[], map[], p.clients)] - {l} == w.proxies - {l};
  }

  lemma ForgottenInParts(w: World, l: Sock, fd: Sock)
    requires l in w.proxies && fd in w.proxies[l].sockToId
    ensures Erased(Dropped(Unlinked(w, l, fd), fd), fd, l) == Forget(w, l, fd)
  {
    var u := Unlinked(w, l, fd);
    assert u.proxies[l := u.proxies[l].(clients := u.proxies[l].clients - {fd})] ==
           w.proxies[l := Unbind(w.proxies[l], fd)];
  }

  lemma HungUpInParts(cfg: Config, w: World, l: Sock, fd: Sock)
    requires Tracked(w.loop) && l in w.proxies && w.proxies[l].initiator in w.trace && fd in w.proxies[l].sockToId
    requires w.proxies[l].initiator != fd
    ensures l in Disconnecting(cfg, w, l, fd).proxies
    ensures Erased(Dropped(Disconnecting(cfg, w, l, fd), fd), fd, l) == HangUpProxied(cfg, w, l, fd)
  {
    var p, u := w.proxies[l], Unlinked(w, l, fd);
    ForgottenInParts(w, l, fd);
    SendMessageBesides(u.loop, cfg.zstd, p.initiator, Message(DISCONNECT, IdBytes(p.sockToId[fd])), fd);
  }
}

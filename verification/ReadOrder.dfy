/** While a message is processed its read item is still in its queue.  It makes no difference: no command
    looks at the read queue of the client that gave it, or changes it. */
module ReadOrder {
  import opened Bytes
  import ByteBuffer
  import opened ProtoSpec
  import opened Framing
  import opened EventLoop
  import opened Tunnel

  function WithItems(l: Loop, fd: Sock, items: seq<ReadItem>): Loop
    requires fd in l.queues
  {
    l.(queues := l.queues[fd := l.queues[fd].(read := items)])
  }

  function Holding(w: World, fd: Sock, items: seq<ReadItem>): World
    requires fd in w.loop.queues
  {
    w.(loop := WithItems(w.loop, fd, items))
  }

  /** What a change of the loop does is the same whatever fd has still to read. */
  ghost predicate Aside(l: Loop, r: Loop, l': Loop, r': Loop, fd: Sock, items: seq<ReadItem>) {
    && fd in l.queues && fd in r.queues && Tracked(l') && r.queues[fd].read == l.queues[fd].read
    && l' == WithItems(l, fd, items) && r' == WithItems(r, fd, items)
  }

  lemma SendAside(l: Loop, s: Sock, bytes: seq<Byte>, fd: Sock, items: seq<ReadItem>)
    requires Tracked(l) && fd in l.queues
    ensures var l' := WithItems(l, fd, items);
            Tracked(l') && Aside(l, Send(l, s, bytes), l', Send(l', s, bytes), fd, items)
  {
    var l' := WithItems(l, fd, items);
    var r, r' := Send(l, s, bytes), Send(l', s, bytes);
    if s == fd {
      assert r'.queues == WithItems(r, fd, items).queues;
    } else {
      var g := Gather(l, s);
      assert Gather(l', s).queues == WithItems(g, fd, items).queues;
      assert r'.queues == WithItems(r, fd, items).queues;
    }
  }

  lemma SendMessageAside(l: Loop, z: Zstd, s: Sock, m: Message, fd: Sock, items: seq<ReadItem>)
    requires Tracked(l) && fd in l.queues
    ensures var l' := WithItems(l, fd, items);
            Tracked(l') && Aside(l, SendMessage(l, z, s, m), l', SendMessage(l', z, s, m), fd, items)
  {
    if m.payload == [] {
      SendAside(l, s, Header(m.kind, 0, false), fd, items);
    } else {
      var (body, compressed) := Packed(z, m.payload);
      var header := Header(m.kind, |body|, compressed);
      SendAside(l, s, header, fd, items);
      SendAside(Send(l, s, header), s, body, fd, items);
    }
  }

  lemma DetachAside(l: Loop, gone: Sock, fd: Sock, items: seq<ReadItem>)
    requires Tracked(l) && fd in l.queues && gone != fd
    ensures var l' := WithItems(l, fd, items);
            Tracked(l') && Aside(l, Detach(l, gone), l', Detach(l', gone), fd, items)
  {
    var l' := WithItems(l, fd, items);
    assert Detach(l', gone).queues == WithItems(Detach(l, gone), fd, items).queues;
  }

  // ---------------------------------------------------------------- commands

  /** v and v' are what a command makes of w, without and with the other items. */
  ghost predicate Same(w: World, v: World, v': World, fd: Sock, items: seq<ReadItem>) {
    && fd in w.loop.queues && fd in v.loop.queues && v.loop.queues[fd].read == w.loop.queues[fd].read
    && v' == Holding(v, fd, items)
  }

  lemma TellSame(cfg: Config, w: World, to: Sock, m: Message, fd: Sock, items: seq<ReadItem>)
    requires Tracked(w.loop) && fd in w.loop.queues && to in w.trace
    ensures var w' := Holding(w, fd, items);
            Tracked(w'.loop) && Same(w, Tell(cfg, w, to, m), Tell(cfg, w', to, m), fd, items)
  {
    SendMessageAside(w.loop, cfg.zstd, to, m, fd, items);
  }

  lemma CreateServerSame(cfg: Config, w: World, fd: Sock, payload: seq<Byte>, sys: System, items: seq<ReadItem>)
    requires Tracked(w.loop) && fd in w.loop.queues && fd in w.trace
    ensures var w' := Holding(w, fd, items);
            Tracked(w'.loop) &&
              Same(w, CreateServer(cfg, w, fd, payload, sys), CreateServer(cfg, w', fd, payload, sys), fd, items)
  {
    if HasServer(w, fd) {
      TellSame(cfg, w, fd, Message(ERROR, [SERVER_ALREADY_CREATED]), fd, items);
    } else if |payload| == 2 && UserOf(w, fd).canSelectPort && !sys.portAvailable {
      TellSame(cfg, w, fd, Message(ERROR, [UNAVAILABLE_PORT]), fd, items);
    } else {
      var v := w.(users := w.users[fd := UserOf(w, fd).(server := Some(sys.listener))],
                  proxies := w.proxies[sys.listener := Proxy(fd, map[], map[], {})]);
      TellSame(cfg, v, fd, Message(CREATE_SERVER, ByteBuffer.LittleEndian(sys.port, 2)), fd, items);
    }
  }

  lemma PacketSame(cfg: Config, w: World, fd: Sock, payload: seq<Byte>, items: seq<ReadItem>)
    requires Tracked(w.loop) && fd in w.loop.queues && fd in w.trace && Settled(w)
    ensures var w' := Holding(w, fd, items);
            Tracked(w'.loop) && Settled(w') &&
              Same(w, Packet(cfg, w, fd, payload), Packet(cfg, w', fd, payload), fd, items)
  {
    if !HasServer(w, fd) {
      TellSame(cfg, w, fd, Message(ERROR, [NO_SESSION]), fd, items);
    } else if |payload| <= ID_SIZE {
      TellSame(cfg, w, fd, Message(ERROR, [TOO_SHORT_BUFFER]), fd, items);
    } else {
      var p := w.proxies[UserOf(w, fd).server.value];
      if IdOf(payload) !in p.idToSock {
        TellSame(cfg, w, fd, Message(ERROR, [NO_SUCH_CLIENT]), fd, items);
      } else {
        SendAside(w.loop, p.idToSock[IdOf(payload)], payload[ID_SIZE..], fd, items);
      }
    }
  }

  /** A control client is not among the clients of proxies. */
  ghost predicate NotProxied(w: World, fd: Sock) {
    forall l, i | l in w.proxies && i in w.proxies[l].idToSock :: w.proxies[l].idToSock[i] != fd
  }

  lemma DisconnectSame(cfg: Config, w: World, fd: Sock, payload: seq<Byte>, items: seq<ReadItem>)
    requires Tracked(w.loop) && fd in w.loop.queues && fd in w.trace && Settled(w) && NotProxied(w, fd)
    ensures var w' := Holding(w, fd, items);
            Tracked(w'.loop) && Settled(w') &&
              Same(w, Disconnect(cfg, w, fd, payload), Disconnect(cfg, w', fd, payload), fd, items)
  {
    if !HasServer(w, fd) {
      TellSame(cfg, w, fd, Message(ERROR, [NO_SESSION]), fd, items);
    } else if |payload| != ID_SIZE {
      TellSame(cfg, w, fd, Message(ERROR, [BUFFER_SIZE_INCORRECT]), fd, items);
    } else {
      var l := UserOf(w, fd).server.value;
      var p := w.proxies[l];
      if IdOf(payload) !in p.idToSock {
        TellSame(cfg, w, fd, Message(ERROR, [NO_SUCH_CLIENT]), fd, items);
      } else {
        DetachAside(w.loop, p.idToSock[IdOf(payload)], fd, items);
      }
    }
  }

  lemma ProcessSame(cfg: Config, w: World, fd: Sock, m: Message, sys: System, items: seq<ReadItem>)
    requires Tracked(w.loop) && fd in w.loop.queues && fd in w.trace && Settled(w) && NotProxied(w, fd)
    ensures var w' := Holding(w, fd, items);
            && Tracked(w'.loop) && Settled(w')
            && Same(w, Process(cfg, w, fd, m, sys), Process(cfg, w', fd, m, sys), fd, items)
  {
    if m.kind == PING {
      TellSame(cfg, w, fd, Message(PING, cfg.serverName), fd, items);
    } else if m.kind == CREATE_SERVER {
      CreateServerSame(cfg, w, fd, m.payload, sys, items);
    } else if m.kind == PACKET {
      PacketSame(cfg, w, fd, m.payload, items);
    } else if m.kind == DISCONNECT {
      DisconnectSame(cfg, w, fd, m.payload, items);
    } else if m.kind == STAT {
      TellSame(cfg, w, fd, Message(ERROR, [NOT_IMPLEMENTED]), fd, items);
    } else if m.kind != AUTH {
      TellSame(cfg, w, fd, Message(ERROR, [NO_SUCH_COMMAND]), fd, items);
    }
  }
}

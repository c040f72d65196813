/** The sessions an initiator sees: what its trace says of each id, and what the server holds. */
module TunnelSessions {
  import opened Bytes
  import opened ByteBuffer
  import opened ProtoSpec
  import opened Framing
  import opened EventLoop
  import opened IdPool
  import opened Tunnel
  import opened TunnelIds
  import opened TunnelRegistry

  /** up is what the initiator was told the client sent, down what it had the client sent. */
  datatype Session = Closed | Open(up: seq<Byte>, down: seq<Byte>) | Broken

  predicate Names(m: Message, id: nat) {
    |m.payload| >= ID_SIZE && IdOf(m.payload) == id
  }

  /** The protocol of one id: CONNECTED opens what is closed; PACKET and DISCONNECT are said of what is
      open; anything else is a breach.  A command about an id that is not open changes nothing. */
  function SessionStep(s: Session, id: nat, e: Event): Session {
    if !Names(e.m, id) then s
    else
      match e
      case Told(m) =>
        if m.kind == CONNECTED then if s.Closed? then Open([], []) else Broken
        else if m.kind == PACKET then if s.Open? then s.(up := s.up + m.payload[ID_SIZE..]) else Broken
        else if m.kind == DISCONNECT then if s.Open? then Closed else Broken
        else s
      case Heard(m) =>
        if !s.Open? then s
        else if m.kind == PACKET && |m.payload| > ID_SIZE then s.(down := s.down + m.payload[ID_SIZE..])
        else if m.kind == DISCONNECT && |m.payload| == ID_SIZE then Closed
        else s
  }

  function SessionOf(trace: seq<Event>, id: nat): Session {
    if trace == [] then Closed
    else SessionStep(SessionOf(trace[..|trace| - 1], id), id, trace[|trace| - 1])
  }

  lemma SessionSnoc(trace: seq<Event>, id: nat, e: Event)
    ensures SessionOf(trace + [e], id) == SessionStep(SessionOf(trace, id), id, e)
  {
    assert (trace + [e])[..|trace|] == trace;
  }

  /** The client bound to an id of the user's server. */
  function ClientOf(w: World, fd: Sock, id: nat): Option<Sock> {
    if HasServer(w, fd) && UserOf(w, fd).server.value in w.proxies &&
      id in w.proxies[UserOf(w, fd).server.value].idToSock
    then Some(w.proxies[UserOf(w, fd).server.value].idToSock[id])
    else None
  }

  /** What a session is like as the server has it: all that was read from the client, and all that was
      queued for it. */
  function Held(w: World, fd: Sock, id: nat): Session {
    match ClientOf(w, fd, id)
    case None => Closed
    case Some(s) => if s in w.read && s in w.loop.accepted then Open(w.read[s], w.loop.accepted[s]) else Broken
  }

  ghost predicate SessionMatches(w: World, trace: seq<Event>, fd: Sock, id: nat) {
    SessionOf(trace, id) == Held(w, fd, id)
  }

  ghost predicate SessionsMatch(w: World, traces: map<Sock, seq<Event>>) {
    forall fd, id: nat {:trigger SessionMatches(w, traces[fd], fd, id)} | fd in traces ::
      SessionMatches(w, traces[fd], fd, id)
  }

  // ---------------------------------------------------------------- who is whose client

  lemma ClientIsRegistered(cfg: Config, w: World, fd: Sock, id: nat)
    requires Sound(cfg, w) && ClientOf(w, fd, id).Some?
    ensures var s, l := ClientOf(w, fd, id).value, UserOf(w, fd).server.value;
            && s in w.loop.linked && w.loop.linked[s] == Tunnel(l) && s !in w.clients
            && s in w.read && s in w.loop.accepted
            && l in w.proxies && s in w.proxies[l].clients && s in w.proxies[l].sockToId &&
               w.proxies[l].sockToId[s] == id
            && w.proxies[l].initiator == fd && fd in w.clients
  {
    var l := UserOf(w, fd).server.value;
    var s := w.proxies[l].idToSock[id];
    OfPair(w.proxies, l, s, id);
    OfUser(w.users, w.clients, w.proxies, fd);
    OfClient(cfg.main, w.loop.linked, w.clients, w.proxies, l, s);
    OfKeys(w, s);
  }

  /** A socket is the client of one user and one id only. */
  lemma OneBinding(cfg: Config, w: World, fd: Sock, id: nat, fd': Sock, id': nat)
    requires Sound(cfg, w) && ClientOf(w, fd, id).Some? && ClientOf(w, fd', id') == ClientOf(w, fd, id)
    ensures fd' == fd && id' == id
  {
    ClientIsRegistered(cfg, w, fd, id);
    ClientIsRegistered(cfg, w, fd', id');
  }

  lemma BoundTo(cfg: Config, w: World, l: Sock, fd: Sock)
    requires Sound(cfg, w) && l in w.proxies && fd in w.proxies[l].sockToId
    ensures var p := w.proxies[l];
            && ClientOf(w, p.initiator, p.sockToId[fd]) == Some(fd) && p.initiator in w.clients
            && fd in w.loop.linked && fd !in w.clients && fd in w.loop.queues && fd in w.read
            && p.sockToId[fd] in LiveIds(w.proxies)
  {
    OfPair(w.proxies, l, fd, w.proxies[l].sockToId[fd]);
    OfProxy(w.users, w.clients, w.proxies, l);
    OfClient(cfg.main, w.loop.linked, w.clients, w.proxies, l, fd);
    OfKeys(w, fd);
  }

  /** The same client, to whom nothing was done. */
  lemma HeldStays(w: World, v: World, fd: Sock, id: nat)
    requires ClientOf(v, fd, id) == ClientOf(w, fd, id)
    requires var c := ClientOf(w, fd, id);
             c.Some? ==>
               && (c.value in v.read <==> c.value in w.read)
               && (c.value in v.loop.accepted <==> c.value in w.loop.accepted)
               && (c.value in w.read ==> v.read[c.value] == w.read[c.value])
               && (c.value in w.loop.accepted ==> v.loop.accepted[c.value] == w.loop.accepted[c.value])
    ensures Held(v, fd, id) == Held(w, fd, id)
  {}

  lemma IdIsNamed(id: nat, rest: seq<Byte>)
    requires id < ID_LIMIT
    ensures IdOf(IdBytes(id) + rest) == id && (IdBytes(id) + rest)[ID_SIZE..] == rest
    ensures |IdBytes(id)| == ID_SIZE && IdOf(IdBytes(id)) == id
  {
    BytesOfNumber(id, ID_SIZE);
    assert Power256(4) == ID_LIMIT by { assert Power256(2) == 0x1_0000; }
    assert (IdBytes(id) + rest)[..ID_SIZE] == IdBytes(id) == IdBytes(id)[..ID_SIZE];
  }

  lemma LiveIsSmall(pool: Pool, proxies: map<Sock, Proxy>, id: nat)
    requires IdsOk(pool, proxies) && pool.last <= SOCKETS && id in LiveIds(proxies)
    ensures id < ID_LIMIT
  {}

  // ---------------------------------------------------------------- what an event does to what is held

  /** One event more in the trace of fd, and the server holds what the event makes of it. */
  lemma EventMatches(w: World, v: World, traces: map<Sock, seq<Event>>, fd: Sock, e: Event)
    requires SessionsMatch(w, traces) && fd in traces
    requires forall other, id: nat | other in traces ::
               Held(v, other, id) == if other == fd then SessionStep(Held(w, fd, id), id, e) else Held(w, other, id)
    ensures SessionsMatch(v, traces[fd := traces[fd] + [e]])
  {
    var traces' := traces[fd := traces[fd] + [e]];
    forall other, id: nat | other in traces' ensures SessionMatches(v, traces'[other], other, id) {
      assert SessionMatches(w, traces[other], other, id);
      if other == fd {
        SessionSnoc(traces[fd], id, e);
      }
    }
  }

  /** From w to v, only the bytes of fd changed. */
  ghost predicate SameBytes(w: World, v: World, fd: Sock)
    requires KeysOk(w) && KeysOk(v)
  {
    forall s | s in w.loop.queues && s != fd ::
      s in v.loop.queues && v.loop.accepted[s] == w.loop.accepted[s] && v.read[s] == w.read[s]
  }

  lemma HeldElsewhere(cfg: Config, w: World, v: World, fd: Sock, other: Sock, id: nat)
    requires Sound(cfg, w) && KeysOk(v) && SameBytes(w, v, fd)
    requires ClientOf(v, other, id) == ClientOf(w, other, id) != Some(fd)
    ensures Held(v, other, id) == Held(w, other, id)
  {
    if ClientOf(w, other, id).Some? {
      ClientIsRegistered(cfg, w, other, id);
      var s := ClientOf(w, other, id).value;
      OfKeys(w, s);
      assert s in v.loop.queues;
    }
  }

  lemma NoClient(cfg: Config, w: World, fd: Sock, other: Sock, id: nat)
    requires Sound(cfg, w) && (fd in w.clients || fd !in w.loop.linked)
    ensures ClientOf(w, other, id) != Some(fd)
  {
    if ClientOf(w, other, id).Some? {
      ClientIsRegistered(cfg, w, other, id);
    }
  }

  /** Nothing of what is held depends on a socket that is nobody's client. */
  lemma HeldAll(cfg: Config, w: World, v: World, fd: Sock, traces: map<Sock, seq<Event>>)
    requires Sound(cfg, w) && KeysOk(v) && SameBytes(w, v, fd) && (fd in w.clients || fd !in w.loop.linked)
    requires v.users == w.users && v.proxies == w.proxies && SessionsMatch(w, traces)
    ensures SessionsMatch(v, traces)
  {
    forall other, id: nat | other in traces ensures SessionMatches(v, traces[other], other, id) {
      assert SessionMatches(w, traces[other], other, id);
      HeldOne(cfg, w, v, fd, other, id);
    }
  }

  lemma HeldOne(cfg: Config, w: World, v: World, fd: Sock, other: Sock, id: nat)
    requires Sound(cfg, w) && KeysOk(v) && SameBytes(w, v, fd) && (fd in w.clients || fd !in w.loop.linked)
    requires v.users == w.users && v.proxies == w.proxies
    ensures Held(v, other, id) == Held(w, other, id)
  {
    if ClientOf(w, other, id).Some? {
      ClientIsRegistered(cfg, w, other, id);
      OfKeys(w, ClientOf(w, other, id).value);
    }
  }

  // ---------------------------------------------------------------- event by event

  lemma TellBytes(cfg: Config, w: World, fd: Sock, m: Message)
    requires Lawful(cfg.zstd) && KeysOk(w) && fd in w.trace && fd in w.loop.queues && QueueOk(w.loop, fd)
    ensures var v := Tell(cfg, w, fd, m);
            && KeysOk(v) && SameBytes(w, v, fd) && v.users == w.users && v.proxies == w.proxies
            && v.trace == w.trace[fd := w.trace[fd] + [Told(m)]]
  {
    TellKeepsKeys(cfg, w, fd, m);
    Tells(cfg, w, fd, m);
  }

  lemma TellMatches(cfg: Config, w: World, fd: Sock, m: Message)
    requires Lawful(cfg.zstd) && Sound(cfg, w) && fd in w.clients && fd in w.loop.queues && QueueOk(w.loop, fd)
    requires SessionsMatch(w, w.trace[fd := w.trace[fd] + [Told(m)]])
    ensures SessionsMatch(Tell(cfg, w, fd, m), Tell(cfg, w, fd, m).trace)
  {
    TellBytes(cfg, w, fd, m);
    HeldAll(cfg, w, Tell(cfg, w, fd, m), fd, w.trace[fd := w.trace[fd] + [Told(m)]]);
  }

  /** A message about no session. */
  lemma TellQuietly(cfg: Config, w: World, fd: Sock, m: Message)
    requires Lawful(cfg.zstd) && Sound(cfg, w) && fd in w.clients && fd in w.loop.queues && QueueOk(w.loop, fd)
    requires SessionsMatch(w, w.trace) && m.kind !in {CONNECTED, PACKET, DISCONNECT}
    ensures SessionsMatch(Tell(cfg, w, fd, m), Tell(cfg, w, fd, m).trace)
  {
    EventMatches(w, w, w.trace, fd, Told(m));
    TellMatches(cfg, w, fd, m);
  }

  lemma AcceptControlBytes(w: World, fd: Sock)
    requires KeysOk(w) && fd !in w.loop.queues
    ensures KeysOk(AcceptControl(w, fd)) && SameBytes(w, AcceptControl(w, fd), fd)
  {
    AcceptControlKeepsKeys(w, fd);
  }

  lemma NobodyHolds(cfg: Config, w: World, fd: Sock, id: nat)
    requires Sound(cfg, w) && fd !in w.clients
    ensures Held(w, fd, id) == Closed
  {
    if ClientOf(w, fd, id).Some? {
      ClientIsRegistered(cfg, w, fd, id);
    }
  }

  lemma NewMatches(cfg: Config, w: World, fd: Sock)
    requires Sound(cfg, w) && fd !in w.clients && SessionsMatch(w, w.trace)
    ensures SessionsMatch(w, w.trace[fd := []])
  {
    var traces := w.trace[fd := []];
    forall other, id: nat | other in traces ensures SessionMatches(w, traces[other], other, id) {
      if other == fd {
        NobodyHolds(cfg, w, fd, id);
      } else {
        assert SessionMatches(w, w.trace[other], other, id);
      }
    }
  }

  lemma AcceptControlMatches(cfg: Config, w: World, fd: Sock)
    requires Sound(cfg, w) && Unused(cfg, w, fd) && SessionsMatch(w, w.trace)
    ensures SessionsMatch(AcceptControl(w, fd), AcceptControl(w, fd).trace)
  {
    AcceptControlKeepsKeys(w, fd);
    var v := AcceptControl(w, fd);
    AcceptControlBytes(w, fd);
    NewMatches(cfg, w, fd);
    HeldAll(cfg, w, v, fd, w.trace[fd := []]);
  }

  lemma ReadMoreBytes(w: World, fd: Sock, data: seq<Byte>)
    requires KeysOk(w) && fd in w.read
    ensures var v := w.(read := w.read[fd := w.read[fd] + data]); KeysOk(v) && SameBytes(w, v, fd)
  {}

  lemma HeldOpen(cfg: Config, w: World, l: Sock, fd: Sock)
    requires Sound(cfg, w) && l in w.proxies && fd in w.proxies[l].sockToId
    ensures fd in w.read && fd in w.loop.accepted
    ensures Held(w, w.proxies[l].initiator, w.proxies[l].sockToId[fd]) == Open(w.read[fd], w.loop.accepted[fd])
  {
    BoundTo(cfg, w, l, fd);
    OfKeys(w, fd);
  }

  /** What was done to a client shows in its own session only. */
  lemma OthersHeld(cfg: Config, w: World, v: World, l: Sock, fd: Sock, other: Sock, id: nat)
    requires Sound(cfg, w) && KeysOk(v) && SameBytes(w, v, fd) && v.users == w.users && v.proxies == w.proxies
    requires l in w.proxies && fd in w.proxies[l].sockToId
    requires !(other == w.proxies[l].initiator && id == w.proxies[l].sockToId[fd])
    ensures Held(v, other, id) == Held(w, other, id)
  {
    if ClientOf(w, other, id) == Some(fd) {
      BoundTo(cfg, w, l, fd);
      OneBinding(cfg, w, w.proxies[l].initiator, w.proxies[l].sockToId[fd], other, id);
    }
    HeldElsewhere(cfg, w, v, fd, other, id);
  }

  lemma ReadMoreHeld(cfg: Config, w: World, l: Sock, fd: Sock, data: seq<Byte>, other: Sock, id: nat)
    requires Sound(cfg, w) && l in w.proxies && fd in w.proxies[l].sockToId
    ensures fd in w.read && fd in w.loop.accepted
    ensures var v := w.(read := w.read[fd := w.read[fd] + data]);
            var p := w.proxies[l];
            Held(v, other, id) ==
            if other == p.initiator && id == p.sockToId[fd] then Open(w.read[fd] + data, w.loop.accepted[fd])
            else Held(w, other, id)
  {
    HeldOpen(cfg, w, l, fd);
    ReadMoreBytes(w, fd, data);
    if other == w.proxies[l].initiator && id == w.proxies[l].sockToId[fd] {
      BoundTo(cfg, w, l, fd);
    } else {
      OthersHeld(cfg, w, w.(read := w.read[fd := w.read[fd] + data]), l, fd, other, id);
    }
  }

  lemma IdOfClient(cfg: Config, w: World, l: Sock, fd: Sock)
    requires Sound(cfg, w) && l in w.proxies && fd in w.proxies[l].sockToId
    ensures w.proxies[l].sockToId[fd] < ID_LIMIT
  {
    BoundTo(cfg, w, l, fd);
    LiveIsSmall(w.pool, w.proxies, w.proxies[l].sockToId[fd]);
  }

  /** Bytes read from a client are in the session once its initiator is told. */
  lemma ReadMoreMatches(cfg: Config, w: World, l: Sock, fd: Sock, data: seq<Byte>)
    requires Sound(cfg, w) && l in w.proxies && fd in w.proxies[l].sockToId && fd in w.read
    requires w.proxies[l].initiator in w.trace && SessionsMatch(w, w.trace)
    ensures var p := w.proxies[l];
            var m := Message(PACKET, IdBytes(p.sockToId[fd]) + data);
            SessionsMatch(w.(read := w.read[fd := w.read[fd] + data]),
                          w.trace[p.initiator := w.trace[p.initiator] + [Told(m)]])
  {
    var p := w.proxies[l];
    var id0 := p.sockToId[fd];
    var m := Message(PACKET, IdBytes(id0) + data);
    var v := w.(read := w.read[fd := w.read[fd] + data]);
    IdOfClient(cfg, w, l, fd);
    IdIsNamed(id0, data);
    forall other, id: nat | other in w.trace
      ensures Held(v, other, id) ==
              if other == p.initiator then SessionStep(Held(w, p.initiator, id), id, Told(m)) else Held(w, other, id)
    {
      assert Names(m, id) <==> id == id0;
      HeldOpen(cfg, w, l, fd);
      ReadMoreHeld(cfg, w, l, fd, data, other, id);
    }
    EventMatches(w, v, w.trace, p.initiator, Told(m));
  }

  lemma AdmitBytes(w: World, l: Sock, fd: Sock)
    requires KeysOk(w) && fd !in w.loop.queues && l in w.proxies
    ensures var v := Admit(w, l, fd);
            && KeysOk(v) && SameBytes(w, v, fd)
            && v.loop.accepted[fd] == [] && v.read[fd] == []
            && v.users == w.users && v.proxies == w.proxies[l := Bind(w.proxies[l], fd, Get(w.pool).1)]
  {
    AdmitKeepsKeys(w, l, fd);
  }

  lemma NewIdIsFree(cfg: Config, w: World, l: Sock, fd: Sock)
    requires Sound(cfg, w) && l in w.proxies && fd !in w.loop.linked
    ensures Get(w.pool).1 < ID_LIMIT && Get(w.pool).1 !in LiveIds(w.proxies)
  {
    IsNoClient(cfg.main, w.loop.linked, w.clients, w.proxies, l, fd);
    BindKeeps(w.pool, w.proxies, l, fd);
  }

  /** The user of the proxy that changed, and the others. */
  lemma ClientOfChanged(w: World, v: World, l: Sock, p': Proxy, other: Sock, id: nat)
    requires UsersOk(w.users, w.clients, w.proxies) && l in w.proxies && v.users == w.users &&
             v.proxies == w.proxies[l := p']
    ensures ClientOf(v, other, id) ==
            if other == w.proxies[l].initiator then if id in p'.idToSock then Some(p'.idToSock[id]) else None
            else ClientOf(w, other, id)
  {
    OfProxy(w.users, w.clients, w.proxies, l);
    if HasServer(w, other) {
      OfUser(w.users, w.clients, w.proxies, other);
    }
  }

  lemma ClientOfInitiator(w: World, l: Sock, id: nat)
    requires UsersOk(w.users, w.clients, w.proxies) && l in w.proxies
    ensures var p := w.proxies[l];
            ClientOf(w, p.initiator, id) == if id in p.idToSock then Some(p.idToSock[id]) else None
  {
    OfProxy(w.users, w.clients, w.proxies, l);
  }

  lemma AdmitHeld(cfg: Config, w: World, l: Sock, fd: Sock, other: Sock, id: nat)
    requires Sound(cfg, w) && Unused(cfg, w, fd) && l in w.proxies
    ensures var p, id0 := w.proxies[l], Get(w.pool).1;
            Held(Admit(w, l, fd), other, id) ==
            if other == p.initiator && id == id0 then Open([], []) else Held(w, other, id)
  {
    var v, id0 := Admit(w, l, fd), Get(w.pool).1;
    AdmitBytes(w, l, fd);
    ClientOfChanged(w, v, l, v.proxies[l], other, id);
    ClientOfInitiator(w, l, id);
    if !(other == w.proxies[l].initiator && id == id0) {
      NoClient(cfg, w, fd, other, id);
      HeldElsewhere(cfg, w, v, fd, other, id);
    }
  }

  lemma NewIdIsClosed(cfg: Config, w: World, l: Sock, fd: Sock)
    requires Sound(cfg, w) && l in w.proxies && fd !in w.loop.linked
    ensures Held(w, w.proxies[l].initiator, Get(w.pool).1) == Closed
  {
    var id0 := Get(w.pool).1;
    NewIdIsFree(cfg, w, l, fd);
    ClientOfInitiator(w, l, id0);
    if id0 in w.proxies[l].idToSock {
      IsLive(w.proxies, l, id0);
    }
  }

  /** A new client's session is open once its initiator is told. */
  lemma AdmitMatches(cfg: Config, w: World, l: Sock, fd: Sock)
    requires Sound(cfg, w) && Unused(cfg, w, fd) && l in w.proxies
    requires w.proxies[l].initiator in w.trace && SessionsMatch(w, w.trace)
    ensures var i := w.proxies[l].initiator;
            var m := Message(CONNECTED, IdBytes(Get(w.pool).1));
            SessionsMatch(Admit(w, l, fd), w.trace[i := w.trace[i] + [Told(m)]])
  {
    var i, id0 := w.proxies[l].initiator, Get(w.pool).1;
    var m := Message(CONNECTED, IdBytes(id0));
    NewIdIsFree(cfg, w, l, fd);
    NewIdIsClosed(cfg, w, l, fd);
    IdIsNamed(id0, []);
    forall other, id: nat | other in w.trace
      ensures Held(Admit(w, l, fd), other, id) ==
              if other == i then SessionStep(Held(w, i, id), id, Told(m)) else Held(w, other, id)
    {
      assert Names(m, id) <==> id == id0;
      AdmitHeld(cfg, w, l, fd, other, id);
    }
    EventMatches(w, Admit(w, l, fd), w.trace, i, Told(m));
  }

  // ---------------------------------------------------------------- a client goes

  lemma ForgetBytes(w: World, l: Sock, fd: Sock)
    requires KeysOk(w) && l in w.proxies && fd in w.proxies[l].sockToId
    ensures var v := Forget(w, l, fd);
            && KeysOk(v) && SameBytes(w, v, fd)
            && v.users == w.users && v.proxies == w.proxies[l := Unbind(w.proxies[l], fd)]
  {
    ForgetKeepsKeys(w, l, fd);
  }

  lemma ForgetClients(w: World, l: Sock, fd: Sock, other: Sock, id: nat)
    requires KeysOk(w) && UsersOk(w.users, w.clients, w.proxies) && l in w.proxies && Paired(w.proxies[l])
    requires fd in w.proxies[l].sockToId
    ensures var p := w.proxies[l];
            ClientOf(Forget(w, l, fd), other, id) ==
            if other == p.initiator && id == p.sockToId[fd] then None else ClientOf(w, other, id)
  {
    ForgetBytes(w, l, fd);
    ClientOfChanged(w, Forget(w, l, fd), l, Unbind(w.proxies[l], fd), other, id);
    ClientOfInitiator(w, l, id);
  }

  lemma ForgetHeld(cfg: Config, w: World, l: Sock, fd: Sock, other: Sock, id: nat)
    requires Sound(cfg, w) && l in w.proxies && fd in w.proxies[l].sockToId
    ensures var p := w.proxies[l];
            Held(Forget(w, l, fd), other, id) ==
            if other == p.initiator && id == p.sockToId[fd] then Closed else Held(w, other, id)
  {
    var v, p := Forget(w, l, fd), w.proxies[l];
    ForgetBytes(w, l, fd);
    BoundTo(cfg, w, l, fd);
    ForgetClients(w, l, fd, other, id);
    if !(other == p.initiator && id == p.sockToId[fd]) {
      if ClientOf(w, other, id) == Some(fd) {
        OneBinding(cfg, w, p.initiator, p.sockToId[fd], other, id);
      }
      HeldElsewhere(cfg, w, v, fd, other, id);
    }
  }

  lemma DisconnectStep(s: Session, id: nat, id0: nat, e: Event)
    requires e.m.kind == DISCONNECT && |e.m.payload| == ID_SIZE && IdOf(e.m.payload) == id0
    ensures id != id0 ==> SessionStep(s, id, e) == s
    ensures id == id0 && s.Open? ==> SessionStep(s, id, e) == Closed
  {}

  lemma PacketStep(s: Session, id: nat, id0: nat, m: Message)
    requires m.kind == PACKET && |m.payload| > ID_SIZE && IdOf(m.payload) == id0
    ensures id != id0 ==> SessionStep(s, id, Heard(m)) == s
    ensures id == id0 && s.Open? ==> SessionStep(s, id, Heard(m)) == s.(down := s.down + m.payload[ID_SIZE..])
  {}

  lemma ForgetStep(cfg: Config, w: World, l: Sock, fd: Sock, e: Event, other: Sock, id: nat)
    requires Sound(cfg, w) && l in w.proxies && fd in w.proxies[l].sockToId
    requires e.m.kind == DISCONNECT && |e.m.payload| == ID_SIZE && IdOf(e.m.payload) == w.proxies[l].sockToId[fd]
    ensures var i := w.proxies[l].initiator;
            Held(Forget(w, l, fd), other, id) ==
            if other == i then SessionStep(Held(w, i, id), id, e) else Held(w, other, id)
  {
    HeldOpen(cfg, w, l, fd);
    ForgetHeld(cfg, w, l, fd, other, id);
    DisconnectStep(Held(w, w.proxies[l].initiator, id), id, w.proxies[l].sockToId[fd], e);
  }

  /** The session of a client that went is closed by whichever end said so. */
  lemma ForgetMatches(cfg: Config, w: World, l: Sock, fd: Sock, e: Event, traces: map<Sock, seq<Event>>)
    requires Sound(cfg, w) && l in w.proxies && fd in w.proxies[l].sockToId
    requires e.m.kind == DISCONNECT && |e.m.payload| == ID_SIZE && IdOf(e.m.payload) == w.proxies[l].sockToId[fd]
    requires w.proxies[l].initiator in traces && SessionsMatch(w, traces)
    ensures var i := w.proxies[l].initiator; SessionsMatch(Forget(w, l, fd), traces[i := traces[i] + [e]])
  {
    var i := w.proxies[l].initiator;
    forall other, id: nat | other in traces
      ensures Held(Forget(w, l, fd), other, id) ==
              if other == i then SessionStep(Held(w, i, id), id, e) else Held(w, other, id)
    {
      ForgetStep(cfg, w, l, fd, e, other, id);
    }
    EventMatches(w, Forget(w, l, fd), traces, i, e);
  }

  // ---------------------------------------------------------------- commands

  lemma SendBytes(w: World, fd: Sock, data: seq<Byte>)
    requires KeysOk(w) && fd in w.loop.queues
    ensures var v := PassOn(w, fd, data);
            && KeysOk(v) && SameBytes(w, v, fd) && v.loop.accepted[fd] == w.loop.accepted[fd] + data
  {
    SendKeepsKeys(w, fd, data);
  }

  lemma SendHeld(cfg: Config, w: World, l: Sock, fd: Sock, data: seq<Byte>, other: Sock, id: nat)
    requires Sound(cfg, w) && l in w.proxies && fd in w.proxies[l].sockToId
    ensures fd in w.read && fd in w.loop.accepted
    ensures var p := w.proxies[l];
            Held(PassOn(w, fd, data), other, id) ==
            if other == p.initiator && id == p.sockToId[fd] then Open(w.read[fd], w.loop.accepted[fd] + data)
            else Held(w, other, id)
  {
    BoundTo(cfg, w, l, fd);
    SendBytes(w, fd, data);
    if other != w.proxies[l].initiator || id != w.proxies[l].sockToId[fd] {
      OthersHeld(cfg, w, PassOn(w, fd, data), l, fd, other, id);
    }
  }

  /** The payload of a PACKET heard goes to the client of its id. */
  lemma SendMatches(cfg: Config, w: World, l: Sock, fd: Sock, m: Message, traces: map<Sock, seq<Event>>)
    requires Sound(cfg, w) && l in w.proxies && fd in w.proxies[l].sockToId
    requires m.kind == PACKET && |m.payload| > ID_SIZE && IdOf(m.payload) == w.proxies[l].sockToId[fd]
    requires w.proxies[l].initiator in traces && SessionsMatch(w, traces)
    ensures var i := w.proxies[l].initiator;
            SessionsMatch(PassOn(w, fd, m.payload[ID_SIZE..]), traces[i := traces[i] + [Heard(m)]])
  {
    var i, data := w.proxies[l].initiator, m.payload[ID_SIZE..];
    var v := PassOn(w, fd, data);
    forall other, id: nat | other in traces
      ensures Held(v, other, id) == if other == i then SessionStep(Held(w, i, id), id, Heard(m)) else Held(w, other, id)
    {
      HeldOpen(cfg, w, l, fd);
      SendHeld(cfg, w, l, fd, data, other, id);
      PacketStep(Held(w, i, id), id, w.proxies[l].sockToId[fd], m);
    }
    EventMatches(w, v, traces, i, Heard(m));
  }

  /** It is a command about a session. */
  predicate Acts(m: Message) {
    (m.kind == PACKET && |m.payload| > ID_SIZE) || (m.kind == DISCONNECT && |m.payload| == ID_SIZE)
  }

  /** A command about nothing that is open leaves the sessions as they are. */
  lemma HeardQuietly(w: World, fd: Sock, m: Message, traces: map<Sock, seq<Event>>)
    requires SessionsMatch(w, traces) && fd in traces
    requires Acts(m) ==> forall id: nat | Names(m, id) :: !Held(w, fd, id).Open?
    ensures SessionsMatch(w, traces[fd := traces[fd] + [Heard(m)]])
  {
    EventMatches(w, w, traces, fd, Heard(m));
  }

  lemma FillMatches(cfg: Config, w: World, fd: Sock, chunk: seq<Byte>, traces: map<Sock, seq<Event>>)
    requires Sound(cfg, w) && fd in w.clients && CanRead(w, fd, chunk) && SessionsMatch(w, traces)
    ensures SessionsMatch(Fill(cfg, w, fd, chunk).0, traces)
  {
    FillBytes(cfg, w, fd, chunk);
    HeldAll(cfg, w, Fill(cfg, w, fd, chunk).0, fd, traces);
  }

  lemma FillBytes(cfg: Config, w: World, fd: Sock, chunk: seq<Byte>)
    requires KeysOk(w) && CanRead(w, fd, chunk)
    ensures var v := Fill(cfg, w, fd, chunk).0;
            KeysOk(v) && SameBytes(w, v, fd) && v.users == w.users && v.proxies == w.proxies
  {
    FillKeepsKeys(cfg, w, fd, chunk);
  }

  lemma WriteMatches(w: World, fd: Sock, k: nat)
    requires CanWrite(w.loop, fd, k) && SessionsMatch(w, w.trace)
    ensures SessionsMatch(w.(loop := WriteSome(w.loop, fd, k)), w.trace)
  {
    var v := w.(loop := WriteSome(w.loop, fd, k));
    forall other, id: nat | other in w.trace ensures SessionMatches(v, w.trace[other], other, id) {
      assert SessionMatches(w, w.trace[other], other, id);
      assert Held(v, other, id) == Held(w, other, id);
    }
  }

  /** A new server has no clients yet. */
  lemma CreatesServerMatches(w: World, fd: Sock, u: User, l: Sock, traces: map<Sock, seq<Event>>)
    requires SessionsMatch(w, traces) && UsersOk(w.users, w.clients, w.proxies) && l !in w.proxies && !HasServer(w, fd)
    requires u.server == Some(l)
    ensures SessionsMatch(w.(users := w.users[fd := u], proxies := w.proxies[l := Proxy(fd, map[], map[], {})]), traces)
  {
    var v := w.(users := w.users[fd := u], proxies := w.proxies[l := Proxy(fd, map[], map[], {})]);
    forall other, id: nat | other in traces ensures SessionMatches(v, traces[other], other, id) {
      assert SessionMatches(w, traces[other], other, id) && ClientOf(v, other, id) == ClientOf(w, other, id);
      assert Held(v, other, id) == Held(w, other, id);
    }
  }

  /** A user's rights are nothing to its sessions. */
  lemma GrantMatches(w: World, fd: Sock, u: User, traces: map<Sock, seq<Event>>)
    requires SessionsMatch(w, traces) && u.server == UserOf(w, fd).server
    ensures SessionsMatch(w.(users := w.users[fd := u]), traces)
  {
    var v := w.(users := w.users[fd := u]);
    forall other, id: nat | other in traces ensures SessionMatches(v, traces[other], other, id) {
      assert SessionMatches(w, traces[other], other, id) && ClientOf(v, other, id) == ClientOf(w, other, id);
      assert Held(v, other, id) == Held(w, other, id);
    }
  }

  // ---------------------------------------------------------------- a control client goes

  lemma LoseServerClients(w: World, fd: Sock, order: seq<Sock>, other: Sock, id: nat)
    requires UsersOk(w.users, w.clients, w.proxies) && Settled(w) && other != fd
    requires HasServer(w, fd) ==> forall s | s in order :: s in w.proxies[UserOf(w, fd).server.value].sockToId
    ensures ClientOf(HangUpControl(w, fd, order), other, id) == ClientOf(w, other, id)
  {
    if HasServer(w, fd) && HasServer(w, other) {
      OfUser(w.users, w.clients, w.proxies, fd);
      OfUser(w.users, w.clients, w.proxies, other);
    }
  }

  /** The clients of another user are not among those that go. */
  lemma OthersStay(cfg: Config, w: World, fd: Sock, other: Sock, id: nat)
    requires Sound(cfg, w) && fd in w.clients && other != fd && ClientOf(w, other, id).Some?
    ensures var s := ClientOf(w, other, id).value;
            && s != fd && s in w.loop.queues
            && (HasServer(w, fd) && UserOf(w, fd).server.value in w.proxies ==>
                s !in w.proxies[UserOf(w, fd).server.value].clients)
  {
    ClientIsRegistered(cfg, w, other, id);
    var s := ClientOf(w, other, id).value;
    OfKeys(w, s);
    if HasServer(w, fd) {
      OfUser(w.users, w.clients, w.proxies, fd);
      var l := UserOf(w, fd).server.value;
      if s in w.proxies[l].clients {
        OfClient(cfg.main, w.loop.linked, w.clients, w.proxies, l, s);
      }
    }
  }

  lemma HangUpControlHeld(cfg: Config, w: World, fd: Sock, order: seq<Sock>, other: Sock, id: nat)
    requires Sound(cfg, w) && Settled(w) && fd in w.clients && other != fd
    requires HasServer(w, fd) ==> forall s | s in order :: s in w.proxies[UserOf(w, fd).server.value].sockToId
    ensures Held(HangUpControl(w, fd, order), other, id) == Held(w, other, id)
  {
    LoseServerClients(w, fd, order, other, id);
    if ClientOf(w, other, id).Some? {
      OthersStay(cfg, w, fd, other, id);
    }
    HeldStays(w, HangUpControl(w, fd, order), other, id);
  }

  lemma HangUpControlMatches(cfg: Config, w: World, fd: Sock, order: seq<Sock>)
    requires Sound(cfg, w) && Settled(w) && fd in w.clients && SessionsMatch(w, w.trace)
    requires HasServer(w, fd) ==> forall s | s in order :: s in w.proxies[UserOf(w, fd).server.value].sockToId
    ensures SessionsMatch(HangUpControl(w, fd, order), HangUpControl(w, fd, order).trace)
  {
    var v := HangUpControl(w, fd, order);
    forall other, id: nat | other in v.trace ensures SessionMatches(v, v.trace[other], other, id) {
      assert SessionMatches(w, w.trace[other], other, id);
      HangUpControlHeld(cfg, w, fd, order, other, id);
    }
  }
}

/** What each thing a control client says comes to: what it is told, and what the server has made of it. */
module TunnelAnswers {
  import opened Bytes
  import opened ByteBuffer
  import opened ProtoSpec
  import opened Framing
  import opened EventLoop
  import opened IdPool
  import opened Tunnel
  import opened TunnelRegistry
  import opened TunnelSessions
  import opened TunnelRuns
  import opened TunnelIsolation
  import opened TunnelSteps

  /** Bytes of the control client on fd are read, and the frame they complete comes to this. */
  ghost predicate Hears(cfg: Config, w: World, e: Signal, fd: Sock, r: Received) {
    && e.Readable? && e.fd == fd && fd in w.loop.linked && w.loop.linked[fd] == Main && CanRead(w, fd, e.data)
    && ReadChunk(cfg.zstd, w.loop.queues[fd].read[0].reader, e.data).1 == [r]
  }

  /** What has passed between the server and fd, and nothing passed between it and others. */
  ghost predicate Passes(w: World, v: World, fd: Sock, events: seq<Event>) {
    fd in w.trace && v.trace == w.trace[fd := w.trace[fd] + events]
  }

  /** Users, proxies, ids and connections are as they were. */
  ghost predicate NothingMade(w: World, v: World) {
    v.users == w.users && v.proxies == w.proxies && SameElse(w, v)
  }

  ghost predicate SameElse(w: World, v: World) {
    v.pool == w.pool && v.clients == w.clients && v.loop.linked == w.loop.linked
  }

  function Heards(r: Received): seq<Event> {
    match r
    case Deliver(m) => [Heard(m)]
    case Reject(_) => []
  }

  lemma FillHears(cfg: Config, w: World, e: Signal, fd: Sock, r: Received)
    requires Sound(cfg, w) && Hears(cfg, w, e, fd, r) && Settled(w)
    ensures var (u, out) := Fill(cfg, w, fd, e.data);
            && out == [r] && Passes(w, u, fd, Heards(r)) && NothingMade(w, u) && Tracked(u.loop) && Settled(u)
            && fd in u.trace
  {
    if r.Reject? {
      assert w.trace[fd] + [] == w.trace[fd];
    }
  }

  lemma NextHears(cfg: Config, w: World, e: Signal, fd: Sock, r: Received)
    requires Proper(cfg) && Inv(cfg, w) && Enabled(cfg, w, e) && Hears(cfg, w, e, fd, r) && Settled(w)
    ensures var u := Fill(cfg, w, fd, e.data).0;
            && Passes(w, u, fd, Heards(r)) && NothingMade(w, u) && Tracked(u.loop) && Settled(u) && fd in u.trace
            && Next(cfg, w, e) == Acted(cfg, u, fd, [r], e.sys)
  {
    FillHears(cfg, w, e, fd, r);
    NextReads(cfg, w, fd, e.data, e.sys);
  }

  /** A step in two: what is heard is noted, and then it is acted on. */
  lemma HeardInRun(cfg: Config, ws: seq<World>, es: seq<Signal>, t: nat, fd: Sock, r: Received) returns (u: World)
    requires IsRun(cfg, ws, es) && t < |es| && Hears(cfg, ws[t], es[t], fd, r)
    ensures Passes(ws[t], u, fd, Heards(r)) && NothingMade(ws[t], u)
    ensures Tracked(u.loop) && Settled(u) && fd in u.trace && ws[t + 1] == Acted(cfg, u, fd, [r], es[t].sys)
  {
    StepOf(cfg, ws, es, t);
    SoundSettles(cfg, ws[t]);
    NextHears(cfg, ws[t], es[t], fd, r);
    u := Fill(cfg, ws[t], fd, es[t].data).0;
  }

  lemma PassesTwice(w: World, u: World, v: World, fd: Sock, a: seq<Event>, b: seq<Event>)
    requires Passes(w, u, fd, a) && Passes(u, v, fd, b)
    ensures Passes(w, v, fd, a + b)
  {
    Associates(w.trace[fd], a, b);
  }

  lemma Telling(cfg: Config, w: World, fd: Sock, m: Message)
    requires Tracked(w.loop) && fd in w.trace
    ensures var v := Tell(cfg, w, fd, m);
            && Passes(w, v, fd, [Told(m)]) && v.users == w.users && v.proxies == w.proxies
            && v.pool == w.pool && v.clients == w.clients && v.loop.linked == w.loop.linked
  {}

  // ---------------------------------------------------------------- commands that make nothing

  /** The answers to a frame that cannot be read, to PING, to AUTH, to STAT and to what is no command. */
  ghost predicate IsAnswer(cfg: Config, r: Received, answers: seq<Event>) {
    match r
    case Reject(code) => answers == [Told(Message(ERROR, [code]))]
    case Deliver(m) =>
      && (m.kind == PING ==> answers == [Told(Message(PING, cfg.serverName))])
      && (m.kind == AUTH ==> answers == [])
      && (m.kind == STAT ==> answers == [Told(Message(ERROR, [NOT_IMPLEMENTED]))])
      && (m.kind !in {PING, CREATE_SERVER, PACKET, DISCONNECT, STAT, AUTH} ==>
          answers == [Told(Message(ERROR, [NO_SUCH_COMMAND]))])
  }

  predicate MakesNothing(r: Received) {
    r.Reject? || r.m.kind !in {CREATE_SERVER, PACKET, DISCONNECT, AUTH}
  }

  lemma NothingMadeOfIt(cfg: Config, u: World, fd: Sock, r: Received, sys: System) returns (answers: seq<Event>)
    requires Tracked(u.loop) && fd in u.trace && Settled(u) && MakesNothing(r)
    ensures var v := Acted(cfg, u, fd, [r], sys);
            IsAnswer(cfg, r, answers) && Passes(u, v, fd, answers) && NothingMade(u, v)
  {
    var m := match r
             case Reject(code) => Message(ERROR, [code])
             case Deliver(m) =>
               if m.kind == PING then Message(PING, cfg.serverName)
               else Message(ERROR, [if m.kind == STAT then NOT_IMPLEMENTED else NO_SUCH_COMMAND]);
    answers := [Told(m)];
    Telling(cfg, u, fd, m);
  }

  /** In every run, whatever a control client says that is neither about a server or its clients nor an
      AUTH is answered once, to that client alone, and changes nothing. */
  lemma AnsweredInEveryRun(cfg: Config, ws: seq<World>, es: seq<Signal>, t: nat, fd: Sock, r: Received)
    returns (answers: seq<Event>)
    requires IsRun(cfg, ws, es) && t < |es| && Hears(cfg, ws[t], es[t], fd, r) && MakesNothing(r)
    ensures IsAnswer(cfg, r, answers)
    ensures Passes(ws[t], ws[t + 1], fd, Heards(r) + answers) && NothingMade(ws[t], ws[t + 1])
  {
    var u := HeardInRun(cfg, ws, es, t, fd, r);
    answers := NothingMadeOfIt(cfg, u, fd, r, es[t].sys);
    PassesTwice(ws[t], u, ws[t + 1], fd, Heards(r), answers);
  }

  // ---------------------------------------------------------------- AUTH

  lemma AuthIsSilent(cfg: Config, u: World, fd: Sock, m: Message, sys: System)
    requires Tracked(u.loop) && fd in u.trace && Settled(u) && m.kind == AUTH
    ensures var v := Acted(cfg, u, fd, [Deliver(m)], sys);
            v.trace == u.trace && v.proxies == u.proxies && SameElse(u, v)
  {}

  /** An AUTH is not answered, whatever it says. */
  lemma SilentInEveryRun(cfg: Config, ws: seq<World>, es: seq<Signal>, t: nat, fd: Sock, m: Message)
    requires IsRun(cfg, ws, es) && t < |es| && Hears(cfg, ws[t], es[t], fd, Deliver(m)) && m.kind == AUTH
    ensures Passes(ws[t], ws[t + 1], fd, [Heard(m)])
    ensures ws[t + 1].proxies == ws[t].proxies && SameElse(ws[t], ws[t + 1])
  {
    var u := HeardInRun(cfg, ws, es, t, fd, Deliver(m));
    AuthIsSilent(cfg, u, fd, m, es[t].sys);
  }

  // ---------------------------------------------------------------- CREATE_SERVER

  /** The port is asked for by one who may, and is taken. */
  predicate PortRefused(w: World, fd: Sock, m: Message, sys: System) {
    |m.payload| == 2 && UserOf(w, fd).canSelectPort && !sys.portAvailable
  }

  /** A server on this socket and port: fd's own, without clients, and nobody else's is changed. */
  ghost predicate ServerMade(w: World, v: World, fd: Sock, listener: Sock) {
    && v.users.Keys == w.users.Keys + {fd} && v.users[fd] == User(Some(listener), UserOf(w, fd).canSelectPort)
    && (forall s | s in w.users && s != fd :: v.users[s] == w.users[s])
    && v.proxies.Keys == w.proxies.Keys + {listener} && v.proxies[listener] == Proxy(fd, map[], map[], {})
    && (forall l | l in w.proxies && l != listener :: v.proxies[l] == w.proxies[l])
  }

  lemma SecondRefused(cfg: Config, u: World, fd: Sock, m: Message, sys: System)
    requires Tracked(u.loop) && fd in u.trace && Settled(u) && m.kind == CREATE_SERVER && HasServer(u, fd)
    ensures var v := Process(cfg, u, fd, m, sys);
            NothingMade(u, v) && Passes(u, v, fd, [Told(Message(ERROR, [SERVER_ALREADY_CREATED]))])
  {
    Telling(cfg, u, fd, Message(ERROR, [SERVER_ALREADY_CREATED]));
  }

  lemma PortIsRefused(cfg: Config, u: World, fd: Sock, m: Message, sys: System)
    requires Tracked(u.loop) && fd in u.trace && Settled(u) && m.kind == CREATE_SERVER
    requires !HasServer(u, fd) && PortRefused(u, fd, m, sys)
    ensures var v := Process(cfg, u, fd, m, sys);
            NothingMade(u, v) && Passes(u, v, fd, [Told(Message(ERROR, [UNAVAILABLE_PORT]))])
  {
    Telling(cfg, u, fd, Message(ERROR, [UNAVAILABLE_PORT]));
  }

  lemma TablesOfServer(u: World, fd: Sock, l: Sock)
    ensures var s := u.(users := u.users[fd := UserOf(u, fd).(server := Some(l))],
                        proxies := u.proxies[l := Proxy(fd, map[], map[], {})]);
            ServerMade(u, s, fd, l) && SameElse(u, s) && s.trace == u.trace && s.loop == u.loop
  {}

  lemma MadeAlike(u: World, s: World, v: World, fd: Sock, l: Sock)
    requires ServerMade(u, s, fd, l) && v.users == s.users && v.proxies == s.proxies
    ensures ServerMade(u, v, fd, l)
  {}

  lemma FirstIsMade(cfg: Config, u: World, fd: Sock, m: Message, sys: System)
    requires Tracked(u.loop) && fd in u.trace && Settled(u) && m.kind == CREATE_SERVER
    requires !HasServer(u, fd) && !PortRefused(u, fd, m, sys)
    ensures var v := Process(cfg, u, fd, m, sys);
            ServerMade(u, v, fd, sys.listener) && SameElse(u, v) &&
            Passes(u, v, fd, [Told(Message(CREATE_SERVER, LittleEndian(sys.port, 2)))])
  {
    var s := u.(users := u.users[fd := UserOf(u, fd).(server := Some(sys.listener))],
                proxies := u.proxies[sys.listener := Proxy(fd, map[], map[], {})]);
    TablesOfServer(u, fd, sys.listener);
    Telling(cfg, s, fd, Message(CREATE_SERVER, LittleEndian(sys.port, 2)));
    MadeAlike(u, s, Process(cfg, u, fd, m, sys), fd, sys.listener);
  }

  lemma PortBytes(port: nat)
    requires port < 0x1_0000
    ensures FromLittleEndian(LittleEndian(port, 2)) == port
  {
    assert Power256(2) == 0x1_0000;
    BytesOfNumber(port, 2);
  }

  /** What comes of CREATE_SERVER in a world: an error, and then nothing is made; or a server. */
  ghost predicate Served(w: World, v: World, fd: Sock, m: Message, sys: System, answer: Message) {
    if HasServer(w, fd) then NothingMade(w, v) && answer == Message(ERROR, [SERVER_ALREADY_CREATED])
    else if PortRefused(w, fd, m, sys) then NothingMade(w, v) && answer == Message(ERROR, [UNAVAILABLE_PORT])
    else
      && ServerMade(w, v, fd, sys.listener) && SameElse(w, v)
      && answer.kind == CREATE_SERVER && |answer.payload| == 2 && FromLittleEndian(answer.payload) == sys.port
  }

  lemma IsServed(cfg: Config, u: World, fd: Sock, m: Message, sys: System) returns (answer: Message)
    requires Tracked(u.loop) && fd in u.trace && Settled(u) && m.kind == CREATE_SERVER && sys.port < 0x1_0000
    ensures var v := Process(cfg, u, fd, m, sys); Passes(u, v, fd, [Told(answer)]) && Served(u, v, fd, m, sys, answer)
  {
    if HasServer(u, fd) {
      answer := Message(ERROR, [SERVER_ALREADY_CREATED]);
      SecondRefused(cfg, u, fd, m, sys);
    } else if PortRefused(u, fd, m, sys) {
      answer := Message(ERROR, [UNAVAILABLE_PORT]);
      PortIsRefused(cfg, u, fd, m, sys);
    } else {
      answer := Message(CREATE_SERVER, LittleEndian(sys.port, 2));
      FirstIsMade(cfg, u, fd, m, sys);
      PortBytes(sys.port);
    }
  }

  lemma ServedBefore(w: World, u: World, v: World, fd: Sock, m: Message, sys: System, answer: Message)
    requires NothingMade(w, u) && Served(u, v, fd, m, sys, answer)
    ensures Served(w, v, fd, m, sys, answer)
  {}

  /** In every run, CREATE_SERVER is answered once.  Who has a server keeps it and is told an error; so is
      who may choose a port and asks for one that is taken.  Everybody else gets a server, on the socket
      and the port the system gives, and is told the port. */
  lemma ServerInEveryRun(cfg: Config, ws: seq<World>, es: seq<Signal>, t: nat, fd: Sock, m: Message)
    returns (answer: Message)
    requires IsRun(cfg, ws, es) && t < |es| && Hears(cfg, ws[t], es[t], fd, Deliver(m)) && m.kind == CREATE_SERVER
    requires es[t].sys.port < 0x1_0000
    ensures Passes(ws[t], ws[t + 1], fd, [Heard(m), Told(answer)])
    ensures Served(ws[t], ws[t + 1], fd, m, es[t].sys, answer)
  {
    var u := HeardInRun(cfg, ws, es, t, fd, Deliver(m));
    answer := IsServed(cfg, u, fd, m, es[t].sys);
    ServedBefore(ws[t], u, ws[t + 1], fd, m, es[t].sys, answer);
    PassesTwice(ws[t], u, ws[t + 1], fd, [Heard(m)], [Told(answer)]);
    assert [Heard(m)] + [Told(answer)] == [Heard(m), Told(answer)];
  }

  // ---------------------------------------------------------------- PACKET and DISCONNECT

  /** What is told of a session command: nothing, or the error. */
  function Refusals(w: World, fd: Sock, m: Message): seq<Event> {
    if Target(w, fd, m).Some? then [] else [Told(Message(ERROR, [Refusal(w, fd, m)]))]
  }

  lemma SessionAnswered(cfg: Config, u: World, fd: Sock, m: Message, sys: System)
    requires Tracked(u.loop) && fd in u.trace && Settled(u) && (m.kind == PACKET || m.kind == DISCONNECT)
    ensures Passes(u, Acted(cfg, u, fd, [Deliver(m)], sys), fd, Refusals(u, fd, m))
  {
    RefusedIff(cfg, u, fd, m, sys);
    assert u.trace[fd] + [] == u.trace[fd];
  }

  lemma SameRefusals(w: World, u: World, fd: Sock, m: Message)
    requires NothingMade(w, u)
    ensures Refusals(u, fd, m) == Refusals(w, fd, m)
  {}

  /** In every run, a PACKET or DISCONNECT is answered, by one error, just if it names no client of the
      user who sent it. */
  lemma RefusedInEveryRun(cfg: Config, ws: seq<World>, es: seq<Signal>, t: nat, fd: Sock, m: Message)
    requires IsRun(cfg, ws, es) && t < |es| && Hears(cfg, ws[t], es[t], fd, Deliver(m))
    requires m.kind == PACKET || m.kind == DISCONNECT
    ensures Passes(ws[t], ws[t + 1], fd, [Heard(m)] + Refusals(ws[t], fd, m))
  {
    var u := HeardInRun(cfg, ws, es, t, fd, Deliver(m));
    SessionAnswered(cfg, u, fd, m, es[t].sys);
    SameRefusals(ws[t], u, fd, m);
    PassesTwice(ws[t], u, ws[t + 1], fd, [Heard(m)], Refusals(ws[t], fd, m));
  }

  // ---------------------------------------------------------------- a session is opened

  /** The frame of CREATE_SERVER without a payload. */
  const ASKS: seq<Byte> := [10, 0]

  lemma AsksIsRead(z: Zstd)
    ensures |ASKS| == 2 && ReadChunk(z, NewMessage, ASKS) == (NewMessage, [Deliver(Message(CREATE_SERVER, []))])
  {}

  /** The one control client has a server, which has no clients yet. */
  ghost predicate HasProxy(w: World, fd: Sock, l: Sock) {
    && w.users == map[fd := User(Some(l), false)] && w.proxies == map[l := Proxy(fd, map[], map[], {})]
    && w.pool == Pool(0, []) && w.loop.linked.Keys == w.loop.queues.Keys == {fd} && fd in w.trace
  }

  lemma ServerComes(cfg: Config, w: World, fd: Sock, sys: System)
    requires Waiting(w, fd, NewMessage) && Tracked(w.loop) && Settled(w)
    ensures CanRead(w, fd, ASKS) && HasProxy(ReadControl(cfg, w, fd, ASKS, sys), fd, sys.listener)
  {
    AsksIsRead(cfg.zstd);
  }

  lemma AsksForServer(cfg: Config, w: World, fd: Sock, sys: System) returns (v: World)
    requires Proper(cfg) && Inv(cfg, w) && Free(cfg, fd, sys) && Waiting(w, fd, NewMessage)
    ensures IsStep(cfg, w, Readable(fd, ASKS, sys), v) && HasProxy(v, fd, sys.listener)
  {
    v := Says(cfg, w, fd, NewMessage, ASKS, sys);
    ServerComes(cfg, w, fd, sys);
  }

  /** It has one client, from which this was read, and which was sent nothing. */
  ghost predicate HasClient(w: World, fd: Sock, l: Sock, c: Sock, data: seq<Byte>) {
    && UserOf(w, fd).server == Some(l) && w.proxies == map[l := Proxy(fd, map[c := 0], map[0 := c], {c})]
    && c in w.loop.linked && w.loop.linked[c] == Tunnel(l) && c in w.read && w.read[c] == data
    && c in w.loop.accepted && w.loop.accepted[c] == [] && fd in w.trace
  }

  lemma FirstIsBound(fd: Sock, c: Sock)
    ensures Bind(Proxy(fd, map[], map[], {}), c, 0) == Proxy(fd, map[c := 0], map[0 := c], {c})
  {}

  lemma ClientAdmitted(w: World, fd: Sock, l: Sock, c: Sock)
    requires Tracked(w.loop) && HasProxy(w, fd, l) && c != fd
    ensures HasClient(Admit(w, l, c), fd, l, c, []) && Tracked(Admit(w, l, c).loop)
  {
    var v := Admit(w, l, c);
    FirstIsBound(fd, c);
    assert v.proxies == w.proxies[l := Bind(Proxy(fd, map[], map[], {}), c, 0)];
  }

  lemma ClientComes(cfg: Config, w: World, fd: Sock, l: Sock, c: Sock)
    requires Tracked(w.loop) && HasProxy(w, fd, l) && c != fd
    ensures HasClient(AcceptProxied(cfg, w, l, c), fd, l, c, [])
  {
    FirstIsBound(fd, c);
    ClientAdmitted(w, fd, l, c);
    Telling(cfg, Admit(w, l, c), fd, Message(CONNECTED, IdBytes(0)));
  }

  lemma CanAccept(cfg: Config, w: World, fd: Sock, l: Sock, c: Sock)
    requires HasProxy(w, fd, l) && c != fd && c != l && c != cfg.main
    ensures Enabled(cfg, w, ClientConnects(l, c)) && l in w.proxies && w.proxies[l].initiator in w.trace
  {}

  lemma NextAccepts(cfg: Config, w: World, l: Sock, c: Sock)
    requires Proper(cfg) && Inv(cfg, w) && Enabled(cfg, w, ClientConnects(l, c)) && Tracked(w.loop)
    requires l in w.proxies && w.proxies[l].initiator in w.trace
    ensures Next(cfg, w, ClientConnects(l, c)) == AcceptProxied(cfg, w, l, c)
  {}

  lemma AcceptsClient(cfg: Config, w: World, fd: Sock, l: Sock, c: Sock) returns (v: World)
    requires Proper(cfg) && Inv(cfg, w) && HasProxy(w, fd, l) && c != fd && c != l && c != cfg.main
    ensures IsStep(cfg, w, ClientConnects(l, c), v) && HasClient(v, fd, l, c, [])
  {
    CanAccept(cfg, w, fd, l, c);
    NextAccepts(cfg, w, l, c);
    ClientComes(cfg, w, fd, l, c);
    v := Next(cfg, w, ClientConnects(l, c));
  }

  lemma DataComes(cfg: Config, w: World, fd: Sock, l: Sock, c: Sock, data: seq<Byte>)
    requires Tracked(w.loop) && HasClient(w, fd, l, c, []) && c != fd
    ensures HasClient(ReadProxied(cfg, w, l, c, data), fd, l, c, data)
  {
    assert [] + data == data;
  }

  lemma CarriesData(cfg: Config, w: World, fd: Sock, l: Sock, c: Sock, data: seq<Byte>, sys: System) returns (v: World)
    requires Proper(cfg) && Inv(cfg, w) && HasClient(w, fd, l, c, []) && c != fd && 0 < |data| <= REDIR_BUF_SIZE
    ensures IsStep(cfg, w, Readable(c, data, sys), v) && HasClient(v, fd, l, c, data)
  {
    v := Next(cfg, w, Readable(c, data, sys));
    DataComes(cfg, w, fd, l, c, data);
  }

  lemma ServerIsReached(cfg: Config, fd: Sock, sys: System) returns (ws: seq<World>, es: seq<Signal>, w: World)
    requires Proper(cfg) && Free(cfg, fd, sys)
    ensures ComesTo(cfg, ws, es, 2, w) && HasProxy(w, fd, sys.listener)
  {
    ws, es, w := FirstConnects(cfg, fd);
    LastOfRun(cfg, ws, es, 1, w);
    var v := AsksForServer(cfg, w, fd, sys);
    GoesOn(cfg, ws, es, 1, w, Readable(fd, ASKS, sys), v);
    ws, es, w := ws + [v], es + [Readable(fd, ASKS, sys)], v;
  }

  lemma ClientIsReached(cfg: Config, fd: Sock, c: Sock, sys: System) returns (ws: seq<World>, es: seq<Signal>, w: World)
    requires Proper(cfg) && Free(cfg, fd, sys) && c != fd && c != sys.listener && c != cfg.main
    ensures ComesTo(cfg, ws, es, 3, w) && HasClient(w, fd, sys.listener, c, [])
  {
    ws, es, w := ServerIsReached(cfg, fd, sys);
    LastOfRun(cfg, ws, es, 2, w);
    var v := AcceptsClient(cfg, w, fd, sys.listener, c);
    GoesOn(cfg, ws, es, 2, w, ClientConnects(sys.listener, c), v);
    ws, es, w := ws + [v], es + [ClientConnects(sys.listener, c)], v;
  }

  lemma DataIsReached(cfg: Config, fd: Sock, c: Sock, sys: System, data: seq<Byte>)
    returns (ws: seq<World>, es: seq<Signal>, w: World)
    requires Proper(cfg) && Free(cfg, fd, sys) && c != fd && c != sys.listener && c != cfg.main
    requires 0 < |data| <= REDIR_BUF_SIZE
    ensures ComesTo(cfg, ws, es, 4, w) && HasClient(w, fd, sys.listener, c, data)
  {
    ws, es, w := ClientIsReached(cfg, fd, c, sys);
    LastOfRun(cfg, ws, es, 3, w);
    var v := CarriesData(cfg, w, fd, sys.listener, c, data, sys);
    GoesOn(cfg, ws, es, 3, w, Readable(c, data, sys), v);
    ws, es, w := ws + [v], es + [Readable(c, data, sys)], v;
  }

  lemma HoldsOpen(w: World, fd: Sock, l: Sock, c: Sock, data: seq<Byte>)
    requires HasClient(w, fd, l, c, data)
    ensures Held(w, fd, 0) == Open(data, [])
  {
    assert ClientOf(w, fd, 0) == Some(c);
  }

  lemma SessionIsOpen(w: World, fd: Sock, l: Sock, c: Sock, data: seq<Byte>)
    requires SessionsMatch(w, w.trace) && HasClient(w, fd, l, c, data)
    ensures SessionOf(w.trace[fd], 0) == Open(data, [])
  {
    HoldsOpen(w, fd, l, c, data);
    assert SessionMatches(w, w.trace[fd], fd, 0);
  }

  /** A run of four steps: a control client connects and asks for a server, a client connects to that and
      sends something; the control client has been told that under id 0. */
  lemma SessionIsReached(cfg: Config, fd: Sock, c: Sock, sys: System, data: seq<Byte>)
    returns (ws: seq<World>, es: seq<Signal>, w: World)
    requires Proper(cfg) && Free(cfg, fd, sys) && c != fd && c != sys.listener && c != cfg.main
    requires 0 < |data| <= REDIR_BUF_SIZE
    ensures ComesTo(cfg, ws, es, 4, w) && fd in w.trace && SessionOf(w.trace[fd], 0) == Open(data, [])
  {
    ws, es, w := DataIsReached(cfg, fd, c, sys, data);
    LastOfRun(cfg, ws, es, 4, w);
    SessionIsOpen(w, fd, sys.listener, c, data);
  }
}

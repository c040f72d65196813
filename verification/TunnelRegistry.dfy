/** The registry of connected sockets and the table of users. */
module TunnelRegistry {
  import opened Bytes
  import opened Framing
  import opened EventLoop
  import opened IdPool
  import opened Tunnel
  import opened TunnelIds

  /** A socket is registered for an observer if and only if it is one of that observer's clients;
      listening sockets are not registered. */
  ghost predicate Registered(main: Sock, linked: map<Sock, Observer>, clients: set<Sock>, proxies: map<Sock, Proxy>) {
    && (forall s | s in linked ::
          match linked[s]
          case Main => s in clients
          case Tunnel(l) => l in proxies && s in proxies[l].clients)
    && (forall s | s in clients :: s in linked && linked[s] == Main)
    && (forall l, s | l in proxies && s in proxies[l].clients :: s in linked && linked[s] == Tunnel(l))
    && (forall l | l in proxies :: l !in linked)
    && main !in linked && main !in proxies
  }

  /** The users that have a server are the initiators of the proxies, one each. */
  ghost predicate UsersOk(users: map<Sock, User>, clients: set<Sock>, proxies: map<Sock, Proxy>) {
    && (forall fd | fd in users && users[fd].server.Some? ::
          fd in clients && users[fd].server.value in proxies && proxies[users[fd].server.value].initiator == fd)
    && (forall l | l in proxies ::
          proxies[l].initiator in users && users[proxies[l].initiator].server == Some(l))
  }

  /** Just the registered sockets have queues, and just the main server's clients a trace. */
  ghost predicate KeysOk(w: World) {
    && Tracked(w.loop)
    && w.loop.queues.Keys == w.loop.linked.Keys == w.read.Keys
    && w.loop.armed <= w.loop.linked.Keys
    && w.trace.Keys == w.clients
  }

  ghost predicate Sound(cfg: Config, w: World) {
    && Registered(cfg.main, w.loop.linked, w.clients, w.proxies)
    && UsersOk(w.users, w.clients, w.proxies)
    && IdsOk(w.pool, w.proxies) && w.pool.last <= SOCKETS
    && KeysOk(w)
  }

  // ---------------------------------------------------------------- the registry, change by change

  lemma ControlComes(main: Sock, linked: map<Sock, Observer>, clients: set<Sock>, proxies: map<Sock, Proxy>, fd: Sock)
    requires Registered(main, linked, clients, proxies) && fd !in linked && fd !in proxies && fd != main
    ensures Registered(main, linked[fd := Main], clients + {fd}, proxies)
  {}

  lemma ControlGoes(main: Sock, linked: map<Sock, Observer>, clients: set<Sock>, proxies: map<Sock, Proxy>, fd: Sock)
    requires Registered(main, linked, clients, proxies) && fd in clients
    ensures Registered(main, linked - {fd}, clients - {fd}, proxies)
  {}

  lemma ClientComes(main: Sock, linked: map<Sock, Observer>, clients: set<Sock>, proxies: map<Sock, Proxy>, l: Sock,
                    p: Proxy, fd: Sock)
    requires Registered(main, linked, clients, proxies) && fd !in linked && fd !in proxies && fd != main
    requires l in proxies && p.clients == proxies[l].clients + {fd}
    ensures Registered(main, linked[fd := Tunnel(l)], clients, proxies[l := p])
  {}

  lemma ClientGoes(main: Sock, linked: map<Sock, Observer>, clients: set<Sock>, proxies: map<Sock, Proxy>, l: Sock,
                   p: Proxy, fd: Sock)
    requires Registered(main, linked, clients, proxies)
    requires l in proxies && fd in proxies[l].clients && p.clients == proxies[l].clients - {fd}
    ensures Registered(main, linked - {fd}, clients, proxies[l := p])
  {
    assert linked[fd] == Tunnel(l) && fd !in clients;
    forall m, s | m in proxies[l := p] && s in proxies[l := p][m].clients
      ensures s in linked - {fd} && linked[s] == Tunnel(m)
    {
      assert s in proxies[m].clients && s in linked && linked[s] == Tunnel(m);
    }
  }

  lemma ProxyComes(main: Sock, linked: map<Sock, Observer>, clients: set<Sock>, proxies: map<Sock, Proxy>,
                   l: Sock, p: Proxy)
    requires Registered(main, linked, clients, proxies) && l !in linked && l !in proxies && l != main && p.clients == {}
    ensures Registered(main, linked, clients, proxies[l := p])
  {}

  lemma ProxyGoes(main: Sock, linked: map<Sock, Observer>, clients: set<Sock>, proxies: map<Sock, Proxy>, l: Sock)
    requires Registered(main, linked, clients, proxies) && l in proxies
    ensures Registered(main, linked - proxies[l].clients, clients, proxies - {l})
  {}

  lemma UserComes(users: map<Sock, User>, clients: set<Sock>, proxies: map<Sock, Proxy>, fd: Sock, u: User,
                  l: Sock, p: Proxy)
    requires UsersOk(users, clients, proxies) && fd in clients && l !in proxies
    requires fd in users ==> users[fd].server == None
    requires u.server == Some(l) && p.initiator == fd
    ensures UsersOk(users[fd := u], clients, proxies[l := p])
  {}

  lemma UserGoes(users: map<Sock, User>, clients: set<Sock>, proxies: map<Sock, Proxy>, fd: Sock, l: Sock)
    requires UsersOk(users, clients, proxies) && fd in users && users[fd].server == Some(l)
    ensures UsersOk(users - {fd}, clients - {fd}, proxies - {l})
  {}

  // ---------------------------------------------------------------- looking things up

  lemma OfUser(users: map<Sock, User>, clients: set<Sock>, proxies: map<Sock, Proxy>, fd: Sock)
    requires UsersOk(users, clients, proxies) && fd in users && users[fd].server.Some?
    ensures var l := users[fd].server.value; l in proxies && proxies[l].initiator == fd && fd in clients
  {}

  lemma OfProxy(users: map<Sock, User>, clients: set<Sock>, proxies: map<Sock, Proxy>, l: Sock)
    requires UsersOk(users, clients, proxies) && l in proxies
    ensures var fd := proxies[l].initiator; fd in clients && fd in users && users[fd].server == Some(l)
  {}

  lemma OfClient(main: Sock, linked: map<Sock, Observer>, clients: set<Sock>, proxies: map<Sock, Proxy>,
                 l: Sock, s: Sock)
    requires Registered(main, linked, clients, proxies) && l in proxies && s in proxies[l].clients
    ensures s in linked && linked[s] == Tunnel(l) && s !in clients
  {}

  lemma OfKeys(w: World, s: Sock)
    requires KeysOk(w) && s in w.loop.linked
    ensures s in w.loop.queues && s in w.read && s in w.loop.accepted
  {}

  lemma SoundSettles(cfg: Config, w: World)
    requires Sound(cfg, w)
    ensures Settled(w)
  {}

  lemma ClientsApart(main: Sock, linked: map<Sock, Observer>, clients: set<Sock>, proxies: map<Sock, Proxy>)
    requires Registered(main, linked, clients, proxies)
    ensures NoClientTwice(proxies)
  {
    forall l, m, s | l in proxies && m in proxies && s in proxies[l].clients && s in proxies[m].clients ensures l == m {
      assert linked[s] == Tunnel(l) && linked[s] == Tunnel(m);
    }
  }

  // ---------------------------------------------------------------- telling

  /** What a message to a control client changes, and what it leaves. */
  lemma Tells(cfg: Config, w: World, fd: Sock, m: Message)
    requires Lawful(cfg.zstd) && Tracked(w.loop) && fd in w.trace && fd in w.loop.queues && QueueOk(w.loop, fd)
    ensures var v := Tell(cfg, w, fd, m);
            && v == w.(loop := v.loop, trace := w.trace[fd := w.trace[fd] + [Told(m)]])
            && v.loop.queues.Keys == w.loop.queues.Keys && v.loop.linked == w.loop.linked
            && v.loop.accepted == w.loop.accepted[fd := w.loop.accepted[fd] + Encode(cfg.zstd, m)]
            && v.loop.handed == w.loop.handed
            && QueueOk(v.loop, fd) && v.loop.queues[fd].read == w.loop.queues[fd].read
            && (forall s | s in w.loop.queues && s != fd ::
                  v.loop.queues[s] == w.loop.queues[s] && (s in v.loop.armed <==> s in w.loop.armed))
  {
    SendsFrame(w.loop, cfg.zstd, fd, m);
  }

  lemma TellKeepsKeys(cfg: Config, w: World, fd: Sock, m: Message)
    requires Lawful(cfg.zstd) && KeysOk(w) && fd in w.trace && fd in w.loop.queues && QueueOk(w.loop, fd)
    ensures KeysOk(Tell(cfg, w, fd, m))
  {
    Tells(cfg, w, fd, m);
  }

  lemma TellKeepsSound(cfg: Config, w: World, fd: Sock, m: Message)
    requires Lawful(cfg.zstd) && Sound(cfg, w) && fd in w.trace && QueueOk(w.loop, fd)
    ensures Sound(cfg, Tell(cfg, w, fd, m))
  {
    TellKeepsKeys(cfg, w, fd, m);
    Tells(cfg, w, fd, m);
  }

  // ---------------------------------------------------------------- event by event

  lemma AcceptControlKeepsKeys(w: World, fd: Sock)
    requires KeysOk(w) && fd !in w.loop.queues
    ensures KeysOk(AcceptControl(w, fd))
  {}

  lemma AcceptControlKeepsSound(cfg: Config, w: World, fd: Sock)
    requires Sound(cfg, w) && Unused(cfg, w, fd)
    ensures Sound(cfg, AcceptControl(w, fd))
  {
    AcceptControlKeepsKeys(w, fd);
    ControlComes(cfg.main, w.loop.linked, w.clients, w.proxies, fd);
    UsersStay(w.users, w.clients, w.proxies, fd);
  }

  lemma UsersStay(users: map<Sock, User>, clients: set<Sock>, proxies: map<Sock, Proxy>, fd: Sock)
    requires UsersOk(users, clients, proxies)
    ensures UsersOk(users, clients + {fd}, proxies)
  {}

  /** A proxy's clients may come and go without a user noticing. */
  lemma UsersUnmoved(users: map<Sock, User>, clients: set<Sock>, proxies: map<Sock, Proxy>, l: Sock, p: Proxy)
    requires UsersOk(users, clients, proxies) && l in proxies && p.initiator == proxies[l].initiator
    ensures UsersOk(users, clients, proxies[l := p])
  {}

  lemma AdmitKeepsKeys(w: World, l: Sock, fd: Sock)
    requires KeysOk(w) && fd !in w.loop.queues && l in w.proxies
    ensures KeysOk(Admit(w, l, fd))
  {}

  lemma AdmitKeepsSound(cfg: Config, w: World, l: Sock, fd: Sock)
    requires Sound(cfg, w) && Unused(cfg, w, fd) && l in w.proxies
    ensures Sound(cfg, Admit(w, l, fd))
  {
    AdmitKeepsKeys(w, l, fd);
    var q := Bind(w.proxies[l], fd, Get(w.pool).1);
    IsNoClient(cfg.main, w.loop.linked, w.clients, w.proxies, l, fd);
    ClientComes(cfg.main, w.loop.linked, w.clients, w.proxies, l, q, fd);
    BindingKeepsIds(cfg.main, w.loop.linked[fd := Tunnel(l)], w.clients, w.proxies, w.pool, l, fd);
    UsersUnmoved(w.users, w.clients, w.proxies, l, q);
  }

  lemma IsNoClient(main: Sock, linked: map<Sock, Observer>, clients: set<Sock>, proxies: map<Sock, Proxy>,
                   l: Sock, fd: Sock)
    requires Registered(main, linked, clients, proxies) && l in proxies && Paired(proxies[l]) && fd !in linked
    ensures fd !in proxies[l].sockToId
  {}

  lemma BindingKeepsIds(main: Sock, linked: map<Sock, Observer>, clients: set<Sock>,
                        proxies: map<Sock, Proxy>, pool: Pool, l: Sock, fd: Sock)
    requires IdsOk(pool, proxies) && pool.last <= SOCKETS && l in proxies && fd !in proxies[l].sockToId
    requires Registered(main, linked, clients, proxies[l := Bind(proxies[l], fd, Get(pool).1)])
    ensures var (pool', id) := Get(pool);
            IdsOk(pool', proxies[l := Bind(proxies[l], fd, id)]) && pool'.last <= SOCKETS
  {
    var proxies' := proxies[l := Bind(proxies[l], fd, Get(pool).1)];
    BindKeeps(pool, proxies, l, fd);
    LastStays(main, linked, clients, proxies', pool, LiveIds(proxies));
  }

  lemma LastStays(main: Sock, linked: map<Sock, Observer>, clients: set<Sock>, proxies': map<Sock, Proxy>, pool: Pool,
                  live: set<nat>)
    requires Registered(main, linked, clients, proxies') && (forall l | l in proxies' :: Paired(proxies'[l]))
    requires Partitions(pool, live) && pool.last <= SOCKETS && LiveIds(proxies') == live + {Get(pool).1}
    ensures Get(pool).0.last <= SOCKETS
  {
    ClientsApart(main, linked, clients, proxies');
    LastKeeps(pool, live, proxies');
  }

  /** Nothing but queues and what was read: the registry does not notice. */
  lemma TrafficKeepsSound(cfg: Config, w: World, v: World)
    requires Sound(cfg, w) && KeysOk(v)
    requires v.loop.linked == w.loop.linked && v.clients == w.clients && v.users == w.users
    requires v.proxies == w.proxies && v.pool == w.pool
    ensures Sound(cfg, v)
  {}

  lemma ReadMoreKeepsSound(cfg: Config, w: World, fd: Sock, data: seq<Byte>)
    requires Sound(cfg, w) && fd in w.read
    ensures Sound(cfg, w.(read := w.read[fd := w.read[fd] + data]))
  {
    ReadMoreKeepsKeys(w, fd, data);
    TrafficKeepsSound(cfg, w, w.(read := w.read[fd := w.read[fd] + data]));
  }

  lemma ReadMoreKeepsKeys(w: World, fd: Sock, data: seq<Byte>)
    requires KeysOk(w) && fd in w.read
    ensures KeysOk(w.(read := w.read[fd := w.read[fd] + data]))
  {}

  lemma FillKeepsKeys(cfg: Config, w: World, fd: Sock, chunk: seq<Byte>)
    requires KeysOk(w) && CanRead(w, fd, chunk)
    ensures KeysOk(Fill(cfg, w, fd, chunk).0)
  {}

  lemma FillKeepsSound(cfg: Config, w: World, fd: Sock, chunk: seq<Byte>)
    requires Sound(cfg, w) && CanRead(w, fd, chunk)
    ensures Sound(cfg, Fill(cfg, w, fd, chunk).0)
  {
    FillKeepsKeys(cfg, w, fd, chunk);
    TrafficKeepsSound(cfg, w, Fill(cfg, w, fd, chunk).0);
  }

  lemma SendKeepsSound(cfg: Config, w: World, fd: Sock, bytes: seq<Byte>)
    requires Sound(cfg, w) && fd in w.loop.queues
    ensures Sound(cfg, PassOn(w, fd, bytes))
  {
    SendKeepsKeys(w, fd, bytes);
    TrafficKeepsSound(cfg, w, PassOn(w, fd, bytes));
  }

  lemma SendKeepsKeys(w: World, fd: Sock, bytes: seq<Byte>)
    requires KeysOk(w) && fd in w.loop.queues
    ensures KeysOk(PassOn(w, fd, bytes))
  {}

  lemma WriteKeepsKeys(w: World, fd: Sock, k: nat)
    requires KeysOk(w) && CanWrite(w.loop, fd, k)
    ensures KeysOk(w.(loop := WriteSome(w.loop, fd, k)))
  {}

  lemma WriteKeepsSound(cfg: Config, w: World, fd: Sock, k: nat)
    requires Sound(cfg, w) && CanWrite(w.loop, fd, k)
    ensures Sound(cfg, w.(loop := WriteSome(w.loop, fd, k)))
  {
    WriteKeepsKeys(w, fd, k);
    TrafficKeepsSound(cfg, w, w.(loop := WriteSome(w.loop, fd, k)));
  }

  lemma AuthKeepsSound(cfg: Config, w: World, fd: Sock)
    requires Sound(cfg, w)
    ensures Sound(cfg, w.(users := w.users[fd := UserOf(w, fd).(canSelectPort := true)]))
  {
    UserGranted(w.users, w.clients, w.proxies, fd, UserOf(w, fd).(canSelectPort := true));
  }

  lemma UserGranted(users: map<Sock, User>, clients: set<Sock>, proxies: map<Sock, Proxy>, fd: Sock, u: User)
    requires UsersOk(users, clients, proxies)
    requires u.server == if fd in users then users[fd].server else None
    ensures UsersOk(users[fd := u], clients, proxies)
  {}

  lemma CreatesServerKeepsSound(cfg: Config, w: World, fd: Sock, l: Sock)
    requires Sound(cfg, w) && fd in w.clients && !HasServer(w, fd) && Unused(cfg, w, l)
    ensures Sound(cfg, w.(users := w.users[fd := UserOf(w, fd).(server := Some(l))],
                          proxies := w.proxies[l := Proxy(fd, map[], map[], {})]))
  {
    var p := Proxy(fd, map[], map[], {});
    ProxyComes(cfg.main, w.loop.linked, w.clients, w.proxies, l, p);
    UserComes(w.users, w.clients, w.proxies, fd, UserOf(w, fd).(server := Some(l)), l, p);
    OpenKeeps(w.pool, w.proxies, l, fd);
  }

  lemma ForgetKeepsKeys(w: World, l: Sock, fd: Sock)
    requires KeysOk(w) && l in w.proxies && fd in w.proxies[l].sockToId
    ensures KeysOk(Forget(w, l, fd))
  {}

  lemma ForgetKeepsSound(cfg: Config, w: World, l: Sock, fd: Sock)
    requires Sound(cfg, w) && l in w.proxies && fd in w.proxies[l].sockToId
    ensures Sound(cfg, Forget(w, l, fd))
  {
    var p := Unbind(w.proxies[l], fd);
    ForgetKeepsKeys(w, l, fd);
    ClientGoes(cfg.main, w.loop.linked, w.clients, w.proxies, l, p, fd);
    UsersUnmoved(w.users, w.clients, w.proxies, l, p);
    UnbindKeeps(w.pool, w.proxies, l, fd);
  }

  lemma CloseKeepsKeys(w: World, l: Sock, order: seq<Sock>)
    requires KeysOk(w) && l in w.proxies && forall s | s in order :: s in w.proxies[l].sockToId
    ensures KeysOk(CloseProxy(w, l, order))
  {}

  lemma LeaveKeepsKeys(w: World, fd: Sock)
    requires KeysOk(w)
    ensures KeysOk(Leave(w, fd))
  {}

  lemma LoseServerKeepsSound(cfg: Config, w: World, fd: Sock, order: seq<Sock>)
    requires Sound(cfg, w) && Settled(w) && fd in w.clients
    requires HasServer(w, fd) ==> Enumerates(order, w.proxies[UserOf(w, fd).server.value].sockToId.Keys)
    ensures var v := LoseServer(w, fd, order);
            && KeysOk(v) && Registered(cfg.main, v.loop.linked, v.clients, v.proxies)
            && UsersOk(v.users, v.clients - {fd}, v.proxies) && IdsOk(v.pool, v.proxies)
            && v.pool.last <= SOCKETS && v.clients == w.clients
  {
    if HasServer(w, fd) {
      var l := w.users[fd].server.value;
      CloseKeepsKeys(w, l, order);
      ProxyGoes(cfg.main, w.loop.linked, w.clients, w.proxies, l);
      UserGoes(w.users, w.clients, w.proxies, fd, l);
      CloseKeeps(w.pool, w.proxies, l, order);
    } else {
      UserLeaves(w.users, w.clients, w.proxies, fd);
    }
  }

  lemma HangUpControlKeepsSound(cfg: Config, w: World, fd: Sock, order: seq<Sock>)
    requires Sound(cfg, w) && Settled(w) && fd in w.clients
    requires HasServer(w, fd) ==> Enumerates(order, w.proxies[UserOf(w, fd).server.value].sockToId.Keys)
    ensures Sound(cfg, HangUpControl(w, fd, order))
  {
    LoseServerKeepsSound(cfg, w, fd, order);
    var v := LoseServer(w, fd, order);
    LeaveKeepsKeys(v, fd);
    ControlGoes(cfg.main, v.loop.linked, v.clients, v.proxies, fd);
  }

  lemma UserLeaves(users: map<Sock, User>, clients: set<Sock>, proxies: map<Sock, Proxy>, fd: Sock)
    requires UsersOk(users, clients, proxies) && (fd in users ==> users[fd].server == None)
    ensures UsersOk(users, clients - {fd}, proxies)
  {}
}

/** Who may choose a port: the rights an AUTH grants, and how long they last. */
module TunnelRights {
  import opened Bytes
  import opened ProtoSpec
  import opened Framing
  import opened EventLoop
  import opened IdPool
  import opened Tunnel
  import opened TunnelRegistry
  import opened TunnelRuns
  import opened TunnelSteps

  predicate MaySelectPort(w: World, fd: Sock) {
    UserOf(w, fd).canSelectPort
  }

  /** An AUTH with the server's magic is heard from fd. */
  ghost predicate Authorizes(cfg: Config, w: World, v: World, fd: Sock) {
    fd in w.trace && fd in v.trace && v.trace[fd] == w.trace[fd] + [Heard(Message(AUTH, cfg.magic))]
  }

  /** The entry of fd is removed. */
  predicate Removes(w: World, v: World, fd: Sock) {
    fd in w.users && fd !in v.users
  }

  /** The rights of fd are those it had, but for these two. */
  ghost predicate Grants(cfg: Config, w: World, v: World, fd: Sock) {
    MaySelectPort(v, fd) <==> Authorizes(cfg, w, v, fd) || (MaySelectPort(w, fd) && !Removes(w, v, fd))
  }

  // ---------------------------------------------------------------- what is said

  /** fd is told something at most. */
  ghost predicate Answers(before: map<Sock, seq<Event>>, after: map<Sock, seq<Event>>, fd: Sock)
    requires fd in before
  {
    after == before || exists m :: after == before[fd := before[fd] + [Told(m)]]
  }

  /** What is told is no AUTH. */
  lemma ToldIsNotHeard(cfg: Config, w: World, v: World, fd: Sock, s: Sock)
    requires fd in w.trace && Answers(w.trace, v.trace, fd)
    ensures !Authorizes(cfg, w, v, s)
  {
    if v.trace == w.trace {
      assert s in w.trace ==> |v.trace[s]| == |w.trace[s]|;
    } else {
      var told :| v.trace == w.trace[fd := w.trace[fd] + [Told(told)]];
      assert v.trace[fd][|w.trace[fd]|] == Told(told);
      assert s in w.trace && s != fd ==> |v.trace[s]| == |w.trace[s]|;
    }
  }

  /** And neither is any other message, answered or not. */
  lemma HeardIsTold(cfg: Config, w: World, v: World, fd: Sock, m: Message, s: Sock)
    requires fd in w.trace && Answers(w.trace[fd := w.trace[fd] + [Heard(m)]], v.trace, fd)
    requires m.kind == AUTH ==> v.trace == w.trace[fd := w.trace[fd] + [Heard(m)]]
    ensures Authorizes(cfg, w, v, s) <==> s == fd && m == Message(AUTH, cfg.magic)
  {
    var trace := w.trace[fd := w.trace[fd] + [Heard(m)]];
    assert trace[fd][|w.trace[fd]|] == Heard(m);
    if v.trace != trace {
      var told :| v.trace == trace[fd := trace[fd] + [Told(told)]];
      assert |v.trace[fd]| == |w.trace[fd]| + 2;
    }
  }

  // ---------------------------------------------------------------- commands

  /** The rights are the same, of all but one who may get them, and no entry is removed. */
  ghost predicate Keeps(w: World, v: World, fd: Sock, granted: bool) {
    && (forall s :: MaySelectPort(v, s) <==> MaySelectPort(w, s) || (s == fd && granted))
    && (forall s | s in w.users :: s in v.users)
  }

  lemma TellGrantsNothing(cfg: Config, w: World, fd: Sock, m: Message)
    requires Tracked(w.loop) && fd in w.trace
    ensures var v := Tell(cfg, w, fd, m); v.users == w.users && Answers(w.trace, v.trace, fd)
  {}

  lemma RefusingGrantsNothing(cfg: Config, w: World, fd: Sock)
    requires Tracked(w.loop) && fd in w.trace
    ensures forall code :: var v := Refuse(cfg, w, fd, code); v.users == w.users && Answers(w.trace, v.trace, fd)
  {
    forall code ensures var v := Refuse(cfg, w, fd, code); v.users == w.users && Answers(w.trace, v.trace, fd) {
      TellGrantsNothing(cfg, w, fd, Message(ERROR, [code]));
    }
  }

  lemma PacketGrantsNothing(cfg: Config, w: World, fd: Sock, payload: seq<Byte>)
    requires Tracked(w.loop) && fd in w.trace && Settled(w)
    ensures var v := Packet(cfg, w, fd, payload); v.users == w.users && Answers(w.trace, v.trace, fd)
  {
    RefusingGrantsNothing(cfg, w, fd);
  }

  lemma DisconnectGrantsNothing(cfg: Config, w: World, fd: Sock, payload: seq<Byte>)
    requires Tracked(w.loop) && fd in w.trace && Settled(w)
    ensures var v := Disconnect(cfg, w, fd, payload); v.users == w.users && Answers(w.trace, v.trace, fd)
  {
    RefusingGrantsNothing(cfg, w, fd);
  }

  lemma ServerGrantsNothing(cfg: Config, w: World, fd: Sock, payload: seq<Byte>, sys: System)
    requires Tracked(w.loop) && fd in w.trace
    ensures var v := CreateServer(cfg, w, fd, payload, sys);
            Keeps(w, v, fd, false) && Answers(w.trace, v.trace, fd)
  {}

  lemma AuthGrants(cfg: Config, w: World, fd: Sock, payload: seq<Byte>)
    ensures var v := Auth(cfg, w, fd, payload); Keeps(w, v, fd, payload == cfg.magic) && v.trace == w.trace
  {}

  lemma OtherGrantsNothing(cfg: Config, w: World, fd: Sock, m: Message, sys: System)
    requires Tracked(w.loop) && fd in w.trace && Settled(w)
    requires m.kind !in {CREATE_SERVER, PACKET, DISCONNECT, AUTH}
    ensures var v := Process(cfg, w, fd, m, sys); v.users == w.users && Answers(w.trace, v.trace, fd)
  {
    TellGrantsNothing(cfg, w, fd, if m.kind == PING then Message(PING, cfg.serverName)
                                  else Message(ERROR, [if m.kind == STAT then NOT_IMPLEMENTED else NO_SUCH_COMMAND]));
  }

  /** Just one command grants rights. */
  lemma ProcessGrants(cfg: Config, w: World, fd: Sock, m: Message, sys: System)
    requires Tracked(w.loop) && fd in w.trace && Settled(w)
    ensures var v := Process(cfg, w, fd, m, sys);
            && Keeps(w, v, fd, m == Message(AUTH, cfg.magic)) && Answers(w.trace, v.trace, fd)
            && (m.kind == AUTH ==> v.trace == w.trace)
  {
    if m.kind == PACKET {
      PacketGrantsNothing(cfg, w, fd, m.payload);
    } else if m.kind == DISCONNECT {
      DisconnectGrantsNothing(cfg, w, fd, m.payload);
    } else if m.kind == CREATE_SERVER {
      ServerGrantsNothing(cfg, w, fd, m.payload, sys);
    } else if m.kind == AUTH {
      AuthGrants(cfg, w, fd, m.payload);
    } else {
      OtherGrantsNothing(cfg, w, fd, m, sys);
    }
  }

  lemma FillGrantsNothing(cfg: Config, w: World, fd: Sock, chunk: seq<Byte>)
    requires KeysOk(w) && CanRead(w, fd, chunk) && Settled(w)
    ensures var v := Fill(cfg, w, fd, chunk).0;
            v.users == w.users && Tracked(v.loop) && fd in v.trace && Settled(v)
  {}

  lemma ReadingGrants(cfg: Config, w: World, fd: Sock, chunk: seq<Byte>, sys: System, s: Sock)
    requires KeysOk(w) && CanRead(w, fd, chunk) && Settled(w)
    ensures Tracked(w.loop) && Grants(cfg, w, ReadControl(cfg, w, fd, chunk, sys), s)
    ensures !Removes(w, ReadControl(cfg, w, fd, chunk, sys), s)
  {
    var (u, out) := Fill(cfg, w, fd, chunk);
    var v := Acted(cfg, u, fd, out, sys);
    FillGrantsNothing(cfg, w, fd, chunk);
    FillNotes(cfg, w, fd, chunk);
    if out != [] && out[0].Deliver? {
      ProcessGrants(cfg, u, fd, out[0].m, sys);
      HeardIsTold(cfg, w, v, fd, out[0].m, s);
    } else {
      ToldIsNotHeard(cfg, w, v, fd, s);
    }
  }

  // ---------------------------------------------------------------- the other events

  lemma ConnectingGrantsNothing(cfg: Config, w: World, fd: Sock, s: Sock)
    requires KeysOk(w)
    ensures Grants(cfg, w, AcceptControl(w, fd), s) && !Removes(w, AcceptControl(w, fd), s)
  {}

  lemma WritingGrantsNothing(cfg: Config, w: World, loop: Loop, s: Sock)
    ensures Grants(cfg, w, w.(loop := loop), s) && !Removes(w, w.(loop := loop), s)
  {}

  lemma AdmittingGrantsNothing(cfg: Config, w: World, l: Sock, fd: Sock, s: Sock)
    requires KeysOk(w) && l in w.proxies && w.proxies[l].initiator in w.trace
    ensures var v := AcceptProxied(cfg, w, l, fd); Grants(cfg, w, v, s) && !Removes(w, v, s)
  {
    TellGrantsNothing(cfg, Admit(w, l, fd), w.proxies[l].initiator, Message(CONNECTED, IdBytes(Get(w.pool).1)));
    ToldIsNotHeard(cfg, w, AcceptProxied(cfg, w, l, fd), w.proxies[l].initiator, s);
  }

  lemma CarryingGrantsNothing(cfg: Config, w: World, l: Sock, fd: Sock, data: seq<Byte>, s: Sock)
    requires KeysOk(w) && l in w.proxies && w.proxies[l].initiator in w.trace
    requires fd in w.proxies[l].sockToId && fd in w.read
    ensures var v := ReadProxied(cfg, w, l, fd, data); Grants(cfg, w, v, s) && !Removes(w, v, s)
  {
    TellGrantsNothing(cfg, w.(read := w.read[fd := w.read[fd] + data]), w.proxies[l].initiator,
                      Message(PACKET, IdBytes(w.proxies[l].sockToId[fd]) + data));
    ToldIsNotHeard(cfg, w, ReadProxied(cfg, w, l, fd, data), w.proxies[l].initiator, s);
  }

  lemma PartingGrantsNothing(cfg: Config, w: World, l: Sock, fd: Sock, s: Sock)
    requires KeysOk(w) && l in w.proxies && w.proxies[l].initiator in w.trace && fd in w.proxies[l].sockToId
    ensures var v := HangUpProxied(cfg, w, l, fd); Grants(cfg, w, v, s) && !Removes(w, v, s)
  {
    ToldIsNotHeard(cfg, w, HangUpProxied(cfg, w, l, fd), w.proxies[l].initiator, s);
  }

  lemma LeavingRemoves(cfg: Config, w: World, fd: Sock, order: seq<Sock>, s: Sock)
    requires Settled(w)
    requires HasServer(w, fd) ==> forall c | c in order :: c in w.proxies[UserOf(w, fd).server.value].sockToId
    ensures var v := HangUpControl(w, fd, order);
            Grants(cfg, w, v, s) && (Removes(w, v, s) <==> s == fd && HasServer(w, fd))
  {
    var v := HangUpControl(w, fd, order);
    assert v.trace == w.trace - {fd};
    assert v.users == if HasServer(w, fd) then w.users - {fd} else w.users;
  }

  /** The event is the end of a control connection whose user has a server. */
  predicate LosesServer(w: World, e: Signal, fd: Sock) {
    e.HangsUp? && e.fd == fd && fd in w.loop.linked && w.loop.linked[fd] == Main && HasServer(w, fd)
  }

  /** What is said of a step. */
  ghost predicate Turns(cfg: Config, w: World, e: Signal, v: World, fd: Sock) {
    Grants(cfg, w, v, fd) && (Removes(w, v, fd) <==> LosesServer(w, e, fd))
  }

  lemma ReadableTurns(cfg: Config, w: World, e: Signal, fd: Sock)
    requires Proper(cfg) && Inv(cfg, w) && Enabled(cfg, w, e) && e.Readable? && Settled(w)
    ensures Turns(cfg, w, e, Next(cfg, w, e), fd)
  {
    match w.loop.linked[e.fd] {
      case Main => ReadingGrants(cfg, w, e.fd, e.data, e.sys, fd);
      case Tunnel(l) =>
        ProxiedIsBound(cfg, w, l, e.fd);
        Initiates(cfg, w, l);
        CarryingGrantsNothing(cfg, w, l, e.fd, e.data, fd);
    }
  }

  lemma HangUpTurns(cfg: Config, w: World, e: Signal, fd: Sock)
    requires Proper(cfg) && Inv(cfg, w) && Enabled(cfg, w, e) && e.HangsUp? && Settled(w)
    ensures Turns(cfg, w, e, Next(cfg, w, e), fd)
  {
    match w.loop.linked[e.fd] {
      case Main => LeavingRemoves(cfg, w, e.fd, e.order, fd);
      case Tunnel(l) =>
        ProxiedIsBound(cfg, w, l, e.fd);
        Initiates(cfg, w, l);
        PartingGrantsNothing(cfg, w, l, e.fd, fd);
    }
  }

  lemma AcceptTurns(cfg: Config, w: World, e: Signal, fd: Sock)
    requires Proper(cfg) && Inv(cfg, w) && Enabled(cfg, w, e) && e.ClientConnects?
    ensures Turns(cfg, w, e, Next(cfg, w, e), fd)
  {
    Initiates(cfg, w, e.listener);
    AdmittingGrantsNothing(cfg, w, e.listener, e.fd, fd);
  }

  lemma ConnectTurns(cfg: Config, w: World, e: Signal, fd: Sock)
    requires Proper(cfg) && Inv(cfg, w) && Enabled(cfg, w, e) && e.ControlConnects?
    ensures Turns(cfg, w, e, Next(cfg, w, e), fd)
  {
    ConnectingGrantsNothing(cfg, w, e.fd, fd);
  }

  lemma WriteTurns(cfg: Config, w: World, e: Signal, fd: Sock)
    requires Proper(cfg) && Inv(cfg, w) && Enabled(cfg, w, e) && e.Writable?
    ensures Turns(cfg, w, e, Next(cfg, w, e), fd)
  {
    WritingGrantsNothing(cfg, w, WriteSome(w.loop, e.fd, e.k), fd);
  }

  /** Whatever happens: rights are granted by an AUTH with the magic alone, and go with the entry, and an
      entry goes just when a user with a server hangs up. */
  lemma StepGrants(cfg: Config, w: World, e: Signal, fd: Sock)
    requires Proper(cfg) && Inv(cfg, w) && Enabled(cfg, w, e)
    ensures Turns(cfg, w, e, Next(cfg, w, e), fd)
  {
    SoundSettles(cfg, w);
    if e.Readable? {
      ReadableTurns(cfg, w, e, fd);
    } else if e.HangsUp? {
      HangUpTurns(cfg, w, e, fd);
    } else if e.ClientConnects? {
      AcceptTurns(cfg, w, e, fd);
    } else if e.ControlConnects? {
      ConnectTurns(cfg, w, e, fd);
    } else {
      WriteTurns(cfg, w, e, fd);
    }
  }

  // ---------------------------------------------------------------- in every run

  /** At step i an AUTH with the magic is heard on the descriptor, and until t no user with a server hangs
      up on it. */
  ghost predicate AuthorizedAt(cfg: Config, ws: seq<World>, es: seq<Signal>, t: nat, fd: Sock, i: nat)
    requires |ws| == |es| + 1 && t <= |es|
  {
    && i < t && Authorizes(cfg, ws[i], ws[i + 1], fd)
    && forall j | i < j < t :: !LosesServer(ws[j], es[j], fd)
  }

  lemma NobodyAtStart(fd: Sock)
    ensures !MaySelectPort(Initial(), fd)
  {}

  lemma GrantOfStep(cfg: Config, ws: seq<World>, es: seq<Signal>, i: nat, fd: Sock)
    requires IsRun(cfg, ws, es) && i < |es|
    ensures Turns(cfg, ws[i], es[i], ws[i + 1], fd)
  {
    StepOf(cfg, ws, es, i);
    StepGrants(cfg, ws[i], es[i], fd);
  }

  lemma HasEntry(w: World, fd: Sock)
    requires MaySelectPort(w, fd)
    ensures fd in w.users
  {}

  /** At every moment of every run a descriptor has the right to choose a port if and only if an AUTH with
      the magic was heard on it, in this connection or one before, and since then no user with a server has
      hung up on it. */
  lemma {:induction false} RightsInEveryRun(cfg: Config, ws: seq<World>, es: seq<Signal>, t: nat, fd: Sock)
    requires IsRun(cfg, ws, es) && t < |ws|
    ensures MaySelectPort(ws[t], fd) <==> exists i: nat :: AuthorizedAt(cfg, ws, es, t, fd, i)
    decreases t
  {
    if t == 0 {
      NobodyAtStart(fd);
    } else {
      RightsInEveryRun(cfg, ws, es, t - 1, fd);
      GrantOfStep(cfg, ws, es, t - 1, fd);
      if Authorizes(cfg, ws[t - 1], ws[t], fd) {
        assert AuthorizedAt(cfg, ws, es, t, fd, t - 1);
      } else {
        if MaySelectPort(ws[t], fd) {
          var i: nat :| AuthorizedAt(cfg, ws, es, t - 1, fd, i);
          assert AuthorizedAt(cfg, ws, es, t, fd, i);
        }
        if i: nat :| AuthorizedAt(cfg, ws, es, t, fd, i) {
          assert i != t - 1 && AuthorizedAt(cfg, ws, es, t - 1, fd, i);
          HasEntry(ws[t - 1], fd);
        }
      }
    }
  }

  // ---------------------------------------------------------------- rights that are left behind

  /** The header of an AUTH with n bytes, and what the reader waits for behind it. */
  function AuthHeader(n: Byte): seq<Byte> { [StoreFlags(false, true, AUTH), n] }

  function AuthReader(n: nat): Reader {
    Reader(BufferGot, n, Merge(StoreFlags(false, true, AUTH), n), [])
  }

  lemma HeaderIsRead(z: Zstd, n: Byte)
    requires 0 < n
    ensures |AuthHeader(n)| == 2 && ReadChunk(z, NewMessage, AuthHeader(n)) == (AuthReader(n), [])
  {
    UnpacksPacked(false, true, AUTH);
  }

  lemma HeaderComes(cfg: Config, w: World, fd: Sock, n: Byte, sys: System)
    requires Waiting(w, fd, NewMessage) && Tracked(w.loop) && Settled(w) && 0 < n
    ensures CanRead(w, fd, AuthHeader(n)) && Waiting(ReadControl(cfg, w, fd, AuthHeader(n), sys), fd, AuthReader(n))
  {
    HeaderIsRead(cfg.zstd, n);
  }

  lemma MagicIsRead(z: Zstd, n: Byte, magic: seq<Byte>)
    requires 0 < n == |magic|
    ensures ReadChunk(z, AuthReader(n), magic).1 == [Deliver(Message(AUTH, magic))]
  {
    UnpacksPacked(false, true, AUTH);
    assert [] + magic == magic;
  }

  /** A control client with the magic and without a server. */
  ghost predicate HasMagic(w: World, fd: Sock) {
    w.users == map[fd := User(None, true)] && w.proxies == map[] && IsControl(w, fd)
  }

  lemma MagicComes(cfg: Config, w: World, fd: Sock, n: Byte, sys: System)
    requires Waiting(w, fd, AuthReader(n)) && 0 < n == |cfg.magic| && Tracked(w.loop) && Settled(w)
    ensures HasMagic(ReadControl(cfg, w, fd, cfg.magic, sys), fd)
  {
    MagicIsRead(cfg.zstd, n, cfg.magic);
    var v := Fill(cfg, w, fd, cfg.magic).0;
    assert ReadControl(cfg, w, fd, cfg.magic, sys) == Auth(cfg, v, fd, cfg.magic);
  }

  /** A user without a server hangs up. */
  lemma HangsUpAlone(cfg: Config, w: World, fd: Sock) returns (v: World)
    requires Proper(cfg) && Inv(cfg, w) && IsControl(w, fd)
    requires !HasServer(w, fd) && fd !in w.proxies && fd != cfg.main
    ensures IsStep(cfg, w, HangsUp(fd, []), v) && Unused(cfg, v, fd) && v.users == w.users
  {
    SoundSettles(cfg, w);
    v := Next(cfg, w, HangsUp(fd, []));
    assert v == Leave(w, fd);
  }

  lemma HeaderIsSaid(cfg: Config, w: World, fd: Sock, sys: System) returns (e: Signal, v: World)
    requires Proper(cfg) && Inv(cfg, w) && 0 < |cfg.magic| <= 0xff && Free(cfg, fd, sys) && Waiting(w, fd, NewMessage)
    ensures IsStep(cfg, w, e, v) && Waiting(v, fd, AuthReader(|cfg.magic|))
  {
    var header := AuthHeader(|cfg.magic|);
    e := Readable(fd, header, sys);
    v := Says(cfg, w, fd, NewMessage, header, sys);
    HeaderComes(cfg, w, fd, |cfg.magic|, sys);
  }

  lemma MagicIsSaid(cfg: Config, w: World, fd: Sock, sys: System) returns (e: Signal, v: World)
    requires Proper(cfg) && Inv(cfg, w) && 0 < |cfg.magic| <= 0xff && Free(cfg, fd, sys)
    requires Waiting(w, fd, AuthReader(|cfg.magic|))
    ensures IsStep(cfg, w, e, v) && HasMagic(v, fd)
  {
    e := Readable(fd, cfg.magic, sys);
    v := Says(cfg, w, fd, AuthReader(|cfg.magic|), cfg.magic, sys);
    MagicComes(cfg, w, fd, |cfg.magic|, sys);
  }

  /** A control client shows that it has the magic. */
  lemma Authenticates(cfg: Config, fd: Sock, sys: System) returns (ws: seq<World>, es: seq<Signal>, w: World)
    requires Proper(cfg) && 0 < |cfg.magic| <= 0xff && Free(cfg, fd, sys)
    ensures ComesTo(cfg, ws, es, 3, w) && HasMagic(w, fd)
  {
    ws, es, w := FirstConnects(cfg, fd);
    LastOfRun(cfg, ws, es, 1, w);
    var e, v := HeaderIsSaid(cfg, w, fd, sys);
    GoesOn(cfg, ws, es, 1, w, e, v);
    ws, es := ws + [v], es + [e];
    LastOfRun(cfg, ws, es, 2, v);
    e, w := MagicIsSaid(cfg, v, fd, sys);
    GoesOn(cfg, ws, es, 2, v, e, w);
    ws, es := ws + [w], es + [e];
  }

  lemma Parts(cfg: Config, ws: seq<World>, es: seq<Signal>, n: nat, w: World, fd: Sock)
    returns (vs: seq<World>, v: World)
    requires ComesTo(cfg, ws, es, n, w) && IsControl(w, fd) && !HasServer(w, fd) && fd !in w.proxies && fd != cfg.main
    ensures ComesTo(cfg, vs, es + [HangsUp(fd, [])], n + 1, v) && Unused(cfg, v, fd) && v.users == w.users
  {
    LastOfRun(cfg, ws, es, n, w);
    v := HangsUpAlone(cfg, w, fd);
    GoesOn(cfg, ws, es, n, w, HangsUp(fd, []), v);
    vs := ws + [v];
  }

  /** A run of five steps, the last of which is that a control client connects on a descriptor on which an
      earlier one had shown the magic and hung up: it may choose a port before a byte of it is read. */
  lemma RightsAreInherited(cfg: Config, fd: Sock, sys: System) returns (ws: seq<World>, es: seq<Signal>, w: World)
    requires Proper(cfg) && 0 < |cfg.magic| <= 0xff && Free(cfg, fd, sys)
    ensures ComesTo(cfg, ws, es, 5, w) && es[3] == HangsUp(fd, []) && es[4] == ControlConnects(fd)
    ensures fd in w.clients && fd in w.trace && w.trace[fd] == [] && MaySelectPort(w, fd)
  {
    ws, es, w := Authenticates(cfg, fd, sys);
    ws, w := Parts(cfg, ws, es, 3, w, fd);
    es := es + [HangsUp(fd, [])];
    ws, w := Comes(cfg, ws, es, 4, w, fd);
    es := es + [ControlConnects(fd)];
  }
}

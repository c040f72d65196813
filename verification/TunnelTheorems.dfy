/** What holds in every run of the tunnel server from its start. */
module TunnelTheorems {
  import opened Bytes
  import opened Framing
  import opened EventLoop
  import opened IdPool
  import opened Tunnel
  import opened TunnelIds
  import opened TunnelRegistry
  import opened TunnelStreams
  import opened TunnelSessions
  import opened TunnelRuns

  // ---------------------------------------------------------------- ids

  /** Every id below `last` is either free, once, or the id of one client of one proxy. */
  lemma IdsInEveryRun(cfg: Config, ws: seq<World>, es: seq<Signal>, t: nat)
    requires IsRun(cfg, ws, es) && t < |ws|
    ensures var w := ws[t];
            && NoDuplicates(w.pool.ids)
            && (forall i: nat :: i < w.pool.last <==> i in w.pool.ids || i in LiveIds(w.proxies))
            && (forall i | i in w.pool.ids :: i !in LiveIds(w.proxies))
            && NoIdTwice(w.proxies)
            && (forall l | l in w.proxies :: Inverse(w.proxies[l].sockToId, w.proxies[l].idToSock))
  {
    RunKeeps(cfg, ws, es, t);
    forall l | l in ws[t].proxies ensures Inverse(ws[t].proxies[l].sockToId, ws[t].proxies[l].idToSock) {
      assert Paired(ws[t].proxies[l]);
    }
  }

  ghost predicate Inverse(f: map<Sock, nat>, g: map<nat, Sock>) {
    forall s, i: nat :: (s in f && f[s] == i) <==> (i in g && g[i] == s)
  }

  /** The most ids that were live at once. */
  function MostLive(ws: seq<World>): nat {
    if ws == [] then 0 else Max(MostLive(ws[..|ws| - 1]), |LiveIds(ws[|ws| - 1].proxies)|)
  }

  lemma CommandsTakeNoId(cfg: Config, w: World, fd: Sock, m: Message, sys: System)
    requires Tracked(w.loop) && fd in w.trace && Settled(w)
    ensures Process(cfg, w, fd, m, sys).pool.last == w.pool.last
  {}

  lemma ReadingTakesNoId(cfg: Config, w: World, fd: Sock, chunk: seq<Byte>, sys: System)
    requires Tracked(w.loop) && CanRead(w, fd, chunk) && Settled(w)
    ensures ReadControl(cfg, w, fd, chunk, sys).pool.last == w.pool.last
  {
    var (v, out) := Fill(cfg, w, fd, chunk);
    if out != [] && out[0].Deliver? {
      CommandsTakeNoId(cfg, v, fd, out[0].m, sys);
    }
  }

  lemma HangUpTakesNoId(w: World, fd: Sock, order: seq<Sock>)
    requires Settled(w)
    requires HasServer(w, fd) ==> forall s | s in order :: s in w.proxies[UserOf(w, fd).server.value].sockToId
    ensures HangUpControl(w, fd, order).pool.last == w.pool.last
  {}

  lemma OnlyConnectTakesId(cfg: Config, w: World, e: Signal)
    requires Proper(cfg) && Inv(cfg, w) && Enabled(cfg, w, e) && !e.ClientConnects?
    ensures Next(cfg, w, e).pool.last == w.pool.last
  {
    SoundSettles(cfg, w);
    match e {
      case Readable(fd, data, sys) =>
        if w.loop.linked[fd] == Main {
          MainIsControl(cfg, w, fd);
          ReadingTakesNoId(cfg, w, fd, data, sys);
        }
      case HangsUp(fd, order) =>
        if w.loop.linked[fd] == Main {
          HangUpTakesNoId(w, fd, order);
        }
      case _ =>
    }
  }

  lemma LastRisesWithLive(cfg: Config, w: World, e: Signal)
    requires Proper(cfg) && Inv(cfg, w) && Enabled(cfg, w, e)
    ensures var v := Next(cfg, w, e); v.pool.last == Max(w.pool.last, |LiveIds(v.proxies)|)
  {
    var v := Next(cfg, w, e);
    if e.ClientConnects? {
      var id := Get(w.pool).1;
      IsNoClient(cfg.main, w.loop.linked, w.clients, w.proxies, e.listener, e.fd);
      BindKeeps(w.pool, w.proxies, e.listener, e.fd);
      GetRaisesLast(w.pool, LiveIds(w.proxies));
    } else {
      OnlyConnectTakesId(cfg, w, e);
      LastCounts(v.pool, LiveIds(v.proxies));
    }
  }

  lemma RunPrefix(cfg: Config, ws: seq<World>, es: seq<Signal>)
    requires IsRun(cfg, ws, es) && es != []
    ensures IsRun(cfg, ws[..|es|], es[..|es| - 1])
  {
    var vs, ds := ws[..|es|], es[..|es| - 1];
    forall i | 0 <= i < |ds| ensures IsStep(cfg, vs[i], ds[i], vs[i + 1]) {
      StepOf(cfg, ws, es, i);
    }
  }

  /** `last` is the largest number of clients ever connected at once, so it never wraps around. */
  lemma {:induction false} LastInEveryRun(cfg: Config, ws: seq<World>, es: seq<Signal>)
    requires IsRun(cfg, ws, es)
    ensures ws[|es|].pool.last == MostLive(ws) <= SOCKETS < ID_LIMIT
    decreases |es|
  {
    var n := |es|;
    LastIsSmall(cfg, ws, es);
    assert ws[..|ws| - 1] == ws[..n];
    if n == 0 {
      LastAtStart(ws);
    } else {
      RunPrefix(cfg, ws, es);
      LastInEveryRun(cfg, ws[..n], es[..n - 1]);
      LastOfStep(cfg, ws, es, n - 1);
    }
  }

  lemma LastIsSmall(cfg: Config, ws: seq<World>, es: seq<Signal>)
    requires IsRun(cfg, ws, es)
    ensures ws[|es|].pool.last <= SOCKETS
  {
    RunKeeps(cfg, ws, es, |es|);
  }

  lemma LastAtStart(ws: seq<World>)
    requires |ws| == 1 && ws[0] == Initial()
    ensures MostLive(ws) == 0
  {
    assert LiveIds(ws[0].proxies) == {};
    assert ws[..0] == [];
  }

  lemma LastOfStep(cfg: Config, ws: seq<World>, es: seq<Signal>, i: nat)
    requires IsRun(cfg, ws, es) && i < |es|
    ensures ws[i + 1].pool.last == Max(ws[i].pool.last, |LiveIds(ws[i + 1].proxies)|)
  {
    StepOf(cfg, ws, es, i);
    LastRisesWithLive(cfg, ws[i], es[i]);
  }

  // ---------------------------------------------------------------- the registry

  function ClientsOf(w: World, o: Observer): set<Sock> {
    match o
    case Main => w.clients
    case Tunnel(l) => if l in w.proxies then w.proxies[l].clients else {}
  }

  lemma LinkedIffClient(main: Sock, w: World, s: Sock, o: Observer)
    requires Registered(main, w.loop.linked, w.clients, w.proxies)
    ensures (s in w.loop.linked && w.loop.linked[s] == o) <==> s in ClientsOf(w, o)
  {}

  lemma ServerIffInitiator(w: World, fd: Sock, l: Sock)
    requires UsersOk(w.users, w.clients, w.proxies)
    ensures UserOf(w, fd).server == Some(l) <==> l in w.proxies && w.proxies[l].initiator == fd
  {}

  /** A socket is linked to an observer if and only if it is one of its clients; it has queues if and
      only if it is linked to one; a user has a server if and only if it is the initiator of its proxy. */
  lemma RegistryInEveryRun(cfg: Config, ws: seq<World>, es: seq<Signal>, t: nat, s: Sock, o: Observer,
                           fd: Sock, l: Sock)
    requires IsRun(cfg, ws, es) && t < |ws|
    ensures var w := ws[t];
            && ((s in w.loop.linked && w.loop.linked[s] == o) <==> s in ClientsOf(w, o))
            && (s in w.loop.queues <==> s in w.loop.linked)
            && (UserOf(w, fd).server == Some(l) <==> l in w.proxies && w.proxies[l].initiator == fd)
  {
    RunKeeps(cfg, ws, es, t);
    LinkedIffClient(cfg.main, ws[t], s, o);
    ServerIffInitiator(ws[t], fd, l);
  }

  lemma HangUpRemoves(w: World, fd: Sock, order: seq<Sock>)
    requires Settled(w) && HasServer(w, fd)
    requires forall s | s in order :: s in w.proxies[UserOf(w, fd).server.value].sockToId
    ensures var l := UserOf(w, fd).server.value;
            var v, gone := HangUpControl(w, fd, order), w.proxies[l].clients + {fd};
            && v.users == w.users - {fd} && v.proxies == w.proxies - {l}
            && v.loop.linked == w.loop.linked - gone && v.loop.queues == w.loop.queues - gone
            && v.loop.armed == w.loop.armed - gone
  {}

  lemma HangUpStep(cfg: Config, w: World, fd: Sock, order: seq<Sock>)
    requires Proper(cfg) && Inv(cfg, w) && Enabled(cfg, w, HangsUp(fd, order)) && fd in w.clients && HasServer(w, fd)
    ensures UserOf(w, fd).server.value in w.proxies
    ensures var l := UserOf(w, fd).server.value;
            var v, gone := Next(cfg, w, HangsUp(fd, order)), w.proxies[l].clients + {fd};
            && v.users == w.users - {fd} && v.proxies == w.proxies - {l}
            && v.loop.linked == w.loop.linked - gone && v.loop.queues == w.loop.queues - gone
            && v.loop.armed == w.loop.armed - gone
            && forall s, m | s in gone && m in v.proxies :: s !in v.proxies[m].sockToId && s !in v.proxies[m].clients
  {
    SoundSettles(cfg, w);
    OfUser(w.users, w.clients, w.proxies, fd);
    var l := UserOf(w, fd).server.value;
    HangUpRemoves(w, fd, order);
    NextHangsUp(cfg, w, fd, order);
    GoneEverywhere(cfg, w, l, fd);
  }

  lemma GoneEverywhere(cfg: Config, w: World, l: Sock, fd: Sock)
    requires Sound(cfg, w) && l in w.proxies && fd in w.clients
    ensures forall s, m | s in w.proxies[l].clients + {fd} && m in w.proxies - {l} ::
              s !in (w.proxies - {l})[m].sockToId && s !in (w.proxies - {l})[m].clients
  {
    forall s, m | s in w.proxies[l].clients + {fd} && m in w.proxies - {l}
      ensures s !in (w.proxies - {l})[m].sockToId && s !in (w.proxies - {l})[m].clients
    {
      GoneFromAll(cfg, w, l, s, m);
    }
  }

  /** The connection of a user with a server hangs up: its socket and those of all its clients are gone
      from the registry, the queues, the selector's interest and every proxy's maps; its proxy and its
      entry are gone; and that is all. */
  lemma HangUpTakesAll(cfg: Config, ws: seq<World>, es: seq<Signal>, t: nat, l: Sock)
    requires IsRun(cfg, ws, es) && t < |es|
    requires var e := es[t]; e.HangsUp? && e.fd in ws[t].clients && UserOf(ws[t], e.fd).server == Some(l)
    ensures l in ws[t].proxies
    ensures var w, v, fd := ws[t], ws[t + 1], es[t].fd;
            var gone := w.proxies[l].clients + {fd};
            && v.users == w.users - {fd} && v.proxies == w.proxies - {l}
            && v.loop.linked == w.loop.linked - gone && v.loop.queues == w.loop.queues - gone
            && v.loop.armed == w.loop.armed - gone
            && forall s, m | s in gone && m in v.proxies :: s !in v.proxies[m].sockToId && s !in v.proxies[m].clients
  {
    StepOf(cfg, ws, es, t);
    HangUpStep(cfg, ws[t], es[t].fd, es[t].order);
  }

  lemma NextHangsUp(cfg: Config, w: World, fd: Sock, order: seq<Sock>)
    requires Proper(cfg) && Inv(cfg, w) && Enabled(cfg, w, HangsUp(fd, order)) && fd in w.clients && Settled(w)
    ensures HasServer(w, fd) ==> forall s | s in order :: s in w.proxies[UserOf(w, fd).server.value].sockToId
    ensures Next(cfg, w, HangsUp(fd, order)) == HangUpControl(w, fd, order)
  {}

  lemma GoneFromAll(cfg: Config, w: World, l: Sock, s: Sock, m: Sock)
    requires Sound(cfg, w) && l in w.proxies && m in w.proxies && m != l &&
             (s in w.proxies[l].clients || s in w.clients)
    ensures s !in w.proxies[m].sockToId && s !in w.proxies[m].clients
  {
    assert Paired(w.proxies[m]);
    if s in w.proxies[m].clients {
      OfClient(cfg.main, w.loop.linked, w.clients, w.proxies, m, s);
      if s in w.proxies[l].clients {
        OfClient(cfg.main, w.loop.linked, w.clients, w.proxies, l, s);
      }
    }
  }

  // ---------------------------------------------------------------- sessions

  /** A breach of the protocol would show ever after. */
  lemma {:induction false} BreachLasts(trace: seq<Event>, k: nat, id: nat)
    requires k <= |trace| && SessionOf(trace[..k], id).Broken?
    ensures SessionOf(trace, id).Broken?
    decreases |trace|
  {
    if k == |trace| {
      assert trace[..k] == trace;
    } else {
      var init := trace[..|trace| - 1];
      assert init[..k] == trace[..k];
      BreachLasts(init, k, id);
    }
  }

  lemma HeldIs(cfg: Config, w: World, fd: Sock, id: nat)
    requires Sound(cfg, w)
    ensures match ClientOf(w, fd, id)
            case None => Held(w, fd, id) == Closed
            case Some(s) =>
              && s in w.read && s in w.loop.accepted && Held(w, fd, id) == Open(w.read[s], w.loop.accepted[s])
              && s in w.loop.linked && w.loop.linked[s] == Tunnel(UserOf(w, fd).server.value)
  {
    if ClientOf(w, fd, id).Some? {
      ClientIsRegistered(cfg, w, fd, id);
    }
  }

  /** What a control client is told and what is heard from it keeps to the protocol of every id, at
      every moment.  A session is open if and only if the id is bound to a client of its own proxy;
      then the payloads told make up all the bytes read from that client, and those heard all the bytes
      queued for it. */
  lemma SessionsInEveryRun(cfg: Config, ws: seq<World>, es: seq<Signal>, t: nat, fd: Sock, id: nat, k: nat)
    requires IsRun(cfg, ws, es) && t < |ws| && fd in ws[t].clients
    ensures fd in ws[t].trace
    ensures k <= |ws[t].trace[fd]| ==> !SessionOf(ws[t].trace[fd][..k], id).Broken?
    ensures var w := ws[t];
            match ClientOf(w, fd, id)
            case None => SessionOf(w.trace[fd], id) == Closed
            case Some(s) =>
              && s in w.read && s in w.loop.accepted
              && SessionOf(w.trace[fd], id) == Open(w.read[s], w.loop.accepted[s])
              && s in w.loop.linked && w.loop.linked[s] == Tunnel(UserOf(w, fd).server.value)
  {
    RunKeeps(cfg, ws, es, t);
    HasTrace(cfg, ws[t], fd);
    assert SessionMatches(ws[t], ws[t].trace[fd], fd, id);
    HeldIs(cfg, ws[t], fd, id);
    if k <= |ws[t].trace[fd]| && SessionOf(ws[t].trace[fd][..k], id).Broken? {
      BreachLasts(ws[t].trace[fd], k, id);
    }
  }

  lemma HasTrace(cfg: Config, w: World, fd: Sock)
    requires Sound(cfg, w) && fd in w.clients
    ensures fd in w.trace
  {}

  /** A socket is behind one id of one user at most. */
  lemma SessionsApart(cfg: Config, ws: seq<World>, es: seq<Signal>, t: nat, fd: Sock, id: nat, fd': Sock, id': nat)
    requires IsRun(cfg, ws, es) && t < |ws|
    requires ClientOf(ws[t], fd, id).Some? && ClientOf(ws[t], fd', id') == ClientOf(ws[t], fd, id)
    ensures fd' == fd && id' == id
  {
    RunKeeps(cfg, ws, es, t);
    OneBinding(cfg, ws[t], fd, id, fd', id');
  }

  // ---------------------------------------------------------------- streams

  lemma {:induction false} DeliveredConcat(a: seq<Received>, b: seq<Received>)
    ensures Delivered(a + b) == Delivered(a) + Delivered(b)
    decreases |b|
  {
    if b == [] {
      assert a + b == a && Delivered(a) + [] == Delivered(a);
    } else {
      var init, r := b[..|b| - 1], b[|b| - 1];
      assert (a + b)[..|a + b| - 1] == a + init;
      DeliveredConcat(a, init);
      Associates(Delivered(a), Delivered(init), if r.Deliver? then [r.m] else []);
    }
  }

  /** Some of the bytes of some frames: some of the messages, in order. */
  lemma PartOfFrames(z: Zstd, ms: seq<Message>, part: seq<Byte>, rest: seq<Byte>)
    requires Lawful(z) && (forall m | m in ms :: Fits32(m)) && part + rest == EncodeAll(z, ms)
    ensures ReadStream(z, NewMessage, part).1 <= ArriveAll(z, ms)
    ensures rest == [] ==> ReadStream(z, NewMessage, part).1 == ArriveAll(z, ms)
  {
    FramesRoundTrip(z, ms);
    ReadStreamConcat(z, NewMessage, part, rest);
    if rest == [] {
      assert part + rest == part;
    }
  }

  /** No queue holds more than one item, nor one that is sent; the selector is asked for EPOLLOUT just
      where there is one; and nothing accepted is lost. */
  lemma QueuesInEveryRun(cfg: Config, ws: seq<World>, es: seq<Signal>, t: nat, s: Sock)
    requires IsRun(cfg, ws, es) && t < |ws| && s in ws[t].loop.queues
    ensures Tracked(ws[t].loop) && QueueOk(ws[t].loop, s)
  {
    RunKeeps(cfg, ws, es, t);
    assert StreamOk(cfg.zstd, ws[t], s);
  }

  /** A control client's socket took the beginning of the frames of what the client was told; a reader
      at the other end makes of it the first of those messages. */
  lemma ToldInEveryRun(cfg: Config, ws: seq<World>, es: seq<Signal>, t: nat, fd: Sock)
    requires IsRun(cfg, ws, es) && t < |ws| && fd in ws[t].clients
    ensures Tracked(ws[t].loop) && fd in ws[t].loop.queues && fd in ws[t].trace && QueueOk(ws[t].loop, fd)
    ensures var w, told := ws[t], ToldIn(ws[t].trace[fd]);
            && w.loop.handed[fd] + Pending(w.loop.queues[fd]) == EncodeAll(cfg.zstd, told)
            && ReadStream(cfg.zstd, NewMessage, w.loop.handed[fd]).1 <= ArriveAll(cfg.zstd, told)
            && (w.loop.queues[fd].write == [] ==>
                  ReadStream(cfg.zstd, NewMessage, w.loop.handed[fd]).1 == ArriveAll(cfg.zstd, told))
  {
    var w := ws[t];
    RunKeeps(cfg, ws, es, t);
    Talkable(cfg, w, fd);
    assert StreamOk(cfg.zstd, w, fd);
    PartOfFrames(cfg.zstd, ToldIn(w.trace[fd]), w.loop.handed[fd], Pending(w.loop.queues[fd]));
  }

  lemma HeardFrames(z: Zstd, q: Queues, accepted: seq<Byte>, trace: seq<Event>, read: seq<Byte>,
                    sent: seq<Message>, rest: seq<Byte>)
    requires Lawful(z) && ControlOk(z, q, accepted, trace, read)
    requires (forall m | m in sent :: Fits32(m)) && read + rest == EncodeAll(z, sent)
    ensures HeardIn(trace) <= Delivered(ArriveAll(z, sent))
    ensures rest == [] ==> HeardIn(trace) == Delivered(ArriveAll(z, sent))
  {
    PartOfFrames(z, sent, read, rest);
    var part, all := ReadStream(z, NewMessage, read).1, ArriveAll(z, sent);
    assert all == part + all[|part|..];
    DeliveredConcat(part, all[|part|..]);
  }

  /** A control client whose bytes are frames, the last of them perhaps still on their way, is heard: the
      messages processed are the first of those it sent, and all of them once their bytes are read. */
  lemma HeardInEveryRun(cfg: Config, ws: seq<World>, es: seq<Signal>, t: nat, fd: Sock, sent: seq<Message>,
                        rest: seq<Byte>)
    requires IsRun(cfg, ws, es) && t < |ws| && fd in ws[t].clients && fd in ws[t].read
    requires (forall m | m in sent :: Fits32(m)) && ws[t].read[fd] + rest == EncodeAll(cfg.zstd, sent)
    ensures fd in ws[t].trace
    ensures var heard, all := HeardIn(ws[t].trace[fd]), Delivered(ArriveAll(cfg.zstd, sent));
            heard <= all && (rest == [] ==> heard == all)
  {
    var w := ws[t];
    RunKeeps(cfg, ws, es, t);
    Talkable(cfg, w, fd);
    assert StreamOk(cfg.zstd, w, fd);
    HeardFrames(cfg.zstd, w.loop.queues[fd], w.loop.accepted[fd], w.trace[fd], w.read[fd], sent, rest);
  }
}

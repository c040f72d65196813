/** `Loop::run`, one event at a time: what the objects do is a step of the state machine, so everything
    proved of its runs holds of them. */
module LiveRun {
  import Bytes
  import opened EventLoop
  import opened Tunnel
  import opened TunnelIds
  import opened TunnelRegistry
  import opened TunnelRuns
  import opened ReadOrder
  import opened LiveServer

  /** What the methods take for granted holds at every quiescent point. */
  lemma SoundBinds(cfg: Config, w: World)
    requires Sound(cfg, w)
    ensures Bindings(w)
  {
    forall l | l in w.proxies
      ensures w.proxies[l].initiator in w.trace
      ensures forall i | i in w.proxies[l].idToSock ::
                var s := w.proxies[l].idToSock[i];
                s in w.proxies[l].sockToId && w.proxies[l].sockToId[s] == i && s in w.loop.linked &&
                  w.loop.linked[s] == Tunnel(l)
    {
      Initiates(cfg, w, l);
      forall i | i in w.proxies[l].idToSock
        ensures var s := w.proxies[l].idToSock[i];
                s in w.proxies[l].sockToId && w.proxies[l].sockToId[s] == i && s in w.loop.linked &&
                  w.loop.linked[s] == Tunnel(l)
      {
        OfPair(w.proxies, l, w.proxies[l].idToSock[i], i);
        OfClient(cfg.main, w.loop.linked, w.clients, w.proxies, l, w.proxies[l].idToSock[i]);
      }
    }
  }

  lemma SoundTearsDown(cfg: Config, w: World, fd: Sock)
    requires Sound(cfg, w)
    ensures Teardown(w, fd)
    ensures fd in w.clients && HasServer(w, fd) ==>
              UserOf(w, fd).server.value in w.proxies && fd !in w.proxies[UserOf(w, fd).server.value].clients
  {
    if HasServer(w, fd) {
      OfUser(w.users, w.clients, w.proxies, fd);
      var l := UserOf(w, fd).server.value;
      forall s | s in w.proxies[l].clients ensures s in w.loop.linked && w.loop.linked[s] == Tunnel(l) &&
        s !in w.clients {
        OfClient(cfg.main, w.loop.linked, w.clients, w.proxies, l, s);
      }
    }
  }

  lemma ControlIsNotProxied(cfg: Config, w: World, fd: Sock)
    requires Sound(cfg, w) && fd in w.clients
    ensures NotProxied(w, fd)
  {
    forall l, i | l in w.proxies && i in w.proxies[l].idToSock ensures w.proxies[l].idToSock[i] != fd {
      OfPair(w.proxies, l, w.proxies[l].idToSock[i], i);
      OfClient(cfg.main, w.loop.linked, w.clients, w.proxies, l, w.proxies[l].idToSock[i]);
    }
  }

  /** What the methods called for a readable or hung-up socket ask for. */
  lemma SoundSuffices(cfg: Config, w: World, fd: Sock)
    requires Sound(cfg, w) && fd in w.clients
    ensures Settled(w) && Bindings(w) && NotProxied(w, fd) && Teardown(w, fd)
    ensures HasServer(w, fd) ==>
            UserOf(w, fd).server.value in w.proxies && fd !in w.proxies[UserOf(w, fd).server.value].clients
  {
    SoundSettles(cfg, w);
    SoundBinds(cfg, w);
    ControlIsNotProxied(cfg, w, fd);
    SoundTearsDown(cfg, w, fd);
  }

  lemma ProxiedSuffices(cfg: Config, w: World, l: Sock, fd: Sock)
    requires Sound(cfg, w) && fd in w.loop.linked && w.loop.linked[fd] == Tunnel(l)
    ensures l in w.proxies && w.proxies[l].initiator in w.trace && w.proxies[l].initiator != fd
    ensures fd in w.proxies[l].sockToId && fd in w.read
  {
    ProxiedIsBound(cfg, w, l, fd);
    Initiates(cfg, w, l);
  }

  /** EPOLLIN on a listening socket. */
  method AcceptsControl(server: FreeGrok, fd: Sock)
    requires server.Valid() && Proper(server.cfg) && Inv(server.cfg, server.View())
    requires Enabled(server.cfg, server.View(), ControlConnects(fd))
    modifies server, server.loop
    ensures server.Valid() && server.View() == Next(server.cfg, old(server.View()), ControlConnects(fd))
  {
    server.AcceptMain(fd);
  }

  method AcceptsClient(server: FreeGrok, l: Sock, fd: Sock)
    requires server.Valid() && Proper(server.cfg) && Inv(server.cfg, server.View())
    requires Enabled(server.cfg, server.View(), ClientConnects(l, fd))
    modifies server, server.loop, server.pool, server.proxies.Values
    ensures server.Valid() && server.View() == Next(server.cfg, old(server.View()), ClientConnects(l, fd))
  {
    Initiates(server.cfg, server.View(), l);
    server.AcceptAtProxy(l, fd);
  }

  /** EPOLLIN on a connected socket. */
  method Reads(server: FreeGrok, fd: Sock, data: seq<Bytes.Byte>, sys: System)
    requires server.Valid() && Proper(server.cfg) && Inv(server.cfg, server.View())
    requires Enabled(server.cfg, server.View(), Readable(fd, data, sys))
    modifies server, server.loop, server.pool, server.proxies.Values
    ensures server.Valid() && server.View() == Next(server.cfg, old(server.View()), Readable(fd, data, sys))
  {
    match server.loop.linked[fd] {
      case Main =>
        MainIsControl(server.cfg, server.View(), fd);
        SoundSuffices(server.cfg, server.View(), fd);
        server.ReadFromControl(fd, data, sys);
      case Tunnel(l) =>
        ProxiedSuffices(server.cfg, server.View(), l, fd);
        server.ReadFromProxied(l, fd, data);
    }
  }

  /** EPOLLOUT */
  method Writes(server: FreeGrok, fd: Sock, k: nat)
    requires server.Valid() && Proper(server.cfg) && Inv(server.cfg, server.View())
    requires Enabled(server.cfg, server.View(), Writable(fd, k))
    modifies server.loop
    ensures server.Valid() && server.View() == Next(server.cfg, old(server.View()), Writable(fd, k))
  {
    server.WriteTo(fd, k);
  }

  /** EPOLLHUP or EPOLLRDHUP on a connected socket; the clients of a proxy that goes, go in some order. */
  method HangUp(server: FreeGrok, fd: Sock) returns (ghost order: seq<Sock>)
    requires server.Valid() && Proper(server.cfg) && Inv(server.cfg, server.View()) && fd in server.loop.linked
    modifies server, server.loop, server.pool, server.proxies.Values
    ensures Enabled(server.cfg, old(server.View()), Signal.HangsUp(fd, order))
    ensures server.Valid() && server.View() == Next(server.cfg, old(server.View()), Signal.HangsUp(fd, order))
  {
    match server.loop.linked[fd] {
      case Main =>
        MainIsControl(server.cfg, server.View(), fd);
        SoundSuffices(server.cfg, server.View(), fd);
        order := server.HangUpMain(fd);
      case Tunnel(l) =>
        order := [];
        ProxiedSuffices(server.cfg, server.View(), l, fd);
        server.HangUpAtProxy(l, fd);
    }
  }
}

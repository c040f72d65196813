/** Runs of the tunnel server made event by event: what a control client says, and what comes of it. */
module TunnelSteps {
  import opened Bytes
  import opened Framing
  import opened EventLoop
  import opened IdPool
  import opened Tunnel
  import opened TunnelRegistry
  import opened TunnelRuns

  lemma Extended<T>(a: seq<T>, x: T, i: nat)
    requires i <= |a|
    ensures (a + [x])[i] == if i < |a| then a[i] else x
  {}

  lemma SameStep(cfg: Config, w: World, e: Signal, r: World, w': World, e': Signal, r': World)
    requires IsStep(cfg, w, e, r) && w' == w && e' == e && r' == r
    ensures IsStep(cfg, w', e', r')
  {}

  lemma OneMore(cfg: Config, ws: seq<World>, es: seq<Signal>, e: Signal, v: World, i: nat)
    requires IsRun(cfg, ws, es) && IsStep(cfg, ws[|es|], e, v) && i <= |es|
    ensures IsStep(cfg, (ws + [v])[i], (es + [e])[i], (ws + [v])[i + 1])
  {
    var vs, ds := ws + [v], es + [e];
    Extended(ws, v, i);
    Extended(ws, v, i + 1);
    Extended(es, e, i);
    if i < |es| {
      StepOf(cfg, ws, es, i);
      SameStep(cfg, ws[i], es[i], ws[i + 1], vs[i], ds[i], vs[i + 1]);
    } else {
      SameStep(cfg, ws[i], e, v, vs[i], ds[i], vs[i + 1]);
    }
  }

  lemma AllSteps(cfg: Config, ws: seq<World>, es: seq<Signal>, e: Signal, v: World)
    requires IsRun(cfg, ws, es) && IsStep(cfg, ws[|es|], e, v)
    ensures IsRun(cfg, ws + [v], es + [e])
  {
    var vs, ds := ws + [v], es + [e];
    forall i | 0 <= i < |ds| ensures IsStep(cfg, vs[i], ds[i], vs[i + 1]) {
      OneMore(cfg, ws, es, e, v, i);
    }
  }

  /** A run of so many steps that comes to this world. */
  ghost predicate ComesTo(cfg: Config, ws: seq<World>, es: seq<Signal>, n: nat, w: World) {
    IsRun(cfg, ws, es) && |es| == n && ws[n] == w
  }

  /** The run of one step more. */
  lemma GoesOn(cfg: Config, ws: seq<World>, es: seq<Signal>, n: nat, w: World, e: Signal, v: World)
    requires ComesTo(cfg, ws, es, n, w) && IsStep(cfg, w, e, v)
    ensures ComesTo(cfg, ws + [v], es + [e], n + 1, v)
  {
    SameStep(cfg, w, e, v, ws[n], e, v);
    AllSteps(cfg, ws, es, e, v);
    Extended(ws, v, n + 1);
  }

  lemma RunBegins(cfg: Config)
    requires Proper(cfg)
    ensures ComesTo(cfg, [Initial()], [], 0, Initial())
  {}

  lemma LastOfRun(cfg: Config, ws: seq<World>, es: seq<Signal>, n: nat, w: World)
    requires ComesTo(cfg, ws, es, n, w)
    ensures Proper(cfg) && Inv(cfg, w)
  {
    RunKeeps(cfg, ws, es, n);
  }

  // ---------------------------------------------------------------- a control client

  predicate IsControl(w: World, fd: Sock) {
    fd in w.clients && fd in w.loop.linked && w.loop.linked[fd] == Main
  }

  /** A control client that waits for its next bytes; there are no proxies. */
  ghost predicate Waiting(w: World, fd: Sock, r: Reader) {
    && fd in w.loop.linked && w.loop.linked[fd] == Main && fd in w.clients && fd in w.read && fd in w.trace
    && fd in w.loop.queues && w.loop.queues[fd].read == [Read(r)] && Waits(r)
    && w.loop.linked.Keys == w.loop.queues.Keys == {fd} && w.proxies == map[] && w.users == map[]
    && w.pool == Pool(0, [])
  }

  lemma FirstWaits(fd: Sock)
    ensures Waiting(AcceptControl(Initial(), fd), fd, NewMessage)
  {}

  lemma Joins(cfg: Config, w: World, fd: Sock) returns (v: World)
    requires Proper(cfg) && Inv(cfg, w) && Unused(cfg, w, fd)
    ensures IsStep(cfg, w, ControlConnects(fd), v) && v == AcceptControl(w, fd)
  {
    v := Next(cfg, w, ControlConnects(fd));
  }

  lemma Comes(cfg: Config, ws: seq<World>, es: seq<Signal>, n: nat, w: World, fd: Sock)
    returns (vs: seq<World>, v: World)
    requires ComesTo(cfg, ws, es, n, w) && Unused(cfg, w, fd)
    ensures ComesTo(cfg, vs, es + [ControlConnects(fd)], n + 1, v) && Tracked(w.loop) && v == AcceptControl(w, fd)
  {
    LastOfRun(cfg, ws, es, n, w);
    v := Joins(cfg, w, fd);
    GoesOn(cfg, ws, es, n, w, ControlConnects(fd), v);
    vs := ws + [v];
  }

  lemma CanSay(cfg: Config, w: World, fd: Sock, r: Reader, chunk: seq<Byte>, sys: System)
    requires Waiting(w, fd, r) && 0 < |chunk| <= r.length - |r.received| && sys.listener != fd &&
             sys.listener != cfg.main
    ensures Enabled(cfg, w, Readable(fd, chunk, sys)) && CanRead(w, fd, chunk)
  {}

  lemma NextReads(cfg: Config, w: World, fd: Sock, chunk: seq<Byte>, sys: System)
    requires Proper(cfg) && Inv(cfg, w) && Enabled(cfg, w, Readable(fd, chunk, sys)) && Settled(w) && Tracked(w.loop)
    requires w.loop.linked[fd] == Main && CanRead(w, fd, chunk)
    ensures Next(cfg, w, Readable(fd, chunk, sys)) == ReadControl(cfg, w, fd, chunk, sys)
  {}

  lemma Says(cfg: Config, w: World, fd: Sock, r: Reader, chunk: seq<Byte>, sys: System) returns (v: World)
    requires Proper(cfg) && Inv(cfg, w) && Waiting(w, fd, r) && 0 < |chunk| <= r.length - |r.received|
    requires sys.listener != fd && sys.listener != cfg.main
    ensures CanRead(w, fd, chunk) && Tracked(w.loop) && Settled(w)
    ensures IsStep(cfg, w, Readable(fd, chunk, sys), v) && v == ReadControl(cfg, w, fd, chunk, sys)
  {
    SoundSettles(cfg, w);
    CanSay(cfg, w, fd, r, chunk, sys);
    NextReads(cfg, w, fd, chunk, sys);
    v := Next(cfg, w, Readable(fd, chunk, sys));
  }

  /** What a descriptor and the socket of a server can be. */
  predicate Free(cfg: Config, fd: Sock, sys: System) {
    fd != cfg.main && sys.listener != fd && sys.listener != cfg.main
  }

  lemma FirstConnects(cfg: Config, fd: Sock) returns (ws: seq<World>, es: seq<Signal>, w: World)
    requires Proper(cfg) && fd != cfg.main
    ensures ComesTo(cfg, ws, es, 1, w) && Waiting(w, fd, NewMessage)
  {
    RunBegins(cfg);
    FirstWaits(fd);
    ws, w := Comes(cfg, [Initial()], [], 0, Initial(), fd);
    es := [] + [ControlConnects(fd)];
  }
}

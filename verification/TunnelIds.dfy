/** The ids of proxied clients, over all proxies and the pool they share. */
module TunnelIds {
  import opened EventLoop
  import opened IdPool
  import opened Tunnel

  // ---------------------------------------------------------------- ids

  /** A proxy's two maps are each other's inverse, and their sockets are its clients. */
  ghost predicate Paired(p: Proxy) {
    && (forall s | s in p.sockToId :: p.sockToId[s] in p.idToSock && p.idToSock[p.sockToId[s]] == s)
    && (forall i | i in p.idToSock :: p.idToSock[i] in p.sockToId && p.sockToId[p.idToSock[i]] == i)
    && p.clients == p.sockToId.Keys
  }

  function LiveIds(proxies: map<Sock, Proxy>): set<nat> {
    set l, i | l in proxies && i in proxies[l].idToSock :: i
  }

  ghost predicate NoIdTwice(proxies: map<Sock, Proxy>) {
    forall l, m, i | l in proxies && m in proxies && i in proxies[l].idToSock && i in proxies[m].idToSock :: l == m
  }

  ghost predicate IdsOk(pool: Pool, proxies: map<Sock, Proxy>) {
    && (forall l | l in proxies :: Paired(proxies[l]))
    && NoIdTwice(proxies)
    && Partitions(pool, LiveIds(proxies))
  }

  /** There are 2^31 descriptors; ids go up to 2^32. */
  const SOCKETS := 0x8000_0000

  // ---------------------------------------------------------------- how many ids there can be

  /** The client a live id stands for. */
  ghost function Holder(proxies: map<Sock, Proxy>, i: nat): Sock
    requires i in LiveIds(proxies)
  {
    var l :| l in proxies && i in proxies[l].idToSock;
    proxies[l].idToSock[i]
  }

  lemma {:induction false} SizeOfImage(a: set<nat>, f: map<nat, Sock>, b: set<int>)
    requires a <= f.Keys && (forall i | i in a :: f[i] in b)
    requires forall i, j | i in a && j in a && f[i] == f[j] :: i == j
    ensures |a| <= |b|
    decreases |a|
  {
    if a != {} {
      var i :| i in a;
      SizeOfImage(a - {i}, f, b - {f[i]});
    }
  }

  lemma {:induction false} SizeOfRange(b: set<int>, n: nat)
    requires forall x | x in b :: 0 <= x < n
    ensures |b| <= n
    decreases n
  {
    if n == 0 {
      assert forall x :: x !in b;
    } else {
      SizeOfRange(b - {n - 1}, n - 1);
      assert |b| <= |b - {n - 1}| + 1;
    }
  }

  /** No socket is a client of two proxies. */
  ghost predicate NoClientTwice(proxies: map<Sock, Proxy>) {
    forall l, m, s | l in proxies && m in proxies && s in proxies[l].clients && s in proxies[m].clients :: l == m
  }

  /** There are no more live ids than sockets. */
  lemma NoWrap(proxies: map<Sock, Proxy>)
    requires (forall l | l in proxies :: Paired(proxies[l])) && NoClientTwice(proxies)
    ensures |LiveIds(proxies)| <= SOCKETS
  {
    var live := LiveIds(proxies);
    var f := map i | i in live :: Holder(proxies, i);
    forall i, j | i in live && j in live && f[i] == f[j] ensures i == j {
      var l :| l in proxies && i in proxies[l].idToSock && f[i] == proxies[l].idToSock[i];
      var m :| m in proxies && j in proxies[m].idToSock && f[j] == proxies[m].idToSock[j];
    }
    var socks: set<int> := f.Values;
    SizeOfImage(live, f, socks);
    SizeOfRange(socks, SOCKETS);
  }

  lemma IsLive(proxies: map<Sock, Proxy>, l: Sock, i: nat)
    requires l in proxies && i in proxies[l].idToSock
    ensures i in LiveIds(proxies)
  {}

  lemma OfPair(proxies: map<Sock, Proxy>, l: Sock, s: Sock, i: nat)
    requires (forall l | l in proxies :: Paired(proxies[l])) && l in proxies
    requires (s in proxies[l].sockToId && proxies[l].sockToId[s] == i) ||
             (i in proxies[l].idToSock && proxies[l].idToSock[i] == s)
    ensures var p := proxies[l];
            && s in p.sockToId && p.sockToId[s] == i && i in p.idToSock && p.idToSock[i] == s && s in p.clients
            && i in LiveIds(proxies)
  {
    assert Paired(proxies[l]);
  }

  // ---------------------------------------------------------------- clients come and go

  /** The id a new client gets is nobody's. */
  lemma BindKeeps(pool: Pool, proxies: map<Sock, Proxy>, l: Sock, fd: Sock)
    requires IdsOk(pool, proxies) && pool.last <= SOCKETS && l in proxies && fd !in proxies[l].sockToId
    ensures var (pool', id) := Get(pool);
            var proxies' := proxies[l := Bind(proxies[l], fd, id)];
            && id < ID_LIMIT && id !in LiveIds(proxies) && LiveIds(proxies') == LiveIds(proxies) + {id}
            && IdsOk(pool', proxies')
  {
    var live := LiveIds(proxies);
    GetPartitions(pool, live);
    var (pool', id) := Get(pool);
    var p := proxies[l];
    var proxies' := proxies[l := Bind(p, fd, id)];
    assert id !in p.idToSock;
    assert Paired(Bind(p, fd, id));
    assert LiveIds(proxies') == live + {id} by {
      assert id in proxies'[l].idToSock;
      forall i | i in live ensures i in LiveIds(proxies') {
        var m :| m in proxies && i in proxies[m].idToSock;
        assert m in proxies' && i in proxies'[m].idToSock;
      }
    }
  }

  /** The counter stays below the number of descriptors. */
  lemma LastKeeps(pool: Pool, live: set<nat>, proxies': map<Sock, Proxy>)
    requires Partitions(pool, live) && pool.last <= SOCKETS
    requires (forall l | l in proxies' :: Paired(proxies'[l])) && NoClientTwice(proxies')
    requires LiveIds(proxies') == live + {Get(pool).1}
    ensures Get(pool).0.last <= SOCKETS
  {
    NoWrap(proxies');
    GetRaisesLast(pool, live);
  }

  lemma UnbindKeeps(pool: Pool, proxies: map<Sock, Proxy>, l: Sock, fd: Sock)
    requires IdsOk(pool, proxies) && l in proxies && fd in proxies[l].sockToId
    ensures var id := proxies[l].sockToId[fd];
            var proxies' := proxies[l := Unbind(proxies[l], fd)];
            && IdsOk(Release(pool, id), proxies') && LiveIds(proxies') == LiveIds(proxies) - {id}
            && id in LiveIds(proxies)
  {
    var live := LiveIds(proxies);
    var p := proxies[l];
    var id := p.sockToId[fd];
    assert id in p.idToSock;
    var proxies' := proxies[l := Unbind(p, fd)];
    assert LiveIds(proxies') == live - {id} by {
      forall i | i in live - {id} ensures i in LiveIds(proxies') {
        var m :| m in proxies && i in proxies[m].idToSock;
        assert m in proxies' && i in proxies'[m].idToSock;
      }
    }
    ReleasePartitions(pool, live, id);
    assert Paired(Unbind(p, fd));
  }

  lemma OpenKeeps(pool: Pool, proxies: map<Sock, Proxy>, l: Sock, initiator: Sock)
    requires IdsOk(pool, proxies) && l !in proxies
    ensures var proxies' := proxies[l := Proxy(initiator, map[], map[], {})];
            IdsOk(pool, proxies') && LiveIds(proxies') == LiveIds(proxies)
  {
    var proxies' := proxies[l := Proxy(initiator, map[], map[], {})];
    forall i | i in LiveIds(proxies) ensures i in LiveIds(proxies') {
      var m :| m in proxies && i in proxies[m].idToSock;
      assert m in proxies' && i in proxies'[m].idToSock;
    }
    assert LiveIds(proxies') == LiveIds(proxies);
  }

  lemma CloseKeeps(pool: Pool, proxies: map<Sock, Proxy>, l: Sock, order: seq<Sock>)
    requires IdsOk(pool, proxies) && l in proxies && Enumerates(order, proxies[l].sockToId.Keys)
    ensures var ids := IdsInOrder(proxies[l], order);
            && IdsOk(ReleaseAll(pool, ids), proxies - {l})
            && LiveIds(proxies - {l}) == LiveIds(proxies) - proxies[l].idToSock.Keys
  {
    var live, p := LiveIds(proxies), proxies[l];
    var ids, gone := IdsInOrder(p, order), p.idToSock.Keys;
    var proxies' := proxies - {l};
    assert LiveIds(proxies') == live - gone by {
      forall i | i in live - gone ensures i in LiveIds(proxies') {
        var m :| m in proxies && i in proxies[m].idToSock;
        assert m in proxies' && i in proxies'[m].idToSock;
      }
    }
    assert gone <= live;
    forall i ensures i in ids <==> i in gone {
      if i in gone {
        var k :| 0 <= k < |order| && order[k] == p.idToSock[i];
        assert ids[k] == i;
      }
    }
    assert NoDuplicates(ids) by {
      forall i, j | 0 <= i < j < |ids| ensures ids[i] != ids[j] {
        assert order[i] != order[j] && order[i] in order && order[j] in order;
      }
    }
    ReleaseAllPartitions(pool, live, ids, gone);
  }
}

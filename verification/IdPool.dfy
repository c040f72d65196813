/** id_pool.hpp: ids of proxied clients, released ones first. */
module IdPool {

  const ID_LIMIT := 0x1_0000_0000

  /** `last` and the deque `ids`. */
  datatype Pool = Pool(last: nat, ids: seq<nat>)

  /** `get_id`; `last++` wraps around at 32 bits. */
  function Get(p: Pool): (Pool, nat) {
    if p.ids == [] then (p.(last := (p.last + 1) % ID_LIMIT), p.last)
    else (p.(ids := p.ids[1..]), p.ids[0])
  }

  /** `remove_id` */
  function Release(p: Pool, id: nat): Pool {
    p.(ids := p.ids + [id])
  }

  class Ids {
    var last: nat
    var ids: seq<nat>

    ghost function Value(): Pool
      reads this
    {
      Pool(last, ids)
    }

    constructor ()
      ensures Value() == Pool(0, [])
    {
      last, ids := 0, [];
    }

    method GetId() returns (id: nat)
      modifies this
      ensures (Value(), id) == Get(old(Value()))
    {
      if ids == [] {
        id := last;
        last := (last + 1) % ID_LIMIT;
        return;
      }
      id := ids[0];
      ids := ids[1..];
    }

    method RemoveId(id: nat)
      modifies this`ids
      ensures Value() == Release(old(Value()), id)
    {
      ids := ids + [id];
    }
  }

  // ---------------------------------------------------------------- what the pool keeps

  ghost predicate NoDuplicates(s: seq<nat>) {
    forall i, j | 0 <= i < j < |s| :: s[i] != s[j]
  }

  /** Free and live ids share [0, last) out between them, each free id once. */
  ghost predicate Partitions(p: Pool, live: set<nat>) {
    && NoDuplicates(p.ids)
    && (forall i | i in p.ids :: i < p.last && i !in live)
    && (forall i | i in live :: i < p.last)
    && (forall i: nat | i < p.last :: i in p.ids || i in live)
  }

  lemma GetPartitions(p: Pool, live: set<nat>)
    requires Partitions(p, live) && p.last < ID_LIMIT - 1
    ensures var (q, id) := Get(p); id !in live && Partitions(q, live + {id}) && id < ID_LIMIT
  {
    if p.ids != [] {
      var rest := p.ids[1..];
      assert p.ids == [p.ids[0]] + rest;
      assert forall i | i in rest :: i in p.ids;
      assert p.ids[0] in p.ids;
      assert forall k | 0 <= k < |rest| :: rest[k] == p.ids[k + 1];
    }
  }

  lemma ReleasePartitions(p: Pool, live: set<nat>, id: nat)
    requires Partitions(p, live) && id in live
    ensures Partitions(Release(p, id), live - {id})
  {
    var ids := p.ids + [id];
    forall i, j | 0 <= i < j < |ids| ensures ids[i] != ids[j] {
      assert ids[i] in p.ids;
    }
  }

  /** Ids released one after another, as `shutdown` does. */
  function ReleaseAll(p: Pool, ids: seq<nat>): Pool {
    p.(ids := p.ids + ids)
  }

  lemma ReleaseAllPartitions(p: Pool, live: set<nat>, ids: seq<nat>, gone: set<nat>)
    requires Partitions(p, live) && NoDuplicates(ids) && gone <= live && forall i :: i in ids <==> i in gone
    ensures Partitions(ReleaseAll(p, ids), live - gone)
  {
    var all := p.ids + ids;
    forall i, j | 0 <= i < j < |all| ensures all[i] != all[j] {
      if i < |p.ids| <= j {
        assert all[i] in p.ids && all[j] in ids;
      } else if |p.ids| <= i {
        assert all[i] == ids[i - |p.ids|] && all[j] == ids[j - |p.ids|];
      }
    }
  }

  // ---------------------------------------------------------------- the order ids come back in

  /** What is asked of the pool. */
  datatype Use = Gets | Releases(id: nat)

  /** What has come of it: the ids released; and of the ids handed out, those handed out while one was
      waiting to be used again, and the others. */
  datatype History = History(pool: Pool, released: seq<nat>, recycled: seq<nat>, others: seq<nat>)

  function Follows(h: History, use: Use): History {
    match use
    case Releases(id) => h.(pool := Release(h.pool, id), released := h.released + [id])
    case Gets =>
      var (pool, id) := Get(h.pool);
      if |h.recycled| < |h.released| then h.(pool := pool, recycled := h.recycled + [id])
      else h.(pool := pool, others := h.others + [id])
  }

  /** From the start of the program. */
  function HistoryOf(uses: seq<Use>): History {
    if uses == [] then History(Pool(0, []), [], [], [])
    else Follows(HistoryOf(uses[..|uses| - 1]), uses[|uses| - 1])
  }

  /** Whatever is asked: the k-th id that is used again is the k-th that was released, and those after it
      wait in that order; the k-th other id is k, in 32 bits. */
  lemma {:induction false} OldestFirst(uses: seq<Use>)
    ensures var h := HistoryOf(uses);
            && h.released == h.recycled + h.pool.ids
            && (forall k | 0 <= k < |h.others| :: h.others[k] == k % ID_LIMIT)
            && h.pool.last == |h.others| % ID_LIMIT
    decreases |uses|
  {
    if uses != [] {
      var h, use := HistoryOf(uses[..|uses| - 1]), uses[|uses| - 1];
      OldestFirst(uses[..|uses| - 1]);
      match use {
        case Releases(id) => assert h.recycled + h.pool.ids + [id] == h.recycled + (h.pool.ids + [id]);
        case Gets =>
          if h.pool.ids != [] {
            assert h.pool.ids == [h.pool.ids[0]] + h.pool.ids[1..];
            assert h.recycled + [h.pool.ids[0]] + h.pool.ids[1..] == h.recycled + h.pool.ids;
          } else {
            NextInRange(|h.others|);
          }
      }
    }
  }

  lemma NextInRange(n: nat)
    ensures (n % ID_LIMIT + 1) % ID_LIMIT == (n + 1) % ID_LIMIT
  {
    assert n + 1 == n / ID_LIMIT * ID_LIMIT + (n % ID_LIMIT + 1);
    if n % ID_LIMIT + 1 == ID_LIMIT {
      assert n + 1 == (n / ID_LIMIT + 1) * ID_LIMIT;
    }
  }

  // ---------------------------------------------------------------- counting

  lemma {:induction false} RangeSize(s: set<nat>, n: nat)
    requires forall i: nat :: i in s <==> i < n
    ensures |s| == n
    decreases n
  {
    if n == 0 {
      assert s == {};
    } else {
      RangeSize(s - {n - 1}, n - 1);
    }
  }

  function Elements(s: seq<nat>): set<nat> {
    set i | i in s
  }

  lemma {:induction false} ElementsSize(s: seq<nat>)
    requires NoDuplicates(s)
    ensures |Elements(s)| == |s|
    decreases |s|
  {
    if s != [] {
      var init, x := s[..|s| - 1], s[|s| - 1];
      ElementsSize(init);
      assert forall k | 0 <= k < |init| :: init[k] == s[k] != x;
      ElementsSnoc(init, x);
      assert s == init + [x];
    }
  }

  lemma ElementsSnoc(s: seq<nat>, x: nat)
    ensures Elements(s + [x]) == Elements(s) + {x}
  {}

  /** `last` counts the free and the live ids. */
  lemma LastCounts(p: Pool, live: set<nat>)
    requires Partitions(p, live)
    ensures p.last == |p.ids| + |live|
  {
    var free := Elements(p.ids);
    ElementsSize(p.ids);
    RangeSize(free + live, p.last);
    assert free !! live;
    assert |free + live| == |free| + |live|;
  }

  function Max(a: nat, b: nat): nat { if a < b then b else a }

  /** `last` rises just when there are more live ids than it counts. */
  lemma GetRaisesLast(p: Pool, live: set<nat>)
    requires Partitions(p, live) && p.last < ID_LIMIT - 1
    ensures var (q, id) := Get(p); q.last == Max(p.last, |live + {id}|)
  {
    LastCounts(p, live);
    GetPartitions(p, live);
  }
}

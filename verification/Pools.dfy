/**
  SessionPool and PooledSession.  Both kinds of object are deleted by the code, so they live in
  the modelled heap, and their methods take the pointer to the object.
 */
module Pools {
  import opened CacheKeys
  import opened Collections
  import opened CppHeap
  import opened TemplateState
  import opened LifecycleManager

  /** SessionPool::takeSession: the head of the available list, or a new session. */
  method TakeSession(heap: Heap, manager: ResourceLifecycleManager, p: Ptr, ghost g: Graph) returns (r: Outcome<Ptr>)
    requires heap.cells == g.cells && manager.Lists() == g.managed
    requires Live(heap.cells, p) && heap.cells[p].obj.SessionPool?
    modifies heap`cells, heap`calls, manager
    ensures var (h, out) := PoolTake(g, p, heap.oracle(old(heap.calls)));
      && heap.cells == h.cells && manager.Lists() == h.managed && r == out
      && heap.calls == old(heap.calls) + (if PoolAt(g, p).available == [] then 1 else 0)
  {
    var pool := heap.Get(p);
    if pool.available == [] {
      var failed := heap.Call();
      if failed {
        return Fail;
      }
      var session := heap.New(Session(pool.connection, pool.mode));
      manager.AddSession(session);
      var q := heap.New(PooledSession(p, session, map[], map[]));
      heap.Put(p, pool.(sessions := pool.sessions + [q]));
      assert heap.cells == AddSession(g, p).cells;
      return Ok(q);
    } else {
      heap.Put(p, pool.(available := pool.available[1..]));
      return Ok(pool.available[0]);
    }
  }

  /** PooledSession::close, which is SessionPool::returnSession. */
  method CloseSession(heap: Heap, q: Ptr, ghost g: Graph)
    requires heap.cells == g.cells
    requires Live(heap.cells, q) && heap.cells[q].obj.PooledSession?
    requires Live(heap.cells, heap.cells[q].obj.pool) && heap.cells[heap.cells[q].obj.pool].obj.SessionPool?
    modifies heap`cells
    ensures heap.cells == Return(g, q).cells
  {
    var p := heap.Get(q).pool;
    var pool := heap.Get(p);
    heap.Put(p, pool.(available := pool.available + [q]));
  }

  /** PooledSession::createCachedProducer and createCachedConsumer: a wrapper per cache key. */
  method CreateCached(heap: Heap, manager: ResourceLifecycleManager, q: Ptr, client: Client, ghost g: Graph)
    returns (r: Outcome<Ptr>)
    requires heap.cells == g.cells && manager.Lists() == g.managed
    requires Live(heap.cells, q) && heap.cells[q].obj.PooledSession?
    modifies heap`cells, heap`calls, manager
    ensures var cache := CacheOf(SessionAt(g, q), client);
      if Key(client) in cache then
        && r == Ok(cache[Key(client)]) && heap.calls == old(heap.calls)
        && heap.cells == g.cells && manager.Lists() == g.managed
      else
        && heap.calls == old(heap.calls) + 1
        && r == (if heap.oracle(old(heap.calls)) then Fail else Ok(|g.cells| + 1))
        && (r.Fail? ==> heap.cells == g.cells && manager.Lists() == g.managed)
        && (r.Ok? ==> heap.cells == AddClient(g, q, client).cells && manager.Lists() == AddClient(g, q, client).managed)
  {
    var key := Key(client);
    var session := heap.Get(q);
    var cache := CacheOf(session, client);
    if key in cache {
      return Ok(cache[key]);
    }
    var failed := heap.Call();
    if failed {
      return Fail;
    }
    var raw := heap.New(RawClient(q, client));
    if client.ProducerFor? {
      manager.AddMessageProducer(raw);
    } else {
      manager.AddMessageConsumer(raw);
    }
    var wrapper := heap.New(CachedClient(q, client, raw));
    heap.Put(q, WithCached(session, client, wrapper));
    assert heap.cells == AddClient(g, q, client).cells;
    return Ok(wrapper);
  }

  // ---- Destructors ----

  /** A pooled session and the wrappers in its caches. */
  ghost function SessionParts(cells: seq<Cell>, q: Ptr): set<Ptr>
    requires q < |cells| && cells[q].obj.PooledSession?
  {
    {q} + Values(cells[q].obj.producerCache) + Values(cells[q].obj.consumerCache)
  }

  ghost predicate CacheSound(cells: seq<Cell>, m: map<string, Ptr>) {
    && (forall k :: k in m ==> Live(cells, m[k]))
    && (forall j, k :: j in m && k in m && m[j] == m[k] ==> j == k)
  }

  /** A live session whose caches share no wrapper. */
  ghost predicate SessionSound(cells: seq<Cell>, q: Ptr) {
    && Live(cells, q) && cells[q].obj.PooledSession?
    && CacheSound(cells, cells[q].obj.producerCache) && CacheSound(cells, cells[q].obj.consumerCache)
    && q !in Values(cells[q].obj.producerCache) && q !in Values(cells[q].obj.consumerCache)
    && Values(cells[q].obj.producerCache) !! Values(cells[q].obj.consumerCache)
  }

  /** Deletes the wrappers of one cache. */
  method DeleteCache(heap: Heap, cache: map<string, Ptr>)
    requires CacheSound(heap.cells, cache)
    modifies heap`cells, heap`log
    ensures heap.cells == Kill(old(heap.cells), Values(cache))
  {
    var left := cache.Keys;
    ghost var done: set<Ptr> := {};
    assert heap.cells == Kill(old(heap.cells), {});
    while left != {}
      invariant left <= cache.Keys
      invariant done == set k | k in cache && k !in left :: cache[k]
      invariant heap.cells == Kill(old(heap.cells), done)
      decreases left
    {
      var k :| k in left;
      assert cache[k] !in done;
      heap.Delete(cache[k]);
      KillTwice(old(heap.cells), done, {cache[k]});
      left := left - {k};
      done := done + {cache[k]};
    }
    assert done == Values(cache);
  }

  /** The destructor of PooledSession, and the delete that runs it. */
  method DeleteSession(heap: Heap, q: Ptr)
    requires SessionSound(heap.cells, q)
    modifies heap`cells, heap`log
    ensures heap.cells == Kill(old(heap.cells), SessionParts(old(heap.cells), q))
  {
    ghost var start := heap.cells;
    var session := heap.Get(q);
    ghost var a, b := Values(session.producerCache), Values(session.consumerCache);
    DeleteCache(heap, session.producerCache);
    DeleteCache(heap, session.consumerCache);
    KillTwice(start, a, b);
    heap.Delete(q);
    KillTwice(start, a + b, {q});
    assert a + b + {q} == SessionParts(start, q);
  }

  /** Sound sessions, all different, that share nothing. */
  ghost predicate SessionsSound(cells: seq<Cell>, xs: seq<Ptr>) {
    && (forall i :: 0 <= i < |xs| ==> SessionSound(cells, xs[i]))
    && (forall i, j :: 0 <= i < j < |xs| ==> SessionParts(cells, xs[i]) !! SessionParts(cells, xs[j]))
  }

  ghost function AllParts(cells: seq<Cell>, xs: seq<Ptr>): set<Ptr>
    requires forall i :: 0 <= i < |xs| ==> xs[i] < |cells| && cells[xs[i]].obj.PooledSession?
  {
    set i, x | 0 <= i < |xs| && x in SessionParts(cells, xs[i]) :: x
  }

  /** Deleting other cells leaves a session sound. */
  lemma SoundAfter(start: seq<Cell>, dead: set<Ptr>, q: Ptr)
    requires SessionSound(start, q) && dead !! SessionParts(start, q)
    ensures SessionSound(Kill(start, dead), q)
    ensures SessionParts(Kill(start, dead), q) == SessionParts(start, q)
  {
  }

  lemma NextParts(cells: seq<Cell>, xs: seq<Ptr>, i: nat)
    requires SessionsSound(cells, xs) && i < |xs|
    ensures AllParts(cells, xs[..i]) !! SessionParts(cells, xs[i])
    ensures AllParts(cells, xs[..i + 1]) == AllParts(cells, xs[..i]) + SessionParts(cells, xs[i])
  {
    var ys, zs := xs[..i], xs[..i + 1];
    forall x | x in AllParts(cells, ys) ensures x in AllParts(cells, zs) && x !in SessionParts(cells, xs[i]) {
      var j :| 0 <= j < i && x in SessionParts(cells, ys[j]);
      assert ys[j] == xs[j] && zs[j] == xs[j];
    }
    forall x | x in SessionParts(cells, xs[i]) ensures x in AllParts(cells, zs) {
      assert zs[i] == xs[i];
    }
    forall x | x in AllParts(cells, zs) ensures x in AllParts(cells, ys) || x in SessionParts(cells, xs[i]) {
      var j :| 0 <= j <= i && x in SessionParts(cells, zs[j]);
      if j < i { assert ys[j] == zs[j]; }
    }
  }

  /** Deletes every session of a list. */
  method DeleteSessions(heap: Heap, xs: seq<Ptr>)
    requires SessionsSound(heap.cells, xs)
    modifies heap`cells, heap`log
    ensures heap.cells == Kill(old(heap.cells), AllParts(old(heap.cells), xs))
  {
    ghost var start := heap.cells;
    var i := 0;
    assert heap.cells == Kill(start, AllParts(start, xs[..0]));
    while i < |xs|
      invariant 0 <= i <= |xs|
      invariant heap.cells == Kill(start, AllParts(start, xs[..i]))
    {
      NextParts(start, xs, i);
      SoundAfter(start, AllParts(start, xs[..i]), xs[i]);
      DeleteSession(heap, xs[i]);
      KillTwice(start, AllParts(start, xs[..i]), SessionParts(start, xs[i]));
      i := i + 1;
    }
    assert xs[..i] == xs;
  }

  /** A live pool with sound sessions, none of whose parts is the pool itself. */
  ghost predicate PoolSound(cells: seq<Cell>, p: Ptr) {
    && Live(cells, p) && cells[p].obj.SessionPool?
    && SessionsSound(cells, cells[p].obj.sessions)
    && p !in AllParts(cells, cells[p].obj.sessions)
  }

  ghost function PoolParts(cells: seq<Cell>, p: Ptr): set<Ptr>
    requires p < |cells| && cells[p].obj.SessionPool?
    requires forall i :: 0 <= i < |cells[p].obj.sessions| ==>
      cells[p].obj.sessions[i] < |cells| && cells[cells[p].obj.sessions[i]].obj.PooledSession?
  {
    {p} + AllParts(cells, cells[p].obj.sessions)
  }

  /** The destructor of SessionPool, and the delete that runs it. */
  method DeletePool(heap: Heap, p: Ptr)
    requires PoolSound(heap.cells, p)
    modifies heap`cells, heap`log
    ensures heap.cells == Kill(old(heap.cells), PoolParts(old(heap.cells), p))
  {
    ghost var start := heap.cells;
    var xs := heap.Get(p).sessions;
    DeleteSessions(heap, xs);
    heap.Delete(p);
    KillTwice(start, AllParts(start, xs), {p});
    assert AllParts(start, xs) + {p} == PoolParts(start, p);
  }
}

/**
  Why destroy() may delete everything it deletes, and that nothing is left: the pools with their
  sessions and wrappers, the session resolvers, and the managed resources are disjoint, alive,
  and together all that the template owns.
 */
module TemplateDestruction {
  import opened Collections
  import opened CppHeap
  import opened TemplateState
  import opened TemplateInvariant
  import opened LifecycleManager
  import opened Pools
  import DestinationResolver

  /** Pools, pooled sessions and cached wrappers. */
  predicate IsPart(obj: Obj) {
    obj.SessionPool? || obj.PooledSession? || obj.CachedClient?
  }

  /** The pool that a part belongs to. */
  function HomePool(g: Graph, x: Ptr): Ptr {
    match At(g, x)
    case PooledSession(pool, _, _, _) => pool
    case CachedClient(q, _, _) => SessionAt(g, q).pool
    case _ => x
  }

  ghost predicate LivePart(g: Graph, x: Ptr) {
    Live(g.cells, x) && IsPart(g.cells[x].obj)
  }

  /** The wrappers of a session are the live cached clients that name it. */
  lemma WrapperExact(g: Graph, q: Ptr, x: Ptr)
    requires Ledger(g) && CachesOk(g) && OpenSession(g, q)
    ensures x in SessionParts(g.cells, q) <==>
      x == q || (Live(g.cells, x) && g.cells[x].obj.CachedClient? && g.cells[x].obj.session == q)
  {
    var s := g.cells[q].obj;
    assert CacheOk(g, q);
    if x in Values(s.producerCache) {
      var k :| k in s.producerCache && s.producerCache[k] == x;
      assert EntryOk(g, q, true, k, x) && Owned(g, x);
    }
    if x in Values(s.consumerCache) {
      var k :| k in s.consumerCache && s.consumerCache[k] == x;
      assert EntryOk(g, q, false, k, x) && Owned(g, x);
    }
    if Live(g.cells, x) && g.cells[x].obj.CachedClient? && g.cells[x].obj.session == q {
      assert Owned(g, x);
    }
  }

  lemma CacheSoundOf(g: Graph, q: Ptr)
    requires Ledger(g) && CachesOk(g) && OpenSession(g, q)
    ensures SessionSound(g.cells, q)
  {
    var s := g.cells[q].obj;
    assert CacheOk(g, q) && Owned(g, q);
    forall k | k in s.producerCache ensures Live(g.cells, s.producerCache[k]) {
      assert EntryOk(g, q, true, k, s.producerCache[k]) && Owned(g, s.producerCache[k]);
    }
    forall k | k in s.consumerCache ensures Live(g.cells, s.consumerCache[k]) {
      assert EntryOk(g, q, false, k, s.consumerCache[k]) && Owned(g, s.consumerCache[k]);
    }
  }

  lemma SessionsSoundOf(g: Graph, held: set<Ptr>, p: Ptr)
    requires Ledger(g) && SessionsOk(g, held) && CachesOk(g) && OpenPool(g, p)
    ensures SessionsSound(g.cells, g.cells[p].obj.sessions)
  {
    var xs := g.cells[p].obj.sessions;
    assert PoolOk(g, held, p);
    forall i | 0 <= i < |xs| ensures SessionSound(g.cells, xs[i]) {
      assert OpenSession(g, xs[i]);
      CacheSoundOf(g, xs[i]);
    }
    forall i, j | 0 <= i < j < |xs| ensures SessionParts(g.cells, xs[i]) !! SessionParts(g.cells, xs[j]) {
      assert OpenSession(g, xs[i]) && OpenSession(g, xs[j]);
      forall x ensures !(x in SessionParts(g.cells, xs[i]) && x in SessionParts(g.cells, xs[j])) {
        WrapperExact(g, xs[i], x);
        WrapperExact(g, xs[j], x);
      }
    }
  }

  /** What belongs to a pool, other than the pool. */
  ghost predicate HomeIs(g: Graph, x: Ptr, p: Ptr) {
    LivePart(g, x) && !g.cells[x].obj.SessionPool? && HomePool(g, x) == p
  }

  lemma PartsHome(g: Graph, held: set<Ptr>, p: Ptr, x: Ptr)
    requires Ledger(g) && SessionsOk(g, held) && CachesOk(g) && OpenPool(g, p)
    requires SessionsSound(g.cells, g.cells[p].obj.sessions)
    requires x in AllParts(g.cells, g.cells[p].obj.sessions)
    ensures HomeIs(g, x, p)
  {
    var xs := g.cells[p].obj.sessions;
    assert PoolOk(g, held, p);
    var i :| 0 <= i < |xs| && x in SessionParts(g.cells, xs[i]);
    assert OpenSession(g, xs[i]) && Owned(g, xs[i]);
    WrapperExact(g, xs[i], x);
  }

  lemma HomeParts(g: Graph, p: Ptr, x: Ptr)
    requires Ledger(g) && CachesOk(g) && OpenPool(g, p)
    requires SessionsSound(g.cells, g.cells[p].obj.sessions)
    requires HomeIs(g, x, p)
    ensures x in AllParts(g.cells, g.cells[p].obj.sessions)
  {
    var xs := g.cells[p].obj.sessions;
    assert Owned(g, x);
    var q := if g.cells[x].obj.PooledSession? then x else g.cells[x].obj.session;
    assert OpenSession(g, q) && q in xs;
    WrapperExact(g, q, x);
    var i :| 0 <= i < |xs| && xs[i] == q;
    assert x in SessionParts(g.cells, xs[i]);
  }

  lemma PoolSoundOf(g: Graph, held: set<Ptr>, p: Ptr)
    requires Ledger(g) && SessionsOk(g, held) && CachesOk(g) && OpenPool(g, p)
    ensures PoolSound(g.cells, p)
    ensures forall x :: x in PoolParts(g.cells, p) <==> LivePart(g, x) && HomePool(g, x) == p
  {
    PoolIsLive(g, p);
    hide Ledger, SessionsOk, CachesOk, SessionsSound, HomePool;
    SessionsSoundOf(g, held, p);
    forall x: Ptr ensures x in AllParts(g.cells, g.cells[p].obj.sessions) <==> HomeIs(g, x, p) {
      if HomeIs(g, x, p) { HomeParts(g, p, x); }
      if x in AllParts(g.cells, g.cells[p].obj.sessions) { PartsHome(g, held, p, x); }
    }
    PoolHome(g);
  }

  lemma PoolIsLive(g: Graph, p: Ptr)
    requires Ledger(g) && OpenPool(g, p)
    ensures Live(g.cells, p)
  {
    assert Owned(g, p);
  }

  /** A pool is at home in itself. */
  lemma PoolHome(g: Graph)
    ensures forall x: Ptr :: At(g, x).SessionPool? ==> HomePool(g, x) == x
  {
  }

  /** The live parts of the pools for modes below n. */
  ghost function PartsBelow(g: Graph, n: nat): set<Ptr> {
    set x | 0 <= x < |g.cells| && LivePart(g, x) && PoolAt(g, HomePool(g, x)).mode < n
  }

  /** Every live part belongs to an open pool. */
  lemma PartHasPool(g: Graph, x: Ptr)
    requires Ledger(g) && LivePart(g, x)
    ensures OpenPool(g, HomePool(g, x))
  {
    assert Owned(g, x);
  }

  lemma PoolOfMode(g: Graph, held: set<Ptr>, m: AckMode)
    requires GraphInv(g, held) && g.pools != NO_POOLS
    ensures OpenPool(g, PoolFor(g, m)) && g.cells[PoolFor(g, m)].obj.mode == m
    ensures forall p: Ptr :: OpenPool(g, p) && g.cells[p].obj.mode == m ==> p == PoolFor(g, m)
    ensures PoolSound(g.cells, PoolFor(g, m))
    ensures forall x :: x in PoolParts(g.cells, PoolFor(g, m)) <==> LivePart(g, x) && HomePool(g, x) == PoolFor(g, m)
  {
    hide SessionsSound;
    PoolSoundOf(g, held, PoolFor(g, m));
  }

  lemma PartsHavePools(g: Graph, held: set<Ptr>)
    requires GraphInv(g, held)
    ensures forall x: Ptr :: LivePart(g, x) ==> OpenPool(g, HomePool(g, x))
  {
    forall x: Ptr | LivePart(g, x) ensures OpenPool(g, HomePool(g, x)) { PartHasPool(g, x); }
  }

  /** Deleting the pool of one mode takes all parts below that mode to all parts below the next. */
  lemma NextPool(g: Graph, held: set<Ptr>, m: AckMode)
    requires GraphInv(g, held) && g.pools != NO_POOLS
    ensures var p := PoolFor(g, m);
      && OpenPool(g, p) && PoolSound(g.cells, p)
      && PartsBelow(g, m) !! PoolParts(g.cells, p)
      && PartsBelow(g, m + 1) == PartsBelow(g, m) + PoolParts(g.cells, p)
  {
    hide GraphInv, HomePool, PoolParts, IsPart;
    PoolOfMode(g, held, m);
    PartsHavePools(g, held);
    assert PartsBelow(g, m + 1) == PartsBelow(g, m) + PoolParts(g.cells, PoolFor(g, m));
  }

  lemma NoPools(g: Graph, held: set<Ptr>)
    requires GraphInv(g, held) && g.pools == NO_POOLS
    ensures PartsBelow(g, NUM_POOLS) == {}
  {
    forall x: Ptr | LivePart(g, x) ensures false {
      PartHasPool(g, x);
    }
  }

  lemma PoolSoundAfter(start: seq<Cell>, dead: set<Ptr>, p: Ptr)
    requires PoolSound(start, p) && dead !! PoolParts(start, p)
    ensures PoolSound(Kill(start, dead), p)
    ensures PoolParts(Kill(start, dead), p) == PoolParts(start, p)
  {
    var xs := start[p].obj.sessions;
    var now := Kill(start, dead);
    forall i | 0 <= i < |xs|
      ensures SessionSound(now, xs[i]) && SessionParts(now, xs[i]) == SessionParts(start, xs[i])
    {
      forall x | x in SessionParts(start, xs[i]) ensures x !in dead {
        assert x in AllParts(start, xs);
      }
      SoundAfter(start, dead, xs[i]);
    }
    forall x ensures x in AllParts(now, xs) <==> x in AllParts(start, xs) {
      if x in AllParts(now, xs) {
        var i :| 0 <= i < |xs| && x in SessionParts(now, xs[i]);
        assert x in SessionParts(start, xs[i]);
      }
      if x in AllParts(start, xs) {
        var i :| 0 <= i < |xs| && x in SessionParts(start, xs[i]);
        assert x in SessionParts(now, xs[i]);
      }
    }
  }

  // ---- Resolvers and managed resources ----

  lemma ResolversLiveOf(g: Graph, held: set<Ptr>)
    requires GraphInv(g, held)
    ensures DestinationResolver.ResolversLive(g.cells, g.resolver)
    ensures forall x: Ptr :: x in Values(g.resolver) <==>
      Live(g.cells, x) && g.cells[x].obj.SessionResolver?
  {
    hide GraphInv;
    ResolversKnown(g, held);
  }

  lemma ResolversKnown(g: Graph, held: set<Ptr>)
    requires GraphInv(g, held)
    ensures forall q :: q in g.resolver ==> ResolverFor(g, q, g.resolver[q])
    ensures forall x: Ptr :: Live(g.cells, x) && g.cells[x].obj.SessionResolver? ==>
      x in Values(g.resolver)
  {
    forall x: Ptr | Live(g.cells, x) && g.cells[x].obj.SessionResolver?
      ensures x in Values(g.resolver)
    {
      assert Owned(g, x);
    }
    forall q | q in g.resolver ensures ResolverFor(g, q, g.resolver[q]) { ResolverIsLive(g, q); }
  }

  ghost predicate ResolverFor(g: Graph, q: Ptr, r: Ptr) {
    Live(g.cells, r) && g.cells[r].obj.SessionResolver? && g.cells[r].obj.session == q
  }

  lemma ResolverIsLive(g: Graph, q: Ptr)
    requires Ledger(g) && ResolverOk(g) && q in g.resolver
    ensures ResolverFor(g, q, g.resolver[q])
  {
    assert KnownOk(g, q) && Owned(g, g.resolver[q]);
  }

  /** Resources that the lifecycle manager owns. */
  predicate IsManaged(obj: Obj) {
    obj.Connection? || obj.Session? || obj.Destination? || obj.RawClient?
  }

  lemma ManagedExact(g: Graph, p: Ptr)
    requires Ledger(g) && ListsOk(g)
    ensures p in All(g.managed) <==> Live(g.cells, p) && IsManaged(g.cells[p].obj)
  {
    AllMembers(g.managed);
    if p in All(g.managed) {
      assert p < |g.cells|;
      assert Owned(g, p);
    }
    if Live(g.cells, p) && IsManaged(g.cells[p].obj) {
      assert Owned(g, p);
    }
  }

  lemma AppendNoDup(xs: seq<Ptr>, ys: seq<Ptr>)
    requires NoDup(xs) && NoDup(ys) && forall x :: x in xs ==> x !in ys
    ensures NoDup(xs + ys)
  {
    var all := xs + ys;
    forall i, j | 0 <= i < j < |all| ensures all[i] != all[j] {
      if i < |xs| && j >= |xs| { assert all[i] in xs && all[j] in ys; }
    }
  }

  lemma DestroyableOf(g: Graph)
    requires Ledger(g) && ListsOk(g)
    ensures Destroyable(g.cells, g.managed)
  {
    var m := g.managed;
    forall p | p in All(m) ensures Live(g.cells, p) {
      ManagedExact(g, p);
    }
    var d2 := m.producers + m.consumers;
    var d3 := d2 + m.destinations;
    AppendNoDup(m.producers, m.consumers);
    AppendNoDup(d2, m.destinations);
    AppendNoDup(d3, m.sessions);
    AppendNoDup(d3 + m.sessions, m.connections);
  }

  /** The three destruction steps together delete exactly what the template owns. */
  lemma DestructionExact(g: Graph, held: set<Ptr>)
    requires GraphInv(g, held)
    ensures var (a, b, c) := (PartsBelow(g, NUM_POOLS), Values(g.resolver), Elements(All(g.managed)));
      a !! b && (a + b) !! c && a + b + c == Owns(g.cells)
  {
    hide GraphInv, DestinationResolver.ResolversLive, Values, All, HomePool;
    var a, b, c := PartsBelow(g, NUM_POOLS), Values(g.resolver), Elements(All(g.managed));
    ResolversLiveOf(g, held);
    ManagedSet(g, held);
    assert a + b + c == Owns(g.cells);
  }

  /** The deletion of c comes before that of p. */
  ghost predicate DeletedBefore(log: seq<Event>, c: Ptr, p: Ptr) {
    && Deleted(c) in log && Deleted(p) in log
    && forall i, j :: 0 <= i < |log| && 0 <= j < |log| && log[i] == Deleted(c) && log[j] == Deleted(p) ==> i < j
  }

  lemma EarlierPhase(m: Managed, c: Ptr, p: Ptr)
    requires NoDup(All(m)) && c in All(m) && p in All(m) && Phase(m, c) < Phase(m, p)
    ensures DeletedBefore(DestroyLog(m), c, p)
  {
    var log := DestroyLog(m);
    DestroyLogOnce(m);
    hide Phase, DestroyLog;
    forall i, j | 0 <= i < |log| && 0 <= j < |log| && log[i] == Deleted(c) && log[j] == Deleted(p) ensures i < j {
      if j < i { ChildrenFirst(m, j, i); }
    }
  }

  /** No parent is deleted before its children: destroy() deletes a session after its producers,
      consumers and destinations, and the connection after the session. */
  lemma ParentsLast(g: Graph, held: set<Ptr>, c: Ptr)
    requires GraphInv(g, held)
    requires c in All(g.managed) && (At(g, c).RawClient? || At(g, c).Destination?)
    ensures var log, raw := DestroyLog(g.managed), SessionAt(g, At(g, c).session).raw;
      At(g, raw).Session? && DeletedBefore(log, c, raw) && DeletedBefore(log, raw, At(g, raw).connection)
  {
    var q := At(g, c).session;
    if At(g, c).RawClient? { assert ClientOk(g, c); } else { assert RememberedOk(g, c) && KnownOk(g, q); }
    SessionBeforeConnection(g, held, q);
    DestroyableOf(g);
    var m, raw := g.managed, SessionAt(g, q).raw;
    ManagedExact(g, c);
    assert Phase(m, c) < 4;
    EarlierPhase(m, c, raw);
  }

  lemma SessionBeforeConnection(g: Graph, held: set<Ptr>, q: Ptr)
    requires GraphInv(g, held) && OpenSession(g, q)
    ensures var m, raw := g.managed, SessionAt(g, q).raw;
      && At(g, raw).Session? && raw in All(m) && Phase(m, raw) == 4
      && DeletedBefore(DestroyLog(m), raw, At(g, raw).connection)
  {
    var m, raw := g.managed, SessionAt(g, q).raw;
    assert WrapOk(g, q);
    var conn := At(g, raw).connection;
    assert conn == g.connection.value && conn == m.connections[0];
    DestroyableOf(g);
    assert Phase(m, raw) == 4 && Phase(m, conn) == 5;
    EarlierPhase(m, raw, conn);
  }

  lemma ManagedSet(g: Graph, held: set<Ptr>)
    requires GraphInv(g, held)
    ensures forall p: Ptr :: p in Elements(All(g.managed)) <==> Live(g.cells, p) && IsManaged(g.cells[p].obj)
  {
    forall p: Ptr ensures p in All(g.managed) <==> Live(g.cells, p) && IsManaged(g.cells[p].obj) {
      ManagedExact(g, p);
    }
  }
}

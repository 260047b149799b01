/**
  Growth: what every successful step has in common.  Cells are only added, lists and maps only
  gain entries, and the entries gained point to cells that are new.  Facts about old cells
  survive growth, so each step answers only for the cells it adds.
 */
module TemplateGrowth {
  import opened CacheKeys
  import opened CppHeap
  import opened TemplateState
  import opened TemplateInvariant

  ghost predicate ListGrows(n: nat, xs: seq<Ptr>, ys: seq<Ptr>) {
    xs <= ys && forall i :: |xs| <= i < |ys| ==> ys[i] >= n
  }

  ghost predicate MapGrows<K(!new)>(n: nat, f: map<K, Ptr>, g: map<K, Ptr>) {
    && (forall k :: k in f ==> k in g && g[k] == f[k])
    && (forall k :: k in g && k !in f ==> g[k] >= n)
  }

  ghost predicate ObjGrows(n: nat, a: Obj, b: Obj) {
    match a
    case SessionPool(c, m, _, ss) =>
      b.SessionPool? && b.connection == c && b.mode == m && ListGrows(n, ss, b.sessions)
    case PooledSession(p, r, pc, cc) =>
      && b.PooledSession? && b.pool == p && b.raw == r
      && MapGrows(n, pc, b.producerCache) && MapGrows(n, cc, b.consumerCache)
    case SessionResolver(q, tm, qm) =>
      && b.SessionResolver? && b.session == q
      && MapGrows(n, tm, b.topicMap) && MapGrows(n, qm, b.queueMap)
    case _ => b == a
  }

  /** Cells over time: fields only grow, deletions only add up, and a new connection cell, if
      one may appear at all, is the first new cell. */
  ghost predicate CellsAge(a: seq<Cell>, b: seq<Cell>, reconnect: bool) {
    && |a| <= |b|
    && (forall p :: 0 <= p < |a| ==> a[p].deletes <= b[p].deletes && ObjGrows(|a|, a[p].obj, b[p].obj))
    && (forall p :: |a| <= p < |b| && b[p].obj.Connection? ==> reconnect && p == |a|)
  }

  /** Cells while nothing is torn down. */
  ghost predicate CellsGrow(a: seq<Cell>, b: seq<Cell>) {
    && CellsAge(a, b, false)
    && (forall p :: 0 <= p < |a| ==> b[p].deletes == a[p].deletes)
  }

  ghost predicate ManagedGrows(n: nat, a: Managed, b: Managed) {
    && ListGrows(n, a.sessions, b.sessions) && ListGrows(n, a.destinations, b.destinations)
    && ListGrows(n, a.producers, b.producers) && ListGrows(n, a.consumers, b.consumers)
    && a.connections == b.connections
  }

  ghost predicate Grows(g: Graph, h: Graph) {
    && CellsGrow(g.cells, h.cells)
    && ManagedGrows(|g.cells|, g.managed, h.managed)
    && MapGrows(|g.cells|, g.resolver, h.resolver)
    && h.pools == g.pools && h.connection == g.connection
  }

  lemma MapGrowsTrans<K(!new)>(n: nat, m: nat, f: map<K, Ptr>, g: map<K, Ptr>, h: map<K, Ptr>)
    requires n <= m && MapGrows(n, f, g) && MapGrows(m, g, h)
    ensures MapGrows(n, f, h)
  {
  }

  lemma ListGrowsTrans(n: nat, m: nat, xs: seq<Ptr>, ys: seq<Ptr>, zs: seq<Ptr>)
    requires n <= m && ListGrows(n, xs, ys) && ListGrows(m, ys, zs)
    ensures ListGrows(n, xs, zs)
  {
    forall i | |xs| <= i < |zs| ensures zs[i] >= n {
      if i < |ys| { assert zs[i] == ys[i]; }
    }
  }

  lemma ObjGrowsTrans(n: nat, m: nat, a: Obj, b: Obj, c: Obj)
    requires n <= m && ObjGrows(n, a, b) && ObjGrows(m, b, c)
    ensures ObjGrows(n, a, c)
  {
    match a
    case SessionPool(_, _, _, ss) => ListGrowsTrans(n, m, ss, b.sessions, c.sessions);
    case PooledSession(_, _, pc, cc) =>
      MapGrowsTrans(n, m, pc, b.producerCache, c.producerCache);
      MapGrowsTrans(n, m, cc, b.consumerCache, c.consumerCache);
    case SessionResolver(_, tm, qm) =>
      MapGrowsTrans(n, m, tm, b.topicMap, c.topicMap);
      MapGrowsTrans(n, m, qm, b.queueMap, c.queueMap);
    case _ =>
  }

  lemma CellsAgeTrans(a: seq<Cell>, b: seq<Cell>, c: seq<Cell>, reconnect: bool)
    requires CellsAge(a, b, reconnect) && CellsAge(b, c, false)
    ensures CellsAge(a, c, reconnect)
  {
    forall p | 0 <= p < |a| ensures a[p].deletes <= c[p].deletes && ObjGrows(|a|, a[p].obj, c[p].obj) {
      ObjGrowsTrans(|a|, |b|, a[p].obj, b[p].obj, c[p].obj);
    }
    forall p | |a| <= p < |c| && c[p].obj.Connection? ensures reconnect && p == |a| {
      if p < |b| { assert ObjGrows(|b|, b[p].obj, c[p].obj); }
    }
  }

  lemma GrowsTrans(g: Graph, h: Graph, k: Graph)
    requires Grows(g, h) && Grows(h, k)
    ensures Grows(g, k)
  {
    CellsAgeTrans(g.cells, h.cells, k.cells, false);
    var n, m := |g.cells|, |h.cells|;
    ListGrowsTrans(n, m, g.managed.sessions, h.managed.sessions, k.managed.sessions);
    ListGrowsTrans(n, m, g.managed.destinations, h.managed.destinations, k.managed.destinations);
    ListGrowsTrans(n, m, g.managed.producers, h.managed.producers, k.managed.producers);
    ListGrowsTrans(n, m, g.managed.consumers, h.managed.consumers, k.managed.consumers);
    MapGrowsTrans(n, m, g.resolver, h.resolver, k.resolver);
  }

  // ---- Old cells keep their owners ----

  lemma ListGrowsIn(n: nat, xs: seq<Ptr>, ys: seq<Ptr>, p: Ptr)
    requires ListGrows(n, xs, ys) && p < n
    ensures p in xs <==> p in ys
  {
    if p in xs { var i :| 0 <= i < |xs| && xs[i] == p; assert ys[i] == p; }
    if p in ys { var i :| 0 <= i < |ys| && ys[i] == p; assert xs[i] == p; }
  }

  lemma PoolGrows(g: Graph, h: Graph, p: Ptr)
    requires Grows(g, h) && p < |g.cells|
    ensures OpenPool(g, p) <==> OpenPool(h, p)
  {
    assert ObjGrows(|g.cells|, g.cells[p].obj, h.cells[p].obj);
  }

  lemma SessionGrows(g: Graph, h: Graph, q: Ptr)
    requires Grows(g, h) && q < |g.cells|
    requires g.cells[q].obj.PooledSession? ==> g.cells[q].obj.pool < |g.cells|
    ensures OpenSession(g, q) <==> OpenSession(h, q)
  {
    assert ObjGrows(|g.cells|, g.cells[q].obj, h.cells[q].obj);
    if g.cells[q].obj.PooledSession? {
      var p := g.cells[q].obj.pool;
      PoolGrows(g, h, p);
      assert ObjGrows(|g.cells|, g.cells[p].obj, h.cells[p].obj);
      if OpenPool(g, p) {
        ListGrowsIn(|g.cells|, g.cells[p].obj.sessions, h.cells[p].obj.sessions, q);
      }
    }
  }

  lemma OwnedGrows(g: Graph, h: Graph, p: Ptr)
    requires Grows(g, h) && BackOk(g) && p < |g.cells|
    ensures Owned(g, p) <==> Owned(h, p)
  {
    var n := |g.cells|;
    assert ObjGrows(n, g.cells[p].obj, h.cells[p].obj);
    match g.cells[p].obj
    case Session(_, _) => ListGrowsIn(n, g.managed.sessions, h.managed.sessions, p);
    case Destination(_, _) => ListGrowsIn(n, g.managed.destinations, h.managed.destinations, p);
    case RawClient(_, client) => ListGrowsIn(n, g.managed.Clients(client), h.managed.Clients(client), p);
    case SessionPool(_, _, _, _) => PoolGrows(g, h, p);
    case PooledSession(_, _, _, _) => SessionGrows(g, h, p);
    case CachedClient(q, client, _) =>
      SessionGrows(g, h, q);
      assert ObjGrows(n, g.cells[q].obj, h.cells[q].obj);
    case _ =>
  }

  // ---- The invariant, conjunct by conjunct ----

  lemma LedgerGrows(g: Graph, h: Graph)
    requires Ledger(g) && BackOk(g) && Grows(g, h)
    requires forall p :: |g.cells| <= p < |h.cells| ==> h.cells[p].deletes <= 1 && (h.cells[p].deletes == 0 <==> Owned(h, p))
    ensures Ledger(h)
  {
    forall p | 0 <= p < |g.cells|
      ensures h.cells[p].deletes <= 1 && (h.cells[p].deletes == 0 <==> Owned(h, p))
    {
      OwnedGrows(g, h, p);
    }
  }

  lemma BackGrows(g: Graph, h: Graph)
    requires BackOk(g) && Grows(g, h)
    requires forall p :: |g.cells| <= p < |h.cells| ==> PointsBack(h.cells[p].obj, p)
    ensures BackOk(h)
  {
    forall p | 0 <= p < |h.cells| ensures PointsBack(h.cells[p].obj, p) {
      if p < |g.cells| { assert ObjGrows(|g.cells|, g.cells[p].obj, h.cells[p].obj); }
    }
  }

  lemma ListedGrows(g: Graph, h: Graph, xs: seq<Ptr>, ys: seq<Ptr>)
    requires Listed(g, xs) && ListGrows(|g.cells|, xs, ys) && |ys| <= |xs| + 1
    requires CellsGrow(g.cells, h.cells)
    requires forall p :: p in ys ==> p < |h.cells|
    ensures Listed(h, ys)
  {
    forall i, j | 0 <= i < j < |ys| ensures ys[i] != ys[j] {
      assert ys[i] == xs[i];
    }
    forall i | 0 <= i < |ys| ensures ys[i] < |h.cells| {
      assert ys[i] in ys;
    }
  }

  /** The entries that the managed lists gained. */
  ghost predicate GainedKinds(n: nat, h: Graph) {
    && (forall p :: p in h.managed.sessions && p >= n ==> p < |h.cells| && h.cells[p].obj.Session?)
    && (forall p :: p in h.managed.destinations && p >= n ==> p < |h.cells| && h.cells[p].obj.Destination?)
    && (forall p :: p in h.managed.producers && p >= n ==>
          p < |h.cells| && h.cells[p].obj.RawClient? && h.cells[p].obj.client.ProducerFor?)
    && (forall p :: p in h.managed.consumers && p >= n ==>
          p < |h.cells| && h.cells[p].obj.RawClient? && h.cells[p].obj.client.ConsumerFor?)
  }

  lemma ListsGrow(g: Graph, h: Graph)
    requires ListsOk(g) && Grows(g, h)
    requires |h.managed.sessions| <= |g.managed.sessions| + 1 && |h.managed.destinations| <= |g.managed.destinations| + 1
    requires |h.managed.producers| <= |g.managed.producers| + 1 && |h.managed.consumers| <= |g.managed.consumers| + 1
    requires GainedKinds(|g.cells|, h)
    ensures ListsOk(h)
  {
    var n, a, b := |g.cells|, g.managed, h.managed;
    forall p: Ptr | p < n
      ensures p in b.sessions ==> p in a.sessions
      ensures p in b.destinations ==> p in a.destinations
      ensures p in b.producers ==> p in a.producers
      ensures p in b.consumers ==> p in a.consumers
      ensures ObjGrows(n, g.cells[p].obj, h.cells[p].obj)
    {
      ListGrowsIn(n, a.sessions, b.sessions, p);
      ListGrowsIn(n, a.destinations, b.destinations, p);
      ListGrowsIn(n, a.producers, b.producers, p);
      ListGrowsIn(n, a.consumers, b.consumers, p);
    }
    ListedGrows(g, h, a.connections, b.connections);
    ListedGrows(g, h, a.sessions, b.sessions);
    ListedGrows(g, h, a.destinations, b.destinations);
    ListedGrows(g, h, a.producers, b.producers);
    ListedGrows(g, h, a.consumers, b.consumers);
  }

  lemma PoolsGrow(g: Graph, h: Graph)
    requires PoolsOk(g) && Grows(g, h)
    ensures PoolsOk(h)
  {
    if g.pools != NO_POOLS {
      forall m: AckMode
        ensures h.pools[m].Some? && OpenPool(h, h.pools[m].value)
        ensures h.cells[h.pools[m].value].obj.connection == h.connection.value
        ensures h.cells[h.pools[m].value].obj.mode == m
      {
        var p := g.pools[m].value;
        PoolGrows(g, h, p);
        assert ObjGrows(|g.cells|, g.cells[p].obj, h.cells[p].obj);
      }
    }
  }

  lemma OldOpenSession(g: Graph, h: Graph, q: Ptr)
    requires BackOk(g) && Grows(g, h)
    ensures OpenSession(g, q) ==> OpenSession(h, q)
    ensures OpenSession(h, q) && q < |g.cells| ==> OpenSession(g, q)
  {
    if q < |g.cells| { SessionGrows(g, h, q); }
  }

  lemma WrapsGrow(g: Graph, h: Graph)
    requires BackOk(g) && WrapsOk(g) && Grows(g, h)
    requires forall q: Ptr :: q >= |g.cells| && OpenSession(h, q) ==> WrapOk(h, q)
    ensures WrapsOk(h)
  {
    var n := |g.cells|;
    forall q: Ptr | OpenSession(h, q) ensures WrapOk(h, q) {
      if q < n {
        OldOpenSession(g, h, q);
        var p, r := g.cells[q].obj.pool, g.cells[q].obj.raw;
        assert WrapOk(g, q);
        assert ObjGrows(n, g.cells[q].obj, h.cells[q].obj);
        assert ObjGrows(n, g.cells[p].obj, h.cells[p].obj);
        assert ObjGrows(n, g.cells[r].obj, h.cells[r].obj);
        ListGrowsIn(n, g.managed.sessions, h.managed.sessions, r);
      }
    }
  }

  lemma EntryGrows(g: Graph, h: Graph, q: Ptr, producer: bool, key: string, w: Ptr)
    requires Grows(g, h) && EntryOk(g, q, producer, key, w)
    ensures EntryOk(h, q, producer, key, w)
  {
    var n, client, r := |g.cells|, g.cells[w].obj.client, g.cells[w].obj.raw;
    assert ObjGrows(n, g.cells[w].obj, h.cells[w].obj);
    assert ObjGrows(n, g.cells[r].obj, h.cells[r].obj);
    ListGrowsIn(n, g.managed.Clients(client), h.managed.Clients(client), r);
  }

  /** The cache entries that an open session gained. */
  ghost predicate CacheGainOk(g: Graph, h: Graph, q: Ptr)
    requires OpenSession(h, q)
  {
    var pc := if q < |g.cells| then SessionAt(g, q).producerCache else map[];
    var cc := if q < |g.cells| then SessionAt(g, q).consumerCache else map[];
    && (forall k :: k in h.cells[q].obj.producerCache && k !in pc ==>
          EntryOk(h, q, true, k, h.cells[q].obj.producerCache[k]))
    && (forall k :: k in h.cells[q].obj.consumerCache && k !in cc ==>
          EntryOk(h, q, false, k, h.cells[q].obj.consumerCache[k]))
  }

  lemma CachesGrow(g: Graph, h: Graph)
    requires BackOk(g) && CachesOk(g) && Grows(g, h)
    requires forall q: Ptr :: OpenSession(h, q) ==> CacheGainOk(g, h, q)
    ensures CachesOk(h)
  {
    forall q: Ptr | OpenSession(h, q) ensures CacheOk(h, q) {
      if q < |g.cells| {
        OldOpenSession(g, h, q);
        assert CacheOk(g, q);
        var a, b := g.cells[q].obj, h.cells[q].obj;
        assert ObjGrows(|g.cells|, a, b);
        forall k | k in b.producerCache ensures EntryOk(h, q, true, k, b.producerCache[k]) {
          if k in a.producerCache { EntryGrows(g, h, q, true, k, a.producerCache[k]); }
        }
        forall k | k in b.consumerCache ensures EntryOk(h, q, false, k, b.consumerCache[k]) {
          if k in a.consumerCache { EntryGrows(g, h, q, false, k, a.consumerCache[k]); }
        }
      }
    }
  }

  lemma ClientGrows(g: Graph, h: Graph, r: Ptr)
    requires BackOk(g) && Grows(g, h)
    requires r < |g.cells| && g.cells[r].obj.RawClient? && ClientOk(g, r)
    ensures h.cells[r].obj.RawClient? && ClientOk(h, r)
  {
    var n, q, client := |g.cells|, g.cells[r].obj.session, g.cells[r].obj.client;
    assert ObjGrows(n, g.cells[r].obj, h.cells[r].obj);
    OldOpenSession(g, h, q);
    assert ObjGrows(n, g.cells[q].obj, h.cells[q].obj);
    var w := CacheOf(g.cells[q].obj, client)[Key(client)];
    assert ObjGrows(n, g.cells[w].obj, h.cells[w].obj);
  }

  lemma ClientsGrow(g: Graph, h: Graph)
    requires BackOk(g) && ListsOk(g) && ClientsOk(g) && Grows(g, h)
    requires forall r :: r >= |g.cells| && (r in h.managed.producers || r in h.managed.consumers) ==>
      r < |h.cells| && h.cells[r].obj.RawClient? && ClientOk(h, r)
    ensures ClientsOk(h)
  {
    forall r: Ptr | r < |g.cells| && (r in h.managed.producers || r in h.managed.consumers)
      ensures h.cells[r].obj.RawClient? && ClientOk(h, r)
    {
      ListGrowsIn(|g.cells|, g.managed.producers, h.managed.producers, r);
      ListGrowsIn(|g.cells|, g.managed.consumers, h.managed.consumers, r);
      ClientGrows(g, h, r);
    }
  }

  lemma MemoGrows(g: Graph, h: Graph, q: Ptr, pubSub: bool, name: string, d: Ptr)
    requires Grows(g, h) && MemoOk(g, q, pubSub, name, d)
    ensures MemoOk(h, q, pubSub, name, d)
  {
    assert ObjGrows(|g.cells|, g.cells[d].obj, h.cells[d].obj);
    ListGrowsIn(|g.cells|, g.managed.destinations, h.managed.destinations, d);
  }

  /** The names that a session's resolver gained. */
  ghost predicate MemoGainOk(g: Graph, h: Graph, q: Ptr)
    requires q in h.resolver
  {
    var a, b := ResolverAt(g, q), ResolverAt(h, q);
    && (forall n :: n in b.topicMap && n !in a.topicMap ==> MemoOk(h, q, true, n, b.topicMap[n]))
    && (forall n :: n in b.queueMap && n !in a.queueMap ==> MemoOk(h, q, false, n, b.queueMap[n]))
  }

  lemma KnownGrows(g: Graph, h: Graph, q: Ptr)
    requires BackOk(g) && Grows(g, h)
    requires q in g.resolver && KnownOk(g, q) && MemoGainOk(g, h, q)
    ensures KnownOk(h, q)
  {
    OldOpenSession(g, h, q);
    var r := g.resolver[q];
    var a, b := g.cells[r].obj, h.cells[r].obj;
    assert ObjGrows(|g.cells|, a, b);
    assert ResolverAt(g, q) == a && ResolverAt(h, q) == b;
    forall n | n in b.topicMap ensures MemoOk(h, q, true, n, b.topicMap[n]) {
      if n in a.topicMap { MemoGrows(g, h, q, true, n, a.topicMap[n]); }
    }
    forall n | n in b.queueMap ensures MemoOk(h, q, false, n, b.queueMap[n]) {
      if n in a.queueMap { MemoGrows(g, h, q, false, n, a.queueMap[n]); }
    }
  }

  lemma ResolverGrows(g: Graph, h: Graph)
    requires BackOk(g) && ResolverOk(g) && Grows(g, h)
    requires forall q :: q in h.resolver && q !in g.resolver ==> KnownOk(h, q)
    requires forall q :: q in g.resolver ==> MemoGainOk(g, h, q)
    ensures ResolverOk(h)
  {
    forall q | q in h.resolver ensures KnownOk(h, q) {
      if q in g.resolver { KnownGrows(g, h, q); }
    }
  }

  lemma RememberedGrows(g: Graph, h: Graph, d: Ptr)
    requires Grows(g, h) && RememberedOk(g, d) && KnownOk(g, g.cells[d].obj.session)
    ensures RememberedOk(h, d)
  {
    var n, q := |g.cells|, g.cells[d].obj.session;
    var r := g.resolver[q];
    assert ObjGrows(n, g.cells[d].obj, h.cells[d].obj);
    assert ObjGrows(n, g.cells[r].obj, h.cells[r].obj);
    assert h.resolver[q] == r;
  }

  lemma DestinationsGrow(g: Graph, h: Graph)
    requires ResolverOk(g) && DestinationsOk(g) && Grows(g, h)
    requires forall d :: d in h.managed.destinations && d >= |g.cells| ==> RememberedOk(h, d)
    ensures DestinationsOk(h)
  {
    forall d | d in h.managed.destinations ensures RememberedOk(h, d) {
      if d < |g.cells| {
        ListGrowsIn(|g.cells|, g.managed.destinations, h.managed.destinations, d);
        RememberedGrows(g, h, d);
      }
    }
  }

  /** A step that leaves the lists of every pool alone keeps what is available and held. */
  lemma SessionsGrow(g: Graph, h: Graph, held: set<Ptr>)
    requires BackOk(g) && PoolsOk(g) && PoolsOk(h) && SessionsOk(g, held) && Grows(g, h)
    requires forall p: Ptr :: OpenPool(g, p) ==> h.cells[p].obj == g.cells[p].obj
    ensures SessionsOk(h, held)
  {
    forall p: Ptr | OpenPool(h, p) ensures PoolOk(h, held, p) {
      OldPool(g, h, p);
      PoolGrows(g, h, p);
      assert PoolOk(g, held, p);
      forall q | q in h.cells[p].obj.sessions ensures h.cells[q].obj.PooledSession? && h.cells[q].obj.pool == p {
        assert ObjGrows(|g.cells|, g.cells[q].obj, h.cells[q].obj);
      }
    }
    forall q | q in held ensures OpenSession(h, q) {
      OldOpenSession(g, h, q);
    }
  }

  lemma OldPool(g: Graph, h: Graph, p: Ptr)
    requires PoolsOk(g) && Grows(g, h) && OpenPool(h, p)
    ensures p < |g.cells|
  {
    assert g.pools[h.cells[p].obj.mode].Some?;
  }
}

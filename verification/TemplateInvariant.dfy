/**
  The invariant of the template's resource graph, also in the middle of an operation: `held` is
  the set of pooled sessions that running callbacks hold.
 */
module TemplateInvariant {
  import opened CacheKeys
  import opened Collections
  import opened CppHeap
  import opened TemplateState

  /** Nothing is deleted twice, and what is alive is exactly what has an owner. */
  ghost predicate Ledger(g: Graph) {
    forall p :: 0 <= p < |g.cells| ==>
      && g.cells[p].deletes <= 1
      && (g.cells[p].deletes == 0 <==> Owned(g, p))
  }

  ghost predicate Listed(g: Graph, xs: seq<Ptr>) {
    NoDup(xs) && forall i :: 0 <= i < |xs| ==> xs[i] < |g.cells|
  }

  /** Each managed list holds distinct objects of its own kind. */
  ghost predicate ListsOk(g: Graph) {
    var m := g.managed;
    && Listed(g, m.connections) && Listed(g, m.sessions) && Listed(g, m.destinations)
    && Listed(g, m.producers) && Listed(g, m.consumers)
    && (forall p :: p in m.connections ==> g.cells[p].obj.Connection?)
    && (forall p :: p in m.sessions ==> g.cells[p].obj.Session?)
    && (forall p :: p in m.destinations ==> g.cells[p].obj.Destination?)
    && (forall p :: p in m.producers ==> g.cells[p].obj.RawClient? && g.cells[p].obj.client.ProducerFor?)
    && (forall p :: p in m.consumers ==> g.cells[p].obj.RawClient? && g.cells[p].obj.client.ConsumerFor?)
  }

  /** The connection field names the one managed connection. */
  ghost predicate ConnectionOk(g: Graph) {
    g.managed.connections == if g.connection.Some? then [g.connection.value] else []
  }

  /** The pool array is empty, or holds one open pool per acknowledge mode on the connection. */
  ghost predicate PoolsOk(g: Graph) {
    || g.pools == NO_POOLS
    || (&& |g.pools| == NUM_POOLS
        && g.connection.Some?
        && forall m: AckMode :: g.pools[m].Some? && OpenPool(g, g.pools[m].value)
             && g.cells[g.pools[m].value].obj.connection == g.connection.value
             && g.cells[g.pools[m].value].obj.mode == m)
  }

  /** With no pools open there are no sessions and nothing that hangs off a session. */
  ghost predicate BareOk(g: Graph) {
    g.pools == NO_POOLS ==>
      && g.resolver == map[]
      && g.managed == NOTHING.(connections := g.managed.connections)
  }

  /** The lists of one open pool: its sessions wrap sessions of the pool's mode, and each one is
      either available or held, never both. */
  ghost predicate PoolOk(g: Graph, held: set<Ptr>, p: Ptr)
    requires OpenPool(g, p)
  {
    var pool := g.cells[p].obj;
    && NoDup(pool.sessions) && NoDup(pool.available)
    && (forall q :: q in pool.available ==> q in pool.sessions && q !in held)
    && (forall q :: q in pool.sessions ==>
          && q < |g.cells| && g.cells[q].obj.PooledSession? && g.cells[q].obj.pool == p
          && (q in pool.available || q in held))
  }

  ghost predicate SessionsOk(g: Graph, held: set<Ptr>) {
    && (forall p: Ptr :: OpenPool(g, p) ==> PoolOk(g, held, p))
    && (forall q :: q in held ==> OpenSession(g, q))
  }

  /** A pooled session wraps a managed session of its pool's mode and connection. */
  ghost predicate WrapOk(g: Graph, q: Ptr)
    requires OpenSession(g, q)
  {
    var pool := g.cells[g.cells[q].obj.pool].obj;
    && g.cells[q].obj.raw in g.managed.sessions
    && At(g, g.cells[q].obj.raw) == Session(pool.connection, pool.mode)
  }

  ghost predicate WrapsOk(g: Graph) {
    forall q: Ptr :: OpenSession(g, q) ==> WrapOk(g, q)
  }

  /** The cache entry that answers a request: a wrapper for a managed client of this session
      that was created under the same key. */
  ghost predicate EntryOk(g: Graph, q: Ptr, producer: bool, key: string, w: Ptr) {
    && w < |g.cells| && g.cells[w].obj.CachedClient?
    && g.cells[w].obj.session == q
    && g.cells[w].obj.client.ProducerFor? == producer
    && Key(g.cells[w].obj.client) == key
    && g.cells[w].obj.raw in g.managed.Clients(g.cells[w].obj.client)
    && At(g, g.cells[w].obj.raw) == RawClient(q, g.cells[w].obj.client)
  }

  ghost predicate CacheOk(g: Graph, q: Ptr)
    requires OpenSession(g, q)
  {
    && (forall k :: k in g.cells[q].obj.producerCache ==> EntryOk(g, q, true, k, g.cells[q].obj.producerCache[k]))
    && (forall k :: k in g.cells[q].obj.consumerCache ==> EntryOk(g, q, false, k, g.cells[q].obj.consumerCache[k]))
  }

  ghost predicate CachesOk(g: Graph) {
    forall q: Ptr :: OpenSession(g, q) ==> CacheOk(g, q)
  }

  /** Every managed client is the one behind its session's cache entry for its key. */
  ghost predicate ClientOk(g: Graph, r: Ptr)
    requires r < |g.cells| && g.cells[r].obj.RawClient?
  {
    var q, client := g.cells[r].obj.session, g.cells[r].obj.client;
    && OpenSession(g, q)
    && Key(client) in CacheOf(g.cells[q].obj, client)
    && var w := CacheOf(g.cells[q].obj, client)[Key(client)];
       w < |g.cells| && g.cells[w].obj.CachedClient? && g.cells[w].obj.raw == r
  }

  ghost predicate ClientsOk(g: Graph) {
    && (forall r :: r in g.managed.producers ==> r < |g.cells| && g.cells[r].obj.RawClient? && ClientOk(g, r))
    && (forall r :: r in g.managed.consumers ==> r < |g.cells| && g.cells[r].obj.RawClient? && ClientOk(g, r))
  }

  ghost predicate MemoOk(g: Graph, q: Ptr, pubSub: bool, name: string, d: Ptr) {
    && name != "" && d in g.managed.destinations && d < |g.cells|
    && g.cells[d].obj == Destination(q, NamedDest(name, pubSub))
  }

  /** The resolver knows only open sessions, and remembers managed destinations. */
  ghost predicate KnownOk(g: Graph, q: Ptr)
    requires q in g.resolver
  {
    && OpenSession(g, q)
    && g.resolver[q] < |g.cells|
    && g.cells[g.resolver[q]].obj.SessionResolver?
    && g.cells[g.resolver[q]].obj.session == q
    && (forall n :: n in g.cells[g.resolver[q]].obj.topicMap ==>
          MemoOk(g, q, true, n, g.cells[g.resolver[q]].obj.topicMap[n]))
    && (forall n :: n in g.cells[g.resolver[q]].obj.queueMap ==>
          MemoOk(g, q, false, n, g.cells[g.resolver[q]].obj.queueMap[n]))
  }

  ghost predicate ResolverOk(g: Graph) {
    forall q :: q in g.resolver ==> KnownOk(g, q)
  }

  /** Every managed destination is the one remembered for its session, domain and name. */
  ghost predicate RememberedOk(g: Graph, d: Ptr) {
    && d < |g.cells| && g.cells[d].obj.Destination?
    && var q, dest := g.cells[d].obj.session, g.cells[d].obj.dest;
       && (dest.Topic? || dest.Queue?)
       && q in g.resolver
       && dest.name in DestMap(ResolverAt(g, q), dest.Topic?)
       && DestMap(ResolverAt(g, q), dest.Topic?)[dest.name] == d
  }

  ghost predicate DestinationsOk(g: Graph) {
    forall d :: d in g.managed.destinations ==> RememberedOk(g, d)
  }

  /** A pointer field that names the owner refers to an older cell. */
  ghost predicate PointsBack(obj: Obj, p: Ptr) {
    match obj
    case PooledSession(pool, _, _, _) => pool < p
    case CachedClient(q, _, _) => q < p
    case _ => true
  }

  ghost predicate BackOk(g: Graph) {
    forall p :: 0 <= p < |g.cells| ==> PointsBack(g.cells[p].obj, p)
  }

  /** The graph part of the invariant; `held` are the sessions that running callbacks hold. */
  ghost predicate GraphInv(g: Graph, held: set<Ptr>) {
    && Ledger(g) && BackOk(g) && ListsOk(g) && ConnectionOk(g) && PoolsOk(g) && BareOk(g)
    && SessionsOk(g, held) && WrapsOk(g) && CachesOk(g) && ClientsOk(g)
    && ResolverOk(g) && DestinationsOk(g)
  }

  /** A default destination that the template resolved is the one that the current name and
      domain denote, and it is still managed. */
  ghost predicate DefaultOk(s: State) {
    s.defaultDest.Some? && s.defaultDest.value.Resolved? ==>
      && s.defaultDest.value.p in s.g.managed.destinations
      && s.settings.name != ""
      && Denotes(s.g, s.defaultDest.value) == NamedDest(s.settings.name, s.settings.pubSub)
  }

  ghost predicate Inv(s: State, held: set<Ptr>) {
    && GraphInv(s.g, held)
    && DefaultOk(s)
    && (s.g.connection.Some? ==> s.initialized)
  }

  /** Between operations and inside callbacks a connection comes with its pools. */
  ghost predicate Settled(g: Graph) {
    g.connection.Some? <==> g.pools != NO_POOLS
  }
}

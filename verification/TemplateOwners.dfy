/** Who owns what: the places that will delete an object, and that an object sits in at most one. */
module TemplateOwners {
  import opened CacheKeys
  import opened Collections
  import opened CppHeap
  import opened Options
  import opened TemplateState
  import opened TemplateInvariant

  /** A place whose contents the template's code deletes: an entry of one of the manager's five
      lists, of the pool array, of a pool's session list, of a session's producer or consumer
      cache, or of the resolver's map. */
  datatype Slot =
    | ManagedConnection(i: nat)
    | ManagedSession(i: nat)
    | ManagedDestination(i: nat)
    | ManagedProducer(i: nat)
    | ManagedConsumer(i: nat)
    | PoolOfMode(mode: nat)
    | PooledIn(pool: Ptr, i: nat)
    | CachedIn(session: Ptr, producer: bool, key: string)
    | ResolverFor(session: Ptr)

  ghost predicate Entry(xs: seq<Ptr>, i: nat, p: Ptr) {
    i < |xs| && xs[i] == p
  }

  ghost function CacheNamed(session: Obj, producer: bool): map<string, Ptr>
    requires session.PooledSession?
  {
    if producer then session.producerCache else session.consumerCache
  }

  ghost predicate Holds(g: Graph, slot: Slot, p: Ptr) {
    match slot
    case ManagedConnection(i) => Entry(g.managed.connections, i, p)
    case ManagedSession(i) => Entry(g.managed.sessions, i, p)
    case ManagedDestination(i) => Entry(g.managed.destinations, i, p)
    case ManagedProducer(i) => Entry(g.managed.producers, i, p)
    case ManagedConsumer(i) => Entry(g.managed.consumers, i, p)
    case PoolOfMode(m) => m < |g.pools| && g.pools[m] == Some(p)
    case PooledIn(x, i) => OpenPool(g, x) && Entry(g.cells[x].obj.sessions, i, p)
    case CachedIn(q, producer, key) =>
      && OpenSession(g, q)
      && key in CacheNamed(g.cells[q].obj, producer) && CacheNamed(g.cells[q].obj, producer)[key] == p
    case ResolverFor(q) => q in g.resolver && g.resolver[q] == p
  }

  /** A slot suits an object: its kind, and the owner that the object's own fields name. */
  ghost predicate Fits(slot: Slot, obj: Obj) {
    match slot
    case ManagedConnection(_) => obj.Connection?
    case ManagedSession(_) => obj.Session?
    case ManagedDestination(_) => obj.Destination?
    case ManagedProducer(_) => obj.RawClient? && obj.client.ProducerFor?
    case ManagedConsumer(_) => obj.RawClient? && obj.client.ConsumerFor?
    case PoolOfMode(m) => obj.SessionPool? && obj.mode == m
    case PooledIn(x, _) => obj.PooledSession? && obj.pool == x
    case CachedIn(q, producer, key) =>
      obj.CachedClient? && obj.session == q && obj.client.ProducerFor? == producer && Key(obj.client) == key
    case ResolverFor(q) => obj.SessionResolver? && obj.session == q
  }

  lemma ManagedFits(g: Graph, slot: Slot, p: Ptr)
    requires ListsOk(g) && Holds(g, slot, p)
    requires !slot.PoolOfMode? && !slot.PooledIn? && !slot.CachedIn? && !slot.ResolverFor?
    ensures p < |g.cells| && Fits(slot, g.cells[p].obj)
  {
  }

  lemma PoolFits(g: Graph, m: nat, p: Ptr)
    requires PoolsOk(g) && Holds(g, PoolOfMode(m), p)
    ensures p < |g.cells| && Fits(PoolOfMode(m), g.cells[p].obj)
  {
    assert OpenPool(g, g.pools[m].value);
  }

  lemma PooledFits(g: Graph, held: set<Ptr>, x: Ptr, i: nat, p: Ptr)
    requires SessionsOk(g, held) && Holds(g, PooledIn(x, i), p)
    ensures p < |g.cells| && Fits(PooledIn(x, i), g.cells[p].obj)
  {
    assert PoolOk(g, held, x);
    assert p in g.cells[x].obj.sessions;
  }

  lemma CachedFits(g: Graph, q: Ptr, producer: bool, key: string, p: Ptr)
    requires CachesOk(g) && Holds(g, CachedIn(q, producer, key), p)
    ensures p < |g.cells| && Fits(CachedIn(q, producer, key), g.cells[p].obj)
  {
    assert CacheOk(g, q);
  }

  lemma ResolverFits(g: Graph, q: Ptr, p: Ptr)
    requires ResolverOk(g) && Holds(g, ResolverFor(q), p)
    ensures p < |g.cells| && Fits(ResolverFor(q), g.cells[p].obj)
  {
    assert KnownOk(g, q);
  }

  lemma SlotFits(g: Graph, held: set<Ptr>, slot: Slot, p: Ptr)
    requires GraphInv(g, held) && Holds(g, slot, p)
    ensures p < |g.cells| && Fits(slot, g.cells[p].obj)
    ensures |g.pools| == NUM_POOLS
  {
    assert |g.pools| == NUM_POOLS;
    hide Holds, Fits, Ledger, ListsOk, PoolsOk, SessionsOk, CachesOk, ResolverOk;
    match slot
    case PoolOfMode(m) => PoolFits(g, m, p);
    case PooledIn(x, i) => PooledFits(g, held, x, i, p);
    case CachedIn(q, producer, key) => CachedFits(g, q, producer, key, p);
    case ResolverFor(q) => ResolverFits(g, q, p);
    case _ => ManagedFits(g, slot, p);
  }

  lemma EntryUnique(xs: seq<Ptr>, i: nat, j: nat, p: Ptr)
    requires NoDup(xs) && Entry(xs, i, p) && Entry(xs, j, p)
    ensures i == j
  {
  }

  lemma NoDups(g: Graph, held: set<Ptr>)
    requires GraphInv(g, held)
    ensures var m := g.managed;
      NoDup(m.connections) && NoDup(m.sessions) && NoDup(m.destinations) && NoDup(m.producers) && NoDup(m.consumers)
    ensures forall x: Ptr :: OpenPool(g, x) ==> NoDup(g.cells[x].obj.sessions)
  {
    forall x: Ptr | OpenPool(g, x) ensures NoDup(g.cells[x].obj.sessions) {
      assert PoolOk(g, held, x);
    }
  }

  /** An object sits in at most one slot. */
  lemma OneSlot(g: Graph, held: set<Ptr>, a: Slot, b: Slot, p: Ptr)
    requires GraphInv(g, held) && Holds(g, a, p) && Holds(g, b, p)
    ensures a == b
  {
    hide GraphInv, NoDup, Entry, CacheNamed, OpenSession;
    SlotFits(g, held, a, p);
    SlotFits(g, held, b, p);
    NoDups(g, held);
    match a
    case ManagedConnection(i) => EntryUnique(g.managed.connections, i, b.i, p);
    case ManagedSession(i) => EntryUnique(g.managed.sessions, i, b.i, p);
    case ManagedDestination(i) => EntryUnique(g.managed.destinations, i, b.i, p);
    case ManagedProducer(i) => EntryUnique(g.managed.producers, i, b.i, p);
    case ManagedConsumer(i) => EntryUnique(g.managed.consumers, i, b.i, p);
    case PooledIn(x, i) => EntryUnique(g.cells[x].obj.sessions, i, b.i, p);
    case _ =>
  }

  lemma HasIndex(xs: seq<Ptr>, p: Ptr) returns (i: nat)
    requires p in xs
    ensures Entry(xs, i, p)
  {
    i :| 0 <= i < |xs| && xs[i] == p;
  }

  /** An object in a slot is owned, and one that is owned, but not by the caller, is in a slot. */
  lemma OwnedExact(g: Graph, held: set<Ptr>, p: Ptr)
    requires GraphInv(g, held) && p < |g.cells| && !g.cells[p].obj.Received?
    ensures Owned(g, p) <==> exists slot :: Holds(g, slot, p)
  {
    hide GraphInv, Holds, Fits, Owned;
    forall slot | Holds(g, slot, p) ensures Owned(g, p) {
      SlotFits(g, held, slot, p);
      HeldIsOwned(g, slot, p);
    }
    if Owned(g, p) { OwnedHasSlot(g, p); }
  }

  lemma HeldIsOwned(g: Graph, slot: Slot, p: Ptr)
    requires p < |g.cells| && Holds(g, slot, p) && Fits(slot, g.cells[p].obj)
    requires slot.PoolOfMode? ==> |g.pools| == NUM_POOLS
    ensures Owned(g, p)
  {
  }

  lemma OwnedHasSlot(g: Graph, p: Ptr)
    requires p < |g.cells| && Owned(g, p) && !g.cells[p].obj.Received?
    ensures exists slot :: Holds(g, slot, p)
  {
    match g.cells[p].obj
    case Connection =>
      var i := HasIndex(g.managed.connections, p);
      assert Holds(g, ManagedConnection(i), p);
    case Session(_, _) =>
      var i := HasIndex(g.managed.sessions, p);
      assert Holds(g, ManagedSession(i), p);
    case Destination(_, _) =>
      var i := HasIndex(g.managed.destinations, p);
      assert Holds(g, ManagedDestination(i), p);
    case RawClient(_, client) =>
      var i := HasIndex(g.managed.Clients(client), p);
      assert Holds(g, if client.ProducerFor? then ManagedProducer(i) else ManagedConsumer(i), p);
    case SessionPool(_, mode, _, _) => assert Holds(g, PoolOfMode(mode), p);
    case PooledSession(x, _, _, _) =>
      var i := HasIndex(g.cells[x].obj.sessions, p);
      assert Holds(g, PooledIn(x, i), p);
    case CachedClient(q, client, _) => assert Holds(g, CachedIn(q, client.ProducerFor?, Key(client)), p);
    case SessionResolver(q, _, _) => assert Holds(g, ResolverFor(q), p);
  }
}

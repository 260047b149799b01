/** Every step on the resource graph keeps the invariant. */
module TemplateSteps {
  import opened CacheKeys
  import opened CppHeap
  import opened TemplateState
  import opened TemplateInvariant
  import opened TemplateGrowth

  /** A step that changes no managed list. */
  lemma SameManaged(g: Graph, h: Graph)
    requires BackOk(g) && ListsOk(g) && ClientsOk(g) && ResolverOk(g) && DestinationsOk(g)
    requires Grows(g, h) && h.managed == g.managed
    ensures ListsOk(h) && ClientsOk(h) && DestinationsOk(h)
  {
    var m := g.managed;
    forall p | p in m.sessions + m.destinations + m.producers + m.consumers ensures p < |g.cells| {
    }
    ListsGrow(g, h);
    ClientsGrow(g, h);
    DestinationsGrow(g, h);
  }

  /** A step that opens no pool and no session. */
  lemma SameSessions(g: Graph, h: Graph, held: set<Ptr>)
    requires BackOk(g) && PoolsOk(g) && SessionsOk(g, held) && WrapsOk(g) && Grows(g, h)
    requires forall p: Ptr :: OpenPool(g, p) ==> h.cells[p].obj == g.cells[p].obj
    ensures PoolsOk(h) && SessionsOk(h, held) && WrapsOk(h)
    ensures forall q: Ptr :: OpenSession(h, q) ==> OpenSession(g, q)
  {
    PoolsGrow(g, h);
    SessionsGrow(g, h, held);
    forall q: Ptr | OpenSession(h, q) ensures OpenSession(g, q) {
      var p := h.cells[q].obj.pool;
      OldPool(g, h, p);
      PoolGrows(g, h, p);
      assert PoolOk(g, held, p);
      OldOpenSession(g, h, q);
    }
    WrapsGrow(g, h);
  }

  lemma SameCaches(g: Graph, h: Graph)
    requires BackOk(g) && CachesOk(g) && Grows(g, h)
    requires forall q: Ptr :: OpenSession(h, q) ==> OpenSession(g, q) && h.cells[q].obj == g.cells[q].obj
    ensures CachesOk(h)
  {
    CachesGrow(g, h);
  }

  lemma SameMemos(g: Graph, h: Graph)
    requires BackOk(g) && ResolverOk(g) && Grows(g, h) && h.resolver == g.resolver
    requires forall q :: q in g.resolver ==> h.cells[g.resolver[q]].obj == g.cells[g.resolver[q]].obj
    ensures ResolverOk(h)
  {
    forall q | q in g.resolver ensures MemoGainOk(g, h, q) {
      assert KnownOk(g, q);
      assert ResolverAt(h, q) == ResolverAt(g, q);
    }
    hide KnownOk, MemoGainOk, Grows;
    ResolverGrows(g, h);
  }

  // ---- A session's resolver ----

  lemma AddResolverGrows(g: Graph, q: Ptr)
    requires q !in g.resolver
    ensures Grows(g, AddResolver(g, q))
  {
  }

  lemma AddResolverLedger(g: Graph, q: Ptr)
    requires Ledger(g) && BackOk(g) && q !in g.resolver
    ensures Ledger(AddResolver(g, q)) && BackOk(AddResolver(g, q))
  {
    AddResolverGrows(g, q);
    LedgerGrows(g, AddResolver(g, q));
    BackGrows(g, AddResolver(g, q));
  }

  lemma AddResolverMemos(g: Graph, q: Ptr)
    requires BackOk(g) && ResolverOk(g) && OpenSession(g, q) && q !in g.resolver
    ensures ResolverOk(AddResolver(g, q))
  {
    var h := AddResolver(g, q);
    AddResolverGrows(g, q);
    OldOpenSession(g, h, q);
    assert KnownOk(h, q);
    forall x | x in g.resolver ensures MemoGainOk(g, h, x) {
      assert KnownOk(g, x);
      assert ResolverAt(h, x) == ResolverAt(g, x);
    }
    hide MemoGainOk, KnownOk, Grows;
    ResolverGrows(g, h);
  }

  lemma AddResolverInv(g: Graph, held: set<Ptr>, q: Ptr)
    requires GraphInv(g, held) && OpenSession(g, q) && q !in g.resolver
    ensures Grows(g, AddResolver(g, q)) && GraphInv(AddResolver(g, q), held)
  {
    var h := AddResolver(g, q);
    AddResolverGrows(g, q);
    AddResolverLedger(g, q);
    SameManaged(g, h);
    SameSessions(g, h, held);
    SameCaches(g, h);
    AddResolverMemos(g, q);
  }

  // ---- A destination ----

  ghost predicate Unknown(g: Graph, q: Ptr, name: string, pubSub: bool) {
    q in g.resolver && KnownOk(g, q) && name != "" && name !in DestMap(ResolverAt(g, q), pubSub)
  }

  lemma AddDestinationGrows(g: Graph, q: Ptr, name: string, pubSub: bool)
    requires Unknown(g, q, name, pubSub)
    ensures Grows(g, AddDestination(g, q, name, pubSub))
  {
  }

  lemma AddDestinationLedger(g: Graph, q: Ptr, name: string, pubSub: bool)
    requires Ledger(g) && BackOk(g) && Unknown(g, q, name, pubSub)
    ensures Ledger(AddDestination(g, q, name, pubSub)) && BackOk(AddDestination(g, q, name, pubSub))
  {
    var h := AddDestination(g, q, name, pubSub);
    AddDestinationGrows(g, q, name, pubSub);
    assert h.managed.destinations[|g.managed.destinations|] == |g.cells|;
    LedgerGrows(g, h);
    BackGrows(g, h);
  }

  lemma AddDestinationLists(g: Graph, q: Ptr, name: string, pubSub: bool)
    requires BackOk(g) && ListsOk(g) && ClientsOk(g) && Unknown(g, q, name, pubSub)
    ensures ListsOk(AddDestination(g, q, name, pubSub)) && ClientsOk(AddDestination(g, q, name, pubSub))
  {
    var h := AddDestination(g, q, name, pubSub);
    AddDestinationGrows(g, q, name, pubSub);
    OldEntries(g);
    ListsGrow(g, h);
    ClientsGrow(g, h);
  }

  lemma AddDestinationResolver(g: Graph, q: Ptr, name: string, pubSub: bool)
    requires BackOk(g) && ResolverOk(g) && Unknown(g, q, name, pubSub)
    ensures ResolverOk(AddDestination(g, q, name, pubSub))
  {
    var h, d := AddDestination(g, q, name, pubSub), |g.cells|;
    AddDestinationGrows(g, q, name, pubSub);
    forall x | x in g.resolver ensures MemoGainOk(g, h, x) {
      AddDestinationGain(g, q, name, pubSub, x);
    }
    hide MemoGainOk, KnownOk, Grows, MemoOk;
    assert h.resolver == g.resolver;
    ResolverGrows(g, h);
  }

  lemma AddDestinationGain(g: Graph, q: Ptr, name: string, pubSub: bool, x: Ptr)
    requires ResolverOk(g) && Unknown(g, q, name, pubSub) && x in g.resolver
    ensures x in AddDestination(g, q, name, pubSub).resolver && MemoGainOk(g, AddDestination(g, q, name, pubSub), x)
  {
    var h, d := AddDestination(g, q, name, pubSub), |g.cells|;
    assert KnownOk(g, x);
    if x == q {
      assert h.managed.destinations[|g.managed.destinations|] == d;
      assert ResolverAt(h, q) == WithDest(ResolverAt(g, q), name, pubSub, d);
      assert MemoOk(h, q, pubSub, name, d);
    } else {
      assert ResolverAt(h, x) == ResolverAt(g, x);
    }
  }

  lemma AddDestinationMemos(g: Graph, q: Ptr, name: string, pubSub: bool)
    requires ListsOk(g) && ResolverOk(g) && DestinationsOk(g) && Unknown(g, q, name, pubSub)
    ensures DestinationsOk(AddDestination(g, q, name, pubSub))
  {
    var h, d := AddDestination(g, q, name, pubSub), |g.cells|;
    AddDestinationGrows(g, q, name, pubSub);
    assert ResolverAt(h, q) == WithDest(ResolverAt(g, q), name, pubSub, d);
    assert RememberedOk(h, d);
    OldEntries(g);
    DestinationsGrow(g, h);
  }

  lemma AddDestinationSessions(g: Graph, held: set<Ptr>, q: Ptr, name: string, pubSub: bool)
    requires BackOk(g) && PoolsOk(g) && SessionsOk(g, held) && WrapsOk(g) && CachesOk(g)
    requires Unknown(g, q, name, pubSub)
    ensures var h := AddDestination(g, q, name, pubSub);
      PoolsOk(h) && SessionsOk(h, held) && WrapsOk(h) && CachesOk(h)
  {
    var h := AddDestination(g, q, name, pubSub);
    AddDestinationGrows(g, q, name, pubSub);
    SameSessions(g, h, held);
    SameCaches(g, h);
  }

  lemma AddDestinationInv(g: Graph, held: set<Ptr>, q: Ptr, name: string, pubSub: bool)
    requires GraphInv(g, held)
    requires q in g.resolver && name != "" && name !in DestMap(ResolverAt(g, q), pubSub)
    ensures Grows(g, AddDestination(g, q, name, pubSub)) && GraphInv(AddDestination(g, q, name, pubSub), held)
  {
    assert Unknown(g, q, name, pubSub);
    AddDestinationGrows(g, q, name, pubSub);
    AddDestinationLedger(g, q, name, pubSub);
    AddDestinationLists(g, q, name, pubSub);
    AddDestinationSessions(g, held, q, name, pubSub);
    AddDestinationResolver(g, q, name, pubSub);
    AddDestinationMemos(g, q, name, pubSub);
  }

  // ---- A producer or consumer ----

  ghost predicate Uncached(g: Graph, q: Ptr, client: Client) {
    OpenSession(g, q) && Key(client) !in CacheOf(g.cells[q].obj, client)
  }

  lemma AddClientGrows(g: Graph, q: Ptr, client: Client)
    requires Uncached(g, q, client)
    ensures Grows(g, AddClient(g, q, client))
  {
  }

  lemma AddClientLedger(g: Graph, q: Ptr, client: Client)
    requires Ledger(g) && BackOk(g) && Uncached(g, q, client)
    ensures Ledger(AddClient(g, q, client)) && BackOk(AddClient(g, q, client))
  {
    var h, n := AddClient(g, q, client), |g.cells|;
    AddClientGrows(g, q, client);
    OldOpenSession(g, h, q);
    assert h.managed.Clients(client) == g.managed.Clients(client) + [n];
    assert h.managed.Clients(client)[|g.managed.Clients(client)|] == n;
    assert h.cells[q].obj == WithCached(g.cells[q].obj, client, n + 1);
    LedgerGrows(g, h);
    BackGrows(g, h);
  }

  lemma AddClientLists(g: Graph, q: Ptr, client: Client)
    requires BackOk(g) && ListsOk(g) && ClientsOk(g) && Uncached(g, q, client)
    ensures ListsOk(AddClient(g, q, client)) && ClientsOk(AddClient(g, q, client))
  {
    var h, n := AddClient(g, q, client), |g.cells|;
    AddClientGrows(g, q, client);
    OldOpenSession(g, h, q);
    assert h.cells[q].obj == WithCached(g.cells[q].obj, client, n + 1);
    OldEntries(g);
    ListsGrow(g, h);
    assert ClientOk(h, n);
    ClientsGrow(g, h);
  }

  lemma AddClientCaches(g: Graph, q: Ptr, client: Client)
    requires BackOk(g) && CachesOk(g) && Uncached(g, q, client)
    requires forall x: Ptr :: OpenSession(AddClient(g, q, client), x) ==> OpenSession(g, x)
    ensures CachesOk(AddClient(g, q, client))
  {
    var h, n := AddClient(g, q, client), |g.cells|;
    AddClientGrows(g, q, client);
    assert h.cells[q].obj == WithCached(g.cells[q].obj, client, n + 1);
    assert h.managed.Clients(client)[|g.managed.Clients(client)|] == n;
    assert EntryOk(h, q, client.ProducerFor?, Key(client), n + 1);
    CachesGrow(g, h);
  }

  lemma AddClientSessions(g: Graph, held: set<Ptr>, q: Ptr, client: Client)
    requires BackOk(g) && PoolsOk(g) && SessionsOk(g, held) && WrapsOk(g) && CachesOk(g)
    requires Uncached(g, q, client)
    ensures var h := AddClient(g, q, client); PoolsOk(h) && SessionsOk(h, held) && WrapsOk(h) && CachesOk(h)
  {
    AddClientGrows(g, q, client);
    SameSessions(g, AddClient(g, q, client), held);
    AddClientCaches(g, q, client);
  }

  lemma AddClientMemos(g: Graph, q: Ptr, client: Client)
    requires BackOk(g) && ListsOk(g) && ResolverOk(g) && DestinationsOk(g) && Uncached(g, q, client)
    ensures ResolverOk(AddClient(g, q, client)) && DestinationsOk(AddClient(g, q, client))
  {
    hide Grows, KnownOk, RememberedOk, ListsOk;
    var h := AddClient(g, q, client);
    AddClientGrows(g, q, client);
    ResolversApart(g, q);
    SameMemos(g, h);
    OldEntries(g);
    DestinationsGrow(g, h);
  }

  /** A session's resolver is not a session. */
  lemma ResolversApart(g: Graph, q: Ptr)
    requires ResolverOk(g) && At(g, q).PooledSession?
    ensures forall x :: x in g.resolver ==> g.resolver[x] < |g.cells| && g.resolver[x] != q
  {
    forall x | x in g.resolver ensures g.resolver[x] < |g.cells| && g.resolver[x] != q {
      assert KnownOk(g, x);
    }
  }

  lemma AddClientInv(g: Graph, held: set<Ptr>, q: Ptr, client: Client)
    requires GraphInv(g, held) && Uncached(g, q, client)
    ensures Grows(g, AddClient(g, q, client)) && GraphInv(AddClient(g, q, client), held)
  {
    AddClientGrows(g, q, client);
    AddClientLedger(g, q, client);
    AddClientLists(g, q, client);
    AddClientSessions(g, held, q, client);
    AddClientMemos(g, q, client);
  }

  /** The managed lists of a well-formed graph hold old cells. */
  lemma OldEntries(g: Graph)
    requires ListsOk(g)
    ensures forall p :: p in g.managed.sessions ==> p < |g.cells|
    ensures forall p :: p in g.managed.destinations ==> p < |g.cells|
    ensures forall p :: p in g.managed.producers ==> p < |g.cells|
    ensures forall p :: p in g.managed.consumers ==> p < |g.cells|
  {
  }

  // ---- Taking and returning ----

  /** Only the available list of one open pool changes. */
  ghost predicate OnlyAvailable(g: Graph, h: Graph, p: Ptr) {
    && OpenPool(g, p)
    && h == WithAvailable(g, p, PoolAt(h, p).available)
  }

  lemma AvailableGrows(g: Graph, h: Graph, p: Ptr)
    requires OnlyAvailable(g, h, p)
    ensures Grows(g, h) && Grows(h, g) && OpenPool(h, p)
  {
  }

  lemma AvailableLedger(g: Graph, h: Graph, p: Ptr)
    requires OnlyAvailable(g, h, p) && Ledger(g) && BackOk(g)
    ensures Ledger(h) && BackOk(h)
  {
    AvailableGrows(g, h, p);
    LedgerGrows(g, h);
    BackGrows(g, h);
  }

  lemma AvailableRest(g: Graph, h: Graph, p: Ptr)
    requires OnlyAvailable(g, h, p) && BackOk(g) && BackOk(h) && PoolsOk(g) && WrapsOk(g) && CachesOk(g) && ResolverOk(g)
    ensures PoolsOk(h) && WrapsOk(h) && CachesOk(h) && ResolverOk(h)
  {
    AvailableGrows(g, h, p);
    PoolsGrow(g, h);
    forall q: Ptr | OpenSession(h, q) ensures OpenSession(g, q) && h.cells[q].obj == g.cells[q].obj {
      OldOpenSession(h, g, q);
    }
    WrapsGrow(g, h);
    SameCaches(g, h);
    SameMemos(g, h);
  }

  /** What is available and held changes in one pool only. */
  lemma AvailableSessions(g: Graph, h: Graph, p: Ptr, held: set<Ptr>, kept: set<Ptr>)
    requires OnlyAvailable(g, h, p) && BackOk(g) && BackOk(h) && SessionsOk(g, held)
    requires PoolOk(h, kept, p)
    requires forall q :: q in kept ==> OpenSession(g, q)
    requires forall q: Ptr :: OpenSession(g, q) && g.cells[q].obj.pool != p ==> (q in held <==> q in kept)
    ensures SessionsOk(h, kept)
  {
    AvailableGrows(g, h, p);
    forall x: Ptr | OpenPool(h, x) ensures PoolOk(h, kept, x) {
      PoolGrows(h, g, x);
      if x != p {
        assert PoolOk(g, held, x);
        assert h.cells[x].obj == g.cells[x].obj;
        forall q | q in h.cells[x].obj.sessions ensures OpenSession(g, q) && h.cells[q].obj == g.cells[q].obj {
        }
      }
    }
    forall q | q in kept ensures OpenSession(h, q) {
      OldOpenSession(g, h, q);
    }
  }

  lemma AvailableInv(g: Graph, h: Graph, p: Ptr, held: set<Ptr>, kept: set<Ptr>)
    requires OnlyAvailable(g, h, p) && GraphInv(g, held)
    requires PoolOk(h, kept, p)
    requires forall q :: q in kept ==> OpenSession(g, q)
    requires forall q: Ptr :: OpenSession(g, q) && g.cells[q].obj.pool != p ==> (q in held <==> q in kept)
    ensures Grows(g, h) && GraphInv(h, kept)
  {
    AvailableGrows(g, h, p);
    AvailableLedger(g, h, p);
    AvailableRest(g, h, p);
    AvailableSessions(g, h, p, held, kept);
    SameManaged(g, h);
  }

  lemma TakeAvailableInv(g: Graph, held: set<Ptr>, p: Ptr)
    requires GraphInv(g, held) && OpenPool(g, p) && PoolAt(g, p).available != []
    ensures var q, h := PoolAt(g, p).available[0], WithAvailable(g, p, PoolAt(g, p).available[1..]);
      q !in held && OpenSession(h, q) && h.cells[q].obj.pool == p && Grows(g, h) && GraphInv(h, held + {q})
  {
    var q, h := PoolAt(g, p).available[0], WithAvailable(g, p, PoolAt(g, p).available[1..]);
    assert PoolOk(g, held, p);
    TakenPoolOk(g, held, p);
    hide PoolOk;
    AvailableInv(g, h, p, held, held + {q});
  }

  lemma TakenPoolOk(g: Graph, held: set<Ptr>, p: Ptr)
    requires OpenPool(g, p) && PoolOk(g, held, p) && PoolAt(g, p).available != []
    ensures var q, h := PoolAt(g, p).available[0], WithAvailable(g, p, PoolAt(g, p).available[1..]);
      && q !in held && q in g.cells[p].obj.sessions && OpenSession(g, q) && OpenSession(h, q) && h.cells[q].obj.pool == p
      && OpenPool(h, p) && PoolOk(h, held + {q}, p)
  {
    var q, a := PoolAt(g, p).available[0], g.cells[p].obj.available;
    assert a == [q] + a[1..];
    assert q in g.cells[p].obj.sessions;
  }

  lemma ReturnInv(g: Graph, held: set<Ptr>, q: Ptr)
    requires GraphInv(g, held) && q in held
    ensures Grows(g, Return(g, q)) && GraphInv(Return(g, q), held - {q})
  {
    var p, h := g.cells[q].obj.pool, Return(g, q);
    assert PoolOk(g, held, p);
    assert PoolAt(h, p).available == g.cells[p].obj.available + [q];
    assert PoolOk(h, held - {q}, p);
    AvailableInv(g, h, p, held, held - {q});
  }

  // ---- A session ----

  lemma AddSessionGrows(g: Graph, p: Ptr)
    requires OpenPool(g, p)
    ensures Grows(g, AddSession(g, p))
  {
  }

  lemma AddSessionPool(g: Graph, p: Ptr)
    requires OpenPool(g, p)
    ensures var h, n := AddSession(g, p), |g.cells|;
      && OpenPool(h, p)
      && h.cells[p].obj == g.cells[p].obj.(sessions := g.cells[p].obj.sessions + [n + 1])
      && h.cells[n].obj == Session(g.cells[p].obj.connection, g.cells[p].obj.mode)
      && h.cells[n + 1].obj == PooledSession(p, n, map[], map[])
      && OpenSession(h, n + 1)
  {
    var h, n := AddSession(g, p), |g.cells|;
    assert h.cells[p].obj.sessions[|g.cells[p].obj.sessions|] == n + 1;
  }

  lemma AddSessionLedger(g: Graph, p: Ptr)
    requires Ledger(g) && BackOk(g) && OpenPool(g, p)
    ensures Ledger(AddSession(g, p)) && BackOk(AddSession(g, p))
  {
    var h, n := AddSession(g, p), |g.cells|;
    AddSessionGrows(g, p);
    AddSessionPool(g, p);
    assert h.managed.sessions[|g.managed.sessions|] == n;
    LedgerGrows(g, h);
    BackGrows(g, h);
  }

  lemma AddSessionLists(g: Graph, p: Ptr)
    requires BackOk(g) && ListsOk(g) && ClientsOk(g) && OpenPool(g, p)
    ensures ListsOk(AddSession(g, p)) && ClientsOk(AddSession(g, p))
  {
    var h := AddSession(g, p);
    AddSessionGrows(g, p);
    AddSessionPool(g, p);
    OldEntries(g);
    ListsGrow(g, h);
    ClientsGrow(g, h);
  }

  lemma AddSessionMemos(g: Graph, p: Ptr)
    requires BackOk(g) && ListsOk(g) && ResolverOk(g) && DestinationsOk(g) && OpenPool(g, p)
    ensures ResolverOk(AddSession(g, p)) && DestinationsOk(AddSession(g, p))
  {
    var h := AddSession(g, p);
    AddSessionGrows(g, p);
    AddSessionPool(g, p);
    SameMemos(g, h);
    OldEntries(g);
    DestinationsGrow(g, h);
  }

  /** The only session that is open after the step and was not before is the new one. */
  lemma AddSessionOpen(g: Graph, p: Ptr, q: Ptr)
    requires BackOk(g) && PoolsOk(g) && OpenPool(g, p)
    requires OpenSession(AddSession(g, p), q) && q != |g.cells| + 1
    ensures OpenSession(g, q) && AddSession(g, p).cells[q].obj == g.cells[q].obj
  {
    var h := AddSession(g, p);
    AddSessionGrows(g, p);
    OldOpenSession(g, h, q);
  }

  lemma AddSessionWraps(g: Graph, p: Ptr)
    requires BackOk(g) && PoolsOk(g) && WrapsOk(g) && CachesOk(g) && OpenPool(g, p)
    ensures var h := AddSession(g, p); PoolsOk(h) && WrapsOk(h) && CachesOk(h)
  {
    var h, n := AddSession(g, p), |g.cells|;
    AddSessionGrows(g, p);
    AddSessionPool(g, p);
    PoolsGrow(g, h);
    assert h.managed.sessions[|g.managed.sessions|] == n;
    assert WrapOk(h, n + 1);
    forall q: Ptr | OpenSession(h, q) ensures CacheGainOk(g, h, q) && (q >= n ==> q == n + 1) {
      if q != n + 1 { AddSessionOpen(g, p, q); }
    }
    WrapsGrow(g, h);
    CachesGrow(g, h);
  }

  lemma AddSessionSessions(g: Graph, held: set<Ptr>, p: Ptr)
    requires BackOk(g) && PoolsOk(g) && SessionsOk(g, held) && OpenPool(g, p) && PoolAt(g, p).available == []
    ensures SessionsOk(AddSession(g, p), held + {|g.cells| + 1})
  {
    var h, n := AddSession(g, p), |g.cells|;
    var kept := held + {n + 1};
    AddSessionGrows(g, p);
    AddSessionPool(g, p);
    forall x: Ptr | OpenPool(h, x) ensures PoolOk(h, kept, x) {
      OldPool(g, h, x);
      PoolGrows(g, h, x);
      assert PoolOk(g, held, x);
      AddSessionPoolOk(g, held, p, x);
    }
    hide PoolOk, Grows;
    forall q | q in kept ensures OpenSession(h, q) {
      if q in held { OldOpenSession(g, h, q); }
    }
  }

  lemma AddSessionPoolOk(g: Graph, held: set<Ptr>, p: Ptr, x: Ptr)
    requires OpenPool(g, p) && PoolAt(g, p).available == []
    requires OpenPool(g, x) && PoolOk(g, held, x) && PoolOk(g, held, p) && OpenPool(AddSession(g, p), x)
    ensures PoolOk(AddSession(g, p), held + {|g.cells| + 1}, x)
  {
    var h, n := AddSession(g, p), |g.cells|;
    AddSessionPool(g, p);
    forall q | q in h.cells[x].obj.sessions && q != n + 1
      ensures q in g.cells[x].obj.sessions && h.cells[q].obj == g.cells[q].obj
    {
    }
  }

  lemma AddSessionInv(g: Graph, held: set<Ptr>, p: Ptr)
    requires GraphInv(g, held) && OpenPool(g, p) && PoolAt(g, p).available == []
    ensures var h, q := AddSession(g, p), |g.cells| + 1;
      q !in held && OpenSession(h, q) && h.cells[q].obj.pool == p && Grows(g, h) && GraphInv(h, held + {q})
  {
    hide Ledger, ListsOk, WrapsOk, CachesOk, ClientsOk, ResolverOk, DestinationsOk, Grows;
    AddSessionGrows(g, p);
    AddSessionPool(g, p);
    AddSessionLedger(g, p);
    AddSessionLists(g, p);
    AddSessionMemos(g, p);
    AddSessionWraps(g, p);
    AddSessionSessions(g, held, p);
  }

  // ---- A message ----

  ghost predicate MessageCell(cell: Cell) {
    cell == Cell(Message, 1) || cell == Cell(Received, 0)
  }

  lemma AddCellLedger(g: Graph, cell: Cell)
    requires Ledger(g) && BackOk(g) && MessageCell(cell)
    ensures Ledger(AddCell(g, cell)) && BackOk(AddCell(g, cell))
  {
    var h := AddCell(g, cell);
    assert Grows(g, h);
    LedgerGrows(g, h);
    BackGrows(g, h);
  }

  lemma AddCellSessions(g: Graph, held: set<Ptr>, cell: Cell)
    requires BackOk(g) && PoolsOk(g) && SessionsOk(g, held) && WrapsOk(g) && CachesOk(g) && ResolverOk(g)
    requires MessageCell(cell)
    ensures var h := AddCell(g, cell);
      PoolsOk(h) && SessionsOk(h, held) && WrapsOk(h) && CachesOk(h) && ResolverOk(h)
  {
    var h := AddCell(g, cell);
    assert Grows(g, h);
    SameSessions(g, h, held);
    SameCaches(g, h);
    SameMemos(g, h);
  }

  lemma AddCellInv(g: Graph, held: set<Ptr>, cell: Cell)
    requires GraphInv(g, held) && MessageCell(cell)
    ensures Grows(g, AddCell(g, cell)) && GraphInv(AddCell(g, cell), held)
  {
    assert Grows(g, AddCell(g, cell));
    AddCellLedger(g, cell);
    AddCellSessions(g, held, cell);
    SameManaged(g, AddCell(g, cell));
  }

  // ---- Opening and tearing down ----

  /** With nothing open, nothing but received messages is alive. */
  lemma BareLedger(g: Graph)
    requires Ledger(g) && BareOk(g) && g.pools == NO_POOLS && g.managed == NOTHING
    ensures forall p :: 0 <= p < |g.cells| ==> (g.cells[p].deletes == 0 <==> g.cells[p].obj.Received?)
    ensures Owns(g.cells) == {}
  {
    forall p | 0 <= p < |g.cells| ensures Owned(g, p) <==> g.cells[p].obj.Received? {
    }
  }

  /** A graph in which nothing is open but possibly a connection. */
  lemma BareInv(g: Graph)
    requires Ledger(g) && BackOk(g) && ConnectionOk(g) && ListsOk(g)
    requires g.pools == NO_POOLS && g.resolver == map[] && g.managed == NOTHING.(connections := g.managed.connections)
    ensures GraphInv(g, {})
  {
  }

  lemma NothingHeld(g: Graph, held: set<Ptr>)
    requires GraphInv(g, held) && g.pools == NO_POOLS
    ensures held == {}
  {
    forall q: Ptr ensures q !in held {
      assert !OpenSession(g, q);
    }
  }

  lemma AddConnectionInv(g: Graph, held: set<Ptr>)
    requires GraphInv(g, held) && g.connection.None?
    ensures GraphInv(AddConnection(g), held) && AddConnection(g).pools == NO_POOLS && held == {}
  {
    var h := AddConnection(g);
    BareLedger(g);
    NothingHeld(g, held);
    assert Ledger(h);
    BareInv(h);
  }

  lemma OpenPoolsLedger(g: Graph)
    requires Ledger(g) && BackOk(g) && BareOk(g) && g.pools == NO_POOLS
    ensures Ledger(OpenPools(g)) && BackOk(OpenPools(g))
  {
    var h, n := OpenPools(g), |g.cells|;
    forall p | 0 <= p < n ensures Owned(h, p) <==> Owned(g, p) {
      assert h.cells[p] == g.cells[p];
      if g.cells[p].obj.PooledSession? { NoSessionYet(g, p); }
      if g.cells[p].obj.CachedClient? { NoSessionYet(g, g.cells[p].obj.session); }
    }
    assert OpenPool(h, n) && OpenPool(h, n + 1) && OpenPool(h, n + 2) && OpenPool(h, n + 3);
  }

  /** Newly opened pools have no sessions. */
  lemma NoSessionYet(g: Graph, q: Ptr)
    requires BackOk(g) && g.pools == NO_POOLS
    ensures !OpenSession(OpenPools(g), q)
  {
    var h := OpenPools(g);
    if q < |h.cells| && h.cells[q].obj.PooledSession? {
      assert h.cells[q] == g.cells[q];
      assert h.cells[q].obj.pool < |g.cells|;
    }
  }

  lemma OpenPoolsInv(g: Graph, held: set<Ptr>)
    requires GraphInv(g, held) && g.connection.Some? && g.pools == NO_POOLS
    ensures GraphInv(OpenPools(g), held) && Settled(OpenPools(g))
  {
    var h, n := OpenPools(g), |g.cells|;
    OpenPoolsLedger(g);
    NothingHeld(g, held);
    assert ListsOk(h) && PoolsOk(h);
    forall q: Ptr ensures !OpenSession(h, q) {
      NoSessionYet(g, q);
    }
    forall p: Ptr | OpenPool(h, p) ensures PoolOk(h, held, p) {
      assert p >= n;
    }
  }

  lemma BareOwned(cells: seq<Cell>, p: Ptr)
    requires p < |cells|
    ensures Owned(Bare(cells), p) <==> cells[p].obj.Received?
  {
  }

  lemma TeardownLedger(s: State)
    requires Ledger(s.g) && BackOk(s.g)
    ensures Ledger(Teardown(s).g) && BackOk(Teardown(s).g)
  {
    var g, h := s.g, Teardown(s).g;
    forall p | 0 <= p < |h.cells|
      ensures PointsBack(h.cells[p].obj, p) && h.cells[p].deletes <= 1 && (h.cells[p].deletes == 0 <==> Owned(h, p))
    {
      assert h.cells[p].obj == g.cells[p].obj;
      assert g.cells[p].deletes <= 1 && (g.cells[p].obj.Message? ==> g.cells[p].deletes == 1);
      BareOwned(h.cells, p);
      assert PointsBack(g.cells[p].obj, p);
    }
  }

  lemma TeardownInv(s: State, held: set<Ptr>)
    requires Inv(s, held)
    ensures Inv(Teardown(s), {}) && Settled(Teardown(s).g)
  {
    TeardownLedger(s);
    BareInv(Teardown(s).g);
  }
}

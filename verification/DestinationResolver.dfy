/** DynamicDestinationResolver: remembers, per session, the destinations made for names. */
module DestinationResolver {
  import opened Collections
  import opened CppHeap
  import opened TemplateState
  import opened LifecycleManager

  /** What looking a name up does to the graph: the graph and call count afterwards, and the
      destination, if the name is valid and the provider could create it. */
  ghost function LookUp(o: Oracle, g: Graph, calls: nat, q: Ptr, name: string, pubSub: bool)
    : (Graph, nat, Outcome<Ptr>)
  {
    if name == "" then (g, calls, Fail)
    else
      var g1 := if q in g.resolver then g else AddResolver(g, q);
      var known := DestMap(ResolverAt(g1, q), pubSub);
      if name in known then (g1, calls, Ok(known[name]))
      else if o(calls) then (g1, calls + 1, Fail)
      else (AddDestination(g1, q, name, pubSub), calls + 1, Ok(|g1.cells|))
  }

  ghost predicate ResolverLive(cells: seq<Cell>, resolver: map<Ptr, Ptr>, q: Ptr) {
    q in resolver ==> Live(cells, resolver[q]) && cells[resolver[q]].obj.SessionResolver?
  }

  /** The session resolvers are alive and each belongs to one session. */
  ghost predicate ResolversLive(cells: seq<Cell>, resolver: map<Ptr, Ptr>) {
    && (forall q :: q in resolver ==> Live(cells, resolver[q]))
    && (forall q, x :: q in resolver && x in resolver && resolver[q] == resolver[x] ==> q == x)
  }

  class DynamicDestinationResolver {
    const heap: Heap
    const manager: ResourceLifecycleManager
    var sessionResolverMap: map<Ptr, Ptr>

    constructor (heap: Heap, manager: ResourceLifecycleManager)
      ensures this.heap == heap && this.manager == manager && sessionResolverMap == map[]
    {
      this.heap, this.manager, sessionResolverMap := heap, manager, map[];
    }

    /** The heap, the manager and the map are those of graph g. */
    ghost predicate Shows(g: Graph)
      reads this, heap, manager
    {
      heap.cells == g.cells && manager.Lists() == g.managed && sessionResolverMap == g.resolver
    }

    /** SessionResolver::getTopic and getQueue. */
    method GetDestination(q: Ptr, name: string, pubSub: bool, ghost g: Graph) returns (r: Outcome<Ptr>)
      requires Shows(g) && q in g.resolver && ResolverLive(g.cells, g.resolver, q) && name != ""
      modifies heap`cells, heap`calls, manager
      ensures var (h, calls, out) := LookUp(heap.oracle, g, old(heap.calls), q, name, pubSub);
        Shows(h) && heap.calls == calls && r == out
    {
      var p := sessionResolverMap[q];
      var resolver := heap.Get(p);
      var known := DestMap(resolver, pubSub);
      if name in known {
        return Ok(known[name]);
      }
      var failed := heap.Call();
      if failed {
        return Fail;
      }
      var d := heap.New(Destination(q, NamedDest(name, pubSub)));
      manager.AddDestination(d);
      heap.Put(p, WithDest(resolver, name, pubSub, d));
      assert heap.cells == AddDestination(g, q, name, pubSub).cells;
      return Ok(d);
    }

    method ResolveDestinationName(q: Ptr, name: string, pubSub: bool, ghost g: Graph) returns (r: Outcome<Ptr>)
      requires Shows(g) && ResolverLive(g.cells, g.resolver, q)
      modifies this, heap`cells, heap`calls, manager
      ensures var (h, calls, out) := LookUp(heap.oracle, g, old(heap.calls), q, name, pubSub);
        Shows(h) && heap.calls == calls && r == out
    {
      if name == "" {
        return Fail;
      }
      if q !in sessionResolverMap {
        var p := heap.New(SessionResolver(q, map[], map[]));
        sessionResolverMap := sessionResolverMap[q := p];
        r := GetDestination(q, name, pubSub, AddResolver(g, q));
      } else {
        r := GetDestination(q, name, pubSub, g);
      }
    }

    /** Deletes every session resolver and forgets them all. */
    method Destroy()
      requires ResolversLive(heap.cells, sessionResolverMap)
      modifies this, heap`cells, heap`log
      ensures sessionResolverMap == map[]
      ensures heap.cells == Kill(old(heap.cells), Values(old(sessionResolverMap)))
    {
      var left := sessionResolverMap.Keys;
      ghost var done: set<Ptr> := {};
      assert heap.cells == Kill(old(heap.cells), {});
      while left != {}
        invariant left <= sessionResolverMap.Keys
        invariant sessionResolverMap == old(sessionResolverMap)
        invariant done == set q | q in sessionResolverMap && q !in left :: sessionResolverMap[q]
        invariant heap.cells == Kill(old(heap.cells), done)
        decreases left
      {
        var q :| q in left;
        var p := sessionResolverMap[q];
        assert p !in done;
        heap.Delete(p);
        KillTwice(old(heap.cells), done, {p});
        left := left - {q};
        done := done + {p};
      }
      assert done == Values(old(sessionResolverMap));
      sessionResolverMap := map[];
    }
  }
}

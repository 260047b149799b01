/** ResourceLifecycleManager: the owner of every resource that the provider created. */
module LifecycleManager {
  import opened Collections
  import opened CppHeap
  import opened TemplateState

  /** Everything managed, in the order in which destroy() deletes it. */
  ghost function All(m: Managed): seq<Ptr> {
    m.producers + m.consumers + m.destinations + m.sessions + m.connections
  }

  ghost function Closes(xs: seq<Ptr>): seq<Event> {
    seq(|xs|, i requires 0 <= i < |xs| => Closed(xs[i]))
  }

  ghost function Deletes(xs: seq<Ptr>): seq<Event> {
    seq(|xs|, i requires 0 <= i < |xs| => Deleted(xs[i]))
  }

  /** What destroy() does to the resources, in order. */
  ghost function DestroyLog(m: Managed): seq<Event> {
    Closes(m.connections) + Deletes(All(m))
  }

  ghost function Elements(xs: seq<Ptr>): set<Ptr> {
    set p | p in xs
  }

  /** Every managed resource is alive and listed once. */
  ghost predicate Destroyable(cells: seq<Cell>, m: Managed) {
    NoDup(All(m)) && forall p :: p in All(m) ==> Live(cells, p)
  }

  /** All closes come first, and every resource is deleted exactly once. */
  lemma DestroyLogOnce(m: Managed)
    requires NoDup(All(m))
    ensures forall i, j :: 0 <= i < j < |DestroyLog(m)| && DestroyLog(m)[i].Deleted? ==> DestroyLog(m)[j].Deleted?
    ensures NoDup(Deletes(All(m)))
    ensures forall p :: Deleted(p) in DestroyLog(m) <==> p in All(m)
    ensures forall p :: Closed(p) in DestroyLog(m) <==> p in m.connections
  {
    var log, n := DestroyLog(m), |m.connections|;
    forall p | p in All(m) ensures Deleted(p) in log {
      var i :| 0 <= i < |All(m)| && All(m)[i] == p;
      assert log[n + i] == Deleted(p);
    }
    forall p | p in m.connections ensures Closed(p) in log {
      var i :| 0 <= i < n && m.connections[i] == p;
      assert log[i] == Closed(p);
    }
  }

  /** The deletion phase of a resource: producers, consumers, destinations, sessions, connections. */
  ghost function Phase(m: Managed, p: Ptr): nat {
    if p in m.producers then 1
    else if p in m.consumers then 2
    else if p in m.destinations then 3
    else if p in m.sessions then 4
    else 5
  }

  ghost function PhaseAt(m: Managed, i: nat): nat {
    var a := |m.producers|;
    var b := a + |m.consumers|;
    var c := b + |m.destinations|;
    var d := c + |m.sessions|;
    if i < a then 1 else if i < b then 2 else if i < c then 3 else if i < d then 4 else 5
  }

  lemma PhaseOfIndex(m: Managed, i: nat)
    requires NoDup(All(m)) && i < |All(m)|
    ensures Phase(m, All(m)[i]) == PhaseAt(m, i)
  {
    var p, all := All(m)[i], All(m);
    var a := |m.producers|;
    var b := a + |m.consumers|;
    var c := b + |m.destinations|;
    var d := c + |m.sessions|;
    assert m.producers == all[..a] && m.consumers == all[a..b] && m.destinations == all[b..c];
    assert m.sessions == all[c..d];
    forall j | 0 <= j < |all| && all[j] == p ensures j == i {
    }
  }

  /** No parent goes before its children: deletions follow the phases, so a session outlives its
      producers, consumers and destinations, and a connection outlives its sessions. */
  lemma ChildrenFirst(m: Managed, i: nat, j: nat)
    requires NoDup(All(m))
    requires i < j < |DestroyLog(m)| && DestroyLog(m)[i].Deleted? && DestroyLog(m)[j].Deleted?
    ensures Phase(m, DestroyLog(m)[i].p) <= Phase(m, DestroyLog(m)[j].p)
  {
    var n := |m.connections|;
    assert i >= n;
    PhaseOfIndex(m, i - n);
    PhaseOfIndex(m, j - n);
  }

  class ResourceLifecycleManager {
    const heap: Heap
    var connections: seq<Ptr>
    var sessions: seq<Ptr>
    var destinations: seq<Ptr>
    var producers: seq<Ptr>
    var consumers: seq<Ptr>

    ghost function Lists(): Managed
      reads this
    {
      Managed(connections, sessions, destinations, producers, consumers)
    }

    constructor (heap: Heap)
      ensures this.heap == heap && Lists() == NOTHING
    {
      this.heap := heap;
      connections, sessions, destinations, producers, consumers := [], [], [], [], [];
    }

    method AddConnection(p: Ptr)
      modifies this
      ensures Lists() == old(Lists()).(connections := old(connections) + [p])
    {
      connections := connections + [p];
    }

    method AddSession(p: Ptr)
      modifies this
      ensures Lists() == old(Lists()).(sessions := old(sessions) + [p])
    {
      sessions := sessions + [p];
    }

    method AddDestination(p: Ptr)
      modifies this
      ensures Lists() == old(Lists()).(destinations := old(destinations) + [p])
    {
      destinations := destinations + [p];
    }

    method AddMessageProducer(p: Ptr)
      modifies this
      ensures Lists() == old(Lists()).(producers := old(producers) + [p])
    {
      producers := producers + [p];
    }

    method AddMessageConsumer(p: Ptr)
      modifies this
      ensures Lists() == old(Lists()).(consumers := old(consumers) + [p])
    {
      consumers := consumers + [p];
    }

    method ReleaseAll()
      modifies this
      ensures Lists() == NOTHING
    {
      connections, sessions, destinations, producers, consumers := [], [], [], [], [];
    }

    /** Closes every connection, absorbing whatever is thrown. */
    method CloseAll()
      requires forall p :: p in connections ==> Live(heap.cells, p)
      modifies heap`calls, heap`log
      ensures heap.calls == old(heap.calls) + |connections|
      ensures heap.log == old(heap.log) + Closes(connections)
    {
      var i := 0;
      assert heap.log == old(heap.log) + Closes(connections[..0]);
      while i < |connections|
        invariant 0 <= i <= |connections|
        invariant heap.calls == old(heap.calls) + i
        invariant heap.log == old(heap.log) + Closes(connections[..i])
      {
        assert connections[..i + 1] == connections[..i] + [connections[i]];
        var ignored := heap.Close(connections[i]);
        assert Closes(connections[..i + 1]) == Closes(connections[..i]) + [Closed(connections[i])];
        i := i + 1;
      }
      assert connections[..i] == connections;
    }

    /** Deletes every resource of one list, absorbing whatever is thrown. */
    method DeleteEach(xs: seq<Ptr>)
      requires NoDup(xs) && forall p :: p in xs ==> Live(heap.cells, p)
      modifies heap`cells, heap`calls, heap`log
      ensures heap.cells == Kill(old(heap.cells), Elements(xs))
      ensures heap.calls == old(heap.calls) + |xs|
      ensures heap.log == old(heap.log) + Deletes(xs)
    {
      var i := 0;
      assert heap.log == old(heap.log) + Deletes(xs[..0]);
      assert heap.cells == Kill(old(heap.cells), Elements(xs[..0]));
      while i < |xs|
        invariant 0 <= i <= |xs|
        invariant heap.cells == Kill(old(heap.cells), Elements(xs[..i]))
        invariant heap.calls == old(heap.calls) + i
        invariant heap.log == old(heap.log) + Deletes(xs[..i])
      {
        assert xs[i] in xs && xs[i] !in xs[..i];
        assert xs[..i + 1] == xs[..i] + [xs[i]];
        heap.Delete(xs[i]);
        KillTwice(old(heap.cells), Elements(xs[..i]), {xs[i]});
        assert Elements(xs[..i + 1]) == Elements(xs[..i]) + {xs[i]};
        var ignored := heap.Call();
        assert Deletes(xs[..i + 1]) == Deletes(xs[..i]) + [Deleted(xs[i])];
        i := i + 1;
      }
      assert xs[..i] == xs;
    }

    /** One deletion phase: `done` has been deleted, and `xs` follows. */
    method DeletePhase(ghost start: seq<Cell>, ghost done: seq<Ptr>, xs: seq<Ptr>)
      requires NoDup(done + xs) && forall p :: p in xs ==> Live(start, p)
      requires heap.cells == Kill(start, Elements(done))
      modifies heap`cells, heap`calls, heap`log
      ensures heap.cells == Kill(start, Elements(done + xs))
      ensures heap.calls == old(heap.calls) + |xs|
      ensures heap.log == old(heap.log) + Deletes(xs)
    {
      NoDupParts(done, xs);
      DeleteEach(xs);
      KillTwice(start, Elements(done), Elements(xs));
      assert Elements(done + xs) == Elements(done) + Elements(xs);
    }

    /** destroy(): closes the connections, then deletes everything, children before parents;
        exceptions are absorbed, so every resource is reached.  A second call has nothing to do. */
    method Destroy()
      requires Destroyable(heap.cells, Lists())
      modifies this, heap`cells, heap`calls, heap`log
      ensures Lists() == NOTHING
      ensures heap.cells == Kill(old(heap.cells), Elements(All(old(Lists()))))
      ensures heap.calls == old(heap.calls) + DestroyCalls(old(Lists()))
      ensures heap.log == old(heap.log) + DestroyLog(old(Lists()))
    {
      ghost var m, start, log := Lists(), heap.cells, heap.log;
      ghost var d1 := m.producers;
      ghost var d2 := d1 + m.consumers;
      ghost var d3 := d2 + m.destinations;
      ghost var d4 := d3 + m.sessions;
      assert All(m) == d4 + m.connections;
      PrefixesNoDup(m);
      AllMembers(m);
      hide Closes, Deletes, DestroyLog, All;
      CloseAll();
      assert [] + producers == d1 && heap.cells == Kill(start, Elements([]));
      DeletePhase(start, [], producers);
      DeletePhase(start, d1, consumers);
      DeletePhase(start, d2, destinations);
      DeletePhase(start, d3, sessions);
      DeletePhase(start, d4, connections);
      LogParts(log, m);
      assert heap.log == log + DestroyLog(m);
      ReleaseAll();
    }
  }

  lemma NoDupParts(xs: seq<Ptr>, ys: seq<Ptr>)
    requires NoDup(xs + ys)
    ensures NoDup(xs) && NoDup(ys) && Elements(xs) !! Elements(ys)
  {
    var all := xs + ys;
    forall i, j | 0 <= i < j < |xs| ensures xs[i] != xs[j] {
      assert all[i] == xs[i] && all[j] == xs[j];
    }
    forall i, j | 0 <= i < j < |ys| ensures ys[i] != ys[j] {
      assert all[|xs| + i] == ys[i] && all[|xs| + j] == ys[j];
    }
    forall i, j | 0 <= i < |xs| && 0 <= j < |ys| ensures xs[i] != ys[j] {
      assert all[i] == xs[i] && all[|xs| + j] == ys[j];
    }
  }

  lemma PrefixesNoDup(m: Managed)
    requires NoDup(All(m))
    ensures NoDup([] + m.producers) && NoDup(m.producers + m.consumers)
    ensures NoDup(m.producers + m.consumers + m.destinations)
    ensures NoDup(m.producers + m.consumers + m.destinations + m.sessions)
  {
    var d2 := m.producers + m.consumers;
    var d3 := d2 + m.destinations;
    NoDupParts(d3 + m.sessions, m.connections);
    NoDupParts(d3, m.sessions);
    NoDupParts(d2, m.destinations);
    NoDupParts(m.producers, m.consumers);
    assert [] + m.producers == m.producers;
  }

  lemma AllMembers(m: Managed)
    ensures forall p :: p in All(m) <==>
      p in m.producers || p in m.consumers || p in m.destinations || p in m.sessions || p in m.connections
  {
  }

  lemma LogParts(log: seq<Event>, m: Managed)
    ensures log + Closes(m.connections) + Deletes(m.producers) + Deletes(m.consumers) + Deletes(m.destinations)
            + Deletes(m.sessions) + Deletes(m.connections) == log + DestroyLog(m)
  {
    assert Deletes(All(m)) ==
      Deletes(m.producers) + Deletes(m.consumers) + Deletes(m.destinations) + Deletes(m.sessions) + Deletes(m.connections);
  }
}

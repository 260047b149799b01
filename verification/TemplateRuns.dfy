/** Theorems about every run of a template, for every pattern of provider failures. */
module TemplateRuns {
  import opened CppHeap
  import opened Options
  import opened TemplateState
  import opened TemplateInvariant
  import opened TemplateGrowth
  import opened TemplateSteps
  import opened TemplateOperations
  import opened TemplateOwners

  lemma {:induction false} RunGood(o: Oracle, s: State, ops: seq<Op>)
    requires Good(s, {})
    ensures Good(Run(o, s, ops), {})
    decreases |ops|
  {
    hide GraphInv, CellsAge, Grows;
    if ops != [] {
      ExecOutcome(o, s, {}, ops[0]);
      RunGood(o, Exec(o, s, ops[0]).0, ops[1..]);
    }
  }

  /** The state that a run of a newly constructed template reaches. */
  ghost function After(o: Oracle, settings: Settings, ops: seq<Op>): State {
    Run(o, Fresh(settings, [], 0, []), ops)
  }

  lemma AfterGood(o: Oracle, settings: Settings, ops: seq<Op>)
    ensures Good(After(o, settings, ops), {})
  {
    var s := Fresh(settings, [], 0, []);
    BareInv(s.g);
    RunGood(o, s, ops);
  }

  /** Nothing leaks and nothing is deleted twice: every object ever created, except a message
      that went to the caller, is either alive and held by exactly one of the places that delete,
      or has been deleted exactly once and is held by none. */
  lemma EveryObjectOwnedOrDeletedOnce(o: Oracle, settings: Settings, ops: seq<Op>, p: Ptr)
    requires p < |After(o, settings, ops).g.cells|
    ensures var g := After(o, settings, ops).g;
      && g.cells[p].deletes == (if g.cells[p].obj.Received? || exists slot :: Holds(g, slot, p) then 0 else 1)
      && (forall a, b :: Holds(g, a, p) && Holds(g, b, p) ==> a == b)
  {
    AfterGood(o, settings, ops);
    var g := After(o, settings, ops).g;
    OwnedOrDeletedOnce(g, {}, p);
  }

  lemma OwnedOrDeletedOnce(g: Graph, held: set<Ptr>, p: Ptr)
    requires GraphInv(g, held) && p < |g.cells|
    ensures g.cells[p].deletes == (if g.cells[p].obj.Received? || exists slot :: Holds(g, slot, p) then 0 else 1)
    ensures forall a, b :: Holds(g, a, p) && Holds(g, b, p) ==> a == b
  {
    assert g.cells[p].deletes == 0 <==> Owned(g, p);
    if !g.cells[p].obj.Received? { OwnedExact(g, held, p); }
    hide GraphInv, Holds;
    forall a, b | Holds(g, a, p) && Holds(g, b, p) ensures a == b {
      OneSlot(g, held, a, b, p);
    }
  }

  /** Destroying the template at the end of any run deletes all that is left: every object ever
      created has been deleted exactly once, but for the messages that went to the caller. */
  lemma DestructorLeavesNothing(o: Oracle, settings: Settings, ops: seq<Op>, p: Ptr)
    requires p < |Teardown(After(o, settings, ops)).g.cells|
    ensures var cell := Teardown(After(o, settings, ops)).g.cells[p];
      cell.deletes == if cell.obj.Received? then 0 else 1
  {
    AfterGood(o, settings, ops);
    var s := After(o, settings, ops);
    TeardownInv(s, {});
    BareLedger(Teardown(s).g);
  }

  /** Nothing dangles between operations: the connection field, the pools, their sessions and
      their available lists, the caches, the resolver's keys and names, and a default destination
      that the template resolved all point to live objects. */
  lemma NothingDangles(o: Oracle, settings: Settings, ops: seq<Op>)
    ensures var s := After(o, settings, ops); var g := s.g;
      && (g.connection.Some? ==> Live(g.cells, g.connection.value))
      && (forall m :: 0 <= m < |g.pools| && g.pools[m].Some? ==> Live(g.cells, g.pools[m].value))
      && (forall p: Ptr, q: Ptr :: OpenPool(g, p) && q in g.cells[p].obj.sessions + g.cells[p].obj.available ==>
            SessionAlive(g, q))
      && (forall q :: q in g.resolver ==> Live(g.cells, q) && Live(g.cells, g.resolver[q]) && MemoAlive(g, q))
      && (s.defaultDest.Some? && s.defaultDest.value.Resolved? ==> Live(g.cells, s.defaultDest.value.p))
  {
    var s := After(o, settings, ops);
    var g := s.g;
    AfterGood(o, settings, ops);
    if g.connection.Some? { OpenConnection(g, {}); }
    forall m | 0 <= m < |g.pools| && g.pools[m].Some? ensures Live(g.cells, g.pools[m].value) {
      LivePool(g, {}, m);
    }
    if s.defaultDest.Some? && s.defaultDest.value.Resolved? { LiveDestination(g, {}, s.defaultDest.value.p); }
    hide GraphInv, SessionAlive, MemoAlive, After;
    forall p: Ptr, q: Ptr | OpenPool(g, p) && q in g.cells[p].obj.sessions + g.cells[p].obj.available
      ensures SessionAlive(g, q)
    {
      ListedIsOpen(g, {}, p, q);
      LiveSession(g, {}, q);
    }
    forall q | q in g.resolver ensures Live(g.cells, q) && Live(g.cells, g.resolver[q]) && MemoAlive(g, q) {
      LiveMemo(g, {}, q);
    }
  }

  lemma LivePool(g: Graph, held: set<Ptr>, m: int)
    requires GraphInv(g, held) && 0 <= m < |g.pools| && g.pools[m].Some?
    ensures Live(g.cells, g.pools[m].value)
  {
    assert OpenPool(g, g.pools[m].value) && Owned(g, g.pools[m].value);
  }

  lemma ListedIsOpen(g: Graph, held: set<Ptr>, p: Ptr, q: Ptr)
    requires GraphInv(g, held) && OpenPool(g, p) && q in g.cells[p].obj.sessions + g.cells[p].obj.available
    ensures OpenSession(g, q)
  {
    assert PoolOk(g, held, p);
  }

  /** A pooled session, the session it wraps, and its cached clients are alive. */
  ghost predicate SessionAlive(g: Graph, q: Ptr) {
    && Live(g.cells, q) && g.cells[q].obj.PooledSession? && Live(g.cells, g.cells[q].obj.raw)
    && (forall k :: k in g.cells[q].obj.producerCache ==> WrapperAlive(g, g.cells[q].obj.producerCache[k]))
    && (forall k :: k in g.cells[q].obj.consumerCache ==> WrapperAlive(g, g.cells[q].obj.consumerCache[k]))
  }

  ghost predicate WrapperAlive(g: Graph, w: Ptr) {
    Live(g.cells, w) && g.cells[w].obj.CachedClient? && Live(g.cells, g.cells[w].obj.raw)
  }

  ghost predicate MemoAlive(g: Graph, q: Ptr) {
    && (forall n :: n in ResolverAt(g, q).topicMap ==> Live(g.cells, ResolverAt(g, q).topicMap[n]))
    && (forall n :: n in ResolverAt(g, q).queueMap ==> Live(g.cells, ResolverAt(g, q).queueMap[n]))
  }

  lemma LiveWrapper(g: Graph, q: Ptr, producer: bool, key: string, w: Ptr)
    requires Ledger(g) && OpenSession(g, q) && EntryOk(g, q, producer, key, w)
    requires key in (if producer then g.cells[q].obj.producerCache else g.cells[q].obj.consumerCache)
    requires w == (if producer then g.cells[q].obj.producerCache else g.cells[q].obj.consumerCache)[key]
    ensures WrapperAlive(g, w)
  {
    assert Owned(g, w) && Owned(g, g.cells[w].obj.raw);
  }

  lemma LiveSession(g: Graph, held: set<Ptr>, q: Ptr)
    requires GraphInv(g, held) && OpenSession(g, q)
    ensures SessionAlive(g, q)
  {
    hide CellsAge;
    var s := g.cells[q].obj;
    assert WrapOk(g, q) && CacheOk(g, q);
    assert Owned(g, q) && Owned(g, s.raw);
    forall k | k in s.producerCache ensures WrapperAlive(g, s.producerCache[k]) {
      LiveWrapper(g, q, true, k, s.producerCache[k]);
    }
    forall k | k in s.consumerCache ensures WrapperAlive(g, s.consumerCache[k]) {
      LiveWrapper(g, q, false, k, s.consumerCache[k]);
    }
  }

  lemma LiveMemo(g: Graph, held: set<Ptr>, q: Ptr)
    requires GraphInv(g, held) && q in g.resolver
    ensures Live(g.cells, q) && Live(g.cells, g.resolver[q]) && MemoAlive(g, q)
  {
    assert KnownOk(g, q);
    var r := g.cells[g.resolver[q]].obj;
    assert Owned(g, q) && Owned(g, g.resolver[q]);
    assert ResolverAt(g, q) == r;
    hide GraphInv;
    forall n | n in r.topicMap ensures Live(g.cells, r.topicMap[n]) {
      assert MemoOk(g, q, true, n, r.topicMap[n]);
      LiveDestination(g, held, r.topicMap[n]);
    }
    forall n | n in r.queueMap ensures Live(g.cells, r.queueMap[n]) {
      assert MemoOk(g, q, false, n, r.queueMap[n]);
      LiveDestination(g, held, r.queueMap[n]);
    }
  }

  // ---- Failure and recovery ----

  /** After a failed call the template equals a newly constructed one with its settings; nothing
      that it owned is alive, and the remaining handlers' destroy() calls change nothing. */
  lemma FailureLeavesFresh(o: Oracle, settings: Settings, ops: seq<Op>, op: Op)
    requires !Exec(o, After(o, settings, ops), op).1
    ensures var t := Exec(o, After(o, settings, ops), op).0;
      && t == Fresh(t.settings, t.g.cells, t.calls, t.trace)
      && (forall p :: 0 <= p < |t.g.cells| && t.g.cells[p].deletes == 0 ==> t.g.cells[p].obj.Received?)
      && Teardown(t) == t
  {
    var s := After(o, settings, ops);
    AfterGood(o, settings, ops);
    ExecOutcome(o, s, {}, op);
    var t := Exec(o, s, op).0;
    TeardownAgain(t);
    BareLedger(t.g);
  }

  /** A send or receive leaves the settings alone, whether or not it fails. */
  lemma SettingsKept(o: Oracle, s: State, held: set<Ptr>, action: Action)
    requires Good(s, held) && (action.Send? || action.Receive?)
    ensures Exec(o, s, Do(action)).0.settings == s.settings
  {
    hide GraphInv, CellsAge, Grows, EntryOk, MakeProducer, MakeConsumer, Take, Collapse, Meant;
    var s0 := s.(initialized := true);
    TakeOutcome(o, s0, held);
    var (s1, r) := Take(o, s0);
    if r.Ok? {
      MakeProducerOutcome(o, s1, held + {r.value}, r.value, action.arg);
      if action.Receive? {
        MakeConsumerOutcome(o, s1, held + {r.value}, r.value, action.arg, action.selector, s1.settings.noLocal);
      }
    }
  }

  /** At any time at most one connection is alive, and it is the one in use. */
  lemma AtMostOneConnection(o: Oracle, settings: Settings, ops: seq<Op>, p: Ptr)
    requires Live(After(o, settings, ops).g.cells, p) && After(o, settings, ops).g.cells[p].obj.Connection?
    ensures After(o, settings, ops).g.connection == Some(p)
  {
    AfterGood(o, settings, ops);
    assert Owned(After(o, settings, ops).g, p);
  }

  /** A call that runs a session on a template without a connection creates at most one, as its
      first new object; if it returns normally it creates that one, and leaves it open. */
  lemma ReconnectsOnce(o: Oracle, s: State, action: Action)
    requires Good(s, {}) && s.g.connection.None?
    ensures var (t, ok) := Exec(o, s, Do(action));
      && (forall p :: |s.g.cells| <= p < |t.g.cells| && t.g.cells[p].obj.Connection? ==> p == |s.g.cells|)
      && (ok ==> t.g.connection == Some(|s.g.cells|))
  {
    hide GraphInv, ObjGrows;
    var (t, ok) := Exec(o, s, Do(action));
    DoOutcome(o, s, {}, action);
    if ok {
      BareConnections(s.g);
      OpenConnection(t.g, {});
      NewConnection(s.g.cells, t.g.cells, t.g.connection.value);
    }
  }

  lemma NewConnection(a: seq<Cell>, b: seq<Cell>, c: Ptr)
    requires CellsAge(a, b, true) && Live(b, c) && b[c].obj.Connection?
    requires forall p :: 0 <= p < |a| && a[p].obj.Connection? ==> a[p].deletes > 0
    ensures c == |a|
  {
    forall p | 0 <= p < |a| && b[p].obj.Connection? ensures b[p].deletes > 0 {
      assert ObjGrows(|a|, a[p].obj, b[p].obj);
    }
  }

  lemma BareConnections(g: Graph)
    requires GraphInv(g, {}) && g.connection.None?
    ensures forall p :: 0 <= p < |g.cells| && g.cells[p].obj.Connection? ==> g.cells[p].deletes > 0
  {
    BareLedger(g);
  }

  lemma OpenConnection(g: Graph, held: set<Ptr>)
    requires GraphInv(g, held) && g.connection.Some?
    ensures Live(g.cells, g.connection.value) && g.cells[g.connection.value].obj.Connection?
  {
    assert g.managed.connections[0] == g.connection.value;
    assert Owned(g, g.connection.value);
  }

  function Connections(cells: seq<Cell>): nat {
    if cells == [] then 0
    else Connections(cells[..|cells| - 1]) + (if cells[|cells| - 1].obj.Connection? then 1 else 0)
  }

  lemma {:induction false} ConnectionsSame(a: seq<Cell>, b: seq<Cell>)
    requires |a| == |b| && forall p :: 0 <= p < |a| ==> (a[p].obj.Connection? <==> b[p].obj.Connection?)
    ensures Connections(a) == Connections(b)
  {
    if a != [] { ConnectionsSame(a[..|a| - 1], b[..|b| - 1]); }
  }

  lemma {:induction false} ConnectionsAge(a: seq<Cell>, b: seq<Cell>, reconnect: bool)
    requires CellsAge(a, b, reconnect)
    ensures Connections(b) <= Connections(a) + (if reconnect then 1 else 0)
    decreases |b|
  {
    if |a| == |b| {
      forall p | 0 <= p < |a| ensures a[p].obj.Connection? <==> b[p].obj.Connection? {
        assert ObjGrows(|a|, a[p].obj, b[p].obj);
      }
      ConnectionsSame(a, b);
    } else {
      var c := b[..|b| - 1];
      assert forall p :: 0 <= p < |c| ==> c[p] == b[p];
      var last := reconnect && |c| != |a|;
      assert CellsAge(a, c, last);
      ConnectionsAge(a, c, last);
    }
  }

  /** How many calls of a run fail. */
  ghost function Failures(o: Oracle, s: State, ops: seq<Op>): nat
    decreases |ops|
  {
    if ops == [] then 0
    else
      var (t, ok) := Exec(o, s, ops[0]);
      (if ok then 0 else 1) + Failures(o, t, ops[1..])
  }

  /** Connections opened so far, plus one if the next session needs another. */
  ghost function Potential(s: State): nat {
    Connections(s.g.cells) + (if s.g.connection.Some? then 0 else 1)
  }

  lemma PotentialStep(o: Oracle, s: State, op: Op)
    requires Good(s, {})
    ensures var (t, ok) := Exec(o, s, op); Potential(t) <= Potential(s) + (if ok then 0 else 1)
  {
    hide GraphInv, ObjGrows;
    ExecOutcome(o, s, {}, op);
    var (t, ok) := Exec(o, s, op);
    ConnectionsAge(s.g.cells, t.g.cells, s.g.connection.None?);
    if ok && s.g.connection.None? {
      if op.Do? { ReconnectsOnce(o, s, op.action); }
    }
  }

  /** A run opens at most one connection more than it has failures. */
  lemma {:induction false} OneConnectionPerFailure(o: Oracle, s: State, ops: seq<Op>)
    requires Good(s, {})
    ensures Potential(Run(o, s, ops)) <= Potential(s) + Failures(o, s, ops)
    decreases |ops|
  {
    hide GraphInv, CellsAge, Grows;
    if ops != [] {
      PotentialStep(o, s, ops[0]);
      ExecOutcome(o, s, {}, ops[0]);
      OneConnectionPerFailure(o, Exec(o, s, ops[0]).0, ops[1..]);
    }
  }

  /** Why a callback must let a nested failure through: after a nested call has failed, every
      session that an enclosing call holds has been deleted, so returning it would follow a
      dangling pointer. */
  lemma NestedFailureDeletesHeldSessions(o: Oracle, s: State, held: set<Ptr>, op: Op, q: Ptr)
    requires Good(s, held) && q in held
    requires !Exec(o, s, op).1
    ensures var t := Exec(o, s, op).0; q < |t.g.cells| && !Live(t.g.cells, q)
  {
    HeldOpen(s.g, held, q);
    ExecOutcome(o, s, held, op);
    var t := Exec(o, s, op).0;
    assert ObjGrows(|s.g.cells|, s.g.cells[q].obj, t.g.cells[q].obj);
    BareLedger(t.g);
  }
}

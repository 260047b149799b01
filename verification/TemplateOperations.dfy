/**
  What every operation on the template does, for every pattern of provider failures and every
  callback: a call that returns normally keeps the invariant and lets the resource graph grow;
  a call that fails leaves a fresh template.
 */
module TemplateOperations {
  import opened CacheKeys
  import opened CppHeap
  import opened Options
  import opened TemplateState
  import opened TemplateInvariant
  import opened TemplateGrowth
  import opened TemplateSteps

  ghost predicate Good(s: State, held: set<Ptr>) {
    Inv(s, held) && Settled(s.g)
  }

  /** A template as newly constructed, over some heap. */
  ghost predicate Down(s: State) {
    s == Fresh(s.settings, s.g.cells, s.calls, s.trace)
  }

  /** What a normal return means for the graph: it grows, or was opened from nothing. */
  ghost predicate Progress(s: State, t: State) {
    && CellsAge(s.g.cells, t.g.cells, s.g.connection.None?)
    && (s.g.connection.Some? ==> Grows(s.g, t.g))
  }

  /** What a failure means: everything is torn down. */
  ghost predicate Collapse(s: State, t: State) {
    && Down(t) && Good(t, {})
    && CellsAge(s.g.cells, t.g.cells, s.g.connection.None?)
  }

  lemma TeardownAges(s: State)
    ensures CellsAge(s.g.cells, Teardown(s).g.cells, false)
  {
  }

  lemma CollapseFrom(s: State, u: State, held: set<Ptr>)
    requires Inv(u, held) && CellsAge(s.g.cells, u.g.cells, s.g.connection.None?)
    ensures Collapse(s, Teardown(u))
  {
    TeardownInv(u, held);
    TeardownAges(u);
    CellsAgeTrans(s.g.cells, u.g.cells, Teardown(u).g.cells, s.g.connection.None?);
  }

  /** Handlers that run destroy() again after the first one find nothing to do. */
  lemma TeardownAgain(s: State)
    requires Down(s) && Inv(s, {})
    ensures Teardown(s) == s
  {
    BareLedger(s.g);
    assert Kill(s.g.cells, {}) == s.g.cells;
  }

  lemma ProgressRefl(s: State, t: State)
    requires t.g == s.g
    ensures Progress(s, t)
  {
    forall p | 0 <= p < |s.g.cells| ensures ObjGrows(|s.g.cells|, s.g.cells[p].obj, s.g.cells[p].obj) {
    }
  }

  lemma ProgressTrans(s: State, t: State, u: State)
    requires Progress(s, t) && t.g.connection.Some? && Progress(t, u)
    ensures Progress(s, u)
  {
    CellsAgeTrans(s.g.cells, t.g.cells, u.g.cells, s.g.connection.None?);
    if s.g.connection.Some? { GrowsTrans(s.g, t.g, u.g); }
  }

  lemma CollapseTrans(s: State, t: State, u: State)
    requires Progress(s, t) && t.g.connection.Some? && Collapse(t, u)
    ensures Collapse(s, u)
  {
    CellsAgeTrans(s.g.cells, t.g.cells, u.g.cells, s.g.connection.None?);
  }

  lemma DefaultKept(s: State, t: State)
    requires ListsOk(s.g) && DefaultOk(s) && Grows(s.g, t.g)
    requires t.defaultDest == s.defaultDest && t.settings == s.settings
    ensures DefaultOk(t)
  {
    if s.defaultDest.Some? && s.defaultDest.value.Resolved? {
      var d := s.defaultDest.value.p;
      assert ObjGrows(|s.g.cells|, s.g.cells[d].obj, t.g.cells[d].obj);
      ListGrowsIn(|s.g.cells|, s.g.managed.destinations, t.g.managed.destinations, d);
    }
  }

  /** A growth step on the graph alone. */
  lemma Stepped(s: State, t: State, held: set<Ptr>, kept: set<Ptr>)
    requires Good(s, held) && s.g.connection.Some?
    requires t.defaultDest == s.defaultDest && t.settings == s.settings && t.initialized == s.initialized
    requires Grows(s.g, t.g) && GraphInv(t.g, kept)
    ensures Good(t, kept) && Progress(s, t)
  {
    DefaultKept(s, t);
  }

  // ---- getConnection, takeSession, returnSession ----

  /** The connection is the first cell that opening adds. */
  lemma OpeningAges(g: Graph)
    ensures CellsAge(g.cells, AddConnection(g).cells, true)
    ensures CellsAge(g.cells, OpenPools(AddConnection(g)).cells, true)
  {
    var h := AddConnection(g);
    var k := OpenPools(h);
    assert CellsAge(h.cells, k.cells, false) by {
      forall p | |h.cells| <= p < |k.cells| ensures !k.cells[p].obj.Connection? {
        assert k.cells[p] == NewPool(h.connection.value, p - |h.cells|);
      }
    }
    CellsAgeTrans(g.cells, h.cells, k.cells, true);
  }

  lemma ConnectOutcome(o: Oracle, s: State, held: set<Ptr>)
    requires Good(s, held) && s.initialized
    ensures var (t, ok) := Connect(o, s);
      && t.settings == s.settings
      && (ok ==> Good(t, held) && t.g.connection.Some? && Progress(s, t) && t.defaultDest == s.defaultDest && t.initialized)
      && (!ok ==> Collapse(s, t))
  {
    if s.g.connection.None? {
      NoDefault(s, held);
      var s1 := Tick(s).(g := AddConnection(s.g));
      var s2 := Used(o, s1, Started(|s.g.cells|));
      AddConnectionInv(s.g, held);
      OpeningAges(s.g);
      if !s.settings.factory || o(s.calls) {
        CollapseFrom(s, Tick(s), held);
        CollapseFrom(s, s, held);
      } else if o(s1.calls) {
        CollapseFrom(s, s2, held);
      } else {
        OpenPoolsInv(s1.g, held);
      }
    }
  }

  /** Without a connection no default destination is the template's own. */
  lemma NoDefault(s: State, held: set<Ptr>)
    requires Good(s, held) && s.g.connection.None?
    ensures s.defaultDest.Some? ==> s.defaultDest.value.Foreign?
  {
  }

  /** The acknowledge mode of the pool that a pooled session belongs to. */
  ghost function ModeOf(g: Graph, q: Ptr): AckMode {
    PoolAt(g, SessionAt(g, q).pool).mode
  }

  /** What taking session q from pool p means. */
  ghost predicate Took(s: State, held: set<Ptr>, p: Ptr, t: State, q: Ptr) {
    && Good(t, held + {q}) && Progress(s, t) && t.g.connection.Some?
    && q !in held && SessionAt(t.g, q).pool == p && ModeOf(t.g, q) == PoolAt(s.g, p).mode
    && t == s.(g := t.g, calls := t.calls)
  }

  lemma TookAvailable(s: State, held: set<Ptr>, p: Ptr)
    requires Good(s, held) && s.g.connection.Some? && OpenPool(s.g, p)
    requires PoolAt(s.g, p).available != []
    ensures var a := PoolAt(s.g, p).available; Took(s, held, p, s.(g := WithAvailable(s.g, p, a[1..])), a[0])
  {
    var a := PoolAt(s.g, p).available;
    TakeAvailableInv(s.g, held, p);
    Stepped(s, s.(g := WithAvailable(s.g, p, a[1..])), held, held + {a[0]});
  }

  lemma TookNew(s: State, held: set<Ptr>, p: Ptr)
    requires Good(s, held) && s.g.connection.Some? && OpenPool(s.g, p)
    requires PoolAt(s.g, p).available == []
    ensures Took(s, held, p, Tick(s).(g := AddSession(s.g, p)), |s.g.cells| + 1)
  {
    hide GraphInv, CellsAge, Grows, AddSession;
    AddSessionInv(s.g, held, p);
    AddSessionPool(s.g, p);
    Stepped(s, Tick(s).(g := AddSession(s.g, p)), held, held + {|s.g.cells| + 1});
  }

  lemma TakeFromOutcome(o: Oracle, s: State, held: set<Ptr>, p: Ptr)
    requires Good(s, held) && s.g.connection.Some? && OpenPool(s.g, p)
    ensures var (t, r) := TakeFrom(o, s, p);
      && (r.Ok? ==> Took(s, held, p, t, r.value))
      && (r.Fail? ==> Collapse(s, t) && t.settings == s.settings)
  {
    hide GraphInv, CellsAge, Grows;
    if PoolAt(s.g, p).available != [] {
      TookAvailable(s, held, p);
    } else if o(s.calls) {
      ProgressRefl(s, Tick(s));
      CollapseFrom(s, Tick(s), held);
    } else {
      TookNew(s, held, p);
    }
  }

  /** takeSession() hands out a session that nobody holds, of the mode configured right now. */
  lemma TakeOutcome(o: Oracle, s: State, held: set<Ptr>)
    requires Good(s, held) && s.initialized
    ensures match Take(o, s)
      case (t, Ok(q)) =>
        && Good(t, held + {q}) && Progress(s, t) && t.g.connection.Some?
        && q !in held && OpenSession(t.g, q) && ModeOf(t.g, q) == s.settings.mode
        && t.settings == s.settings && t.defaultDest == s.defaultDest
      case (t, Fail) => Collapse(s, t) && t.settings == s.settings
  {
    ConnectOutcome(o, s, held);
    var (s1, ok) := Connect(o, s);
    if ok {
      var p := PoolFor(s1.g, s1.settings.mode);
      OpenPoolFor(s1.g, held, s1.settings.mode);
      TakeFromOutcome(o, s1, held, p);
      var (t, r) := TakeFrom(o, s1, p);
      if r.Ok? { ProgressTrans(s, s1, t); } else { CollapseTrans(s, s1, t); }
    }
  }

  lemma OpenPoolFor(g: Graph, held: set<Ptr>, mode: AckMode)
    requires GraphInv(g, held) && Settled(g) && g.connection.Some?
    ensures OpenPool(g, PoolFor(g, mode)) && PoolAt(g, PoolFor(g, mode)).mode == mode
  {
  }

  lemma ReturnOutcome(s: State, held: set<Ptr>, q: Ptr)
    requires Good(s, held) && s.g.connection.Some? && q in held
    ensures var t := s.(g := Return(s.g, q)); Good(t, held - {q}) && Progress(s, t)
  {
    ReturnInv(s.g, held, q);
    Stepped(s, s.(g := Return(s.g, q)), held, held - {q});
  }

  // ---- Destinations ----

  ghost predicate InUse(s: State, held: set<Ptr>, q: Ptr) {
    Good(s, held) && s.g.connection.Some? && q in held
  }

  lemma ResolverOutcome(s: State, held: set<Ptr>, q: Ptr)
    requires InUse(s, held, q)
    ensures var t := if q in s.g.resolver then s else s.(g := AddResolver(s.g, q));
      InUse(t, held, q) && Progress(s, t) && q in t.g.resolver
  {
    ProgressRefl(s, s);
    if q !in s.g.resolver {
      AddResolverInv(s.g, held, q);
      Stepped(s, s.(g := AddResolver(s.g, q)), held, held);
    }
  }

  /** What resolving a name to destination d means. */
  ghost predicate Found(s: State, held: set<Ptr>, q: Ptr, name: string, t: State, d: Ptr) {
    && InUse(t, held, q) && Progress(s, t) && t == s.(g := t.g, calls := t.calls)
    && MemoOk(t.g, q, s.settings.pubSub, name, d)
  }

  lemma FoundNew(s: State, held: set<Ptr>, q: Ptr, name: string)
    requires InUse(s, held, q) && q in s.g.resolver
    requires name != "" && name !in DestMap(ResolverAt(s.g, q), s.settings.pubSub)
    ensures Found(s, held, q, name, Tick(s).(g := AddDestination(s.g, q, name, s.settings.pubSub)), |s.g.cells|)
  {
    AddDestinationInv(s.g, held, q, name, s.settings.pubSub);
    Stepped(s, Tick(s).(g := AddDestination(s.g, q, name, s.settings.pubSub)), held, held);
    NewMemo(s.g, q, name, s.settings.pubSub);
  }

  lemma LookupOutcome(o: Oracle, s: State, held: set<Ptr>, q: Ptr, name: string)
    requires InUse(s, held, q) && q in s.g.resolver && name != ""
    ensures var (t, r) := Resolve(o, s, q, name);
      && (r.Ok? ==> Found(s, held, q, name, t, r.value))
      && (r.Fail? ==> Collapse(s, t) && t.settings == s.settings)
  {
    var known := DestMap(ResolverAt(s.g, q), s.settings.pubSub);
    ProgressRefl(s, s);
    if name in known {
      assert KnownOk(s.g, q);
    } else if o(s.calls) {
      CollapseFrom(s, Tick(s), held);
    } else {
      FoundNew(s, held, q, name);
    }
  }

  /** resolveDestinationName() yields a managed destination of the asked kind and name. */
  lemma ResolveOutcome(o: Oracle, s: State, held: set<Ptr>, q: Ptr, name: string)
    requires InUse(s, held, q)
    ensures var (t, r) := Resolve(o, s, q, name);
      && (r.Ok? ==> Found(s, held, q, name, t, r.value))
      && (r.Fail? ==> Collapse(s, t) && t.settings == s.settings)
  {
    hide GraphInv, CellsAge, Grows;
    if name == "" {
      ProgressRefl(s, s);
      CollapseFrom(s, s, held);
    } else if q in s.g.resolver {
      LookupOutcome(o, s, held, q, name);
    } else {
      var s1 := s.(g := AddResolver(s.g, q));
      ResolverOutcome(s, held, q);
      LookupOutcome(o, s1, held, q, name);
      var (t, r) := Resolve(o, s1, q, name);
      assert Resolve(o, s, q, name) == (t, r);
      if r.Ok? { ProgressTrans(s, s1, t); } else { CollapseTrans(s, s1, t); }
    }
  }

  lemma NewMemo(g: Graph, q: Ptr, name: string, pubSub: bool)
    requires q in g.resolver && KnownOk(g, q) && name != ""
    ensures MemoOk(AddDestination(g, q, name, pubSub), q, pubSub, name, |g.cells|)
  {
    var h := AddDestination(g, q, name, pubSub);
    assert h.managed.destinations[|g.managed.destinations|] == |g.cells|;
  }

  /** The destination that a call means: its argument, or the current default. */
  ghost function Meant(s: State, arg: DestArg): Dest {
    match arg
    case Given(dest) => dest
    case Named(name) => NamedDest(name, s.settings.pubSub)
    case Default =>
      if s.defaultDest.Some? && s.defaultDest.value.Foreign? then s.defaultDest.value.dest
      else NamedDest(s.settings.name, s.settings.pubSub)
  }

  lemma FindDestOutcome(o: Oracle, s: State, held: set<Ptr>, q: Ptr, arg: DestArg)
    requires InUse(s, held, q)
    ensures match FindDest(o, s, q, arg)
      case (t, Ok(ref)) =>
        && InUse(t, held, q) && Progress(s, t) && t.settings == s.settings
        && Denotes(t.g, ref) == Meant(s, arg) && Meant(t, arg) == Meant(s, arg)
      case (t, Fail) => Collapse(s, t) && t.settings == s.settings
  {
    hide GraphInv, CellsAge, Grows, Resolve;
    match arg
    case Given(dest) => ProgressRefl(s, s);
    case Named(name) => ResolveOutcome(o, s, held, q, name);
    case Default =>
      if s.defaultDest.None? {
        ResolveOutcome(o, s, held, q, s.settings.name);
      } else {
        ProgressRefl(s, s);
      }
  }

  lemma LiveDestination(g: Graph, held: set<Ptr>, d: Ptr)
    requires GraphInv(g, held) && d in g.managed.destinations
    ensures Live(g.cells, d) && g.cells[d].obj.Destination?
  {
    assert d < |g.cells|;
    assert Owned(g, d);
  }

  // ---- Producers and consumers ----

  /** What answering a client request with wrapper w means: the wrapper stands for a managed
      client of this session that was created under the same cache key. */
  ghost predicate Answers(s: State, held: set<Ptr>, q: Ptr, client: Client, t: State, w: Ptr) {
    && InUse(t, held, q) && Progress(s, t) && t == s.(g := t.g, calls := t.calls)
    && EntryOk(t.g, q, client.ProducerFor?, Key(client), w) && Live(t.g.cells, w)
  }

  lemma AnswersKnown(s: State, held: set<Ptr>, q: Ptr, client: Client)
    requires InUse(s, held, q) && Key(client) in CacheOf(SessionAt(s.g, q), client)
    ensures Answers(s, held, q, client, s, CacheOf(SessionAt(s.g, q), client)[Key(client)])
  {
    ProgressRefl(s, s);
    var w := CacheOf(SessionAt(s.g, q), client)[Key(client)];
    assert CacheOk(s.g, q);
    assert EntryOk(s.g, q, client.ProducerFor?, Key(client), w);
    assert Owned(s.g, w);
  }

  lemma NewEntry(g: Graph, q: Ptr, client: Client)
    requires OpenSession(g, q)
    ensures EntryOk(AddClient(g, q, client), q, client.ProducerFor?, Key(client), |g.cells| + 1)
    ensures Live(AddClient(g, q, client).cells, |g.cells| + 1)
  {
    var h, n := AddClient(g, q, client), |g.cells|;
    assert h.managed.Clients(client)[|g.managed.Clients(client)|] == n;
  }

  lemma AnswersNew(s: State, held: set<Ptr>, q: Ptr, client: Client)
    requires InUse(s, held, q) && Key(client) !in CacheOf(SessionAt(s.g, q), client)
    ensures Answers(s, held, q, client, Tick(s).(g := AddClient(s.g, q, client)), |s.g.cells| + 1)
  {
    hide GraphInv, CellsAge, Grows, EntryOk, AddClient;
    HeldOpen(s.g, held, q);
    AddClientInv(s.g, held, q, client);
    NewEntry(s.g, q, client);
    Stepped(s, Tick(s).(g := AddClient(s.g, q, client)), held, held);
  }

  lemma HeldOpen(g: Graph, held: set<Ptr>, q: Ptr)
    requires GraphInv(g, held) && q in held
    ensures OpenSession(g, q)
  {
  }

  lemma LiveAnswer(g: Graph, held: set<Ptr>, q: Ptr, client: Client, w: Ptr)
    requires GraphInv(g, held) && EntryOk(g, q, client.ProducerFor?, Key(client), w) && Live(g.cells, w)
    ensures g.cells[w].obj.CachedClient? && Live(g.cells, g.cells[w].obj.raw)
  {
    assert Owned(g, g.cells[w].obj.raw);
  }

  lemma CachedOutcome(o: Oracle, s: State, held: set<Ptr>, q: Ptr, client: Client)
    requires InUse(s, held, q)
    ensures var (t, r) := Cached(o, s, q, client);
      && (r.Ok? ==> Answers(s, held, q, client, t, r.value))
      && (r.Fail? ==> Collapse(s, t) && t.settings == s.settings)
  {
    hide GraphInv, CellsAge, Grows, EntryOk;
    if Key(client) in CacheOf(SessionAt(s.g, q), client) {
      AnswersKnown(s, held, q, client);
    } else if o(s.calls) {
      ProgressRefl(s, Tick(s));
      CollapseFrom(s, Tick(s), held);
    } else {
      AnswersNew(s, held, q, client);
    }
  }

  lemma PlainOutcome(o: Oracle, s: State, held: set<Ptr>, use: Use)
    requires Good(s, held)
    ensures var (t, ok) := Plain(o, s, use);
      && t.settings == s.settings
      && (ok ==> Good(t, held) && Progress(s, t) && t == Used(o, s, use))
      && (!ok ==> Collapse(s, t))
  {
    hide GraphInv, CellsAge, Grows;
    ProgressRefl(s, Used(o, s, use));
    if o(s.calls) { CollapseFrom(s, Used(o, s, use), held); }
  }

  /** What creating a client for a call means. */
  ghost predicate Serves(s: State, held: set<Ptr>, q: Ptr, client: Client, t: State, r: Outcome<Ptr>) {
    && t.settings == s.settings
    && (r.Ok? ==>
          && InUse(t, held, q) && Progress(s, t)
          && EntryOk(t.g, q, client.ProducerFor?, Key(client), r.value) && Live(t.g.cells, r.value))
    && (r.Fail? ==> Collapse(s, t))
  }

  lemma ServesTrans(s: State, s1: State, held: set<Ptr>, q: Ptr, client: Client, t: State, r: Outcome<Ptr>)
    requires InUse(s1, held, q) && Progress(s, s1) && s1.settings == s.settings
    requires Serves(s1, held, q, client, t, r)
    ensures Serves(s, held, q, client, t, r)
  {
    hide GraphInv, CellsAge, Grows, EntryOk;
    if r.Ok? { ProgressTrans(s, s1, t); } else { CollapseTrans(s, s1, t); }
  }

  lemma ConfigureOutcome(o: Oracle, s: State, held: set<Ptr>, q: Ptr, use: Use, next: Use)
    requires InUse(s, held, q)
    ensures var (s1, ok1) := Plain(o, s, use);
      && (!ok1 ==> Collapse(s, s1) && s1.settings == s.settings)
      && (ok1 ==> var (s2, ok2) := Plain(o, s1, next);
            && (ok2 ==> InUse(s2, held, q) && Progress(s, s2) && s2.g == s.g && s2.settings == s.settings)
            && (!ok2 ==> Collapse(s, s2) && s2.settings == s.settings))
  {
    hide GraphInv, CellsAge, Grows;
    PlainOutcome(o, s, held, use);
    var (s1, ok1) := Plain(o, s, use);
    if ok1 {
      PlainOutcome(o, s1, held, next);
      var (s2, ok2) := Plain(o, s1, next);
      if ok2 { ProgressTrans(s, s1, s2); } else { CollapseTrans(s, s1, s2); }
    }
  }

  /** createProducer() answers with a producer for the destination that the call means. */
  lemma MakeProducerOutcome(o: Oracle, s: State, held: set<Ptr>, q: Ptr, arg: DestArg)
    requires InUse(s, held, q)
    ensures var (t, r) := MakeProducer(o, s, q, arg); Serves(s, held, q, ProducerFor(Meant(s, arg)), t, r)
  {
    hide GraphInv, CellsAge, Grows, EntryOk, Meant;
    var client := ProducerFor(Meant(s, arg));
    FindDestOutcome(o, s, held, q, arg);
    var (s1, ref) := FindDest(o, s, q, arg);
    if ref.Ok? {
      CachedOutcome(o, s1, held, q, client);
      var (s2, w) := Cached(o, s1, q, client);
      if w.Ok? {
        var raw := RawOf(s2.g, w.value);
        ConfigureOutcome(o, s2, held, q, SetMessageId(raw), SetTimestamp(raw));
        var (t, r) := MakeProducer(o, s, q, arg);
        assert Serves(s2, held, q, client, t, r);
        ServesTrans(s1, s2, held, q, client, t, r);
        ServesTrans(s, s1, held, q, client, t, r);
      } else {
        CollapseTrans(s, s1, s2);
      }
    }
  }

  /** createConsumer() answers with a consumer for the destination that the call means. */
  lemma MakeConsumerOutcome(o: Oracle, s: State, held: set<Ptr>, q: Ptr, arg: DestArg, selector: string, noLocal: bool)
    requires InUse(s, held, q)
    ensures var (t, r) := MakeConsumer(o, s, q, arg, selector, noLocal);
      Serves(s, held, q, ConsumerFor(Meant(s, arg), selector, noLocal), t, r)
  {
    hide GraphInv, CellsAge, Grows, EntryOk, Meant;
    var client := ConsumerFor(Meant(s, arg), selector, noLocal);
    FindDestOutcome(o, s, held, q, arg);
    var (s1, ref) := FindDest(o, s, q, arg);
    if ref.Ok? {
      CachedOutcome(o, s1, held, q, client);
      var (s2, w) := Cached(o, s1, q, client);
      if w.Ok? { ProgressTrans(s, s1, s2); } else { CollapseTrans(s, s1, s2); }
    }
  }

  /** What any call means that runs while sessions are held. */
  ghost predicate Outcomes(s: State, held: set<Ptr>, t: State, ok: bool) {
    && (ok ==> Good(t, held) && Progress(s, t))
    && (!ok ==> Collapse(s, t))
  }

  lemma OutcomesTrans(s: State, s1: State, held: set<Ptr>, t: State, ok: bool)
    requires Progress(s, s1) && s1.g.connection.Some? && Outcomes(s1, held, t, ok)
    ensures Outcomes(s, held, t, ok)
  {
    hide GraphInv, CellsAge, Grows;
    if ok { ProgressTrans(s, s1, t); } else { CollapseTrans(s, s1, t); }
  }

  lemma AddCellOutcome(s: State, held: set<Ptr>, cell: Cell)
    requires Good(s, held) && s.g.connection.Some? && MessageCell(cell)
    ensures var t := s.(g := AddCell(s.g, cell)); Good(t, held) && Progress(s, t)
  {
    AddCellInv(s.g, held, cell);
    Stepped(s, s.(g := AddCell(s.g, cell)), held, held);
  }

  /** Recording a use and counting calls matter to no invariant. */
  lemma Recorded(s: State, t: State, held: set<Ptr>)
    requires Inv(s, held) && t == s.(calls := t.calls, trace := t.trace)
    ensures Inv(t, held) && Progress(s, t) && (Good(s, held) ==> Good(t, held))
  {
    hide GraphInv, CellsAge, Grows;
    ProgressRefl(s, t);
  }

  lemma DoSendOutcome(o: Oracle, s: State, held: set<Ptr>, q: Ptr, w: Ptr)
    requires Good(s, held) && s.g.connection.Some?
    ensures var (t, ok) := DoSend(o, s, q, w); Outcomes(s, held, t, ok)
  {
    hide GraphInv, CellsAge, Grows;
    PlainOutcome(o, s, held, MadeMessage(q));
    var (s1, ok) := Plain(o, s, MadeMessage(q));
    if ok {
      AddCellOutcome(s1, held, Cell(Message, 1));
      var s2 := s1.(g := AddCell(s1.g, Cell(Message, 1)));
      var s3 := Noted(Used(o, s2, Sent(RawOf(s2.g, w), |s1.g.cells|)), Dropped(|s1.g.cells|));
      Recorded(s2, s3, held);
      var (t, ok2) := DoSend(o, s, q, w);
      if !ok2 { CollapseFrom(s2, s3, held); }
      OutcomesTrans(s1, s2, held, t, ok2);
      OutcomesTrans(s, s1, held, t, ok2);
    }
  }

  lemma DoReceiveOutcome(o: Oracle, s: State, held: set<Ptr>, w: Ptr)
    requires Good(s, held) && s.g.connection.Some?
    ensures var (t, ok) := DoReceive(o, s, w); Outcomes(s, held, t, ok)
  {
    hide GraphInv, CellsAge, Grows;
    var use := ReceivedOn(RawOf(s.g, w));
    PlainOutcome(o, s, held, use);
    var (s1, ok) := Plain(o, s, use);
    if ok {
      AddCellOutcome(s1, held, Cell(Received, 0));
      ProgressTrans(s, s1, s1.(g := AddCell(s1.g, Cell(Received, 0))));
    }
  }

  // ---- Calls and callbacks ----

  /** A connection, once open, stays open while calls return normally. */
  lemma StillConnected(s: State, t: State)
    requires s.g.connection.Some? && Progress(s, t)
    ensures t.g.connection == s.g.connection
  {
  }

  lemma {:induction false} ScriptOutcome(o: Oracle, s: State, held: set<Ptr>, script: Script)
    requires Good(s, held) && s.g.connection.Some?
    ensures var (t, ok) := RunScript(o, s, script); Outcomes(s, held, t, ok)
    decreases script
  {
    hide GraphInv, CellsAge, Grows;
    ProgressRefl(s, s);
    match script
    case Done =>
    case Throw => CollapseFrom(s, s, held);
    case Then(op, rest) =>
      ExecOutcome(o, s, held, op);
      var (s1, ok) := Exec(o, s, op);
      if ok {
        StillConnected(s, s1);
        ScriptOutcome(o, s1, held, rest);
        var (t, ok2) := RunScript(o, s1, rest);
        OutcomesTrans(s, s1, held, t, ok2);
      }
  }

  lemma {:induction false} ActOutcome(o: Oracle, s: State, held: set<Ptr>, q: Ptr, action: Action)
    requires InUse(s, held, q)
    ensures var (t, ok) := Act(o, s, q, action); Outcomes(s, held, t, ok)
    decreases action, 0
  {
    hide GraphInv, CellsAge, Grows, EntryOk;
    var (t, ok) := Act(o, s, q, action);
    match action
    case InSession(body) =>
      var s1 := Noted(s, CalledBack(q, None));
      Recorded(s, s1, held);
      ScriptOutcome(o, s1, held, body);
      OutcomesTrans(s, s1, held, t, ok);
    case WithProducer(arg, body) =>
      MakeProducerOutcome(o, s, held, q, arg);
      var (s1, r) := MakeProducer(o, s, q, arg);
      if r.Ok? {
        var s2 := Noted(s1, CalledBack(q, Some(RawOf(s1.g, r.value))));
        Recorded(s1, s2, held);
        ScriptOutcome(o, s2, held, body);
        OutcomesTrans(s1, s2, held, t, ok);
        OutcomesTrans(s, s1, held, t, ok);
      }
    case Send(arg) =>
      MakeProducerOutcome(o, s, held, q, arg);
      var (s1, r) := MakeProducer(o, s, q, arg);
      if r.Ok? {
        DoSendOutcome(o, s1, held, q, r.value);
        OutcomesTrans(s, s1, held, t, ok);
      }
    case Receive(arg, selector) =>
      MakeConsumerOutcome(o, s, held, q, arg, selector, s.settings.noLocal);
      var (s1, r) := MakeConsumer(o, s, q, arg, selector, s.settings.noLocal);
      if r.Ok? {
        DoReceiveOutcome(o, s1, held, r.value);
        OutcomesTrans(s, s1, held, t, ok);
      }
  }

  /** Every call on the template, whatever its callback does and whichever provider calls fail,
      either keeps the invariant and the sessions that are held, or tears everything down. */
  lemma {:induction false} ExecOutcome(o: Oracle, s: State, held: set<Ptr>, op: Op)
    requires Good(s, held)
    ensures var (t, ok) := Exec(o, s, op); Outcomes(s, held, t, ok)
    decreases op
  {
    hide GraphInv, CellsAge, Grows;
    if op.Do? {
      DoOutcome(o, s, held, op.action);
    } else {
      ProgressRefl(s, Exec(o, s, op).0);
    }
  }

  lemma {:induction false} DoOutcome(o: Oracle, s: State, held: set<Ptr>, action: Action)
    requires Good(s, held)
    ensures var (t, ok) := Exec(o, s, Do(action)); Outcomes(s, held, t, ok) && (ok ==> t.g.connection.Some?)
    decreases action, 1
  {
    hide GraphInv, CellsAge, Grows;
    var s0 := s.(initialized := true);
    TakeOutcome(o, s0, held);
    var (s1, r) := Take(o, s0);
    if r.Ok? {
      var q := r.value;
      ActOutcome(o, s1, held + {q}, q, action);
      var (s2, ok) := Act(o, s1, q, action);
      if ok {
        StillConnected(s1, s2);
        ReturnOutcome(s2, held + {q}, q);
        assert held + {q} - {q} == held;
        var t := s2.(g := Return(s2.g, q));
        ProgressTrans(s1, s2, t);
        ProgressTrans(s, s1, t);
      } else {
        CollapseTrans(s, s1, s2);
      }
    }
  }
}

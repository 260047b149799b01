/**
  What the caches and memos answer over every run: the object asked for, made at most once.
 */
module TemplateAnswers {
  import opened CacheKeys
  import opened CppHeap
  import opened Options
  import opened TemplateState
  import opened TemplateInvariant
  import opened TemplateGrowth
  import opened TemplateOperations
  import opened TemplateRuns

  /** A managed client with its arguments. */
  ghost predicate ClientOf(g: Graph, r: Ptr, q: Ptr, client: Client) {
    r in g.managed.Clients(client) && At(g, r) == RawClient(q, client)
  }

  /** A session has at most one producer, and one consumer, per cache key. */
  lemma OneClientPerKey(g: Graph, held: set<Ptr>, q: Ptr, c: Client, r: Ptr, d: Client, x: Ptr)
    requires GraphInv(g, held) && ClientOf(g, r, q, c) && ClientOf(g, x, q, d)
    requires c.ProducerFor? == d.ProducerFor? && Key(c) == Key(d)
    ensures r == x && c == d
  {
    assert ClientOk(g, r) && ClientOk(g, x);
  }

  /** A session has at most one destination per domain and name. */
  lemma OneDestinationPerName(g: Graph, held: set<Ptr>, d: Ptr, e: Ptr)
    requires GraphInv(g, held) && d in g.managed.destinations && e in g.managed.destinations
    requires At(g, d) == At(g, e)
    ensures d == e
  {
    assert RememberedOk(g, d) && RememberedOk(g, e);
  }

  /** Resolving a name again in the same session and domain, after any number of calls that
      returned normally, yields the same object without a provider call. */
  lemma ResolvesToSame(o: Oracle, s: State, held: set<Ptr>, q: Ptr, name: string, u: State, kept: set<Ptr>)
    requires InUse(s, held, q) && Resolve(o, s, q, name).1.Ok?
    requires Good(u, kept) && Progress(Resolve(o, s, q, name).0, u) && u.settings.pubSub == s.settings.pubSub
    ensures Resolve(o, u, q, name) == (u, Resolve(o, s, q, name).1)
  {
    ResolveOutcome(o, s, held, q, name);
    var (t, r) := Resolve(o, s, q, name);
    KnownDestination(t.g, held, q, s.settings.pubSub, name, r.value);
    hide GraphInv, CellsAge;
    var m := t.g.resolver[q];
    KnownStays(t.g, u.g, q);
  }

  lemma KnownDestination(g: Graph, held: set<Ptr>, q: Ptr, pubSub: bool, name: string, d: Ptr)
    requires GraphInv(g, held) && MemoOk(g, q, pubSub, name, d)
    ensures q in g.resolver && At(g, g.resolver[q]).SessionResolver?
    ensures name in DestMap(ResolverAt(g, q), pubSub) && DestMap(ResolverAt(g, q), pubSub)[name] == d
  {
    assert RememberedOk(g, d) && KnownOk(g, q);
  }

  lemma KnownStays(g: Graph, h: Graph, q: Ptr)
    requires Grows(g, h) && q in g.resolver && At(g, g.resolver[q]).SessionResolver?
    ensures q in h.resolver
    ensures MapGrows(|g.cells|, ResolverAt(g, q).topicMap, ResolverAt(h, q).topicMap)
    ensures MapGrows(|g.cells|, ResolverAt(g, q).queueMap, ResolverAt(h, q).queueMap)
  {
    var r := g.resolver[q];
    assert ObjGrows(|g.cells|, g.cells[r].obj, h.cells[r].obj);
  }

  /** Asking a session again for a client, after any number of calls that returned normally,
      yields the same wrapper without a provider call. */
  lemma CachesSame(o: Oracle, s: State, held: set<Ptr>, q: Ptr, client: Client, u: State, kept: set<Ptr>)
    requires InUse(s, held, q) && Cached(o, s, q, client).1.Ok?
    requires Good(u, kept) && Progress(Cached(o, s, q, client).0, u)
    ensures Cached(o, u, q, client) == (u, Cached(o, s, q, client).1)
  {
    hide GraphInv, CellsAge, EntryOk, Grows, Key;
    CachedOutcome(o, s, held, q, client);
    var (t, r) := Cached(o, s, q, client);
    HeldOpen(s.g, held, q);
    HeldOpen(t.g, held, q);
    CellsFact(t.g, u.g, q);
    CachedIn(o, s, q, client);
  }

  lemma CellsFact(g: Graph, h: Graph, q: Ptr)
    requires Grows(g, h) && q < |g.cells|
    ensures |g.cells| <= |h.cells| && ObjGrows(|g.cells|, g.cells[q].obj, h.cells[q].obj)
  {
  }

  lemma CachedIn(o: Oracle, s: State, q: Ptr, client: Client)
    requires At(s.g, q).PooledSession? && Cached(o, s, q, client).1.Ok?
    ensures var (t, r) := Cached(o, s, q, client);
      Key(client) in CacheOf(SessionAt(t.g, q), client) && CacheOf(SessionAt(t.g, q), client)[Key(client)] == r.value
  {
  }

  // ---- The consumer that a call gets is the one it asked for ----

  /** Names without the text that ends the name part of a consumer key. */
  ghost predicate PlainArg(arg: DestArg) {
    match arg
    case Default => true
    case Given(dest) => PlainName(dest)
    case Named(name) => !HasMarker(name)
  }

  ghost predicate PlainOp(op: Op) {
    match op
    case Do(InSession(body)) => PlainScript(body)
    case Do(WithProducer(arg, body)) => PlainArg(arg) && PlainScript(body)
    case Do(Send(arg)) => PlainArg(arg)
    case Do(Receive(arg, _)) => PlainArg(arg)
    case SetName(name) => !HasMarker(name)
    case SetDest(Some(dest)) => PlainName(dest)
    case _ => true
  }

  ghost predicate PlainScript(script: Script) {
    script.Then? ==> PlainOp(script.op) && PlainScript(script.rest)
  }

  ghost predicate PlainCells(cells: seq<Cell>) {
    forall p :: 0 <= p < |cells| && cells[p].obj.RawClient? ==> PlainName(cells[p].obj.client.dest)
  }

  ghost predicate PlainSettings(s: State) {
    && !HasMarker(s.settings.name)
    && (s.defaultDest.Some? && s.defaultDest.value.Foreign? ==> PlainName(s.defaultDest.value.dest))
  }

  ghost predicate PlainState(s: State) {
    PlainCells(s.g.cells) && PlainSettings(s)
  }

  lemma TeardownPlain(s: State)
    requires PlainState(s)
    ensures PlainState(Teardown(s)) && PlainState(Teardown(Tick(s)))
  {
  }

  lemma TakePlain(o: Oracle, s: State)
    requires PlainState(s)
    ensures PlainState(Take(o, s).0)
  {
    hide HasMarker;
    ConnectPlain(o, s);
    var (s1, ok) := Connect(o, s);
    TeardownPlain(s1);
  }

  lemma ConnectPlain(o: Oracle, s: State)
    requires PlainState(s)
    ensures PlainState(Connect(o, s).0)
  {
    hide PlainName, PlainCells, OpenPools;
    OpenPlain(s.g);
    TeardownPlain(s);
    TeardownPlain(Used(o, Tick(s).(g := AddConnection(s.g)), Started(|s.g.cells|)));
  }

  lemma OpenPlain(g: Graph)
    requires PlainCells(g.cells)
    ensures PlainCells(AddConnection(g).cells) && PlainCells(OpenPools(AddConnection(g)).cells)
  {
    hide PlainName;
    var h := AddConnection(g);
    var k := OpenPools(h);
    forall p | |h.cells| <= p < |k.cells| ensures !k.cells[p].obj.RawClient? {
      assert k.cells[p] == NewPool(h.connection.value, p - |h.cells|);
    }
  }

  lemma ResolvePlain(o: Oracle, s: State, q: Ptr, name: string)
    requires PlainState(s)
    ensures PlainState(Resolve(o, s, q, name).0)
  {
    hide PlainName, PlainCells, AddDestination, AddResolver, Teardown, ResolverAt;
    if name == "" {
      TeardownPlain(s);
    } else {
      var s1 := if q in s.g.resolver then s else s.(g := AddResolver(s.g, q));
      ResolverPlain(s.g, q);
      DestinationPlain(s1.g, q, name, s.settings.pubSub);
      TeardownPlain(s1);
    }
  }

  lemma ResolverPlain(g: Graph, q: Ptr)
    requires PlainCells(g.cells)
    ensures PlainCells(AddResolver(g, q).cells)
  {
  }

  lemma DestinationPlain(g: Graph, q: Ptr, name: string, pubSub: bool)
    requires PlainCells(g.cells)
    ensures PlainCells(AddDestination(g, q, name, pubSub).cells)
  {
    hide PlainName;
  }

  lemma FindDestPlain(o: Oracle, s: State, q: Ptr, arg: DestArg)
    requires PlainState(s)
    ensures PlainState(FindDest(o, s, q, arg).0)
  {
    hide HasMarker, PlainCells;
    match arg
    case Given(dest) =>
    case Named(name) => ResolvePlain(o, s, q, name);
    case Default => ResolvePlain(o, s, q, s.settings.name);
  }

  lemma CachedPlain(o: Oracle, s: State, q: Ptr, client: Client)
    requires PlainState(s) && PlainName(client.dest)
    ensures PlainState(Cached(o, s, q, client).0)
  {
    hide HasMarker, Key;
    TeardownPlain(s);
  }

  lemma ClientPlain(o: Oracle, s: State, held: set<Ptr>, q: Ptr, arg: DestArg, selector: string, noLocal: bool)
    requires InUse(s, held, q) && PlainState(s) && PlainArg(arg)
    ensures PlainState(MakeProducer(o, s, q, arg).0)
    ensures PlainState(MakeConsumer(o, s, q, arg, selector, noLocal).0)
  {
    hide GraphInv, CellsAge, Grows, HasMarker, PlainCells, FindDest, Cached;
    FindDestOutcome(o, s, held, q, arg);
    FindDestPlain(o, s, q, arg);
    var (s1, ref) := FindDest(o, s, q, arg);
    if ref.Ok? {
      CachedPlain(o, s1, q, ProducerFor(Denotes(s1.g, ref.value)));
      CachedPlain(o, s1, q, ConsumerFor(Denotes(s1.g, ref.value), selector, noLocal));
      var (s2, w) := Cached(o, s1, q, ProducerFor(Denotes(s1.g, ref.value)));
      var raw := if w.Ok? then RawOf(s2.g, w.value) else 0;
      PlainPlain(o, s2, SetMessageId(raw));
      PlainPlain(o, Plain(o, s2, SetMessageId(raw)).0, SetTimestamp(raw));
    }
  }

  lemma PlainPlain(o: Oracle, s: State, use: Use)
    requires PlainState(s)
    ensures PlainState(Plain(o, s, use).0)
  {
    hide PlainCells, HasMarker;
    TeardownPlain(Used(o, s, use));
  }

  lemma CellPlain(g: Graph, cell: Cell)
    requires PlainCells(g.cells) && Outside(cell.obj)
    ensures PlainCells(AddCell(g, cell).cells)
  {
  }

  lemma MessagePlain(o: Oracle, s: State, q: Ptr, w: Ptr)
    requires PlainState(s)
    ensures PlainState(DoSend(o, s, q, w).0) && PlainState(DoReceive(o, s, w).0)
  {
    hide PlainCells, HasMarker, Teardown;
    PlainPlain(o, s, MadeMessage(q));
    PlainPlain(o, s, ReceivedOn(RawOf(s.g, w)));
    var s1 := Used(o, s, MadeMessage(q));
    CellPlain(s.g, Cell(Message, 1));
    CellPlain(s.g, Cell(Received, 0));
    var s2 := s1.(g := AddCell(s1.g, Cell(Message, 1)));
    TeardownPlain(Noted(Used(o, s2, Sent(RawOf(s2.g, w), |s1.g.cells|)), Dropped(|s1.g.cells|)));
  }

  lemma {:induction false} ScriptPlain(o: Oracle, s: State, held: set<Ptr>, script: Script)
    requires Good(s, held) && s.g.connection.Some? && PlainState(s) && PlainScript(script)
    ensures PlainState(RunScript(o, s, script).0)
    decreases script
  {
    hide GraphInv, CellsAge, Grows, PlainCells, HasMarker;
    match script
    case Done =>
    case Throw => TeardownPlain(s);
    case Then(op, rest) =>
      ExecOutcome(o, s, held, op);
      ExecPlain(o, s, held, op);
      var (s1, ok) := Exec(o, s, op);
      if ok {
        StillConnected(s, s1);
        ScriptPlain(o, s1, held, rest);
      }
  }

  lemma {:induction false} ActPlain(o: Oracle, s: State, held: set<Ptr>, q: Ptr, action: Action)
    requires InUse(s, held, q) && PlainState(s) && PlainOp(Do(action))
    ensures PlainState(Act(o, s, q, action).0)
    decreases action, 0
  {
    hide GraphInv, CellsAge, Grows, EntryOk, PlainCells, HasMarker;
    match action
    case InSession(body) =>
      var s1 := Noted(s, CalledBack(q, None));
      Recorded(s, s1, held);
      ScriptPlain(o, s1, held, body);
    case WithProducer(arg, body) =>
      ClientPlain(o, s, held, q, arg, "", false);
      MakeProducerOutcome(o, s, held, q, arg);
      var (s1, r) := MakeProducer(o, s, q, arg);
      if r.Ok? {
        var s2 := Noted(s1, CalledBack(q, Some(RawOf(s1.g, r.value))));
        Recorded(s1, s2, held);
        ScriptPlain(o, s2, held, body);
      }
    case Send(arg) =>
      ClientPlain(o, s, held, q, arg, "", false);
      var (s1, r) := MakeProducer(o, s, q, arg);
      if r.Ok? { MessagePlain(o, s1, q, r.value); }
    case Receive(arg, selector) =>
      ClientPlain(o, s, held, q, arg, selector, s.settings.noLocal);
      var (s1, r) := MakeConsumer(o, s, q, arg, selector, s.settings.noLocal);
      if r.Ok? { MessagePlain(o, s1, q, r.value); }
  }

  lemma {:induction false} ExecPlain(o: Oracle, s: State, held: set<Ptr>, op: Op)
    requires Good(s, held) && PlainState(s) && PlainOp(op)
    ensures PlainState(Exec(o, s, op).0)
    decreases op
  {
    hide GraphInv, CellsAge, Grows, HasMarker;
    if op.Do? {
      var s0 := s.(initialized := true);
      TakeOutcome(o, s0, held);
      TakePlain(o, s0);
      var (s1, r) := Take(o, s0);
      if r.Ok? { ActPlain(o, s1, held + {r.value}, r.value, op.action); }
    }
  }

  lemma {:induction false} RunPlain(o: Oracle, s: State, ops: seq<Op>)
    requires Good(s, {}) && PlainState(s)
    requires forall i :: 0 <= i < |ops| ==> PlainOp(ops[i])
    ensures PlainState(Run(o, s, ops))
    decreases |ops|
  {
    hide GraphInv, CellsAge, Grows, PlainState, PlainOp;
    if ops != [] {
      ExecOutcome(o, s, {}, ops[0]);
      ExecPlain(o, s, {}, ops[0]);
      RunPlain(o, Exec(o, s, ops[0]).0, ops[1..]);
    }
  }

  /** Requests that agree on all that the provider is told, up to a destination's being temporary. */
  ghost predicate SameRequest(c: Client, d: Client) {
    && SameKeyedDest(c.dest, d.dest)
    && (c.ProducerFor? <==> d.ProducerFor?)
    && (c.ConsumerFor? && d.ConsumerFor? ==> c.selector == d.selector && c.noLocal == d.noLocal)
  }

  /** Live wrapper w stands for a live provider client of session q made for this request. */
  ghost predicate StandsFor(g: Graph, w: Ptr, q: Ptr, client: Client) {
    && Live(g.cells, w) && g.cells[w].obj.CachedClient?
    && Live(g.cells, g.cells[w].obj.raw)
    && var raw := g.cells[g.cells[w].obj.raw].obj;
       raw.RawClient? && raw.session == q && SameRequest(raw.client, client)
  }

  lemma EntryStandsFor(g: Graph, held: set<Ptr>, q: Ptr, client: Client, w: Ptr)
    requires GraphInv(g, held) && EntryOk(g, q, client.ProducerFor?, Key(client), w) && Live(g.cells, w)
    requires client.ConsumerFor? ==> PlainCells(g.cells) && PlainName(client.dest)
    ensures StandsFor(g, w, q, client)
  {
    LiveAnswer(g, held, q, client, w);
    var c := g.cells[g.cells[w].obj.raw].obj.client;
    match client
    case ProducerFor(dest) => ProducerKeyExact(c.dest, dest);
    case ConsumerFor(dest, selector, noLocal) =>
      ConsumerKeyInjective(c.dest, c.selector, c.noLocal, dest, selector, noLocal);
  }

  /** The consumer that a receive gets, whatever calls enclose it, stands for a live provider
      consumer that was created in its session for exactly the destination, selector and noLocal
      flag that the call means, as long as names have no marker. */
  lemma ConsumerIsTheOneAskedFor(
    o: Oracle, s: State, held: set<Ptr>, q: Ptr, arg: DestArg, selector: string, noLocal: bool)
    requires InUse(s, held, q) && PlainState(s) && PlainArg(arg)
    ensures var (t, c) := MakeConsumer(o, s, q, arg, selector, noLocal);
      c.Ok? ==> StandsFor(t.g, c.value, q, ConsumerFor(Meant(s, arg), selector, noLocal))
  {
    hide GraphInv, CellsAge, Grows, PlainCells, HasMarker, EntryOk, MakeConsumer, StandsFor;
    MakeConsumerOutcome(o, s, held, q, arg, selector, noLocal);
    ClientPlain(o, s, held, q, arg, selector, noLocal);
    var (t, c) := MakeConsumer(o, s, q, arg, selector, noLocal);
    if c.Ok? { EntryStandsFor(t.g, held, q, ConsumerFor(Meant(s, arg), selector, noLocal), c.value); }
  }

  /** For producers no condition on names is needed. */
  lemma ProducerIsTheOneAskedFor(o: Oracle, s: State, held: set<Ptr>, q: Ptr, arg: DestArg)
    requires InUse(s, held, q)
    ensures var (t, r) := MakeProducer(o, s, q, arg);
      r.Ok? ==> StandsFor(t.g, r.value, q, ProducerFor(Meant(s, arg)))
  {
    hide GraphInv, CellsAge, Grows, EntryOk, MakeProducer, StandsFor;
    MakeProducerOutcome(o, s, held, q, arg);
    var (t, r) := MakeProducer(o, s, q, arg);
    if r.Ok? { EntryStandsFor(t.g, held, q, ProducerFor(Meant(s, arg)), r.value); }
  }

  /** In every run a default destination that the template resolved itself is the one that its
      current name denotes in its current domain, and it is alive. */
  lemma DefaultMatchesSettings(o: Oracle, settings: Settings, ops: seq<Op>)
    ensures var s := After(o, settings, ops);
      s.defaultDest.Some? && s.defaultDest.value.Resolved? ==>
        && Denotes(s.g, s.defaultDest.value) == NamedDest(s.settings.name, s.settings.pubSub)
        && s.settings.name != ""
        && Live(s.g.cells, s.defaultDest.value.p)
  {
    AfterGood(o, settings, ops);
    NothingDangles(o, settings, ops);
  }
}

/**
  The state of a CmsTemplate with everything it owns, as a value, and what each internal step
  does to it.  A failing step ends in `Teardown`, the closed form of destroy().
 */
module TemplateState {
  import opened CacheKeys
  import opened CppHeap
  import opened Options

  /** What the user configured; survives a teardown. */
  datatype Settings = Settings(factory: bool, mode: AckMode, name: string, pubSub: bool, noLocal: bool)

  /** The five lists of the ResourceLifecycleManager. */
  datatype Managed = Managed(
    connections: seq<Ptr>, sessions: seq<Ptr>, destinations: seq<Ptr>, producers: seq<Ptr>, consumers: seq<Ptr>)
  {
    function Clients(client: Client): seq<Ptr> {
      if client.ProducerFor? then producers else consumers
    }
    function AddClient(client: Client, p: Ptr): Managed {
      if client.ProducerFor? then this.(producers := producers + [p]) else this.(consumers := consumers + [p])
    }
  }

  const NOTHING := Managed([], [], [], [], [])

  /** A destination pointer: one that the template resolved itself, or one that the caller owns. */
  datatype DestRef = Resolved(p: Ptr) | Foreign(dest: Dest)

  /** The resource graph: the heap and every pointer that the template's parts keep into it. */
  datatype Graph = Graph(
    cells: seq<Cell>,
    managed: Managed,
    resolver: map<Ptr, Ptr>,
    connection: Option<Ptr>,
    pools: seq<Option<Ptr>>)

  datatype State = State(
    g: Graph,
    calls: nat,
    trace: seq<Record>,
    defaultDest: Option<DestRef>,
    initialized: bool,
    settings: Settings)

  datatype Outcome<+T> = Ok(value: T) | Fail

  const NO_POOLS: seq<Option<Ptr>> := [None, None, None, None]

  /** The graph of a template that has opened nothing, over a given heap. */
  function Bare(cells: seq<Cell>): Graph {
    Graph(cells, NOTHING, map[], None, NO_POOLS)
  }

  /** A newly constructed template over a given heap and history. */
  function Fresh(settings: Settings, cells: seq<Cell>, calls: nat, trace: seq<Record>): State {
    State(Bare(cells), calls, trace, None, false, settings)
  }

  // ---- Dereferences ----
  // They are total, with a blank object for a wrong pointer; the invariant shows that the blank
  // is never seen.

  function At(g: Graph, p: Ptr): Obj {
    if p < |g.cells| then g.cells[p].obj else Message
  }

  function PoolAt(g: Graph, p: Ptr): (obj: Obj)
    ensures obj.SessionPool?
  {
    if At(g, p).SessionPool? then At(g, p) else SessionPool(0, 0, [], [])
  }

  function SessionAt(g: Graph, q: Ptr): (obj: Obj)
    ensures obj.PooledSession?
  {
    if At(g, q).PooledSession? then At(g, q) else PooledSession(0, 0, map[], map[])
  }

  function ResolverAt(g: Graph, q: Ptr): (obj: Obj)
    ensures obj.SessionResolver?
  {
    if q in g.resolver && At(g, g.resolver[q]).SessionResolver?
    then At(g, g.resolver[q]) else SessionResolver(q, map[], map[])
  }

  /** The provider's client behind a wrapper. */
  function RawOf(g: Graph, w: Ptr): Ptr {
    if At(g, w).CachedClient? then At(g, w).raw else 0
  }

  function PoolFor(g: Graph, mode: AckMode): Ptr {
    if mode < |g.pools| && g.pools[mode].Some? then g.pools[mode].value else 0
  }

  function CacheOf(session: Obj, client: Client): map<string, Ptr>
    requires session.PooledSession?
  {
    if client.ProducerFor? then session.producerCache else session.consumerCache
  }

  function DestMap(resolver: Obj, pubSub: bool): map<string, Ptr>
    requires resolver.SessionResolver?
  {
    if pubSub then resolver.topicMap else resolver.queueMap
  }

  function NamedDest(name: string, pubSub: bool): Dest {
    if pubSub then Topic(name) else Queue(name)
  }

  /** The destination that a pointer denotes. */
  function Denotes(g: Graph, ref: DestRef): Dest {
    match ref
    case Foreign(dest) => dest
    case Resolved(d) => if At(g, d).Destination? then At(g, d).dest else Other
  }

  // ---- Ownership ----

  /** A pool that the template's pool array points to. */
  predicate OpenPool(g: Graph, p: Ptr) {
    && |g.pools| == NUM_POOLS
    && p < |g.cells|
    && g.cells[p].obj.SessionPool?
    && g.pools[g.cells[p].obj.mode] == Some(p)
  }

  /** A pooled session listed by an open pool. */
  predicate OpenSession(g: Graph, q: Ptr) {
    && q < |g.cells|
    && g.cells[q].obj.PooledSession?
    && OpenPool(g, g.cells[q].obj.pool)
    && q in g.cells[g.cells[q].obj.pool].obj.sessions
  }

  /** Objects that belong to the code that called the template, or to nobody. */
  predicate Outside(obj: Obj) {
    obj.Message? || obj.Received?
  }

  /** Whether the object at p has an owner: the one list, array slot, cache or map that will
      delete it.  A received message belongs to the caller. */
  predicate Owned(g: Graph, p: Ptr)
    requires p < |g.cells|
  {
    match g.cells[p].obj
    case Connection => p in g.managed.connections
    case Session(_, _) => p in g.managed.sessions
    case Destination(_, _) => p in g.managed.destinations
    case RawClient(_, client) => p in g.managed.Clients(client)
    case SessionPool(_, _, _, _) => OpenPool(g, p)
    case PooledSession(_, _, _, _) => OpenSession(g, p)
    case CachedClient(q, client, _) =>
      OpenSession(g, q) && Key(client) in CacheOf(g.cells[q].obj, client)
      && CacheOf(g.cells[q].obj, client)[Key(client)] == p
    case SessionResolver(q, _, _) => q in g.resolver && g.resolver[q] == p
    case Message => false
    case Received => true
  }

  // ---- Teardown ----

  /** Everything alive that the template owns. */
  ghost function Owns(cells: seq<Cell>): set<Ptr> {
    set p | 0 <= p < |cells| && cells[p].deletes == 0 && !Outside(cells[p].obj)
  }

  /** Provider calls that the lifecycle manager makes while destroying: each connection is
      closed and deleted, everything else is deleted. */
  function DestroyCalls(m: Managed): nat {
    2 * |m.connections| + |m.producers| + |m.consumers| + |m.destinations| + |m.sessions|
  }

  /** What destroy() leaves behind: a fresh template with the same settings, over a heap in
      which every owned object has been deleted once. */
  ghost function Teardown(s: State): State {
    Fresh(s.settings, Kill(s.g.cells, Owns(s.g.cells)), s.calls + DestroyCalls(s.g.managed), s.trace)
  }

  function Tick(s: State): State {
    s.(calls := s.calls + 1)
  }

  function Noted(s: State, use: Use): State {
    s.(trace := s.trace + [Record(use, false)])
  }

  /** After a recorded provider call. */
  function Used(o: Oracle, s: State, use: Use): State {
    Tick(s).(trace := s.trace + [Record(use, o(s.calls))])
  }

  // ---- Steps on the graph ----

  function Set(g: Graph, p: Ptr, obj: Obj): Graph {
    if p < |g.cells| then g.(cells := g.cells[p := g.cells[p].(obj := obj)]) else g
  }

  function AddConnection(g: Graph): Graph {
    var c := |g.cells|;
    g.(cells := g.cells + [Cell(Connection, 0)],
       connection := Some(c),
       managed := g.managed.(connections := g.managed.connections + [c]))
  }

  function NewPool(connection: Ptr, mode: AckMode): Cell {
    Cell(SessionPool(connection, mode, [], []), 0)
  }

  function OpenPools(g: Graph): Graph {
    var c := if g.connection.Some? then g.connection.value else 0;
    var n := |g.cells|;
    g.(cells := g.cells + [NewPool(c, 0), NewPool(c, 1), NewPool(c, 2), NewPool(c, 3)],
       pools := [Some(n), Some(n + 1), Some(n + 2), Some(n + 3)])
  }

  function AddSession(g: Graph, p: Ptr): Graph {
    var n, pool := |g.cells|, PoolAt(g, p);
    var h := Set(g, p, pool.(sessions := pool.sessions + [n + 1]));
    h.(cells := h.cells + [Cell(Session(pool.connection, pool.mode), 0), Cell(PooledSession(p, n, map[], map[]), 0)],
       managed := g.managed.(sessions := g.managed.sessions + [n]))
  }

  function WithAvailable(g: Graph, p: Ptr, available: seq<Ptr>): Graph {
    var pool := PoolAt(g, p);
    Set(g, p, pool.(available := available))
  }

  /** SessionPool::takeSession on the graph: the head of the available list, or a new session
      when it is empty, unless the provider fails to create one. */
  function PoolTake(g: Graph, p: Ptr, fails: bool): (Graph, Outcome<Ptr>) {
    var available := PoolAt(g, p).available;
    if available != [] then (WithAvailable(g, p, available[1..]), Ok(available[0]))
    else if fails then (g, Fail)
    else (AddSession(g, p), Ok(|g.cells| + 1))
  }

  function AddResolver(g: Graph, q: Ptr): Graph {
    g.(cells := g.cells + [Cell(SessionResolver(q, map[], map[]), 0)], resolver := g.resolver[q := |g.cells|])
  }

  function WithDest(resolver: Obj, name: string, pubSub: bool, d: Ptr): Obj
    requires resolver.SessionResolver?
  {
    if pubSub then resolver.(topicMap := resolver.topicMap[name := d])
    else resolver.(queueMap := resolver.queueMap[name := d])
  }

  function AddDestination(g: Graph, q: Ptr, name: string, pubSub: bool): Graph {
    var d := |g.cells|;
    var h := if q in g.resolver then Set(g, g.resolver[q], WithDest(ResolverAt(g, q), name, pubSub, d)) else g;
    h.(cells := h.cells + [Cell(Destination(q, NamedDest(name, pubSub)), 0)],
       managed := g.managed.(destinations := g.managed.destinations + [d]))
  }

  function WithCached(session: Obj, client: Client, wrapper: Ptr): Obj
    requires session.PooledSession?
  {
    if client.ProducerFor?
    then session.(producerCache := session.producerCache[Key(client) := wrapper])
    else session.(consumerCache := session.consumerCache[Key(client) := wrapper])
  }

  function AddClient(g: Graph, q: Ptr, client: Client): Graph {
    var n := |g.cells|;
    var h := Set(g, q, WithCached(SessionAt(g, q), client, n + 1));
    h.(cells := h.cells + [Cell(RawClient(q, client), 0), Cell(CachedClient(q, client, n), 0)],
       managed := g.managed.AddClient(client, n))
  }

  /** The heap with one more cell that no owner will delete. */
  function AddCell(g: Graph, cell: Cell): Graph {
    g.(cells := g.cells + [cell])
  }

  // ---- Internal steps ----

  /** A provider call that changes nothing here but may throw. */
  ghost function Plain(o: Oracle, s: State, use: Use): (State, bool) {
    if o(s.calls) then (Teardown(Used(o, s, use)), false) else (Used(o, s, use), true)
  }

  /** getConnection(): opens the connection and the four pools unless that has been done. */
  ghost function Connect(o: Oracle, s: State): (State, bool) {
    if s.g.connection.Some? then (s, true)
    else if !s.settings.factory then (Teardown(s), false)
    else if o(s.calls) then (Teardown(Tick(s)), false)
    else
      var s1 := Tick(s).(g := AddConnection(s.g));
      var (s2, ok) := Plain(o, s1, Started(|s.g.cells|));
      if ok then (s2.(g := OpenPools(s2.g)), true) else (s2, false)
  }

  /** Taking from a pool; creating a session is a provider call. */
  ghost function TakeFrom(o: Oracle, s: State, p: Ptr): (State, Outcome<Ptr>) {
    var s1 := if PoolAt(s.g, p).available == [] then Tick(s) else s;
    match PoolTake(s.g, p, o(s.calls))
    case (h, Ok(q)) => (s1.(g := h), Ok(q))
    case (_, Fail) => (Teardown(s1), Fail)
  }

  ghost function Take(o: Oracle, s: State): (State, Outcome<Ptr>) {
    var (s1, ok) := Connect(o, s);
    if ok then TakeFrom(o, s1, PoolFor(s1.g, s1.settings.mode)) else (s1, Fail)
  }

  /** returnSession(): a pooled session closes by joining its pool's available list. */
  function Return(g: Graph, q: Ptr): Graph {
    var p := SessionAt(g, q).pool;
    WithAvailable(g, p, PoolAt(g, p).available + [q])
  }

  /** resolveDestinationName(): one destination per session, domain and name, made on demand. */
  ghost function Resolve(o: Oracle, s: State, q: Ptr, name: string): (State, Outcome<Ptr>) {
    if name == "" then (Teardown(s), Fail)
    else
      var s1 := if q in s.g.resolver then s else s.(g := AddResolver(s.g, q));
      var known := DestMap(ResolverAt(s1.g, q), s.settings.pubSub);
      if name in known then (s1, Ok(known[name]))
      else if o(s1.calls) then (Teardown(Tick(s1)), Fail)
      else (Tick(s1).(g := AddDestination(s1.g, q, name, s.settings.pubSub)), Ok(|s1.g.cells|))
  }

  /** resolveDefaultDestination(): the default object, or the default name resolved and kept. */
  ghost function ResolveDefault(o: Oracle, s: State, q: Ptr): (State, Outcome<DestRef>) {
    if s.defaultDest.Some? then (s, Ok(s.defaultDest.value))
    else
      match Resolve(o, s, q, s.settings.name)
      case (s1, Ok(d)) => (s1.(defaultDest := Some(Resolved(d))), Ok(Resolved(d)))
      case (s1, Fail) => (s1, Fail)
  }

  /** The destination argument of a send, receive or execute call. */
  datatype DestArg = Default | Given(dest: Dest) | Named(name: string)

  ghost function FindDest(o: Oracle, s: State, q: Ptr, arg: DestArg): (State, Outcome<DestRef>) {
    match arg
    case Default => ResolveDefault(o, s, q)
    case Given(dest) => (s, Ok(Foreign(dest)))
    case Named(name) =>
      match Resolve(o, s, q, name)
      case (s1, Ok(d)) => (s1, Ok(Resolved(d)))
      case (s1, Fail) => (s1, Fail)
  }

  /** createCachedProducer / createCachedConsumer: one wrapper per cache key, made on demand. */
  ghost function Cached(o: Oracle, s: State, q: Ptr, client: Client): (State, Outcome<Ptr>) {
    var cache := CacheOf(SessionAt(s.g, q), client);
    if Key(client) in cache then (s, Ok(cache[Key(client)]))
    else if o(s.calls) then (Teardown(Tick(s)), Fail)
    else (Tick(s).(g := AddClient(s.g, q, client)), Ok(|s.g.cells| + 1))
  }

  /** createProducer(): the cached producer, then the two setters that configure it. */
  ghost function MakeProducer(o: Oracle, s: State, q: Ptr, arg: DestArg): (State, Outcome<Ptr>) {
    match FindDest(o, s, q, arg)
    case (s1, Fail) => (s1, Fail)
    case (s1, Ok(ref)) =>
      match Cached(o, s1, q, ProducerFor(Denotes(s1.g, ref)))
      case (s2, Fail) => (s2, Fail)
      case (s2, Ok(w)) =>
        var (s3, ok) := Plain(o, s2, SetMessageId(RawOf(s2.g, w)));
        if !ok then (s3, Fail)
        else
          var (s4, ok) := Plain(o, s3, SetTimestamp(RawOf(s3.g, w)));
          if ok then (s4, Ok(w)) else (s4, Fail)
  }

  /** createConsumer(): the cached consumer for a destination, selector and noLocal flag. */
  ghost function MakeConsumer(o: Oracle, s: State, q: Ptr, arg: DestArg, selector: string, noLocal: bool)
    : (State, Outcome<Ptr>)
  {
    match FindDest(o, s, q, arg)
    case (s1, Fail) => (s1, Fail)
    case (s1, Ok(ref)) => Cached(o, s1, q, ConsumerFor(Denotes(s1.g, ref), selector, noLocal))
  }

  /** doSend(): the message is created, sent and deleted, whether or not the send works. */
  ghost function DoSend(o: Oracle, s: State, q: Ptr, w: Ptr): (State, bool) {
    var (s1, ok) := Plain(o, s, MadeMessage(q));
    if !ok then (s1, false)
    else
      var m := |s1.g.cells|;
      var s2 := s1.(g := AddCell(s1.g, Cell(Message, 1)));
      var s3 := Noted(Used(o, s2, Sent(RawOf(s2.g, w), m)), Dropped(m));
      if o(s2.calls) then (Teardown(s3), false) else (s3, true)
  }

  /** doReceive(): the received message goes to the caller. */
  ghost function DoReceive(o: Oracle, s: State, w: Ptr): (State, bool) {
    var (s1, ok) := Plain(o, s, ReceivedOn(RawOf(s.g, w)));
    if ok then (s1.(g := AddCell(s1.g, Cell(Received, 0))), true) else (s1, false)
  }

  // ---- Operations ----

  /** A call on the template.  A callback is the script of the template calls that it makes; the
      provider being a function of the call number, scripts cover every callback. */
  datatype Op =
    | Do(action: Action)
    | DoNothing
    | SetFactory(factory: bool)
    | SetMode(mode: AckMode)
    | SetName(name: string)
    | SetPubSub(pubSub: bool)
    | SetNoLocal(noLocal: bool)
    | SetDest(dest: Option<Dest>)

  datatype Action =
    | InSession(body: Script)
    | WithProducer(arg: DestArg, body: Script)
    | Send(arg: DestArg)
    | Receive(arg: DestArg, selector: string)

  datatype Script = Done | Throw | Then(op: Op, rest: Script)

  function SetNameStep(s: State, name: string): State {
    if name == s.settings.name then s
    else s.(settings := s.settings.(name := name), defaultDest := None)
  }

  function SetPubSubStep(s: State, pubSub: bool): State {
    if pubSub == s.settings.pubSub then s
    else s.(settings := s.settings.(pubSub := pubSub), defaultDest := None)
  }

  function SetDestStep(s: State, dest: Option<Dest>): State {
    s.(defaultDest := if dest.Some? then Some(Foreign(dest.value)) else None)
  }

  ghost function RunScript(o: Oracle, s: State, script: Script): (State, bool)
    decreases script
  {
    match script
    case Done => (s, true)
    case Throw => (Teardown(s), false)
    case Then(op, rest) =>
      var (s1, ok) := Exec(o, s, op);
      if ok then RunScript(o, s1, rest) else (s1, false)
  }

  ghost function Act(o: Oracle, s: State, q: Ptr, action: Action): (State, bool)
    decreases action
  {
    match action
    case InSession(body) => RunScript(o, Noted(s, CalledBack(q, None)), body)
    case WithProducer(arg, body) =>
      (match MakeProducer(o, s, q, arg)
       case (s1, Ok(w)) => RunScript(o, Noted(s1, CalledBack(q, Some(RawOf(s1.g, w)))), body)
       case (s1, Fail) => (s1, false))
    case Send(arg) =>
      (match MakeProducer(o, s, q, arg)
       case (s1, Ok(w)) => DoSend(o, s1, q, w)
       case (s1, Fail) => (s1, false))
    case Receive(arg, selector) =>
      (match MakeConsumer(o, s, q, arg, selector, s.settings.noLocal)
       case (s1, Ok(w)) => DoReceive(o, s1, w)
       case (s1, Fail) => (s1, false))
  }

  /** One call on the template: the new state and whether the call returned normally. */
  ghost function Exec(o: Oracle, s: State, op: Op): (State, bool)
    decreases op
  {
    match op
    case Do(action) =>
      (match Take(o, s.(initialized := true))
       case (s1, Fail) => (s1, false)
       case (s1, Ok(q)) =>
         var (s2, ok) := Act(o, s1, q, action);
         if ok then (s2.(g := Return(s2.g, q)), true) else (s2, false))
    case DoNothing => (s, true)
    case SetFactory(b) => (s.(settings := s.settings.(factory := b)), true)
    case SetMode(m) => (s.(settings := s.settings.(mode := m)), true)
    case SetName(n) => (SetNameStep(s, n), true)
    case SetPubSub(b) => (SetPubSubStep(s, b), true)
    case SetNoLocal(b) => (s.(settings := s.settings.(noLocal := b)), true)
    case SetDest(d) => (SetDestStep(s, d), true)
  }

  /** A run: calls one after the other, going on after those that failed. */
  ghost function Run(o: Oracle, s: State, ops: seq<Op>): State
    decreases |ops|
  {
    if ops == [] then s else Run(o, Exec(o, s, ops[0]).0, ops[1..])
  }
}

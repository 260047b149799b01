/**
  CmsTemplate as its code runs: fields updated in place, the pool array, and every exception
  handler with its own call of destroy().  Each method is proved to compute the step that
  TemplateState defines; reading, writing or deleting a heap cell requires that it is alive, so
  the proofs also show that the code never follows a dangling pointer.
 */
module CmsTemplate {
  import opened CacheKeys
  import opened Collections
  import opened CppHeap
  import opened Options
  import opened TemplateState
  import opened TemplateInvariant
  import opened TemplateGrowth
  import opened TemplateSteps
  import opened TemplateOperations
  import opened TemplateDestruction
  import opened LifecycleManager
  import opened DestinationResolver
  import Pools

  class Template {
    const heap: Heap
    const manager: ResourceLifecycleManager
    const destinationResolver: DynamicDestinationResolver
    const sessionPools: array<Option<Ptr>>
    var connection: Option<Ptr>
    var defaultDestination: Option<DestRef>
    var initialized: bool
    var connectionFactory: bool
    var sessionAcknowledgeMode: AckMode
    var defaultDestinationName: string
    var pubSubDomain: bool
    var noLocal: bool

    ghost predicate Valid() {
      && manager.heap == heap
      && destinationResolver.heap == heap && destinationResolver.manager == manager
      && sessionPools.Length == NUM_POOLS
    }

    ghost function Footprint(): set<object> {
      {this, heap, manager, destinationResolver, sessionPools}
    }

    ghost function GraphNow(): Graph
      reads Footprint()
    {
      Graph(heap.cells, manager.Lists(), destinationResolver.sessionResolverMap, connection, sessionPools[..])
    }

    ghost function SettingsNow(): Settings
      reads this
    {
      Settings(connectionFactory, sessionAcknowledgeMode, defaultDestinationName, pubSubDomain, noLocal)
    }

    ghost function Now(): State
      reads Footprint()
    {
      State(GraphNow(), heap.calls, heap.trace, defaultDestination, initialized, SettingsNow())
    }

    constructor (oracle: Oracle, factory: bool)
      ensures Valid() && fresh(Footprint())
      ensures Now() == Fresh(Settings(factory, 0, "", false, false), [], 0, []) && heap.oracle == oracle
    {
      var h := new Heap(oracle);
      var m := new ResourceLifecycleManager(h);
      heap, manager := h, m;
      destinationResolver := new DynamicDestinationResolver(h, m);
      sessionPools := new Option<Ptr>[NUM_POOLS](_ => None);
      connection, defaultDestination, initialized := None, None, false;
      connectionFactory, sessionAcknowledgeMode, defaultDestinationName := factory, 0, "";
      pubSubDomain, noLocal := false, false;
      new;
      assert sessionPools[..] == NO_POOLS;
    }

    // ---- destroy ----

    /** Deletes the pool for one mode, those below it being gone. */
    method DestroyPool(ix: AckMode, ghost g: Graph, ghost held: set<Ptr>)
      requires Valid() && GraphInv(g, held) && g.pools != NO_POOLS
      requires heap.cells == Kill(g.cells, PartsBelow(g, ix))
      requires sessionPools[ix] == g.pools[ix]
      modifies heap`cells, heap`log
      ensures heap.cells == Kill(g.cells, PartsBelow(g, ix + 1))
    {
      ghost var p := PoolFor(g, ix);
      PoolSlot(g, held, ix);
      hide GraphInv, Pools.PoolSound, PartsBelow, Pools.PoolParts, Kill;
      NextPool(g, held, ix);
      PoolSoundAfter(g.cells, PartsBelow(g, ix), p);
      Pools.DeletePool(heap, sessionPools[ix].value);
      KillTwice(g.cells, PartsBelow(g, ix), Pools.PoolParts(g.cells, p));
    }

    /** Deletes the pools that are open and clears the array. */
    method DestroySessionPools(ghost g: Graph, ghost held: set<Ptr>)
      requires Valid() && GraphInv(g, held)
      requires heap.cells == g.cells && sessionPools[..] == g.pools
      modifies heap`cells, heap`log, sessionPools
      ensures heap.cells == Kill(g.cells, PartsBelow(g, NUM_POOLS))
      ensures sessionPools[..] == NO_POOLS
    {
      hide GraphInv, PartsBelow, Kill;
      PoolRange(g, held);
      var ix := 0;
      while ix < NUM_POOLS
        invariant 0 <= ix <= NUM_POOLS
        invariant forall i :: 0 <= i < ix ==> sessionPools[i] == None
        invariant forall i :: ix <= i < NUM_POOLS ==> sessionPools[i] == g.pools[i]
        invariant heap.cells == Kill(g.cells, if g.pools == NO_POOLS then {} else PartsBelow(g, ix))
      {
        if sessionPools[ix] != None {
          DestroyPool(ix, g, held);
          sessionPools[ix] := None;
        }
        ix := ix + 1;
      }
      assert sessionPools[..] == NO_POOLS;
    }

    /** destroy(): the pools, then the resolvers, then the managed resources. */
    method Destroy(ghost held: set<Ptr>)
      requires Valid() && Inv(Now(), held)
      modifies Footprint()
      ensures Now() == Teardown(old(Now()))
    {
      hide GraphInv, DefaultOk, PartsBelow, Kill, All, Elements, Values, Owns, ResolversLive, Destroyable;
      ghost var g := GraphNow();
      ghost var a, b, c := PartsBelow(g, NUM_POOLS), Values(g.resolver), Elements(All(g.managed));
      TornOpen(g, held);
      initialized := false;
      connection := None;
      defaultDestination := None;
      DestroySessionPools(g, held);
      destinationResolver.Destroy();
      KillTwice(g.cells, a, b);
      manager.Destroy();
      KillTwice(g.cells, a + b, c);
    }

    // ---- init, getConnection, takeSession, returnSession ----

    /** init(): a resolver that is given its manager first forgets what it knew. */
    method Init(ghost held: set<Ptr>)
      requires Valid() && Good(Now(), held)
      modifies Footprint()
      ensures Now() == old(Now()).(initialized := true)
    {
      if !initialized {
        NothingResolved(Now(), held);
        hide GraphInv;
        assert Values<Ptr, Ptr>(map[]) == {} && Kill(heap.cells, {}) == heap.cells;
        destinationResolver.Destroy();
        initialized := true;
      }
    }

    /** CmsAccessor::createConnection. */
    method CreateConnection() returns (r: Outcome<Ptr>)
      requires Valid()
      modifies heap`cells, heap`calls, manager
      ensures !connectionFactory ==> r == Fail && GraphNow() == old(GraphNow()) && heap.calls == old(heap.calls)
      ensures connectionFactory ==> heap.calls == old(heap.calls) + 1
      ensures connectionFactory && heap.oracle(old(heap.calls)) ==> r == Fail && GraphNow() == old(GraphNow())
      ensures connectionFactory && !heap.oracle(old(heap.calls)) ==>
        r == Ok(|old(heap.cells)|) && GraphNow().(connection := Some(r.value)) == AddConnection(old(GraphNow()))
    {
      if !connectionFactory {
        return Fail;
      }
      var failed := heap.Call();
      if failed {
        return Fail;
      }
      var c := heap.New(Connection);
      manager.AddConnection(c);
      return Ok(c);
    }

    method CreateSessionPools(ghost held: set<Ptr>)
      requires Valid() && GraphInv(GraphNow(), held) && connection.Some? && GraphNow().pools == NO_POOLS
      modifies heap`cells, heap`log, sessionPools
      ensures GraphNow() == OpenPools(old(GraphNow()))
    {
      hide GraphInv, PartsBelow, Kill;
      ghost var g := GraphNow();
      PoolRange(g, held);
      DestroySessionPools(g, held);
      var ix := 0;
      ghost var made: seq<Cell> := [];
      while ix < NUM_POOLS
        invariant 0 <= ix <= NUM_POOLS == sessionPools.Length
        invariant |made| == ix && forall i :: 0 <= i < ix ==> made[i] == NewPool(g.connection.value, i)
        invariant heap.cells == g.cells + made
        invariant forall i :: 0 <= i < ix ==> sessionPools[i] == Some(|g.cells| + i)
      {
        var p := heap.New(SessionPool(connection.value, ix, [], []));
        made := made + [NewPool(g.connection.value, ix)];
        sessionPools[ix] := Some(p);
        ix := ix + 1;
      }
      var n := |g.cells|;
      assert made == [NewPool(connection.value, 0), NewPool(connection.value, 1),
                      NewPool(connection.value, 2), NewPool(connection.value, 3)];
      assert sessionPools[..] == [Some(n), Some(n + 1), Some(n + 2), Some(n + 3)];
    }

    method GetConnection(ghost held: set<Ptr>) returns (ok: bool)
      requires Valid() && Good(Now(), held) && initialized
      modifies Footprint()
      ensures (Now(), ok) == Connect(heap.oracle, old(Now()))
    {
      hide GraphInv, Teardown, DefaultOk, OpenPools, AddConnection;
      if connection == None {
        ghost var s := Now();
        NotConnected(s, held);
        var c := CreateConnection();
        if c == Fail {
          assert Now() == (if connectionFactory then Tick(s) else s);
          Destroy(held);
          return false;
        }
        connection := Some(c.value);
        ghost var s1 := Tick(s).(g := AddConnection(s.g));
        assert Now() == s1;
        ghost var s2 := Used(heap.oracle, s1, Started(c.value));
        Recorded(s1, s2, held);
        var failed := heap.Invoke(Started(c.value));
        assert Now() == s2;
        if failed {
          Destroy(held);
          return false;
        }
        CreateSessionPools(held);
      }
      return true;
    }

    method TakeSession(ghost held: set<Ptr>) returns (r: Outcome<Ptr>)
      requires Valid() && Good(Now(), held) && initialized
      modifies Footprint()
      ensures (Now(), r) == Take(heap.oracle, old(Now()))
    {
      hide GraphInv, Teardown, CellsAge, Grows, DefaultOk;
      ConnectOutcome(heap.oracle, Now(), held);
      var ok := GetConnection(held);
      if !ok {
        DestroyAgain();
        return Fail;
      }
      OpenPoolLive(GraphNow(), held, sessionAcknowledgeMode);
      r := TakePooled(sessionPools[sessionAcknowledgeMode].value, held);
    }

    /** Takes from a pool, with takeSession's handler. */
    method TakePooled(p: Ptr, ghost held: set<Ptr>) returns (r: Outcome<Ptr>)
      requires Valid() && Good(Now(), held) && Live(heap.cells, p) && heap.cells[p].obj.SessionPool?
      modifies Footprint()
      ensures (Now(), r) == TakeFrom(heap.oracle, old(Now()), p)
    {
      hide GraphInv, Teardown, DefaultOk, AddSession, WithAvailable;
      ghost var s := Now();
      PoolTakeFrame(s.g, p, heap.oracle(s.calls));
      r := Pools.TakeSession(heap, manager, p, s.g);
      if r == Fail {
        TickInv(s, held);
        assert Now() == Tick(s);
        Destroy(held);
      }
    }

    /** A handler that runs after the teardown: destroy() finds nothing to do. */
    method DestroyAgain()
      requires Valid() && Down(Now()) && Inv(Now(), {})
      modifies Footprint()
      ensures Now() == old(Now())
    {
      hide GraphInv;
      TeardownAgain(Now());
      Destroy({});
    }

    method ReturnSession(q: Ptr, ghost held: set<Ptr>)
      requires Valid() && InUse(Now(), held, q)
      modifies heap`cells
      ensures Now() == old(Now()).(g := Return(old(Now()).g, q))
    {
      HeldLive(Now().g, held, q);
      Pools.CloseSession(heap, q, Now().g);
    }

    // ---- Destinations, producers, consumers ----

    /** CmsDestinationAccessor::resolveDestinationName, which leaves failures to its callers. */
    method ResolveName(q: Ptr, name: string, ghost held: set<Ptr>) returns (r: Outcome<Ptr>)
      requires Valid() && InUse(Now(), held, q)
      modifies Footprint()
      ensures r.Ok? ==> (Now(), r) == Resolve(heap.oracle, old(Now()), q, name)
      ensures r.Fail? ==> Inv(Now(), held) && (Teardown(Now()), r) == Resolve(heap.oracle, old(Now()), q, name)
    {
      hide GraphInv, Teardown, ResolverAt;
      ghost var s := Now();
      KnownLive(s.g, held, q);
      LookUpInv(heap.oracle, s, held, q, name);
      r := destinationResolver.ResolveDestinationName(q, name, pubSubDomain, s.g);
      ghost var (h, calls, out) := LookUp(heap.oracle, s.g, s.calls, q, name, s.settings.pubSub);
      assert Now() == s.(g := h, calls := calls);
    }

    method ResolveDefaultDestination(q: Ptr, ghost held: set<Ptr>) returns (r: Outcome<DestRef>)
      requires Valid() && InUse(Now(), held, q)
      modifies Footprint()
      ensures (Now(), r) == ResolveDefault(heap.oracle, old(Now()), q)
    {
      hide GraphInv, Teardown, DefaultOk, CellsAge, Grows;
      if defaultDestination == None && defaultDestinationName == "" {
        Destroy(held);
        return Fail;
      }
      if defaultDestination.Some? {
        return Ok(defaultDestination.value);
      }
      var d := ResolveName(q, defaultDestinationName, held);
      if d == Fail {
        Destroy(held);
        return Fail;
      }
      defaultDestination := Some(Resolved(d.value));
      return Ok(Resolved(d.value));
    }

    /** The executors' getDestination and the NULL test in createProducer and createConsumer. */
    method FindDestination(q: Ptr, arg: DestArg, ghost held: set<Ptr>) returns (r: Outcome<DestRef>)
      requires Valid() && InUse(Now(), held, q)
      modifies Footprint()
      ensures (Now(), r) == FindDest(heap.oracle, old(Now()), q, arg)
    {
      hide GraphInv, Teardown, DefaultOk, CellsAge, Grows;
      match arg
      case Default => r := ResolveDefaultDestination(q, held);
      case Given(dest) => r := Ok(Foreign(dest));
      case Named(name) =>
        var d := ResolveName(q, name, held);
        if d == Fail {
          Destroy(held);
          r := Fail;
        } else {
          r := Ok(Resolved(d.value));
        }
    }

    /** The queue or topic behind a destination pointer. */
    method ReadDestination(ref: DestRef) returns (dest: Dest)
      requires Valid()
      requires ref.Resolved? ==> Live(heap.cells, ref.p) && heap.cells[ref.p].obj.Destination?
      ensures dest == Denotes(GraphNow(), ref)
    {
      match ref
      case Foreign(d) => dest := d;
      case Resolved(p) => dest := heap.Get(p).dest;
    }

    /** The cached client of a session, with the handler of createProducer or createConsumer. */
    method CreateClient(q: Ptr, client: Client, ghost held: set<Ptr>) returns (r: Outcome<Ptr>)
      requires Valid() && InUse(Now(), held, q)
      modifies Footprint()
      ensures (Now(), r) == Cached(heap.oracle, old(Now()), q, client)
    {
      hide GraphInv, Teardown, DefaultOk, Key;
      ghost var s := Now();
      HeldLive(s.g, held, q);
      r := Pools.CreateCached(heap, manager, q, client, s.g);
      if r == Fail {
        TickInv(s, held);
        assert Now() == Tick(s);
        Destroy(held);
      }
    }

    /** A wrapper and the client behind it, both alive. */
    ghost predicate Usable(w: Ptr)
      reads heap
    {
      Live(heap.cells, w) && heap.cells[w].obj.CachedClient? && Live(heap.cells, heap.cells[w].obj.raw)
    }

    /** The client that a wrapper forwards its calls to. */
    method Unwrap(w: Ptr) returns (raw: Ptr)
      requires Usable(w)
      ensures raw == RawOf(GraphNow(), w) && Live(heap.cells, raw)
    {
      raw := heap.Get(w).raw;
      var target := heap.Get(raw);
    }

    /** setDisableMessageID or setDisableMessageTimeStamp, with createProducer's handler. */
    method Configure(use: Use, ghost held: set<Ptr>) returns (ok: bool)
      requires Valid() && Inv(Now(), held)
      requires (use.SetMessageId? || use.SetTimestamp?) && Live(heap.cells, use.client)
      modifies Footprint()
      ensures (Now(), ok) == Plain(heap.oracle, old(Now()), use)
    {
      hide GraphInv, Teardown, DefaultOk;
      ghost var s := Now();
      Recorded(s, Used(heap.oracle, s, use), held);
      var failed := heap.Invoke(use);
      assert Now() == Used(heap.oracle, s, use);
      if failed {
        Destroy(held);
      }
      return !failed;
    }

    method CreateProducer(q: Ptr, arg: DestArg, ghost held: set<Ptr>) returns (r: Outcome<Ptr>)
      requires Valid() && InUse(Now(), held, q)
      modifies Footprint()
      ensures (Now(), r) == MakeProducer(heap.oracle, old(Now()), q, arg)
    {
      hide GraphInv, Teardown, DefaultOk, CellsAge, Grows, EntryOk, FindDest, Cached, Denotes;
      FindDestOutcome(heap.oracle, Now(), held, q, arg);
      FindDestLive(heap.oracle, Now(), held, q, arg);
      var ref := FindDestination(q, arg, held);
      if ref == Fail {
        DestroyAgain();
        return Fail;
      }
      var dest := ReadDestination(ref.value);
      CachedOutcome(heap.oracle, Now(), held, q, ProducerFor(dest));
      r := CreateClient(q, ProducerFor(dest), held);
      if r == Fail {
        return Fail;
      }
      ghost var s := Now();
      LiveAnswer(s.g, held, q, ProducerFor(dest), r.value);
      var raw := Unwrap(r.value);
      Recorded(s, Used(heap.oracle, s, SetMessageId(raw)), held);
      var ok := Configure(SetMessageId(raw), held);
      if !ok {
        return Fail;
      }
      ok := Configure(SetTimestamp(raw), held);
      if !ok {
        return Fail;
      }
    }

    method CreateConsumer(q: Ptr, arg: DestArg, selector: string, noLocal: bool, ghost held: set<Ptr>)
      returns (r: Outcome<Ptr>)
      requires Valid() && InUse(Now(), held, q)
      modifies Footprint()
      ensures (Now(), r) == MakeConsumer(heap.oracle, old(Now()), q, arg, selector, noLocal)
    {
      hide GraphInv, Teardown, DefaultOk, CellsAge, Grows, EntryOk, FindDest, Cached, Denotes;
      FindDestOutcome(heap.oracle, Now(), held, q, arg);
      FindDestLive(heap.oracle, Now(), held, q, arg);
      var ref := FindDestination(q, arg, held);
      if ref == Fail {
        DestroyAgain();
        return Fail;
      }
      var dest := ReadDestination(ref.value);
      r := CreateClient(q, ConsumerFor(dest, selector, noLocal), held);
    }

    // ---- Sending and receiving ----

    /** doSend(): deletes the message whether or not the send throws, and lets failures through. */
    method SendMessage(q: Ptr, w: Ptr, ghost held: set<Ptr>) returns (ok: bool)
      requires Valid() && Good(Now(), held) && connection.Some?
      requires Live(heap.cells, q) && Usable(w)
      modifies Footprint()
      ensures ok ==> (Now(), ok) == DoSend(heap.oracle, old(Now()), q, w)
      ensures !ok ==> Inv(Now(), held) && (Teardown(Now()), ok) == DoSend(heap.oracle, old(Now()), q, w)
    {
      hide GraphInv, Teardown, CellsAge, Grows, DefaultOk;
      ghost var s := Now();
      ghost var s1 := Used(heap.oracle, s, MadeMessage(q));
      ghost var s2 := s1.(g := AddCell(s1.g, Cell(Message, 1)));
      Recorded(s, s1, held);
      AddCellOutcome(s1, held, Cell(Message, 1));
      var raw := Unwrap(w);
      assert raw == RawOf(s2.g, w);
      var failed := heap.Invoke(MadeMessage(q));
      assert Now() == s1;
      if failed {
        return false;
      }
      failed := SendAndDrop(raw);
      ghost var m := |s1.g.cells|;
      Recorded(s2, Noted(Used(heap.oracle, s2, Sent(raw, m)), Dropped(m)), held);
      return !failed;
    }

    /** A new message is sent, and deleted whether or not that throws. */
    method SendAndDrop(raw: Ptr) returns (failed: bool)
      requires Live(heap.cells, raw)
      modifies heap`cells, heap`calls, heap`log, heap`trace
      ensures heap.calls == old(heap.calls) + 1 && failed == heap.oracle(old(heap.calls))
      ensures heap.cells == old(heap.cells) + [Cell(Message, 1)]
      ensures var m := |old(heap.cells)|;
        heap.trace == old(heap.trace) + [Record(Sent(raw, m), failed)] + [Record(Dropped(m), false)]
    {
      var message := heap.New(Message);
      failed := SendOn(raw, message);
      DropMessage(message);
      assert heap.cells == old(heap.cells) + [Cell(Message, 1)];
    }

    /** send() on a producer: producer and message must be alive. */
    method SendOn(raw: Ptr, message: Ptr) returns (failed: bool)
      requires Live(heap.cells, raw) && Live(heap.cells, message)
      modifies heap`calls, heap`trace
      ensures heap.calls == old(heap.calls) + 1 && failed == heap.oracle(old(heap.calls))
      ensures heap.trace == old(heap.trace) + [Record(Sent(raw, message), failed)]
    {
      failed := heap.Invoke(Sent(raw, message));
    }

    /** destroyMessage(). */
    method DropMessage(message: Ptr)
      requires Live(heap.cells, message)
      modifies heap`cells, heap`log, heap`trace
      ensures heap.cells == Kill(old(heap.cells), {message})
      ensures heap.trace == old(heap.trace) + [Record(Dropped(message), false)]
    {
      heap.Delete(message);
      heap.Note(Dropped(message));
    }

    /** doReceive(), with its handler. */
    method ReceiveMessage(w: Ptr, ghost held: set<Ptr>) returns (ok: bool)
      requires Valid() && Good(Now(), held) && connection.Some?
      requires Usable(w)
      modifies Footprint()
      ensures (Now(), ok) == DoReceive(heap.oracle, old(Now()), w)
    {
      hide GraphInv, Teardown, DefaultOk;
      ghost var s := Now();
      var raw := Unwrap(w);
      Recorded(s, Used(heap.oracle, s, ReceivedOn(raw)), held);
      var failed := heap.Invoke(ReceivedOn(raw));
      assert Now() == Used(heap.oracle, s, ReceivedOn(raw));
      if failed {
        Destroy(held);
        return false;
      }
      var message := heap.New(Received);
      return true;
    }

    // ---- Callbacks and operations ----

    /** The template calls of a callback.  A failure is left to the caller's handler: `left` are
        the sessions still held in the state that the handler finds. */
    method RunCallback(script: Script, ghost held: set<Ptr>) returns (ok: bool, ghost left: set<Ptr>)
      requires Valid() && Good(Now(), held) && connection.Some?
      modifies Footprint()
      ensures ok ==> (Now(), ok) == RunScript(heap.oracle, old(Now()), script)
      ensures !ok ==> Inv(Now(), left) && (Teardown(Now()), ok) == RunScript(heap.oracle, old(Now()), script)
      decreases script, 0
    {
      hide GraphInv, Teardown, CellsAge, Grows, DefaultOk;
      match script
      case Done => return true, held;
      case Throw => return false, held;
      case Then(op, rest) =>
        ghost var s := Now();
        ExecOutcome(heap.oracle, s, held, op);
        ok := Call(op, held);
        if !ok {
          TeardownAgain(Now());
          return false, {};
        }
        StillConnected(s, Now());
        ok, left := RunCallback(rest, held);
    }

    /** The executors' doInCms.  ProducerExecutor has a handler of its own; the others leave
        failures to execute(). */
    method Perform(q: Ptr, action: Action, ghost held: set<Ptr>) returns (ok: bool, ghost left: set<Ptr>)
      requires Valid() && InUse(Now(), held, q)
      modifies Footprint()
      ensures ok ==> (Now(), ok) == Act(heap.oracle, old(Now()), q, action)
      ensures !ok ==> Inv(Now(), left) && (Teardown(Now()), ok) == Act(heap.oracle, old(Now()), q, action)
      decreases action, 0
    {
      match action
      case InSession(body) => ok, left := PerformInSession(q, body, held);
      case WithProducer(arg, body) => ok, left := PerformWithProducer(q, arg, body, held);
      case Send(arg) => ok, left := PerformSend(q, arg, held);
      case Receive(arg, selector) => ok, left := PerformReceive(q, arg, selector, held);
    }

    /** One call on the template, with the handlers of execute(), send() and receive(). */
    method Call(op: Op, ghost held: set<Ptr>) returns (ok: bool)
      requires Valid() && Good(Now(), held)
      modifies Footprint()
      ensures (Now(), ok) == Exec(heap.oracle, old(Now()), op)
      decreases op
    {
      match op
      case Do(action) => ok := Execute(action, held);
      case DoNothing => ok := true;
      case SetFactory(b) => connectionFactory := b; ok := true;
      case SetMode(m) => sessionAcknowledgeMode := m; ok := true;
      case SetName(n) => SetDefaultDestinationName(n); ok := true;
      case SetPubSub(b) => SetPubSubDomain(b); ok := true;
      case SetNoLocal(b) => noLocal := b; ok := true;
      case SetDest(d) => SetDefaultDestination(d); ok := true;
    }

    method SetDefaultDestinationName(name: string)
      modifies this
      ensures Now() == SetNameStep(old(Now()), name)
    {
      if name != defaultDestinationName {
        defaultDestination := None;
        defaultDestinationName := name;
      }
    }

    method SetPubSubDomain(pubSub: bool)
      modifies this
      ensures Now() == SetPubSubStep(old(Now()), pubSub)
    {
      if pubSub != pubSubDomain {
        defaultDestination := None;
        pubSubDomain := pubSub;
      }
    }

    method SetDefaultDestination(dest: Option<Dest>)
      modifies this`defaultDestination
      ensures Now() == SetDestStep(old(Now()), dest)
    {
      defaultDestination := if dest.Some? then Some(Foreign(dest.value)) else None;
    }

    method PerformInSession(q: Ptr, body: Script, ghost held: set<Ptr>) returns (ok: bool, ghost left: set<Ptr>)
      requires Valid() && InUse(Now(), held, q)
      modifies Footprint()
      ensures ok ==> (Now(), ok) == Act(heap.oracle, old(Now()), q, InSession(body))
      ensures !ok ==> Inv(Now(), left) && (Teardown(Now()), ok) == Act(heap.oracle, old(Now()), q, InSession(body))
      decreases body, 1
    {
      hide GraphInv, Teardown, CellsAge, Grows, DefaultOk;
      ghost var s := Now();
      heap.Note(CalledBack(q, None));
      Recorded(s, Now(), held);
      ok, left := RunCallback(body, held);
    }

    method PerformWithProducer(q: Ptr, arg: DestArg, body: Script, ghost held: set<Ptr>)
      returns (ok: bool, ghost left: set<Ptr>)
      requires Valid() && InUse(Now(), held, q)
      modifies Footprint()
      ensures ok ==> (Now(), ok) == Act(heap.oracle, old(Now()), q, WithProducer(arg, body))
      ensures !ok ==> Inv(Now(), left) && (Teardown(Now()), ok) == Act(heap.oracle, old(Now()), q, WithProducer(arg, body))
      decreases body, 2
    {
      hide GraphInv, Teardown, CellsAge, Grows, EntryOk, MakeProducer, DefaultOk, RunScript, Meant, Key;
      ghost var s := Now();
      MakeProducerOutcome(heap.oracle, s, held, q, arg);
      var w := CreateProducer(q, arg, held);
      if w == Fail {
        DestroyAgain();
        TeardownAgain(Now());
        return false, {};
      }
      LiveAnswer(Now().g, held, q, ProducerFor(Meant(s, arg)), w.value);
      ok := RunWithProducer(q, w.value, body, held);
      left := {};
      if !ok {
        TeardownAgain(Now());
      }
    }

    /** The callback with its producer, and the executor's handler. */
    method RunWithProducer(q: Ptr, w: Ptr, body: Script, ghost held: set<Ptr>) returns (ok: bool)
      requires Valid() && InUse(Now(), held, q) && Usable(w)
      modifies Footprint()
      ensures var s := old(Now());
        (Now(), ok) == RunScript(heap.oracle, Noted(s, CalledBack(q, Some(RawOf(s.g, w)))), body)
      ensures !ok ==> Down(Now()) && Inv(Now(), {})
      decreases body, 1
    {
      hide GraphInv, Teardown, CellsAge, Grows, DefaultOk, RunScript, RawOf;
      ghost var s := Now();
      var raw := Unwrap(w);
      heap.Note(CalledBack(q, Some(raw)));
      ghost var s1 := Now();
      Recorded(s, s1, held);
      ScriptOutcome(heap.oracle, s1, held, body);
      ghost var left;
      ok, left := RunCallback(body, held);
      if !ok {
        Destroy(left);
        return false;
      }
      // destroyProducer: close() on a cached producer does nothing, and it is not deleted.
      StillLive(s1, Now(), w);
      var producer := heap.Get(w);
    }

    method PerformSend(q: Ptr, arg: DestArg, ghost held: set<Ptr>) returns (ok: bool, ghost left: set<Ptr>)
      requires Valid() && InUse(Now(), held, q)
      modifies Footprint()
      ensures ok ==> (Now(), ok) == Act(heap.oracle, old(Now()), q, Send(arg))
      ensures !ok ==> Inv(Now(), left) && (Teardown(Now()), ok) == Act(heap.oracle, old(Now()), q, Send(arg))
    {
      hide GraphInv, Teardown, CellsAge, Grows, EntryOk, MakeProducer, DoSend, DefaultOk;
      ghost var s := Now();
      left := {};
      MakeProducerOutcome(heap.oracle, s, held, q, arg);
      var w := CreateProducer(q, arg, held);
      if w == Fail {
        DestroyAgain();
        TeardownAgain(Now());
        return false, {};
      }
      ghost var s1 := Now();
      LiveAnswer(s1.g, held, q, ProducerFor(Meant(s, arg)), w.value);
      DoSendOutcome(heap.oracle, s1, held, q, w.value);
      HeldLive(s1.g, held, q);
      ok := SendMessage(q, w.value, held);
      if !ok {
        Destroy(held);
        TeardownAgain(Now());
        return false, {};
      }
    }

    method PerformReceive(q: Ptr, arg: DestArg, selector: string, ghost held: set<Ptr>)
      returns (ok: bool, ghost left: set<Ptr>)
      requires Valid() && InUse(Now(), held, q)
      modifies Footprint()
      ensures ok ==> (Now(), ok) == Act(heap.oracle, old(Now()), q, Receive(arg, selector))
      ensures !ok ==> Inv(Now(), left) && (Teardown(Now()), ok) == Act(heap.oracle, old(Now()), q, Receive(arg, selector))
    {
      hide GraphInv, Teardown, CellsAge, Grows, EntryOk, MakeConsumer, DoReceive, DefaultOk;
      ghost var s := Now();
      left := {};
      MakeConsumerOutcome(heap.oracle, s, held, q, arg, selector, noLocal);
      var w := CreateConsumer(q, arg, selector, noLocal, held);
      if w == Fail {
        TeardownAgain(Now());
        return false, {};
      }
      ghost var s1 := Now();
      LiveAnswer(s1.g, held, q, ConsumerFor(Meant(s, arg), selector, s.settings.noLocal), w.value);
      DoReceiveOutcome(heap.oracle, s1, held, w.value);
      ok := ReceiveMessage(w.value, held);
      if !ok {
        TeardownAgain(Now());
        return false, {};
      }
    }

    /** execute(): runs an action in a session taken for it. */
    method Execute(action: Action, ghost held: set<Ptr>) returns (ok: bool)
      requires Valid() && Good(Now(), held)
      modifies Footprint()
      ensures (Now(), ok) == Exec(heap.oracle, old(Now()), Do(action))
      decreases action, 1
    {
      hide GraphInv, Teardown, CellsAge, Grows, Take, Act, DefaultOk;
      ghost var s := Now();
      Init(held);
      assert Good(Now(), held) by { InitGood(s, held); }
      TakeOutcome(heap.oracle, Now(), held);
      var r := TakeSession(held);
      if r == Fail {
        DestroyAgain();
        return false;
      }
      var q := r.value;
      ghost var s1, kept := Now(), held + {r.value};
      ActOutcome(heap.oracle, s1, kept, q, action);
      ghost var left;
      ok, left := Perform(q, action, kept);
      if !ok {
        Destroy(left);
        DestroyAgain();
        return false;
      }
      StillConnected(s1, Now());
      ReturnSession(q, kept);
    }

    /** A run: calls one after the other, going on after failures.  What the code does is what
        the step functions say, so every theorem about their runs is about the code. */
    method RunAll(ops: seq<Op>)
      requires Valid() && Good(Now(), {})
      modifies Footprint()
      ensures Now() == Run(heap.oracle, old(Now()), ops) && Good(Now(), {})
    {
      hide GraphInv, CellsAge, Grows, Exec, DefaultOk;
      var i := 0;
      assert ops[0..] == ops;
      while i < |ops|
        invariant 0 <= i <= |ops|
        invariant Good(Now(), {})
        invariant Run(heap.oracle, Now(), ops[i..]) == Run(heap.oracle, old(Now()), ops)
      {
        assert ops[i..][0] == ops[i] && ops[i..][1..] == ops[i + 1..];
        ExecOutcome(heap.oracle, Now(), {}, ops[i]);
        var ok := Call(ops[i], {});
        i := i + 1;
      }
    }
  }

  lemma PoolSlot(g: Graph, held: set<Ptr>, m: AckMode)
    requires GraphInv(g, held) && g.pools != NO_POOLS
    ensures |g.pools| == NUM_POOLS && g.pools[m] == Some(PoolFor(g, m))
  {
  }

  /** Where the loop over the pools starts and, with no pools, ends. */
  lemma PoolRange(g: Graph, held: set<Ptr>)
    requires GraphInv(g, held)
    ensures Kill(g.cells, {}) == g.cells && PartsBelow(g, 0) == {}
    ensures g.pools == NO_POOLS ==> PartsBelow(g, NUM_POOLS) == {}
    ensures g.pools != NO_POOLS ==> |g.pools| == NUM_POOLS && forall i :: 0 <= i < NUM_POOLS ==> g.pools[i].Some?
  {
    if g.pools == NO_POOLS {
      NoPools(g, held);
    } else {
      PoolSlot(g, held, 0);
      forall i | 0 <= i < NUM_POOLS ensures g.pools[i].Some? {
        PoolSlot(g, held, i);
      }
    }
  }

  /** Each part of the teardown may run after the parts before it. */
  lemma TornOpen(g: Graph, held: set<Ptr>)
    requires GraphInv(g, held)
    ensures var (a, b, c) := (PartsBelow(g, NUM_POOLS), Values(g.resolver), Elements(All(g.managed)));
      && a !! b && (a + b) !! c && a + b + c == Owns(g.cells)
      && ResolversLive(Kill(g.cells, a), g.resolver)
      && Destroyable(Kill(g.cells, a + b), g.managed)
  {
    DestroyableOf(g);
    hide GraphInv, PartsBelow, All, Values, ResolversLive, Destroyable;
    var a, b := PartsBelow(g, NUM_POOLS), Values(g.resolver);
    DestructionExact(g, held);
    ResolversLiveOf(g, held);
    ResolversLiveAfter(g.cells, a, g.resolver);
    DestroyableAfter(g.cells, a + b, g.managed);
  }

  lemma ResolversLiveAfter(cells: seq<Cell>, dead: set<Ptr>, resolver: map<Ptr, Ptr>)
    requires ResolversLive(cells, resolver) && dead !! Values(resolver)
    ensures ResolversLive(Kill(cells, dead), resolver)
  {
  }

  lemma DestroyableAfter(cells: seq<Cell>, dead: set<Ptr>, m: Managed)
    requires Destroyable(cells, m) && dead !! Elements(All(m))
    ensures Destroyable(Kill(cells, dead), m)
  {
    forall p | p in All(m) ensures Live(Kill(cells, dead), p) {
      assert p in Elements(All(m));
    }
  }

  lemma NothingResolved(s: State, held: set<Ptr>)
    requires Good(s, held) && !s.initialized
    ensures s.g.resolver == map[]
  {
  }

  lemma PoolTakeFrame(g: Graph, p: Ptr, fails: bool)
    ensures var h := PoolTake(g, p, fails).0; h == g.(cells := h.cells, managed := h.managed)
  {
  }

  lemma TickInv(s: State, held: set<Ptr>)
    requires Inv(s, held)
    ensures Inv(Tick(s), held)
  {
    hide GraphInv;
  }

  /** The states in which getConnection() may fail satisfy the invariant. */
  lemma NotConnected(s: State, held: set<Ptr>)
    requires Good(s, held) && s.g.connection.None? && s.initialized
    ensures Inv(Tick(s), held)
    ensures var t := Tick(s).(g := AddConnection(s.g)); Inv(t, held) && t.g.pools == NO_POOLS
  {
    AddConnectionInv(s.g, held);
    NoDefault(s, held);
  }

  lemma OpenPoolLive(g: Graph, held: set<Ptr>, m: AckMode)
    requires GraphInv(g, held) && Settled(g) && g.connection.Some?
    ensures |g.pools| == NUM_POOLS && g.pools[m].Some? && g.pools[m].value == PoolFor(g, m)
    ensures Live(g.cells, g.pools[m].value) && g.cells[g.pools[m].value].obj.SessionPool?
  {
    assert OpenPool(g, g.pools[m].value) && Owned(g, g.pools[m].value);
  }

  lemma HeldLive(g: Graph, held: set<Ptr>, q: Ptr)
    requires GraphInv(g, held) && q in held
    ensures Live(g.cells, q) && g.cells[q].obj.PooledSession?
    ensures Live(g.cells, g.cells[q].obj.pool) && g.cells[g.cells[q].obj.pool].obj.SessionPool?
  {
    assert OpenSession(g, q) && Owned(g, q) && Owned(g, g.cells[q].obj.pool);
  }

  lemma KnownLive(g: Graph, held: set<Ptr>, q: Ptr)
    requires GraphInv(g, held)
    ensures ResolverLive(g.cells, g.resolver, q)
  {
    if q in g.resolver {
      assert KnownOk(g, q) && Owned(g, g.resolver[q]);
    }
  }

  /** A failed lookup may leave a new session resolver behind, and nothing else. */
  lemma LookUpInv(o: Oracle, s: State, held: set<Ptr>, q: Ptr, name: string)
    requires InUse(s, held, q)
    ensures var (h, calls, out) := LookUp(o, s.g, s.calls, q, name, s.settings.pubSub);
      var t := s.(g := h, calls := calls);
      && (out.Ok? ==> (t, out) == Resolve(o, s, q, name))
      && (out.Fail? ==> Inv(t, held) && (Teardown(t), out) == Resolve(o, s, q, name))
  {
    hide GraphInv, Teardown, CellsAge, Grows, AddDestination, ResolverAt;
    ResolverOutcome(s, held, q);
  }

  lemma FindDestLive(o: Oracle, s: State, held: set<Ptr>, q: Ptr, arg: DestArg)
    requires InUse(s, held, q)
    ensures var (t, r) := FindDest(o, s, q, arg);
      r.Ok? && r.value.Resolved? ==> Live(t.g.cells, r.value.p) && t.g.cells[r.value.p].obj.Destination?
  {
    hide GraphInv, CellsAge, Grows, Resolve;
    match arg
    case Given(dest) =>
    case Named(name) =>
      ResolveOutcome(o, s, held, q, name);
      var (t, r) := Resolve(o, s, q, name);
      if r.Ok? { LiveDestination(t.g, held, r.value); }
    case Default =>
      if s.defaultDest.None? {
        ResolveOutcome(o, s, held, q, s.settings.name);
        var (t, r) := Resolve(o, s, q, s.settings.name);
        if r.Ok? { LiveDestination(t.g, held, r.value); }
      } else if s.defaultDest.value.Resolved? {
        LiveDestination(s.g, held, s.defaultDest.value.p);
      }
  }

  lemma InitGood(s: State, held: set<Ptr>)
    requires Good(s, held)
    ensures Good(s.(initialized := true), held)
  {
    hide GraphInv;
  }

  lemma StillLive(s: State, t: State, w: Ptr)
    requires s.g.connection.Some? && Progress(s, t) && Live(s.g.cells, w)
    ensures Live(t.g.cells, w)
  {
  }
}

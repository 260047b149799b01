/**
  Sessions over every run: which mode a callback gets, where its session goes back to, and how
  many sessions nesting can make a pool create.
 */
module TemplateSessions {
  import opened CacheKeys
  import opened Collections
  import opened CppHeap
  import opened Options
  import opened TemplateState
  import opened TemplateInvariant
  import opened TemplateGrowth
  import opened TemplateSteps
  import opened TemplateOperations

  /** A callback's session has the mode configured when it was taken, down to the provider's
      session, and goes back to the end of the very pool it came from, whatever mode the
      callback configured meanwhile; no other pool changes. */
  lemma SessionReturnsHome(o: Oracle, s: State, held: set<Ptr>, action: Action)
    requires Good(s, held) && Exec(o, s, Do(action)).1
    ensures var (s1, r) := Take(o, s.(initialized := true));
      && r.Ok?
      && var q, p := r.value, SessionAt(s1.g, r.value).pool;
         var (s2, t) := (Act(o, s1, q, action).0, Exec(o, s, Do(action)).0);
         && PoolAt(s1.g, p).mode == s.settings.mode
         && At(s1.g, SessionAt(s1.g, q).raw) == Session(PoolAt(s1.g, p).connection, s.settings.mode)
         && PoolAt(t.g, p) == PoolAt(s2.g, p).(available := PoolAt(s2.g, p).available + [q])
         && PoolAt(t.g, p).mode == s.settings.mode
         && (forall x: Ptr :: x != p ==> At(t.g, x) == At(s2.g, x))
  {
    hide GraphInv, CellsAge, Grows, Take, Act;
    var s0 := s.(initialized := true);
    TakeOutcome(o, s0, held);
    var (s1, r) := Take(o, s0);
    var q := r.value;
    WrappedMode(s1.g, held + {q}, q);
    ActOutcome(o, s1, held + {q}, q, action);
    var s2 := Act(o, s1, q, action).0;
    HomeKept(s1.g, s2.g, q);
  }

  lemma WrappedMode(g: Graph, held: set<Ptr>, q: Ptr)
    requires GraphInv(g, held) && q in held
    ensures var pool := PoolAt(g, SessionAt(g, q).pool);
      OpenSession(g, q) && At(g, SessionAt(g, q).raw) == Session(pool.connection, pool.mode)
  {
    assert WrapOk(g, q);
  }

  lemma HomeKept(g: Graph, h: Graph, q: Ptr)
    requires Grows(g, h) && OpenSession(g, q)
    ensures SessionAt(h, q).pool == SessionAt(g, q).pool && SessionAt(g, q).pool < |h.cells|
    ensures var p := SessionAt(g, q).pool; PoolAt(h, p).mode == PoolAt(g, p).mode && At(h, p).SessionPool?
  {
    var n, p := |g.cells|, g.cells[q].obj.pool;
    assert ObjGrows(n, g.cells[q].obj, h.cells[q].obj) && ObjGrows(n, g.cells[p].obj, h.cells[p].obj);
  }

  // ---- How many sessions a pool creates ----

  function Max(a: nat, b: nat): nat {
    if a < b then b else a
  }

  /** How deeply session callbacks nest in a call. */
  function Depth(op: Op): nat {
    match op
    case Do(InSession(body)) => 1 + ScriptDepth(body)
    case Do(WithProducer(_, body)) => 1 + ScriptDepth(body)
    case Do(_) => 1
    case _ => 0
  }

  function ScriptDepth(script: Script): nat {
    match script
    case Then(op, rest) => Max(Depth(op), ScriptDepth(rest))
    case _ => 0
  }

  ghost predicate Bounded(g: Graph, bound: nat) {
    forall p: Ptr :: OpenPool(g, p) ==> |g.cells[p].obj.sessions| <= bound
  }

  /** No pool gains a session. */
  ghost predicate SamePools(g: Graph, h: Graph) {
    forall p: Ptr :: OpenPool(h, p) ==> OpenPool(g, p) && h.cells[p].obj.sessions == g.cells[p].obj.sessions
  }

  lemma NoDupFits(xs: seq<Ptr>, s: set<Ptr>)
    requires NoDup(xs) && forall x :: x in xs ==> x in s
    ensures |xs| <= |s|
  {
    if xs != [] {
      var last := xs[|xs| - 1];
      var rest := xs[..|xs| - 1];
      forall x | x in rest ensures x in s - {last} {
        var i :| 0 <= i < |rest| && rest[i] == x;
        assert xs[i] != xs[|xs| - 1];
      }
      NoDupFits(rest, s - {last});
    }
  }

  /** A pool creates a session only when all of its sessions are held. */
  lemma AddSessionBound(g: Graph, held: set<Ptr>, p: Ptr, bound: nat)
    requires GraphInv(g, held) && OpenPool(g, p) && PoolAt(g, p).available == []
    requires Bounded(g, bound) && |held| < bound
    ensures Bounded(AddSession(g, p), bound)
  {
    var h := AddSession(g, p);
    assert PoolOk(g, held, p);
    NoDupFits(g.cells[p].obj.sessions, held);
    AddSessionGrows(g, p);
    AddSessionPool(g, p);
    forall x: Ptr | OpenPool(h, x) ensures |h.cells[x].obj.sessions| <= bound {
      OldPool(g, h, x);
      PoolGrows(g, h, x);
    }
  }

  lemma OpenPoolsBound(g: Graph, bound: nat)
    ensures Bounded(OpenPools(g), bound)
  {
    var h := OpenPools(g);
    forall p: Ptr | OpenPool(h, p) ensures |h.cells[p].obj.sessions| <= bound {
      assert p >= |g.cells|;
    }
  }

  lemma TakeBound(o: Oracle, s: State, held: set<Ptr>, bound: nat)
    requires Good(s, held) && s.initialized && Bounded(s.g, bound) && |held| < bound
    ensures var (t, r) := Take(o, s); r.Ok? ==> Bounded(t.g, bound)
  {
    hide GraphInv, CellsAge, Grows, AddSession, OpenPools;
    ConnectOutcome(o, s, held);
    var (s1, ok) := Connect(o, s);
    if ok {
      OpenPoolsBound(AddConnection(s.g), bound);
      var p := PoolFor(s1.g, s1.settings.mode);
      OpenPoolFor(s1.g, held, s1.settings.mode);
      if PoolAt(s1.g, p).available == [] {
        AddSessionBound(s1.g, held, p, bound);
      } else {
        AvailableBound(s1.g, p, PoolAt(s1.g, p).available[1..], bound);
      }
    }
  }

  lemma AvailableBound(g: Graph, p: Ptr, available: seq<Ptr>, bound: nat)
    requires Bounded(g, bound) && OpenPool(g, p)
    ensures Bounded(WithAvailable(g, p, available), bound)
  {
    var h := WithAvailable(g, p, available);
    forall x: Ptr | OpenPool(h, x) ensures |h.cells[x].obj.sessions| <= bound {
      assert OpenPool(g, x);
    }
  }

  lemma ResolvePools(o: Oracle, s: State, held: set<Ptr>, q: Ptr, name: string)
    requires InUse(s, held, q)
    ensures var (t, r) := Resolve(o, s, q, name); r.Ok? ==> SamePools(s.g, t.g)
  {
    hide GraphInv, CellsAge, Grows;
    if q in s.g.resolver { KnownResolver(s.g, held, q); }
  }

  lemma KnownResolver(g: Graph, held: set<Ptr>, q: Ptr)
    requires GraphInv(g, held) && q in g.resolver
    ensures At(g, g.resolver[q]).SessionResolver?
  {
    assert KnownOk(g, q);
  }

  lemma FindDestPools(o: Oracle, s: State, held: set<Ptr>, q: Ptr, arg: DestArg)
    requires InUse(s, held, q)
    ensures var (t, r) := FindDest(o, s, q, arg); r.Ok? ==> SamePools(s.g, t.g)
  {
    hide GraphInv, CellsAge, Grows;
    match arg
    case Given(dest) =>
    case Named(name) => ResolvePools(o, s, held, q, name);
    case Default => if s.defaultDest.None? { ResolvePools(o, s, held, q, s.settings.name); }
  }

  lemma CachedPools(o: Oracle, s: State, held: set<Ptr>, q: Ptr, client: Client)
    requires InUse(s, held, q)
    ensures var (t, r) := Cached(o, s, q, client); r.Ok? ==> SamePools(s.g, t.g)
  {
    hide GraphInv, CellsAge, Grows, Key;
    HeldOpen(s.g, held, q);
  }

  lemma ClientPools(o: Oracle, s: State, held: set<Ptr>, q: Ptr, arg: DestArg, selector: string, noLocal: bool)
    requires InUse(s, held, q)
    ensures var (t, r) := MakeProducer(o, s, q, arg); r.Ok? ==> SamePools(s.g, t.g)
    ensures var (t, r) := MakeConsumer(o, s, q, arg, selector, noLocal); r.Ok? ==> SamePools(s.g, t.g)
  {
    hide GraphInv, CellsAge, Grows, Key, Meant, FindDest, Cached;
    FindDestOutcome(o, s, held, q, arg);
    FindDestPools(o, s, held, q, arg);
    var (s1, ref) := FindDest(o, s, q, arg);
    if ref.Ok? {
      CachedPools(o, s1, held, q, ProducerFor(Denotes(s1.g, ref.value)));
      CachedPools(o, s1, held, q, ConsumerFor(Denotes(s1.g, ref.value), selector, noLocal));
    }
  }

  lemma {:induction false} ScriptBound(o: Oracle, s: State, held: set<Ptr>, script: Script, bound: nat)
    requires Good(s, held) && s.g.connection.Some?
    requires Bounded(s.g, bound) && |held| + ScriptDepth(script) <= bound
    ensures var (t, ok) := RunScript(o, s, script); ok ==> Bounded(t.g, bound)
    decreases script
  {
    hide GraphInv, CellsAge, Grows, Bounded;
    if script.Then? {
      ExecOutcome(o, s, held, script.op);
      ExecBound(o, s, held, script.op, bound);
      var (s1, ok) := Exec(o, s, script.op);
      if ok {
        StillConnected(s, s1);
        ScriptBound(o, s1, held, script.rest, bound);
      }
    }
  }

  lemma {:induction false} ActBound(o: Oracle, s: State, held: set<Ptr>, q: Ptr, action: Action, bound: nat)
    requires InUse(s, held, q)
    requires Bounded(s.g, bound) && |held| + Depth(Do(action)) <= bound + 1
    ensures var (t, ok) := Act(o, s, q, action); ok ==> Bounded(t.g, bound)
    decreases action, 0
  {
    hide GraphInv, CellsAge, Grows, EntryOk, MakeProducer, MakeConsumer, RunScript, Meant, Key;
    match action
    case InSession(body) =>
      var s1 := Noted(s, CalledBack(q, None));
      Recorded(s, s1, held);
      ScriptBound(o, s1, held, body, bound);
    case WithProducer(arg, body) =>
      MakeProducerOutcome(o, s, held, q, arg);
      ClientPools(o, s, held, q, arg, "", false);
      var (s1, r) := MakeProducer(o, s, q, arg);
      if r.Ok? {
        var s2 := Noted(s1, CalledBack(q, Some(RawOf(s1.g, r.value))));
        Recorded(s1, s2, held);
        ScriptBound(o, s2, held, body, bound);
      }
    case Send(arg) => ClientPools(o, s, held, q, arg, "", false);
    case Receive(arg, selector) => ClientPools(o, s, held, q, arg, selector, s.settings.noLocal);
  }

  lemma {:induction false} ExecBound(o: Oracle, s: State, held: set<Ptr>, op: Op, bound: nat)
    requires Good(s, held)
    requires Bounded(s.g, bound) && |held| + Depth(op) <= bound
    ensures var (t, ok) := Exec(o, s, op); ok ==> Bounded(t.g, bound)
    decreases op
  {
    hide GraphInv, CellsAge, Grows;
    if op.Do? {
      var s0 := s.(initialized := true);
      TakeOutcome(o, s0, held);
      TakeBound(o, s0, held, bound);
      var (s1, r) := Take(o, s0);
      if r.Ok? { ActBound(o, s1, held + {r.value}, r.value, op.action, bound); }
    }
  }

  /** In every run whose callbacks nest at most `bound` deep, no pool ever holds more than
      `bound` sessions; without nesting, one per acknowledge mode and connection. */
  lemma {:induction false} NestingBoundsSessions(o: Oracle, s: State, ops: seq<Op>, bound: nat)
    requires Good(s, {}) && Bounded(s.g, bound)
    requires forall i :: 0 <= i < |ops| ==> Depth(ops[i]) <= bound
    ensures Bounded(Run(o, s, ops).g, bound)
    decreases |ops|
  {
    hide GraphInv, CellsAge, Grows;
    if ops != [] {
      ExecOutcome(o, s, {}, ops[0]);
      ExecBound(o, s, {}, ops[0], bound);
      NestingBoundsSessions(o, Exec(o, s, ops[0]).0, ops[1..], bound);
    }
  }
}

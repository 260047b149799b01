/**
  A session pool shared by any number of clients.  The pool's mutex makes each take and each
  return one atomic step, so a concurrent execution is an interleaving of such steps.
 */
module PoolClients {
  import opened Collections
  import opened CppHeap
  import opened TemplateState

  /** The pool's two lists and the sessions each client holds. */
  datatype System = System(available: seq<Ptr>, sessions: seq<Ptr>, holds: seq<set<Ptr>>)

  /** A take carries the address at which a new session would be allocated. */
  datatype Step = Take(client: nat, fails: bool, address: Ptr) | GiveBack(client: nat, q: Ptr)

  function Nobody(clients: nat): (holds: seq<set<Ptr>>)
    ensures |holds| == clients && forall c :: 0 <= c < clients ==> holds[c] == {}
  {
    seq(clients, _ => {})
  }

  function Start(clients: nat): System {
    System([], [], Nobody(clients))
  }

  /** Clients exist, return only what they hold, and new addresses are new. */
  predicate Enabled(s: System, step: Step) {
    match step
    case Take(c, _, address) => c < |s.holds| && address !in s.sessions
    case GiveBack(c, q) => c < |s.holds| && q in s.holds[c]
  }

  function Next(s: System, step: Step): System
    requires Enabled(s, step)
  {
    match step
    case Take(c, fails, address) =>
      if s.available != [] then
        s.(available := s.available[1..], holds := s.holds[c := s.holds[c] + {s.available[0]}])
      else if fails then s
      else System([], s.sessions + [address], s.holds[c := s.holds[c] + {address}])
    case GiveBack(c, q) => Given(s, c, q)
  }

  /** What returnSession does, whoever holds q. */
  function Given(s: System, c: nat, q: Ptr): System
    requires c < |s.holds|
  {
    s.(available := s.available + [q], holds := s.holds[c := s.holds[c] - {q}])
  }

  ghost predicate Legal(s: System, steps: seq<Step>)
    decreases |steps|
  {
    steps == [] || (Enabled(s, steps[0]) && Legal(Next(s, steps[0]), steps[1..]))
  }

  ghost function Run(s: System, steps: seq<Step>): System
    requires Legal(s, steps)
    decreases |steps|
  {
    if steps == [] then s else Run(Next(s, steps[0]), steps[1..])
  }

  /** How many sessions are out. */
  function Out(holds: seq<set<Ptr>>): nat {
    if holds == [] then 0 else Out(holds[..|holds| - 1]) + |holds[|holds| - 1]|
  }

  /** The high-water mark of sessions out at the same time. */
  ghost function Peak(s: System, steps: seq<Step>): nat
    requires Legal(s, steps)
    decreases |steps|
  {
    if steps == [] then Out(s.holds)
    else
      var later := Peak(Next(s, steps[0]), steps[1..]);
      if Out(s.holds) < later then later else Out(s.holds)
  }

  /** No session is listed twice, and none is both available and held or held twice. */
  ghost predicate Apart(s: System) {
    && NoDup(s.available) && NoDup(s.sessions)
    && (forall q :: q in s.available ==> q in s.sessions)
    && (forall c, q :: 0 <= c < |s.holds| && q in s.holds[c] ==> q in s.sessions && q !in s.available)
    && (forall c, d, q :: 0 <= c < d < |s.holds| && q in s.holds[c] ==> q !in s.holds[d])
  }

  ghost predicate SomeoneHolds(s: System, q: Ptr) {
    exists c :: 0 <= c < |s.holds| && q in s.holds[c]
  }

  ghost predicate Covered(s: System) {
    forall q :: q in s.sessions ==> q in s.available || SomeoneHolds(s, q)
  }

  /** Every session is available or held by exactly one client. */
  ghost predicate Partition(s: System) {
    Apart(s) && Covered(s) && |s.available| + Out(s.holds) == |s.sessions|
  }

  lemma {:induction false} OutUpdate(holds: seq<set<Ptr>>, c: nat, t: set<Ptr>)
    requires c < |holds|
    ensures Out(holds[c := t]) == Out(holds) - |holds[c]| + |t|
  {
    var n := |holds| - 1;
    var h := holds[c := t];
    if c == n {
      assert h[..n] == holds[..n];
    } else {
      assert h[..n] == holds[..n][c := t];
      OutUpdate(holds[..n], c, t);
    }
  }

  lemma {:induction false} OutStart(clients: nat)
    ensures Out(Nobody(clients)) == 0
  {
    if clients > 0 {
      assert Nobody(clients)[..clients - 1] == Nobody(clients - 1);
      OutStart(clients - 1);
    }
  }

  lemma NotHeld(s: System, q: Ptr)
    requires Apart(s) && (q in s.available || q !in s.sessions)
    ensures forall c :: 0 <= c < |s.holds| ==> q !in s.holds[c]
  {
    forall c | 0 <= c < |s.holds| ensures q !in s.holds[c] {
      assert q in s.holds[c] ==> q in s.sessions && q !in s.available;
    }
  }

  /** One client's holdings change; the others keep theirs. */
  lemma HoldersKept(s: System, t: System, c: nat, q: Ptr)
    requires c < |s.holds| == |t.holds|
    requires forall d :: 0 <= d < |s.holds| && d != c ==> t.holds[d] == s.holds[d]
    requires forall x :: x in s.holds[c] && x != q ==> x in t.holds[c]
    ensures forall x: Ptr :: x != q && SomeoneHolds(s, x) ==> SomeoneHolds(t, x)
  {
    forall x: Ptr | x != q && SomeoneHolds(s, x) ensures SomeoneHolds(t, x) {
      var d :| 0 <= d < |s.holds| && x in s.holds[d];
      assert x in t.holds[d];
    }
  }

  lemma TakeAvailable(s: System, step: Step)
    requires Partition(s) && step.Take? && Enabled(s, step) && s.available != []
    ensures Partition(Next(s, step))
  {
    var c, q, t := step.client, s.available[0], Next(s, step);
    assert s.available == [q] + t.available;
    NotHeld(s, q);
    OutUpdate(s.holds, c, s.holds[c] + {q});
    HoldersKept(s, t, c, q);
    assert q in t.holds[c];
    assert SomeoneHolds(t, q);
    TakeAvailableApart(s, step);
    hide Apart;
  }

  lemma TakeAvailableApart(s: System, step: Step)
    requires Apart(s) && step.Take? && Enabled(s, step) && s.available != []
    ensures Apart(Next(s, step))
  {
    var q, t := s.available[0], Next(s, step);
    assert s.available == [q] + t.available;
    NotHeld(s, q);
  }

  lemma TakeNew(s: System, step: Step)
    requires Partition(s) && step.Take? && Enabled(s, step) && s.available == [] && !step.fails
    ensures Partition(Next(s, step))
  {
    var c, q, t := step.client, step.address, Next(s, step);
    NotHeld(s, q);
    OutUpdate(s.holds, c, s.holds[c] + {q});
    HoldersKept(s, t, c, q);
    assert q in t.holds[c];
    assert SomeoneHolds(t, q);
    TakeNewApart(s, step);
    hide Apart;
  }

  lemma TakeNewApart(s: System, step: Step)
    requires Apart(s) && step.Take? && Enabled(s, step) && s.available == [] && !step.fails
    ensures Apart(Next(s, step))
  {
    NotHeld(s, step.address);
  }

  lemma GivenBack(s: System, c: nat, q: Ptr)
    requires Partition(s) && Enabled(s, GiveBack(c, q))
    ensures Partition(Next(s, GiveBack(c, q)))
  {
    var t := Next(s, GiveBack(c, q));
    OutUpdate(s.holds, c, s.holds[c] - {q});
    HoldersKept(s, t, c, q);
    assert t.available[|s.available|] == q;
    GivenBackApart(s, c, q);
    hide Apart;
  }

  lemma GivenBackApart(s: System, c: nat, q: Ptr)
    requires Apart(s) && Enabled(s, GiveBack(c, q))
    ensures Apart(Next(s, GiveBack(c, q)))
  {
    assert q in s.sessions && q !in s.available;
  }

  lemma StepKeepsPartition(s: System, step: Step)
    requires Partition(s) && Enabled(s, step)
    ensures Partition(Next(s, step))
  {
    match step
    case Take(_, fails, _) =>
      if s.available != [] {
        TakeAvailable(s, step);
      } else if !fails {
        TakeNew(s, step);
      }
    case GiveBack(c, q) => GivenBack(s, c, q);
  }

  lemma StartPartition(clients: nat)
    ensures Partition(Start(clients))
  {
    OutStart(clients);
  }

  /** In every interleaving each session is available or held by exactly one client. */
  lemma {:induction false} EveryInterleavingPartitions(s: System, steps: seq<Step>)
    requires Partition(s) && Legal(s, steps)
    ensures Partition(Run(s, steps))
    decreases |steps|
  {
    if steps != [] {
      StepKeepsPartition(s, steps[0]);
      EveryInterleavingPartitions(Next(s, steps[0]), steps[1..]);
    }
  }

  /** The pool creates exactly as many sessions as were ever out at the same time. */
  lemma {:induction false} SessionsAreHighWaterMark(s: System, steps: seq<Step>)
    requires Partition(s) && Legal(s, steps)
    ensures var peak := Peak(s, steps);
      |Run(s, steps).sessions| == if |s.sessions| < peak then peak else |s.sessions|
    decreases |steps|
  {
    if steps != [] {
      StepKeepsPartition(s, steps[0]);
      SessionsAreHighWaterMark(Next(s, steps[0]), steps[1..]);
      PeakCovers(Next(s, steps[0]), steps[1..]);
    }
  }

  lemma PeakCovers(s: System, steps: seq<Step>)
    requires Legal(s, steps)
    ensures Out(s.holds) <= Peak(s, steps)
  {
  }

  /** For a pool that starts empty: sessions ever created, clients sharing none. */
  lemma PoolTheorem(clients: nat, steps: seq<Step>)
    requires Legal(Start(clients), steps)
    ensures var s := Run(Start(clients), steps);
      && |s.sessions| == Peak(Start(clients), steps)
      && (forall c, d, q :: 0 <= c < d < |s.holds| && q in s.holds[c] ==> q !in s.holds[d])
      && (forall q :: q in s.sessions <==> q in s.available || SomeoneHolds(s, q))
  {
    StartPartition(clients);
    EveryInterleavingPartitions(Start(clients), steps);
    SessionsAreHighWaterMark(Start(clients), steps);
  }

  // ---- Returning what one does not hold ----

  /** The pool does not check what is returned: a return keeps the partition if and only if the
      client holds the session. */
  lemma ReturnExact(s: System, c: nat, q: Ptr)
    requires Partition(s) && c < |s.holds|
    ensures Partition(Given(s, c, q)) <==> q in s.holds[c]
  {
    if q in s.holds[c] {
      GivenBack(s, c, q);
    } else {
      assert s.holds[c] - {q} == s.holds[c];
      OutUpdate(s.holds, c, s.holds[c]);
    }
  }

  /** The next n available sessions go to client c. */
  function TakeMany(s: System, c: nat, address: Ptr, n: nat): (t: System)
    requires Enabled(s, Take(c, true, address)) && n <= |s.available|
    ensures t.available == s.available[n..] && |t.holds| == |s.holds| && t.sessions == s.sessions
    decreases n
  {
    if n == 0 then s else TakeMany(Next(s, Take(c, true, address)), c, address, n - 1)
  }

  /** After returning a session twice, the two clients who get to the end of the list hold it
      together. */
  lemma DoubleReturnShares(s: System, c: nat, q: Ptr, d: nat, e: nat, address: Ptr)
    requires c < |s.holds| && d < |s.holds| && e < |s.holds| && d != e && address !in s.sessions
    ensures var twice := Given(Given(s, c, q), c, q);
      var t := TakeMany(twice, c, address, |s.available|);
      var u := Next(Next(t, Take(d, true, address)), Take(e, true, address));
      q in u.holds[d] && q in u.holds[e]
  {
    var twice := Given(Given(s, c, q), c, q);
    assert twice.available[|s.available|..] == [q, q];
  }

  // ---- The pool's code ----

  /** A pool's heap and what each client holds. */
  datatype Shared = Shared(g: Graph, holds: seq<set<Ptr>>)

  /** What the clients of pool p do.  Between their calls on the pool, anything else may happen to
      the graph that leaves the pool and its sessions in place. */
  datatype Call = TakeSession(client: nat, fails: bool) | CloseSession(client: nat, q: Ptr) | Elsewhere(h: Graph)

  /** The pool is there, and its sessions know it. */
  ghost predicate Backed(g: Graph, p: Ptr) {
    && At(g, p).SessionPool?
    && forall q :: q in PoolAt(g, p).sessions ==> q < |g.cells| && At(g, q).PooledSession? && SessionAt(g, q).pool == p
  }

  ghost predicate Allowed(x: Shared, p: Ptr, call: Call) {
    match call
    case TakeSession(c, _) => c < |x.holds|
    case CloseSession(c, q) => c < |x.holds| && q in x.holds[c]
    case Elsewhere(h) => Backed(h, p) && At(h, p) == At(x.g, p)
  }

  ghost function Serve(x: Shared, p: Ptr, call: Call): Shared
    requires Allowed(x, p, call)
  {
    match call
    case TakeSession(c, fails) =>
      (match PoolTake(x.g, p, fails)
       case (h, Ok(q)) => Shared(h, x.holds[c := x.holds[c] + {q}])
       case (h, Fail) => x.(g := h))
    case CloseSession(c, q) => Shared(Return(x.g, q), x.holds[c := x.holds[c] - {q}])
    case Elsewhere(h) => x.(g := h)
  }

  ghost predicate AllAllowed(x: Shared, p: Ptr, calls: seq<Call>)
    decreases |calls|
  {
    calls == [] || (Allowed(x, p, calls[0]) && AllAllowed(Serve(x, p, calls[0]), p, calls[1..]))
  }

  ghost function ServeAll(x: Shared, p: Ptr, calls: seq<Call>): Shared
    requires AllAllowed(x, p, calls)
    decreases |calls|
  {
    if calls == [] then x else ServeAll(Serve(x, p, calls[0]), p, calls[1..])
  }

  function View(x: Shared, p: Ptr): System {
    System(PoolAt(x.g, p).available, PoolAt(x.g, p).sessions, x.holds)
  }

  /** The steps that the calls are; a new session lies behind the new provider session. */
  ghost function Steps(x: Shared, p: Ptr, calls: seq<Call>): seq<Step>
    requires AllAllowed(x, p, calls)
    decreases |calls|
  {
    if calls == [] then []
    else
      var later := Steps(Serve(x, p, calls[0]), p, calls[1..]);
      match calls[0]
      case TakeSession(c, fails) => [Take(c, fails, |x.g.cells| + 1)] + later
      case CloseSession(c, q) => [GiveBack(c, q)] + later
      case Elsewhere(_) => later
  }

  lemma ServesTake(x: Shared, p: Ptr, c: nat, fails: bool)
    requires Backed(x.g, p) && c < |x.holds|
    ensures var y, step := Serve(x, p, TakeSession(c, fails)), Take(c, fails, |x.g.cells| + 1);
      Backed(y.g, p) && Enabled(View(x, p), step) && View(y, p) == Next(View(x, p), step)
  {
  }

  lemma ServesClose(x: Shared, p: Ptr, c: nat, q: Ptr)
    requires Backed(x.g, p) && c < |x.holds| && q in x.holds[c] && q in PoolAt(x.g, p).sessions
    ensures var y, step := Serve(x, p, CloseSession(c, q)), GiveBack(c, q);
      Backed(y.g, p) && Enabled(View(x, p), step) && View(y, p) == Next(View(x, p), step)
  {
  }

  /** Every run of the pool's code among its clients is an interleaving of atomic steps. */
  lemma {:induction false} CodeIsInterleaving(x: Shared, p: Ptr, calls: seq<Call>)
    requires Backed(x.g, p) && Partition(View(x, p)) && AllAllowed(x, p, calls)
    ensures var steps := Steps(x, p, calls);
      Legal(View(x, p), steps) && View(ServeAll(x, p, calls), p) == Run(View(x, p), steps)
    decreases |calls|
  {
    if calls != [] {
      var y := Serve(x, p, calls[0]);
      var steps, later := Steps(x, p, calls), Steps(y, p, calls[1..]);
      match calls[0]
      case TakeSession(c, fails) =>
        ServesTake(x, p, c, fails);
        StepKeepsPartition(View(x, p), steps[0]);
        CodeIsInterleaving(y, p, calls[1..]);
        assert steps[1..] == later;
      case CloseSession(c, q) =>
        ServesClose(x, p, c, q);
        StepKeepsPartition(View(x, p), steps[0]);
        CodeIsInterleaving(y, p, calls[1..]);
        assert steps[1..] == later;
      case Elsewhere(h) => CodeIsInterleaving(y, p, calls[1..]);
    }
  }

  /** So whatever the clients of a new pool do, and whatever happens elsewhere, its sessions are
      partitioned, and it has created exactly as many as were ever out at the same time. */
  lemma PoolCodeTheorem(g: Graph, p: Ptr, clients: nat, calls: seq<Call>)
    requires At(g, p).SessionPool? && PoolAt(g, p).available == [] && PoolAt(g, p).sessions == []
    requires AllAllowed(Shared(g, Nobody(clients)), p, calls)
    ensures var x := Shared(g, Nobody(clients));
      var s, steps := View(ServeAll(x, p, calls), p), Steps(x, p, calls);
      Partition(s) && Legal(Start(clients), steps) && |s.sessions| == Peak(Start(clients), steps)
  {
    var x := Shared(g, Nobody(clients));
    StartPartition(clients);
    assert View(x, p) == Start(clients);
    CodeIsInterleaving(x, p, calls);
    EveryInterleavingPartitions(Start(clients), Steps(x, p, calls));
    PoolTheorem(clients, Steps(x, p, calls));
  }
}

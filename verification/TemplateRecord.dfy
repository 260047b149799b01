/**
  The template's record of its own uses of the provider, and what it means that the record
  follows the reference.
 */
module TemplateRecord {
  import opened CacheKeys
  import opened CppHeap
  import opened Options
  import opened TemplateState
  import opened TemplateGrowth
  import opened TemplateOperations
  import opened TemplateAnswers
  import opened TemplateProgress
  import opened TemplateReference

  /** What the reference remembers of a state.  A default that the template resolved itself is
      no more than its name. */
  ghost function View(s: State): Config {
    Config(
      s.settings,
      if s.defaultDest.Some? && s.defaultDest.value.Foreign? then Some(s.defaultDest.value.dest) else None,
      s.g.connection.Some?)
  }

  // ---- Reading the record ----

  /** Pooled session q wraps a provider session of this mode. */
  ghost predicate ModeIs(g: Graph, q: Ptr, mode: AckMode) {
    At(g, q).PooledSession? && At(g, At(g, q).raw).Session? && At(g, At(g, q).raw).mode == mode
  }

  /** Without `exact` a consumer is only known to have the requested cache key. */
  ghost predicate Asked(c: Client, d: Client, exact: bool) {
    if exact || d.ProducerFor? then SameRequest(c, d) else c.ConsumerFor? && Key(c) == Key(d)
  }

  /** The provider's client r was created in a session of this mode for this request. */
  ghost predicate ClientIs(g: Graph, r: Ptr, mode: AckMode, client: Client, exact: bool) {
    At(g, r).RawClient? && ModeIs(g, At(g, r).session, mode) && Asked(At(g, r).client, client, exact)
  }

  ghost predicate MessageAt(g: Graph, m: Ptr) {
    m < |g.cells| && g.cells[m].obj.Message?
  }

  ghost predicate Shows(g: Graph, use: Use, e: Effect, exact: bool) {
    match use
    case Started(c) => e.Starts? && At(g, c).Connection?
    case CalledBack(q, r) =>
      && e.Runs? && ModeIs(g, q, e.mode) && (r.Some? <==> e.producer.Some?)
      && (r.Some? ==> ClientIs(g, r.value, e.mode, e.producer.value, exact) && At(g, r.value).session == q)
    case SetMessageId(r) => e.SetsMessageId? && ClientIs(g, r, e.mode, e.client, exact)
    case SetTimestamp(r) => e.SetsTimestamp? && ClientIs(g, r, e.mode, e.client, exact)
    case MadeMessage(q) => e.Makes? && ModeIs(g, q, e.mode)
    case Sent(r, m) => e.Sends? && ClientIs(g, r, e.mode, e.client, exact) && MessageAt(g, m)
    case Dropped(m) => e.Drops? && MessageAt(g, m)
    case ReceivedOn(r) => e.Receives? && ClientIs(g, r, e.mode, e.client, exact)
  }

  ghost predicate Matches(g: Graph, records: seq<Record>, effects: seq<Effect>, exact: bool) {
    && |records| <= |effects|
    && forall i :: 0 <= i < |records| ==> Shows(g, records[i].use, effects[i], exact)
  }

  ghost predicate Clean(records: seq<Record>) {
    forall i :: 0 <= i < |records| ==> !records[i].threw
  }

  /** After a use that threw, only its message is dropped. */
  ghost predicate ThrewLast(records: seq<Record>) {
    forall i, j :: 0 <= i < j < |records| && records[i].threw ==> records[j].use.Dropped?
  }

  ghost function New(s: State, t: State): seq<Record> {
    if |s.trace| <= |t.trace| then t.trace[|s.trace|..] else []
  }

  /** What happened from s to t is what the report says: all of it if the call returned normally,
      and a beginning of it otherwise.  If no provider call fails the report says whether the
      call returns normally, and what is left behind. */
  ghost predicate Follows(o: Oracle, s: State, t: State, ok: bool, r: Report, exact: bool) {
    && s.trace <= t.trace
    && Matches(t.g, New(s, t), r.effects, exact) && ThrewLast(New(s, t))
    && (ok ==> r.done && Clean(New(s, t)))
    && (NeverFails(o) ==> (ok <==> r.done))
    && (ok || NeverFails(o) ==> |New(s, t)| == |r.effects| && View(t) == r.config)
  }

  // ---- Facts about records ----

  /** Objects stay what they are, over any number of connections. */
  ghost predicate Kept(g: Graph, h: Graph) {
    && |g.cells| <= |h.cells|
    && forall p :: 0 <= p < |g.cells| ==> ObjGrows(|g.cells|, g.cells[p].obj, h.cells[p].obj)
  }

  lemma KeptTrans(g: Graph, h: Graph, k: Graph)
    requires Kept(g, h) && Kept(h, k)
    ensures Kept(g, k)
  {
    forall p | 0 <= p < |g.cells| ensures ObjGrows(|g.cells|, g.cells[p].obj, k.cells[p].obj) {
      ObjGrowsTrans(|g.cells|, |h.cells|, g.cells[p].obj, h.cells[p].obj, k.cells[p].obj);
    }
  }

  lemma TornKept(s: State)
    ensures Kept(s.g, Teardown(s).g)
  {
    TeardownAges(s);
  }

  lemma AtAges(g: Graph, h: Graph, p: Ptr)
    requires Kept(g, h) && p < |g.cells|
    ensures p < |h.cells|
    ensures var a, b := At(g, p), At(h, p);
      && (a.PooledSession? ==> b.PooledSession? && b.raw == a.raw)
      && (a.Session? || a.RawClient? || a.Connection? || a.Message? ==> b == a)
  {
    assert ObjGrows(|g.cells|, g.cells[p].obj, h.cells[p].obj);
  }

  lemma ModeAges(g: Graph, h: Graph, q: Ptr, mode: AckMode)
    requires Kept(g, h) && ModeIs(g, q, mode)
    ensures ModeIs(h, q, mode)
  {
    hide CellsAge, Kept;
    AtAges(g, h, q);
    AtAges(g, h, At(g, q).raw);
  }

  lemma ClientAges(g: Graph, h: Graph, r: Ptr, mode: AckMode, client: Client, exact: bool)
    requires Kept(g, h) && ClientIs(g, r, mode, client, exact)
    ensures ClientIs(h, r, mode, client, exact) && At(h, r) == At(g, r)
  {
    hide CellsAge, Kept, ModeIs, Asked;
    AtAges(g, h, r);
    ModeAges(g, h, At(g, r).session, mode);
  }

  /** What a record shows stays true. */
  lemma ShowsAges(g: Graph, h: Graph, use: Use, e: Effect, exact: bool)
    requires Kept(g, h) && Shows(g, use, e, exact)
    ensures Shows(h, use, e, exact)
  {
    hide CellsAge, Kept, ModeIs, ClientIs;
    match use
    case Started(c) => AtAges(g, h, c);
    case CalledBack(q, r) =>
      ModeAges(g, h, q, e.mode);
      if r.Some? { ClientAges(g, h, r.value, e.mode, e.producer.value, exact); }
    case SetMessageId(r) => ClientAges(g, h, r, e.mode, e.client, exact);
    case SetTimestamp(r) => ClientAges(g, h, r, e.mode, e.client, exact);
    case MadeMessage(q) => ModeAges(g, h, q, e.mode);
    case Sent(r, m) =>
      ClientAges(g, h, r, e.mode, e.client, exact);
      AtAges(g, h, m);
    case Dropped(m) => AtAges(g, h, m);
    case ReceivedOn(r) => ClientAges(g, h, r, e.mode, e.client, exact);
  }

  lemma MatchesJoin(g: Graph, h: Graph,
                    a: seq<Record>, b: seq<Record>, x: seq<Effect>, y: seq<Effect>, exact: bool)
    requires Kept(g, h)
    requires Matches(g, a, x, exact) && |a| == |x| && Matches(h, b, y, exact)
    ensures Matches(h, a + b, x + y, exact)
  {
    hide CellsAge, Kept, Shows;
    forall i | 0 <= i < |a| ensures Shows(h, a[i].use, x[i], exact) {
      ShowsAges(g, h, a[i].use, x[i], exact);
    }
  }

  /** One part of a call after another. */
  lemma FollowsOn(o: Oracle, s: State, t: State, u: State, ok: bool, r: Report, q: Report, exact: bool)
    requires Follows(o, s, t, true, r, exact) && Follows(o, t, u, ok, q, exact)
    requires Kept(t.g, u.g)
    ensures Follows(o, s, u, ok, Preceded(r.effects, q), exact)
  {
    var a, b := New(s, t), New(t, u);
    assert s.trace + a == t.trace && t.trace + b == u.trace;
    assert New(s, u) == a + b;
    hide Matches, CellsAge, Kept, View, NeverFails;
    MatchesJoin(t.g, u.g, a, b, r.effects, q.effects, exact);
  }

  /** A part that failed, and what would have come after it. */
  lemma FollowsShort(o: Oracle, s: State, t: State, r: Report, q: Report, exact: bool)
    requires Follows(o, s, t, false, r, exact) && r.done
    ensures Follows(o, s, t, false, Preceded(r.effects, q), exact)
  {
    hide Shows, View;
  }

  /** Nothing recorded. */
  lemma FollowsQuietly(o: Oracle, s: State, t: State, ok: bool, r: Report, exact: bool)
    requires t.trace == s.trace && (ok ==> r == Report([], View(t), true))
    requires NeverFails(o) ==> (ok <==> r.done) && r == Report([], View(t), r.done)
    ensures Follows(o, s, t, ok, r, exact)
  {
    assert New(s, t) == [];
    hide View, NeverFails, Shows;
  }

  lemma PlainFollows(o: Oracle, s: State, use: Use, e: Effect, exact: bool)
    requires Shows(s.g, use, e, exact)
    ensures var (t, ok) := Plain(o, s, use); Follows(o, s, t, ok, Report([e], View(s), true), exact)
  {
    hide Shows;
    var u := Used(o, s, use);
    var (t, ok) := Plain(o, s, use);
    assert New(s, t) == [Record(use, o(s.calls))];
    if !ok {
      TornKept(u);
      ShowsAges(u.g, t.g, use, e, exact);
    }
  }

  lemma NotedFollows(o: Oracle, s: State, use: Use, e: Effect, exact: bool)
    requires Shows(s.g, use, e, exact)
    ensures Follows(o, s, Noted(s, use), true, Report([e], View(s), true), exact)
  {
    hide Shows;
    assert New(s, Noted(s, use)) == [Record(use, false)];
  }

  lemma ViewOfDown(s: State, t: State)
    requires Down(t) && t.settings == s.settings
    ensures View(t) == Failed(View(s)).config
  {
  }
}

/**
  The template refines the reference: what its code records of its own uses of the provider, in
  every call and at every depth of callbacks, is what the reference says.
 */
module TemplateRefinement {
  import opened CacheKeys
  import opened CppHeap
  import opened Options
  import opened TemplateState
  import opened TemplateInvariant
  import opened TemplateGrowth
  import opened TemplateSteps
  import opened TemplateOperations
  import opened TemplateRuns
  import opened TemplateAnswers
  import opened TemplateProgress
  import opened TemplateReference
  import opened TemplateRecord

  // ---- The steps of a call ----

  lemma ConnectFollows(o: Oracle, s: State, held: set<Ptr>, exact: bool)
    requires Good(s, held) && s.initialized
    ensures var (t, ok) := Connect(o, s); Follows(o, s, t, ok, Opening(View(s)), exact)
  {
    hide GraphInv, CellsAge, Kept, Grows, OpenPools;
    ConnectOutcome(o, s, held);
    var (t, ok) := Connect(o, s);
    if s.g.connection.Some? || !s.settings.factory || o(s.calls) {
      FollowsQuietly(o, s, t, ok, Opening(View(s)), exact);
    } else {
      var s1 := Tick(s).(g := AddConnection(s.g));
      var use := Started(|s.g.cells|);
      PlainFollows(o, s1, use, Starts, exact);
      var (s2, _) := Plain(o, s1, use);
      if ok {
        OpenedCell(s.g);
        StartedShown(o, s, t, exact);
      }
    }
  }

  lemma OpenedCell(g: Graph)
    ensures var h := OpenPools(AddConnection(g));
      |g.cells| < |h.cells| && h.cells[|g.cells|].obj.Connection? && h.connection.Some?
  {
  }

  lemma StartedShown(o: Oracle, s: State, t: State, exact: bool)
    requires t.trace == s.trace + [Record(Started(|s.g.cells|), false)]
    requires |s.g.cells| < |t.g.cells| && t.g.cells[|s.g.cells|].obj.Connection?
    requires View(t) == View(s).(connected := true)
    ensures Follows(o, s, t, true, Report([Starts], View(t), true), exact)
  {
    assert New(s, t) == [Record(Started(|s.g.cells|), false)];
  }

  lemma TakeFromFollows(o: Oracle, s: State, held: set<Ptr>, p: Ptr, exact: bool)
    requires Good(s, held) && s.g.connection.Some? && OpenPool(s.g, p)
    ensures var (t, r) := TakeFrom(o, s, p); Follows(o, s, t, r.Ok?, Report([], View(s), true), exact)
  {
    hide GraphInv, CellsAge, Kept, Grows;
    TakeFromOutcome(o, s, held, p);
    var (t, r) := TakeFrom(o, s, p);
    if r.Ok? { StillConnected(s, t); }
    FollowsQuietly(o, s, t, r.Ok?, Report([], View(s), true), exact);
  }

  /** A taken session costs at most the start of a connection, and has the mode configured now. */
  lemma TakeFollows(o: Oracle, s: State, held: set<Ptr>, exact: bool)
    requires Good(s, held) && s.initialized
    ensures var (t, r) := Take(o, s);
      && Follows(o, s, t, r.Ok?, Opening(View(s)), exact)
      && (r.Ok? ==> ModeIs(t.g, r.value, s.settings.mode))
  {
    hide GraphInv, CellsAge, Kept, Grows, Connect, TakeFrom, Follows;
    ConnectOutcome(o, s, held);
    ConnectFollows(o, s, held, exact);
    var (s1, ok) := Connect(o, s);
    if ok {
      var p := PoolFor(s1.g, s1.settings.mode);
      OpenPoolFor(s1.g, held, s1.settings.mode);
      TakeFromOutcome(o, s1, held, p);
      TakeFromFollows(o, s1, held, p, exact);
      var (t, r) := TakeFrom(o, s1, p);
      TakenAges(s1, held, p, t, r);
      ViewFollows(o, s, s1, exact);
      FollowsOn(o, s, s1, t, r.Ok?, Opening(View(s)), Report([], View(s1), true), exact);
      assert Preceded(Opening(View(s)).effects, Report([], View(s1), true)) == Opening(View(s));
      if r.Ok? { TakenMode(t.g, held + {r.value}, r.value); }
    }
  }

  lemma ViewFollows(o: Oracle, s: State, t: State, exact: bool)
    requires Follows(o, s, t, true, Opening(View(s)), exact)
    ensures Opening(View(s)) == Report(Opening(View(s)).effects, View(t), true)
  {
  }

  lemma TakenAges(s: State, held: set<Ptr>, p: Ptr, t: State, r: Outcome<Ptr>)
    requires r.Ok? ==> Took(s, held, p, t, r.value)
    requires r.Fail? ==> Collapse(s, t)
    ensures Kept(s.g, t.g)
  {
    hide GraphInv, Grows;
  }

  lemma TakenMode(g: Graph, held: set<Ptr>, q: Ptr)
    requires GraphInv(g, held) && q in held
    ensures ModeIs(g, q, ModeOf(g, q))
  {
    assert WrapOk(g, q);
  }

  /** Looking for the destination is not a use, and finds the one that is meant. */
  lemma FindDestFollows(o: Oracle, s: State, held: set<Ptr>, q: Ptr, arg: DestArg, exact: bool)
    requires InUse(s, held, q)
    ensures var (t, r) := FindDest(o, s, q, arg);
      && Follows(o, s, t, r.Ok?, Finding(View(s), arg), exact)
      && (r.Ok? ==> Meaning(View(s), arg) == Some(Meant(s, arg)) && View(t) == View(s))
  {
    hide GraphInv, CellsAge, Kept, Grows, Follows;
    FindDestOutcome(o, s, held, q, arg);
    var (t, r) := FindDest(o, s, q, arg);
    FindDestQuiet(o, s, q, arg);
    if r.Ok? { StillConnected(s, t); }
    FollowsQuietly(o, s, t, r.Ok?, Finding(View(s), arg), exact);
  }

  lemma FindDestQuiet(o: Oracle, s: State, q: Ptr, arg: DestArg)
    requires DefaultOk(s)
    ensures var (t, r) := FindDest(o, s, q, arg);
      && t.trace == s.trace
      && (r.Ok? ==> Meaning(View(s), arg) == Some(Meant(s, arg)))
      && (r.Ok? && s.g.connection.Some? && t.g.connection.Some? ==> View(t) == View(s))
      && (NeverFails(o) ==> (r.Ok? <==> Meaning(View(s), arg).Some?))
  {
    hide AddDestination, AddResolver;
  }

  lemma CachedFollows(o: Oracle, s: State, held: set<Ptr>, q: Ptr, client: Client, exact: bool)
    requires InUse(s, held, q)
    ensures var (t, r) := Cached(o, s, q, client); Follows(o, s, t, r.Ok?, Report([], View(s), true), exact)
  {
    hide GraphInv, CellsAge, Kept, Grows, EntryOk, Key, Follows;
    CachedOutcome(o, s, held, q, client);
    var (t, r) := Cached(o, s, q, client);
    if r.Ok? { StillConnected(s, t); }
    FollowsQuietly(o, s, t, r.Ok?, Report([], View(s), true), exact);
  }

  /** A wrapper that stands for a request, in a session of a known mode. */
  lemma StandingClient(g: Graph, w: Ptr, q: Ptr, mode: AckMode, client: Client, exact: bool)
    requires StandsFor(g, w, q, client) && ModeIs(g, q, mode)
    ensures ClientIs(g, RawOf(g, w), mode, client, exact) && At(g, RawOf(g, w)).session == q
  {
  }

  /** Finding the destination and making or finding the client are no uses. */
  lemma ClientFollows(o: Oracle, s: State, held: set<Ptr>, q: Ptr, arg: DestArg, client: Client, exact: bool)
    requires InUse(s, held, q) && client.dest == Meant(s, arg)
    ensures var (s1, ref) := FindDest(o, s, q, arg);
      && (ref.Fail? ==> Follows(o, s, s1, false, Finding(View(s), arg), exact) && Collapse(s, s1))
      && (ref.Ok? ==>
            && Denotes(s1.g, ref.value) == client.dest && InUse(s1, held, q)
            && Meaning(View(s), arg) == Some(client.dest)
            && var (t, r) := Cached(o, s1, q, client);
               && Follows(o, s, t, r.Ok?, Report([], View(s), true), exact)
               && (r.Ok? ==> Answers(s1, held, q, client, t, r.value) && Progress(s, t) && View(t) == View(s))
               && (r.Fail? ==> Collapse(s, t)))
  {
    hide GraphInv, CellsAge, Kept, Grows, EntryOk, Key, Follows, FindDest, Cached, Meant, Meaning, View;
    FindDestOutcome(o, s, held, q, arg);
    FindDestFollows(o, s, held, q, arg, exact);
    var (s1, ref) := FindDest(o, s, q, arg);
    if ref.Ok? {
      CachedOutcome(o, s1, held, q, client);
      CachedFollows(o, s1, held, q, client, exact);
      var (t, r) := Cached(o, s1, q, client);
      if r.Ok? { ProgressTrans(s, s1, t); } else { CollapseTrans(s, s1, t); }
      var c := View(s);
      AgesOnward(s1, t, r.Ok?);
      FollowsOn(o, s, s1, t, r.Ok?, Finding(c, arg), Report([], c, true), exact);
      assert Preceded([], Report([], c, true)) == Report([], c, true);
      if r.Ok? { ViewKept(o, s, t, c, exact); }
    }
  }

  lemma AgesOnward(s: State, t: State, ok: bool)
    requires if ok then Progress(s, t) else Collapse(s, t)
    ensures Kept(s.g, t.g)
  {
    hide GraphInv, Grows;
  }

  lemma ViewKept(o: Oracle, s: State, t: State, c: Config, exact: bool)
    requires Follows(o, s, t, true, Report([], c, true), exact)
    ensures View(t) == c
  {
  }

  /** createProducer() is the two setters, on the producer that is meant. */
  lemma ProducerFollows(o: Oracle, s: State, held: set<Ptr>, q: Ptr, mode: AckMode, arg: DestArg, exact: bool)
    requires InUse(s, held, q) && ModeIs(s.g, q, mode)
    ensures var (t, r) := MakeProducer(o, s, q, arg);
      && Follows(o, s, t, r.Ok?, Producing(View(s), mode, arg), exact)
      && (r.Ok? ==> Meaning(View(s), arg) == Some(Meant(s, arg)))
  {
    hide GraphInv, CellsAge, Kept, Grows, EntryOk, Key, Follows, FindDest, Cached, Meant, Meaning, View, ModeIs, RawOf;
    hide MakeProducer, SetUp, Denotes, Collapse, Progress, InUse;
    var client := ProducerFor(Meant(s, arg));
    ClientFollows(o, s, held, q, arg, client, exact);
    MakeProducerParts(o, s, q, arg);
    var (s1, ref) := FindDest(o, s, q, arg);
    var c := View(s);
    var setting := Producing(c, mode, arg);
    assert Preceded([], setting) == setting;
    if ref.Fail? {
      if Meaning(c, arg).Some? { FollowsShort(o, s, s1, Finding(c, arg), setting, exact); }
    } else {
      var (s2, w) := Cached(o, s1, q, client);
      if w.Ok? {
        ProducerSetUp(o, s, s2, held, q, w.value, mode, client, exact);
      } else {
        FollowsShort(o, s, s2, Report([], c, true), setting, exact);
      }
    }
  }

  lemma MakeProducerParts(o: Oracle, s: State, q: Ptr, arg: DestArg)
    ensures var (s1, ref) := FindDest(o, s, q, arg);
      && (ref.Fail? ==> MakeProducer(o, s, q, arg) == (s1, Fail))
      && (ref.Ok? ==>
            var (s2, w) := Cached(o, s1, q, ProducerFor(Denotes(s1.g, ref.value)));
            && (w.Fail? ==> MakeProducer(o, s, q, arg) == (s2, Fail))
            && (w.Ok? ==> var (t, ok) := SetUp(o, s2, w.value); MakeProducer(o, s, q, arg) == (t, if ok then w else Fail)))
  {
    hide FindDest, Cached, Denotes;
  }

  /** The setters after the producer has been found. */
  lemma ProducerSetUp(
    o: Oracle, s: State, u: State, held: set<Ptr>, q: Ptr, w: Ptr, mode: AckMode, client: Client, exact: bool)
    requires ModeIs(s.g, q, mode) && Progress(s, u) && View(u) == View(s) && InUse(u, held, q) && client.ProducerFor?
    requires EntryOk(u.g, q, true, Key(client), w) && Live(u.g.cells, w)
    requires Follows(o, s, u, true, Report([], View(s), true), exact)
    ensures var (t, ok) := SetUp(o, u, w);
      Follows(o, s, t, ok, Report([SetsMessageId(mode, client), SetsTimestamp(mode, client)], View(s), true), exact)
  {
    hide GraphInv, CellsAge, Kept, Grows, EntryOk, Key, Follows, View, Plain, ModeIs, RawOf, ClientIs, StandsFor;
    AgesOnward(s, u, true);
    ModeAges(s.g, u.g, q, mode);
    EntryStandsFor(u.g, held, q, client, w);
    StandingClient(u.g, w, q, mode, client, exact);
    var raw := RawOf(u.g, w);
    var e, f := SetsMessageId(mode, client), SetsTimestamp(mode, client);
    PlainsFollow(o, u, held, q, SetMessageId(raw), SetTimestamp(raw), e, f, exact);
    var (t, ok) := SetUp(o, u, w);
    var quiet, setting := Report([], View(s), true), Report([e, f], View(s), true);
    FollowsOn(o, s, u, t, ok, quiet, setting, exact);
    assert Preceded([], setting) == setting;
  }

  /** The end of createProducer(). */
  ghost function SetUp(o: Oracle, s: State, w: Ptr): (State, bool) {
    TwoPlain(o, s, SetMessageId(RawOf(s.g, w)), SetTimestamp(RawOf(s.g, w)))
  }

  ghost function TwoPlain(o: Oracle, s: State, use: Use, next: Use): (State, bool) {
    var (s1, ok) := Plain(o, s, use);
    if ok then Plain(o, s1, next) else (s1, false)
  }

  lemma PlainsFollow(
    o: Oracle, s: State, held: set<Ptr>, q: Ptr, use: Use, next: Use, e: Effect, f: Effect, exact: bool)
    requires InUse(s, held, q) && Shows(s.g, use, e, exact) && Shows(s.g, next, f, exact)
    ensures var (t, ok) := TwoPlain(o, s, use, next);
      && Follows(o, s, t, ok, Report([e, f], View(s), true), exact)
      && Kept(s.g, t.g)
  {
    hide GraphInv, CellsAge, Kept, Grows, Follows, Shows;
    var c := View(s);
    var first, second := Report([e], c, true), Report([f], c, true);
    PlainOutcome(o, s, held, use);
    PlainFollows(o, s, use, e, exact);
    var (s1, ok) := Plain(o, s, use);
    assert Preceded([e], second) == Report([e, f], c, true);
    AgesOnward(s, s1, ok);
    if ok {
      PlainOutcome(o, s1, held, next);
      PlainFollows(o, s1, next, f, exact);
      var (t, good) := Plain(o, s1, next);
      AgesOnward(s1, t, good);
      FollowsOn(o, s, s1, t, good, first, second, exact);
    } else {
      FollowsShort(o, s, s1, first, second, exact);
    }
  }

  /** The producer that createProducer() answers with. */
  lemma ProducerKnown(o: Oracle, s: State, held: set<Ptr>, q: Ptr, mode: AckMode, arg: DestArg, exact: bool)
    requires InUse(s, held, q) && ModeIs(s.g, q, mode)
    ensures var (t, r) := MakeProducer(o, s, q, arg);
      && Kept(s.g, t.g)
      && (r.Ok? ==>
            && ModeIs(t.g, q, mode) && InUse(t, held, q)
            && ClientIs(t.g, RawOf(t.g, r.value), mode, ProducerFor(Meant(s, arg)), exact)
            && At(t.g, RawOf(t.g, r.value)).session == q)
  {
    hide GraphInv, CellsAge, Kept, Grows, EntryOk, MakeProducer, StandsFor, ModeIs, ClientIs, RawOf, Meant;
    MakeProducerOutcome(o, s, held, q, arg);
    ProducerIsTheOneAskedFor(o, s, held, q, arg);
    var (t, r) := MakeProducer(o, s, q, arg);
    AgesOnward(s, t, r.Ok?);
    if r.Ok? {
      ModeAges(s.g, t.g, q, mode);
      StandingClient(t.g, r.value, q, mode, ProducerFor(Meant(s, arg)), exact);
    }
  }

  lemma ConsumerFollows(
    o: Oracle, s: State, held: set<Ptr>, q: Ptr, arg: DestArg, selector: string, noLocal: bool, exact: bool)
    requires InUse(s, held, q)
    ensures var (t, r) := MakeConsumer(o, s, q, arg, selector, noLocal);
      && Follows(o, s, t, r.Ok?, Finding(View(s), arg), exact)
      && (r.Ok? ==> Meaning(View(s), arg) == Some(Meant(s, arg)) && View(t) == View(s))
  {
    hide GraphInv, CellsAge, Kept, Grows, EntryOk, Key, Follows, FindDest, Cached, Meant, Meaning, View, Denotes;
    hide Collapse, Progress, InUse;
    ClientFollows(o, s, held, q, arg, ConsumerFor(Meant(s, arg), selector, noLocal), exact);
  }

  lemma ConsumerKnown(
    o: Oracle, s: State, held: set<Ptr>, q: Ptr, mode: AckMode, arg: DestArg, selector: string, noLocal: bool, exact: bool)
    requires InUse(s, held, q) && ModeIs(s.g, q, mode) && (exact ==> PlainState(s) && PlainArg(arg))
    ensures var (t, r) := MakeConsumer(o, s, q, arg, selector, noLocal);
      && Kept(s.g, t.g)
      && (r.Ok? ==>
            && InUse(t, held, q)
            && ClientIs(t.g, RawOf(t.g, r.value), mode, ConsumerFor(Meant(s, arg), selector, noLocal), exact)
            && At(t.g, RawOf(t.g, r.value)).session == q)
  {
    hide GraphInv, CellsAge, Kept, Grows, EntryOk, MakeConsumer, StandsFor, ModeIs, ClientIs, RawOf, Meant, PlainState, PlainArg;
    var client := ConsumerFor(Meant(s, arg), selector, noLocal);
    MakeConsumerOutcome(o, s, held, q, arg, selector, noLocal);
    var (t, r) := MakeConsumer(o, s, q, arg, selector, noLocal);
    AgesOnward(s, t, r.Ok?);
    if r.Ok? {
      ModeAges(s.g, t.g, q, mode);
      if exact {
        ConsumerIsTheOneAskedFor(o, s, held, q, arg, selector, noLocal);
        StandingClient(t.g, r.value, q, mode, client, exact);
      } else {
        KeyedClient(t.g, r.value, q, mode, client);
      }
    }
  }

  lemma KeyedClient(g: Graph, w: Ptr, q: Ptr, mode: AckMode, client: Client)
    requires EntryOk(g, q, false, Key(client), w) && ModeIs(g, q, mode) && client.ConsumerFor?
    ensures ClientIs(g, RawOf(g, w), mode, client, false) && At(g, RawOf(g, w)).session == q
  {
    hide Key;
  }

  /** doSend() makes one message, sends it once on the producer it was given, and drops it. */
  lemma SendFollows(
    o: Oracle, s: State, held: set<Ptr>, q: Ptr, w: Ptr, mode: AckMode, client: Client, exact: bool)
    requires InUse(s, held, q) && ModeIs(s.g, q, mode) && ClientIs(s.g, RawOf(s.g, w), mode, client, exact)
    ensures var (t, ok) := DoSend(o, s, q, w);
      && Follows(o, s, t, ok, Report([Makes(mode), Sends(mode, client), Drops], View(s), true), exact)
      && Kept(s.g, t.g)
  {
    hide GraphInv, CellsAge, Kept, Grows, Follows, ModeIs, ClientIs, InUse, Teardown;
    var c := View(s);
    var making, sending := Report([Makes(mode)], c, true), Report([Sends(mode, client), Drops], c, true);
    assert Preceded(making.effects, sending) == Report([Makes(mode), Sends(mode, client), Drops], c, true);
    assert Shows(s.g, MadeMessage(q), Makes(mode), exact);
    PlainFollows(o, s, MadeMessage(q), Makes(mode), exact);
    var (s1, made) := Plain(o, s, MadeMessage(q));
    var (t, ok) := DoSend(o, s, q, w);
    SendAges(o, s, held, q, w);
    if made {
      SentFollows(o, s1, t, ok, w, mode, client, exact);
      FollowsOn(o, s, s1, t, ok, making, sending, exact);
    } else {
      FollowsShort(o, s, s1, making, sending, exact);
    }
  }

  lemma SendAges(o: Oracle, s: State, held: set<Ptr>, q: Ptr, w: Ptr)
    requires InUse(s, held, q)
    ensures Kept(s.g, DoSend(o, s, q, w).0.g)
  {
    hide GraphInv, CellsAge, Kept, Grows, DoSend;
    DoSendOutcome(o, s, held, q, w);
    var (t, ok) := DoSend(o, s, q, w);
    AgesOnward(s, t, ok);
  }

  lemma SentFollows(o: Oracle, s: State, t: State, ok: bool, w: Ptr, mode: AckMode, client: Client, exact: bool)
    requires ClientIs(s.g, RawOf(s.g, w), mode, client, exact)
    requires var m := |s.g.cells|;
      var u := s.(g := AddCell(s.g, Cell(Message, 1)));
      var v := Noted(Used(o, u, Sent(RawOf(s.g, w), m)), Dropped(m));
      ok == !o(s.calls) && t == if ok then v else Teardown(v)
    ensures Follows(o, s, t, ok, Report([Sends(mode, client), Drops], View(s), true), exact)
  {
    hide CellsAge, Kept, ClientIs, Follows, View, Kill;
    var raw, m := RawOf(s.g, w), |s.g.cells|;
    var u := s.(g := AddCell(s.g, Cell(Message, 1)));
    AddedAges(s.g, Cell(Message, 1));
    ClientAges(s.g, u.g, raw, mode, client, exact);
    SentShown(u, t, ok, raw, m, mode, client, exact) by {
      if !ok { TornKept(Noted(Used(o, u, Sent(raw, m)), Dropped(m))); }
    }
    RecordsFollow(
      o, s, t, ok, [Record(Sent(raw, m), !ok), Record(Dropped(m), false)], [Sends(mode, client), Drops], exact) by {
      assert ok ==> View(t) == View(s) by { SameView(s, t, ok); }
    }
  }

  lemma SameView(s: State, t: State, ok: bool)
    requires ok ==> t.settings == s.settings && t.defaultDest == s.defaultDest && t.g.connection == s.g.connection
    ensures ok ==> View(t) == View(s)
  {
  }

  lemma SentShown(
    u: State, t: State, ok: bool, raw: Ptr, m: Ptr, mode: AckMode, client: Client, exact: bool)
    requires ClientIs(u.g, raw, mode, client, exact) && MessageAt(u.g, m)
    requires if ok then t.g == u.g else Kept(u.g, t.g)
    ensures Matches(t.g, [Record(Sent(raw, m), !ok), Record(Dropped(m), false)], [Sends(mode, client), Drops], exact)
  {
    hide CellsAge, Kept, ClientIs, MessageAt;
    if !ok {
      ShowsAges(u.g, t.g, Sent(raw, m), Sends(mode, client), exact);
      ShowsAges(u.g, t.g, Dropped(m), Drops, exact);
    }
  }

  /** Records that show the effects, followed by a failure unless all went well. */
  lemma RecordsFollow(
    o: Oracle, s: State, t: State, ok: bool, records: seq<Record>, effects: seq<Effect>, exact: bool)
    requires t.trace == s.trace + records && |records| == |effects| && Matches(t.g, records, effects, exact)
    requires ThrewLast(records) && (ok ==> Clean(records) && View(t) == View(s)) && (NeverFails(o) ==> ok)
    ensures Follows(o, s, t, ok, Report(effects, View(s), true), exact)
  {
    hide Matches, View, NeverFails;
    assert New(s, t) == records;
  }

  lemma AddedAges(g: Graph, cell: Cell)
    requires !cell.obj.Connection?
    ensures Kept(g, AddCell(g, cell))
  {
  }

  lemma ReceiveFollows(o: Oracle, s: State, held: set<Ptr>, q: Ptr, w: Ptr, mode: AckMode, client: Client, exact: bool)
    requires InUse(s, held, q) && ClientIs(s.g, RawOf(s.g, w), mode, client, exact)
    ensures var (t, ok) := DoReceive(o, s, w);
      && Follows(o, s, t, ok, Report([Receives(mode, client)], View(s), true), exact)
      && Kept(s.g, t.g)
  {
    hide GraphInv, CellsAge, Kept, Grows, ModeIs, ClientIs, Follows;
    var use, e := ReceivedOn(RawOf(s.g, w)), Receives(mode, client);
    assert Shows(s.g, use, e, exact);
    PlainFollows(o, s, use, e, exact);
    DoReceiveOutcome(o, s, held, w);
    var (s1, got) := Plain(o, s, use);
    var (t, ok) := DoReceive(o, s, w);
    AgesOnward(s, t, ok);
    if ok {
      AddedAges(s1.g, Cell(Received, 0));
      CellFollows(o, s1, Cell(Received, 0), exact);
      FollowsOn(o, s, s1, t, ok, Report([e], View(s), true), Report([], View(s), true), exact);
      assert Preceded([e], Report([], View(s), true)) == Report([e], View(s), true);
    }
  }

  lemma CellFollows(o: Oracle, s: State, cell: Cell, exact: bool)
    ensures Follows(o, s, s.(g := AddCell(s.g, cell)), true, Report([], View(s), true), exact)
  {
    FollowsQuietly(o, s, s.(g := AddCell(s.g, cell)), true, Report([], View(s), true), exact);
  }

  // ---- Calls, callbacks and runs ----

  lemma OutcomeAges(s: State, held: set<Ptr>, t: State, ok: bool)
    requires Outcomes(s, held, t, ok)
    ensures Kept(s.g, t.g)
  {
    hide GraphInv, Grows;
  }

  /** Running a callback after a record of the call. */
  lemma CallbackFollows(
    o: Oracle, s: State, held: set<Ptr>, use: Use, e: Effect, body: Script, exact: bool)
    requires Good(s, held) && s.g.connection.Some? && Shows(s.g, use, e, exact)
    requires var s1 := Noted(s, use);
      var (t, ok) := RunScript(o, s1, body); Follows(o, s1, t, ok, Callback(View(s1), body), exact)
    ensures var (t, ok) := RunScript(o, Noted(s, use), body);
      && Follows(o, s, t, ok, Preceded([e], Callback(View(s), body)), exact)
      && Kept(s.g, t.g)
  {
    hide GraphInv, CellsAge, Kept, Grows, Shows, Follows, RunScript, Callback;
    var s1 := Noted(s, use);
    Recorded(s, s1, held);
    NotedFollows(o, s, use, e, exact);
    ScriptOutcome(o, s1, held, body);
    var (t, ok) := RunScript(o, s1, body);
    OutcomeAges(s1, held, t, ok);
    FollowsOn(o, s, s1, t, ok, Report([e], View(s), true), Callback(View(s), body), exact);
  }

  lemma {:induction false} ScriptFollows(o: Oracle, s: State, held: set<Ptr>, script: Script, exact: bool)
    requires Good(s, held) && s.g.connection.Some? && (exact ==> PlainState(s) && PlainScript(script))
    ensures var (t, ok) := RunScript(o, s, script); Follows(o, s, t, ok, Callback(View(s), script), exact)
    decreases script
  {
    hide GraphInv, CellsAge, Kept, Grows, PlainState, PlainOp, Follows, Exec, Call, View;
    match script
    case Done => FollowsQuietly(o, s, s, true, Callback(View(s), script), exact);
    case Throw =>
      ViewOfDown(s, Teardown(s));
      FollowsQuietly(o, s, Teardown(s), false, Callback(View(s), script), exact);
    case Then(op, rest) =>
      ExecOutcome(o, s, held, op);
      CallFollows(o, s, held, op, exact);
      var (s1, ok) := Exec(o, s, op);
      var r := Call(View(s), op);
      if ok {
        StillConnected(s, s1);
        if exact { ExecPlain(o, s, held, op); }
        ScriptFollows(o, s1, held, rest, exact);
        ScriptOutcome(o, s1, held, rest);
        var (t, good) := RunScript(o, s1, rest);
        OutcomeAges(s1, held, t, good);
        ReportOfOk(o, s, s1, r, exact);
        FollowsOn(o, s, s1, t, good, r, Callback(r.config, rest), exact);
      } else if r.done {
        FollowsShort(o, s, s1, r, Callback(r.config, rest), exact);
      }
  }

  lemma ReportOfOk(o: Oracle, s: State, t: State, r: Report, exact: bool)
    requires Follows(o, s, t, true, r, exact)
    ensures r.done && r.config == View(t)
  {
  }

  lemma {:induction false} ActFollows(
    o: Oracle, s: State, held: set<Ptr>, q: Ptr, mode: AckMode, action: Action, exact: bool)
    requires InUse(s, held, q) && ModeIs(s.g, q, mode) && (exact ==> PlainState(s) && PlainOp(Do(action)))
    ensures var (t, ok) := Act(o, s, q, action); Follows(o, s, t, ok, Perform(View(s), mode, action), exact)
    decreases action, 0
  {
    hide GraphInv, CellsAge, Kept, Grows, PlainState, Follows, RunScript, Callback, ModeIs, View;
    match action
    case InSession(body) =>
      var s1 := Noted(s, CalledBack(q, None));
      Recorded(s, s1, held);
      if exact { NotedPlain(s, CalledBack(q, None)); }
      ScriptFollows(o, s1, held, body, exact);
      CallbackFollows(o, s, held, CalledBack(q, None), Runs(mode, None), body, exact);
    case WithProducer(arg, body) =>
      WithProducerReady(o, s, held, q, mode, arg, body, exact);
      var (s1, r) := MakeProducer(o, s, q, arg);
      if r.Ok? {
        var use := CalledBack(q, Some(RawOf(s1.g, r.value)));
        Recorded(s1, Noted(s1, use), held);
        if exact { NotedPlain(s1, use); }
        ScriptFollows(o, Noted(s1, use), held, body, exact);
        WithProducerFollows(o, s, held, q, mode, arg, body, exact);
      }
    case Send(arg) => SendActFollows(o, s, held, q, mode, arg, exact);
    case Receive(arg, selector) => ReceiveActFollows(o, s, held, q, mode, arg, selector, exact);
  }

  lemma NotedPlain(s: State, use: Use)
    requires PlainState(s)
    ensures PlainState(Noted(s, use))
  {
    hide PlainCells, HasMarker;
  }

  lemma WithProducerReady(
    o: Oracle, s: State, held: set<Ptr>, q: Ptr, mode: AckMode, arg: DestArg, body: Script, exact: bool)
    requires InUse(s, held, q) && ModeIs(s.g, q, mode) && (exact ==> PlainState(s) && PlainArg(arg))
    ensures var (s1, r) := MakeProducer(o, s, q, arg);
      && (r.Ok? ==> InUse(s1, held, q) && (exact ==> PlainState(s1)))
      && (r.Fail? ==> Follows(o, s, s1, false, Perform(View(s), mode, WithProducer(arg, body)), exact))
  {
    hide GraphInv, CellsAge, Kept, Grows, EntryOk, PlainState, PlainArg, Follows, MakeProducer, Callback, ModeIs, View, Meaning;
    MakeProducerOutcome(o, s, held, q, arg);
    ProducerFollows(o, s, held, q, mode, arg, exact);
    var (s1, r) := MakeProducer(o, s, q, arg);
    if r.Ok? {
      if exact { ClientPlain(o, s, held, q, arg, "", false); }
    } else if Meaning(View(s), arg).Some? {
      var c := View(s);
      var running := Preceded([Runs(mode, Some(ProducerFor(Meaning(c, arg).value)))], Callback(c, body));
      FollowsShort(o, s, s1, Producing(c, mode, arg), running, exact);
    }
  }

  lemma WithProducerFollows(
    o: Oracle, s: State, held: set<Ptr>, q: Ptr, mode: AckMode, arg: DestArg, body: Script, exact: bool)
    requires InUse(s, held, q) && ModeIs(s.g, q, mode)
    requires var (s1, r) := MakeProducer(o, s, q, arg);
      && r.Ok?
      && var s2 := Noted(s1, CalledBack(q, Some(RawOf(s1.g, r.value))));
         var (t, ok) := RunScript(o, s2, body); Follows(o, s2, t, ok, Callback(View(s2), body), exact)
    ensures var (t, ok) := Act(o, s, q, WithProducer(arg, body));
      Follows(o, s, t, ok, Perform(View(s), mode, WithProducer(arg, body)), exact)
  {
    hide GraphInv, CellsAge, Kept, Grows, Follows, MakeProducer, RunScript, Callback, ModeIs, ClientIs, View, Meaning, Meant, RawOf;
    ProducerFollows(o, s, held, q, mode, arg, exact);
    ProducerKnown(o, s, held, q, mode, arg, exact);
    var (s1, r) := MakeProducer(o, s, q, arg);
    var c, client := View(s), ProducerFor(Meant(s, arg));
    ReportOfOk(o, s, s1, Producing(c, mode, arg), exact);
    var use, e := CalledBack(q, Some(RawOf(s1.g, r.value))), Runs(mode, Some(client));
    assert Shows(s1.g, use, e, exact);
    CallbackFollows(o, s1, held, use, e, body, exact);
    var (t, ok) := RunScript(o, Noted(s1, use), body);
    FollowsOn(
      o, s, s1, t, ok, Producing(c, mode, arg), Preceded([e], Callback(c, body)), exact);
  }

  lemma SendActFollows(o: Oracle, s: State, held: set<Ptr>, q: Ptr, mode: AckMode, arg: DestArg, exact: bool)
    requires InUse(s, held, q) && ModeIs(s.g, q, mode)
    ensures var (t, ok) := Act(o, s, q, Send(arg)); Follows(o, s, t, ok, Perform(View(s), mode, Send(arg)), exact)
  {
    hide GraphInv, CellsAge, Kept, Grows, Follows, MakeProducer, DoSend, ModeIs, ClientIs, View, Meaning, Meant, RawOf;
    ProducerFollows(o, s, held, q, mode, arg, exact);
    ProducerKnown(o, s, held, q, mode, arg, exact);
    var (s1, r) := MakeProducer(o, s, q, arg);
    var c := View(s);
    if r.Ok? {
      var client := ProducerFor(Meant(s, arg));
      ReportOfOk(o, s, s1, Producing(c, mode, arg), exact);
      SendFollows(o, s1, held, q, r.value, mode, client, exact);
      var (t, ok) := DoSend(o, s1, q, r.value);
      var sending := Report([Makes(mode), Sends(mode, client), Drops], c, true);
      FollowsOn(o, s, s1, t, ok, Producing(c, mode, arg), sending, exact);
    } else if Meaning(c, arg).Some? {
      var client := ProducerFor(Meaning(c, arg).value);
      var sending := Report([Makes(mode), Sends(mode, client), Drops], c, true);
      FollowsShort(o, s, s1, Producing(c, mode, arg), sending, exact);
    }
  }

  lemma SettingsSeen(s: State)
    ensures View(s).settings == s.settings
  {
  }

  lemma ReceiveActFollows(
    o: Oracle, s: State, held: set<Ptr>, q: Ptr, mode: AckMode, arg: DestArg, selector: string, exact: bool)
    requires InUse(s, held, q) && ModeIs(s.g, q, mode) && (exact ==> PlainState(s) && PlainArg(arg))
    ensures var (t, ok) := Act(o, s, q, Receive(arg, selector));
      Follows(o, s, t, ok, Perform(View(s), mode, Receive(arg, selector)), exact)
  {
    hide GraphInv, CellsAge, Kept, Grows, Follows, MakeConsumer, DoReceive, ModeIs, ClientIs, View, Meaning, Meant, RawOf;
    hide PlainState, PlainArg, InUse;
    var c, noLocal := View(s), s.settings.noLocal;
    SettingsSeen(s);
    ConsumerFollows(o, s, held, q, arg, selector, noLocal, exact);
    ConsumerKnown(o, s, held, q, mode, arg, selector, noLocal, exact);
    var (s1, r) := MakeConsumer(o, s, q, arg, selector, noLocal);
    if r.Ok? {
      var client := ConsumerFor(Meant(s, arg), selector, noLocal);
      ReceiveFollows(o, s1, held, q, r.value, mode, client, exact);
      var (t, ok) := DoReceive(o, s1, r.value);
      var receiving := Report([Receives(mode, client)], c, true);
      FollowsOn(o, s, s1, t, ok, Finding(c, arg), receiving, exact);
      assert Preceded([], receiving) == receiving;
    } else if Meaning(c, arg).Some? {
      var receiving := Perform(c, mode, Receive(arg, selector));
      FollowsShort(o, s, s1, Finding(c, arg), receiving, exact);
      assert Preceded([], receiving) == receiving;
    }
  }

  /** Every call, whatever its callbacks do, whichever provider calls fail and whatever calls
      enclose it, uses the provider as the reference says.  Without a condition on names a
      consumer is known by its cache key; over names without the marker (`exact`) it has exactly
      the arguments asked for. */
  lemma {:induction false} CallFollows(o: Oracle, s: State, held: set<Ptr>, op: Op, exact: bool)
    requires Good(s, held) && (exact ==> PlainState(s) && PlainOp(op))
    ensures var (t, ok) := Exec(o, s, op); Follows(o, s, t, ok, Call(View(s), op), exact)
    decreases op
  {
    if op.Do? {
      hide GraphInv, CellsAge, Kept, Grows, PlainState, Follows, Take, Act, Perform, ModeIs, Return;
      var s0 := s.(initialized := true);
      TakeOutcome(o, s0, held);
      TakeFollows(o, s0, held, exact);
      var (s1, r) := Take(o, s0);
      var c := View(s);
      FromThere(o, s0, s, s1, r.Ok?, Opening(c), exact);
      if r.Ok? {
        if exact { TakenPlain(o, s, s0); }
        ReportOfOk(o, s, s1, Opening(c), exact);
        ActFollows(o, s1, held + {r.value}, r.value, s.settings.mode, op.action, exact);
        DoneFollows(o, s, s1, held, r.value, op.action, exact);
      } else if Opening(c).done {
        FollowsShort(o, s, s1, Opening(c), Perform(Opening(c).config, c.settings.mode, op.action), exact);
      }
    } else {
      hide GraphInv, Follows, NeverFails;
      var t := Exec(o, s, op).0;
      FollowsQuietly(o, s, t, true, Call(View(s), op), exact);
    }
  }

  lemma TakenPlain(o: Oracle, s: State, s0: State)
    requires PlainState(s) && s0 == s.(initialized := true)
    ensures PlainState(Take(o, s0).0)
  {
    hide PlainCells, HasMarker, Take;
    TakePlain(o, s0);
  }

  /** What follows a state depends only on its record. */
  lemma FromThere(o: Oracle, s0: State, s: State, t: State, ok: bool, r: Report, exact: bool)
    requires s0.trace == s.trace && Follows(o, s0, t, ok, r, exact)
    ensures Follows(o, s, t, ok, r, exact)
  {
  }

  lemma DoneFollows(o: Oracle, s: State, s1: State, held: set<Ptr>, q: Ptr, action: Action, exact: bool)
    requires InUse(s1, held + {q}, q) && Follows(o, s, s1, true, Opening(View(s)), exact)
    requires var (s2, ok) := Act(o, s1, q, action);
      Follows(o, s1, s2, ok, Perform(View(s1), s.settings.mode, action), exact)
    ensures var (s2, ok) := Act(o, s1, q, action);
      var t := if ok then s2.(g := Return(s2.g, q)) else s2;
      Follows(o, s, t, ok, Preceded(Opening(View(s)).effects, Perform(View(s1), s.settings.mode, action)), exact)
  {
    hide GraphInv, CellsAge, Kept, Grows, Follows, Act, Perform, Return;
    var report := Perform(View(s1), s.settings.mode, action);
    var (s2, ok) := Act(o, s1, q, action);
    ActOutcome(o, s1, held + {q}, q, action);
    OutcomeAges(s1, held + {q}, s2, ok);
    var all := Preceded(Opening(View(s)).effects, report);
    FollowsOn(o, s, s1, s2, ok, Opening(View(s)), report, exact);
    if ok {
      StillConnected(s1, s2);
      ReturnOutcome(s2, held + {q}, q);
      var t := s2.(g := Return(s2.g, q));
      AgesOnward(s2, t, true);
      StillConnected(s2, t);
      var quiet := Report([], View(s2), true);
      FollowsQuietly(o, s2, t, true, quiet, exact);
      ReportOfOk(o, s, s2, all, exact);
      FollowsOn(o, s, s2, t, true, all, quiet, exact);
      assert Preceded(all.effects, quiet) == all;
    }
  }

  // ---- Over every run ----

  /** After any calls on a new template, failed ones among them, a call uses the provider as the
      reference says, at every depth of callbacks. */
  lemma TemplateRefinesReference(o: Oracle, settings: Settings, ops: seq<Op>, op: Op)
    ensures var s := After(o, settings, ops);
      var (t, ok) := Exec(o, s, op);
      && Follows(o, s, t, ok, Call(View(s), op), false)
      && (!HasMarker(settings.name) && PlainOp(op) && (forall i :: 0 <= i < |ops| ==> PlainOp(ops[i])) ==>
            Follows(o, s, t, ok, Call(View(s), op), true))
  {
    hide GraphInv, Follows, Call, Exec, PlainOp, HasMarker, Run;
    var s := After(o, settings, ops);
    AfterGood(o, settings, ops);
    CallFollows(o, s, {}, op, false);
    if !HasMarker(settings.name) && PlainOp(op) && forall i :: 0 <= i < |ops| ==> PlainOp(ops[i]) {
      FreshGood(settings);
      RunPlain(o, Fresh(settings, [], 0, []), ops);
      CallFollows(o, s, {}, op, true);
    }
  }

  lemma FreshGood(settings: Settings)
    ensures Good(Fresh(settings, [], 0, []), {})
    ensures !HasMarker(settings.name) ==> PlainState(Fresh(settings, [], 0, []))
  {
    BareInv(Bare([]));
  }

  /** If no provider call fails, a whole run is the reference's run: the same uses in the same
      order, and as many calls that fail. */
  lemma {:induction false} FaultlessRun(o: Oracle, s: State, ops: seq<Op>, exact: bool)
    requires NeverFails(o) && Good(s, {})
    requires exact ==> PlainState(s) && forall i :: 0 <= i < |ops| ==> PlainOp(ops[i])
    ensures var (c, effects, undone) := Calls(View(s), ops);
      var t := Run(o, s, ops);
      && s.trace <= t.trace && |New(s, t)| == |effects| && Matches(t.g, New(s, t), effects, exact)
      && View(t) == c && Failures(o, s, ops) == undone && Good(t, {})
    ensures Kept(s.g, Run(o, s, ops).g)
    decreases |ops|
  {
    hide GraphInv, CellsAge, Kept, Grows, PlainState, PlainOp, Exec, Call, Shows, View, NeverFails;
    if ops == [] {
      ProgressRefl(s, s);
      AgesOnward(s, s, true);
      assert New(s, s) == [];
    } else {
      var (s1, ok) := Exec(o, s, ops[0]);
      ExecOutcome(o, s, {}, ops[0]);
      CallFollows(o, s, {}, ops[0], exact);
      if exact { ExecPlain(o, s, {}, ops[0]); }
      FaultlessRun(o, s1, ops[1..], exact);
      var t := Run(o, s1, ops[1..]);
      OutcomeAges(s, {}, s1, ok);
      KeptTrans(s.g, s1.g, t.g);
      var r := Call(View(s), ops[0]);
      var later := Calls(r.config, ops[1..]).1;
      assert s.trace + New(s, s1) == s1.trace && s1.trace + New(s1, t) == t.trace;
      assert New(s, t) == New(s, s1) + New(s1, t);
      MatchesJoin(s1.g, t.g, New(s, s1), New(s1, t), r.effects, later, exact);
    }
  }
}

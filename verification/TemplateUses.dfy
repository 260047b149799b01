/** Single sends and receives, record by record and pointer by pointer. */
module TemplateUses {
  import opened CacheKeys
  import opened CppHeap
  import opened TemplateState
  import opened TemplateInvariant
  import opened TemplateGrowth
  import opened TemplateOperations
  import opened TemplateAnswers
  import opened TemplateProgress
  import opened TemplateReference
  import opened TemplateRecord
  import opened TemplateRefinement

  // ---- One send, one receive ----

  lemma CachedQuiet(o: Oracle, s: State, q: Ptr, client: Client)
    ensures Cached(o, s, q, client).0.trace == s.trace
  {
    hide Key, AddClient, Kill;
  }

  lemma SetUpTrace(o: Oracle, s: State, w: Ptr)
    ensures var (t, ok) := SetUp(o, s, w);
      var raw := RawOf(s.g, w);
      && (ok ==> t.g == s.g && t.trace == s.trace + [Record(SetMessageId(raw), false), Record(SetTimestamp(raw), false)])
      && (forall i :: |s.trace| <= i < |t.trace| ==> !t.trace[i].use.Sent?)
  {
    hide RawOf, Kill;
  }

  lemma ProducerTrace(o: Oracle, s: State, q: Ptr, arg: DestArg)
    requires DefaultOk(s)
    ensures var (t, r) := MakeProducer(o, s, q, arg);
      && (r.Ok? ==>
            var raw := RawOf(t.g, r.value);
            t.trace == s.trace + [Record(SetMessageId(raw), false), Record(SetTimestamp(raw), false)])
      && (forall i :: |s.trace| <= i < |t.trace| ==> !t.trace[i].use.Sent?)
  {
    hide FindDest, Meant, Meaning, View, MakeProducer, NeverFails, Cached, SetUp, RawOf, Denotes, DefaultOk;
    MakeProducerParts(o, s, q, arg);
    FindDestQuiet(o, s, q, arg);
    var (s1, ref) := FindDest(o, s, q, arg);
    if ref.Ok? {
      var client := ProducerFor(Denotes(s1.g, ref.value));
      CachedQuiet(o, s1, q, client);
      var (s2, w) := Cached(o, s1, q, client);
      if w.Ok? { SetUpTrace(o, s2, w.value); }
    }
  }

  /** A send that returns normally has sent exactly one message, made for it in its session, once,
      on a live producer of that session for the destination that is meant, and then dropped it.
      A send that fails has sent nothing, or has thrown while sending. */
  lemma SendsOnce(o: Oracle, s: State, held: set<Ptr>, q: Ptr, arg: DestArg)
    requires InUse(s, held, q)
    ensures var (t, ok) := Act(o, s, q, Send(arg));
      && (ok ==> exists w: Ptr ::
            && StandsFor(t.g, w, q, ProducerFor(Meant(s, arg)))
            && var raw, m := RawOf(t.g, w), |t.g.cells| - 1;
               && t.g.cells[m] == Cell(Message, 1)
               && t.trace == s.trace + [
                    Record(SetMessageId(raw), false), Record(SetTimestamp(raw), false),
                    Record(MadeMessage(q), false), Record(Sent(raw, m), false), Record(Dropped(m), false)])
      && (!ok ==> forall i :: |s.trace| <= i < |t.trace| && t.trace[i].use.Sent? ==> t.trace[i].threw)
  {
    hide GraphInv, CellsAge, Kept, Grows, EntryOk, Meant, MakeProducer, StandsFor, RawOf, Meaning, View, Shows;
    ProducerIsTheOneAskedFor(o, s, held, q, arg);
    ProducerTrace(o, s, q, arg);
    var (s1, r) := MakeProducer(o, s, q, arg);
    var (t, ok) := Act(o, s, q, Send(arg));
    if r.Ok? { SentTrace(o, s1, q, r.value, ProducerFor(Meant(s, arg))); }
  }

  lemma SentTrace(o: Oracle, s: State, q: Ptr, w: Ptr, client: Client)
    requires StandsFor(s.g, w, q, client)
    ensures var (t, ok) := DoSend(o, s, q, w);
      var raw, m := RawOf(s.g, w), |s.g.cells|;
      && (ok ==>
            && StandsFor(t.g, w, q, client) && RawOf(t.g, w) == raw
            && |t.g.cells| == m + 1 && t.g.cells[m] == Cell(Message, 1)
            && t.trace == s.trace + [Record(MadeMessage(q), false), Record(Sent(raw, m), false), Record(Dropped(m), false)])
      && (!ok ==> forall i :: |s.trace| <= i < |t.trace| && t.trace[i].use.Sent? ==> t.trace[i].threw)
      && s.trace <= t.trace
  {
    hide SameRequest, Kill;
  }

  /** A receive that returns normally was one call, on a live consumer of its session for the
      destination, selector and noLocal flag that are meant, up to the cache key, and handed one
      live message to the caller. */
  lemma ReceivesOnce(o: Oracle, s: State, held: set<Ptr>, q: Ptr, arg: DestArg, selector: string)
    requires InUse(s, held, q)
    ensures var (t, ok) := Act(o, s, q, Receive(arg, selector));
      ok ==> exists w: Ptr ::
        && Live(t.g.cells, w) && t.g.cells[w].obj.CachedClient? && Live(t.g.cells, RawOf(t.g, w))
        && EntryOk(t.g, q, false, Key(ConsumerFor(Meant(s, arg), selector, s.settings.noLocal)), w)
        && (PlainState(s) && PlainArg(arg) ==>
              StandsFor(t.g, w, q, ConsumerFor(Meant(s, arg), selector, s.settings.noLocal)))
        && t.g.cells[|t.g.cells| - 1] == Cell(Received, 0)
        && t.trace == s.trace + [Record(ReceivedOn(RawOf(t.g, w)), false)]
  {
    hide GraphInv, CellsAge, Kept, Grows, Meant, MakeConsumer, PlainState, PlainArg, Key, View, EntryOk, StandsFor;
    var noLocal := s.settings.noLocal;
    var client := ConsumerFor(Meant(s, arg), selector, noLocal);
    MakeConsumerOutcome(o, s, held, q, arg, selector, noLocal);
    ConsumerTrace(o, s, q, arg, selector, noLocal);
    var (s1, r) := MakeConsumer(o, s, q, arg, selector, noLocal);
    var (t, ok) := Act(o, s, q, Receive(arg, selector));
    if ok {
      LiveAnswer(s1.g, held, q, client, r.value);
      EntryStays(s1.g, q, client, r.value);
      if PlainState(s) && PlainArg(arg) {
        ConsumerIsTheOneAskedFor(o, s, held, q, arg, selector, noLocal);
        StandsStays(s1.g, q, client, r.value);
      }
    }
  }

  lemma ConsumerTrace(o: Oracle, s: State, q: Ptr, arg: DestArg, selector: string, noLocal: bool)
    requires DefaultOk(s)
    ensures MakeConsumer(o, s, q, arg, selector, noLocal).0.trace == s.trace
  {
    hide FindDest, Meant, Meaning, View, NeverFails, Cached, Denotes, DefaultOk;
    FindDestQuiet(o, s, q, arg);
    var (s1, ref) := FindDest(o, s, q, arg);
    if ref.Ok? { CachedQuiet(o, s1, q, ConsumerFor(Denotes(s1.g, ref.value), selector, noLocal)); }
  }

  lemma EntryStays(g: Graph, q: Ptr, client: Client, w: Ptr)
    requires EntryOk(g, q, client.ProducerFor?, Key(client), w)
    ensures EntryOk(AddCell(g, Cell(Received, 0)), q, client.ProducerFor?, Key(client), w)
  {
    hide Key;
  }

  lemma StandsStays(g: Graph, q: Ptr, client: Client, w: Ptr)
    requires StandsFor(g, w, q, client)
    ensures StandsFor(AddCell(g, Cell(Received, 0)), w, q, client)
  {
    hide SameRequest;
  }

  /** The next session has the mode that was set. */
  lemma SessionAfterSetMode(o: Oracle, s: State, held: set<Ptr>, mode: AckMode)
    requires Good(s, held)
    ensures var s1 := Exec(o, s, SetMode(mode)).0;
      var (t, r) := Take(o, s1.(initialized := true));
      r.Ok? ==> ModeIs(t.g, r.value, mode)
  {
    hide GraphInv, CellsAge, Kept, Grows, Take, ModeIs, Follows;
    TakeFollows(o, s.(settings := s.settings.(mode := mode), initialized := true), held, false);
  }
}

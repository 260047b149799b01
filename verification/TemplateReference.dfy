/**
  What a template is for, without how it does it: a reference with no connection object, pool,
  cache or memo.  It says which uses of the provider a call amounts to, in which acknowledge
  mode, on which destination and with which arguments, and whether the call can be completed.
 */
module TemplateReference {
  import opened CacheKeys
  import opened CppHeap
  import opened Options
  import opened TemplateState

  /** All that the reference remembers: the settings, a default destination object that the
      user supplied, and whether a connection is open. */
  datatype Config = Config(settings: Settings, given: Option<Dest>, connected: bool)

  datatype Effect =
    | Starts
    | Runs(mode: AckMode, producer: Option<Client>)
    | SetsMessageId(mode: AckMode, client: Client)
    | SetsTimestamp(mode: AckMode, client: Client)
    | Makes(mode: AckMode)
    | Sends(mode: AckMode, client: Client)
    | Drops
    | Receives(mode: AckMode, client: Client)

  /** What a call amounts to; one that is not done stops after these effects. */
  datatype Report = Report(effects: seq<Effect>, config: Config, done: bool)

  function Preceded(effects: seq<Effect>, r: Report): Report {
    r.(effects := effects + r.effects)
  }

  /** A failure closes the connection and forgets the default object. */
  function Failed(c: Config): Report {
    Report([], c.(given := None, connected := false), false)
  }

  /** The destination that a call means, if there is one. */
  function Meaning(c: Config, arg: DestArg): Option<Dest> {
    match arg
    case Given(dest) => Some(dest)
    case Named(name) => if name == "" then None else Some(NamedDest(name, c.settings.pubSub))
    case Default =>
      if c.given.Some? then c.given
      else if c.settings.name == "" then None
      else Some(NamedDest(c.settings.name, c.settings.pubSub))
  }

  /** A session needs a connection, and that a factory. */
  function Opening(c: Config): Report {
    if c.connected then Report([], c, true)
    else if c.settings.factory then Report([Starts], c.(connected := true), true)
    else Failed(c)
  }

  function Finding(c: Config, arg: DestArg): Report {
    if Meaning(c, arg).Some? then Report([], c, true) else Failed(c)
  }

  /** A producer is set up before it is used. */
  function Producing(c: Config, mode: AckMode, arg: DestArg): Report {
    match Meaning(c, arg)
    case None => Failed(c)
    case Some(dest) => Report([SetsMessageId(mode, ProducerFor(dest)), SetsTimestamp(mode, ProducerFor(dest))], c, true)
  }

  function Callback(c: Config, script: Script): Report
    decreases script
  {
    match script
    case Done => Report([], c, true)
    case Throw => Failed(c)
    case Then(op, rest) =>
      var r := Call(c, op);
      if r.done then Preceded(r.effects, Callback(r.config, rest)) else r
  }

  function Perform(c: Config, mode: AckMode, action: Action): Report
    decreases action
  {
    match action
    case InSession(body) => Preceded([Runs(mode, None)], Callback(c, body))
    case WithProducer(arg, body) =>
      (match Meaning(c, arg)
       case None => Failed(c)
       case Some(dest) =>
         Preceded(Producing(c, mode, arg).effects, Preceded([Runs(mode, Some(ProducerFor(dest)))], Callback(c, body))))
    case Send(arg) =>
      (match Meaning(c, arg)
       case None => Failed(c)
       case Some(dest) =>
         Preceded(Producing(c, mode, arg).effects, Report([Makes(mode), Sends(mode, ProducerFor(dest)), Drops], c, true)))
    case Receive(arg, selector) =>
      (match Meaning(c, arg)
       case None => Failed(c)
       case Some(dest) => Report([Receives(mode, ConsumerFor(dest, selector, c.settings.noLocal))], c, true))
  }

  /** One call.  A session has the mode that is configured when the call begins. */
  function Call(c: Config, op: Op): Report
    decreases op
  {
    match op
    case Do(action) =>
      var r := Opening(c);
      if r.done then Preceded(r.effects, Perform(r.config, c.settings.mode, action)) else r
    case DoNothing => Report([], c, true)
    case SetFactory(b) => Report([], c.(settings := c.settings.(factory := b)), true)
    case SetMode(m) => Report([], c.(settings := c.settings.(mode := m)), true)
    case SetNoLocal(b) => Report([], c.(settings := c.settings.(noLocal := b)), true)
    case SetDest(d) => Report([], c.(given := d), true)
    case SetName(n) =>
      Report([], if n == c.settings.name then c else c.(settings := c.settings.(name := n), given := None), true)
    case SetPubSub(b) =>
      Report([], if b == c.settings.pubSub then c else c.(settings := c.settings.(pubSub := b), given := None), true)
  }

  /** Calls one after the other, going on after those that could not be completed, which are
      counted. */
  function Calls(c: Config, ops: seq<Op>): (Config, seq<Effect>, nat)
    decreases |ops|
  {
    if ops == [] then (c, [], 0)
    else
      var r := Call(c, ops[0]);
      var (d, effects, undone) := Calls(r.config, ops[1..]);
      (d, r.effects + effects, (if r.done then 0 else 1) + undone)
  }
}

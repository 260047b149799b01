/** With a provider that does not fail, calls succeed. */
module TemplateProgress {
  import opened CacheKeys
  import opened CppHeap
  import opened Options
  import opened TemplateState
  import opened TemplateInvariant
  import opened TemplateOperations
  import opened TemplateRuns

  ghost predicate NeverFails(o: Oracle) {
    forall n: nat :: !o(n)
  }

  /** Where a call without a destination gets one: from the default name, from a default object
      that nothing forgets, or there is no such call. */
  datatype Backing = ByName | ByObject | Unneeded

  ghost predicate Configured(s: State, backing: Backing) {
    && s.settings.factory
    && match backing
       case ByName => s.settings.name != ""
       case ByObject => s.settings.name != "" || s.defaultDest.Some?
       case Unneeded => true
  }

  /** A call whose callbacks do not throw, name no empty destination, do not unset the factory,
      and leave the backing in place. */
  ghost predicate Fine(op: Op, backing: Backing) {
    match op
    case Do(InSession(body)) => FineScript(body, backing)
    case Do(WithProducer(arg, body)) => FineArg(arg, backing) && FineScript(body, backing)
    case Do(Send(arg)) => FineArg(arg, backing)
    case Do(Receive(arg, _)) => FineArg(arg, backing)
    case SetFactory(b) => b
    case SetName(n) => n != "" || backing.Unneeded?
    case SetPubSub(_) => !backing.ByObject?
    case SetDest(dest) => dest.Some? || !backing.ByObject?
    case _ => true
  }

  ghost predicate FineScript(script: Script, backing: Backing) {
    match script
    case Done => true
    case Throw => false
    case Then(op, rest) => Fine(op, backing) && FineScript(rest, backing)
  }

  predicate FineArg(arg: DestArg, backing: Backing) {
    arg != Named("") && (arg.Default? ==> !backing.Unneeded?)
  }

  lemma TakeSucceeds(o: Oracle, s: State, backing: Backing)
    requires NeverFails(o) && Configured(s, backing)
    ensures Take(o, s).1.Ok? && Configured(Take(o, s).0, backing)
  {
  }

  lemma FindDestSucceeds(o: Oracle, s: State, q: Ptr, arg: DestArg, backing: Backing)
    requires NeverFails(o) && Configured(s, backing) && FineArg(arg, backing)
    ensures FindDest(o, s, q, arg).1.Ok? && Configured(FindDest(o, s, q, arg).0, backing)
  {
  }

  lemma ClientSucceeds(o: Oracle, s: State, q: Ptr, arg: DestArg, selector: string, noLocal: bool, backing: Backing)
    requires NeverFails(o) && Configured(s, backing) && FineArg(arg, backing)
    ensures MakeProducer(o, s, q, arg).1.Ok? && Configured(MakeProducer(o, s, q, arg).0, backing)
    ensures var (t, r) := MakeConsumer(o, s, q, arg, selector, noLocal); r.Ok? && Configured(t, backing)
  {
    hide FindDest, Key;
    FindDestSucceeds(o, s, q, arg, backing);
  }

  lemma {:induction false} ScriptSucceeds(o: Oracle, s: State, script: Script, backing: Backing)
    requires NeverFails(o) && Configured(s, backing) && FineScript(script, backing)
    ensures RunScript(o, s, script).1 && Configured(RunScript(o, s, script).0, backing)
    decreases script
  {
    if script.Then? {
      CallSucceeds(o, s, script.op, backing);
      ScriptSucceeds(o, Exec(o, s, script.op).0, script.rest, backing);
    }
  }

  lemma {:induction false} ActSucceeds(o: Oracle, s: State, q: Ptr, action: Action, backing: Backing)
    requires NeverFails(o) && Configured(s, backing) && Fine(Do(action), backing)
    ensures Act(o, s, q, action).1 && Configured(Act(o, s, q, action).0, backing)
    decreases action, 0
  {
    hide MakeProducer, MakeConsumer;
    match action
    case InSession(body) => ScriptSucceeds(o, Noted(s, CalledBack(q, None)), body, backing);
    case WithProducer(arg, body) =>
      ClientSucceeds(o, s, q, arg, "", false, backing);
      var (s1, r) := MakeProducer(o, s, q, arg);
      ScriptSucceeds(o, Noted(s1, CalledBack(q, Some(RawOf(s1.g, r.value)))), body, backing);
    case Send(arg) => ClientSucceeds(o, s, q, arg, "", false, backing);
    case Receive(arg, selector) => ClientSucceeds(o, s, q, arg, selector, s.settings.noLocal, backing);
  }

  /** Every such call on a configured template returns normally when no provider call fails. */
  lemma {:induction false} CallSucceeds(o: Oracle, s: State, op: Op, backing: Backing)
    requires NeverFails(o) && Configured(s, backing) && Fine(op, backing)
    ensures Exec(o, s, op).1 && Configured(Exec(o, s, op).0, backing)
    decreases op
  {
    hide Take, Act;
    if op.Do? {
      var s0 := s.(initialized := true);
      TakeSucceeds(o, s0, backing);
      var (s1, r) := Take(o, s0);
      ActSucceeds(o, s1, r.value, op.action, backing);
    }
  }

  /** So a sequence of such calls opens one connection for good. */
  lemma {:induction false} NoFailureOneConnection(o: Oracle, s: State, ops: seq<Op>, backing: Backing)
    requires NeverFails(o) && Good(s, {}) && Configured(s, backing)
    requires forall i :: 0 <= i < |ops| ==> Fine(ops[i], backing)
    ensures Failures(o, s, ops) == 0 && Potential(Run(o, s, ops)) <= Potential(s)
    decreases |ops|
  {
    hide GraphInv;
    NoFailures(o, s, ops, backing);
    OneConnectionPerFailure(o, s, ops);
  }

  lemma {:induction false} NoFailures(o: Oracle, s: State, ops: seq<Op>, backing: Backing)
    requires NeverFails(o) && Configured(s, backing) && forall i :: 0 <= i < |ops| ==> Fine(ops[i], backing)
    ensures Failures(o, s, ops) == 0
    decreases |ops|
  {
    if ops != [] {
      CallSucceeds(o, s, ops[0], backing);
      NoFailures(o, Exec(o, s, ops[0]).0, ops[1..], backing);
    }
  }
}

/**
  The strings under which a pooled session caches its producers and consumers.
  A destination contributes its domain and name; a consumer appends its selector
  and noLocal flag.
 */
module CacheKeys {
  import opened Collections

  /** A CMS destination as the key builder sees it.  Temporary destinations are queues and
      topics too; `Other` is a destination that is neither. */
  datatype Dest = Queue(name: string) | Topic(name: string) | TempQueue(name: string) | TempTopic(name: string) | Other
  {
    predicate IsQueue() { Queue? || TempQueue? }
    predicate IsTopic() { Topic? || TempTopic? }
  }

  /** The arguments of a createProducer or createConsumer request. */
  datatype Client = ProducerFor(dest: Dest) | ConsumerFor(dest: Dest, selector: string, noLocal: bool)

  /** What a destination key identifies: the domain and the name, not the temporary flag. */
  ghost predicate SameKeyedDest(d: Dest, e: Dest) {
    || (d.Other? && e.Other?)
    || (d.IsQueue() && e.IsQueue() && d.name == e.name)
    || (d.IsTopic() && e.IsTopic() && d.name == e.name)
  }

  function DestKey(dest: Dest): string {
    var body :=
      if dest.IsQueue() then "q:" + dest.name
      else if dest.IsTopic() then "t:" + dest.name
      else "";
    "[" + body + "]"
  }

  function Flag(noLocal: bool): string {
    if noLocal then "t" else "f"
  }

  function Key(client: Client): string {
    match client
    case ProducerFor(dest) => DestKey(dest)
    case ConsumerFor(dest, selector, noLocal) => DestKey(dest) + "s=" + selector + ",nl=" + Flag(noLocal)
  }

  const MARKER := "]s="

  /** Whether a destination name contains the text that ends the name part of a consumer key. */
  ghost predicate HasMarker(name: string) {
    exists i: nat :: OccursAt(name, MARKER, i)
  }

  ghost predicate PlainName(dest: Dest) {
    dest.Other? || !HasMarker(dest.name)
  }

  lemma AppendCancels(a: string, b: string, x: string, y: string)
    requires a + x == b + y && |x| == |y|
    ensures a == b && x == y
  {
    assert |a| == |b|;
    assert a == (a + x)[..|a|] && b == (b + y)[..|b|];
    assert x == (a + x)[|a|..] && y == (b + y)[|b|..];
  }

  lemma PrefixCancels(a: string, x: string, y: string)
    requires a + x == a + y
    ensures x == y
  {
    assert x == (a + x)[|a|..] && y == (a + y)[|a|..];
  }

  /** Producer keys separate destinations exactly by domain and name. */
  lemma ProducerKeyExact(d: Dest, e: Dest)
    ensures Key(ProducerFor(d)) == Key(ProducerFor(e)) <==> SameKeyedDest(d, e)
  {
    if DestKey(d) == DestKey(e) {
      assert d.Other? <==> |DestKey(d)| == 2;
      if !d.Other? && !e.Other? {
        var x := DestKey(d);
        assert x[1] == (if d.IsQueue() then 'q' else 't');
        assert d.name == x[3..|x| - 1];
        assert e.name == x[3..|x| - 1];
      }
    }
  }

  /** The part of a consumer key between the domain tag and the noLocal suffix. */
  ghost function Middle(name: string, selector: string): string {
    name + MARKER + selector
  }

  /** The head of a consumer key: everything before the noLocal suffix. */
  ghost function Head(d: Dest, selector: string): string {
    if d.Other? then "[" + MARKER + selector
    else if d.IsQueue() then "[q:" + Middle(d.name, selector)
    else "[t:" + Middle(d.name, selector)
  }

  lemma HeadShape(d: Dest, s: string)
    ensures DestKey(d) + "s=" + s == Head(d, s)
  {
    if d.Other? {
      assert DestKey(d) + "s=" == "[" + MARKER;
    } else {
      var tag := if d.IsQueue() then "[q:" else "[t:";
      assert DestKey(d) == tag + d.name + "]";
      assert "]" + "s=" == MARKER;
      assert DestKey(d) + "s=" == tag + d.name + MARKER;
      assert tag + d.name + MARKER + s == tag + Middle(d.name, s);
    }
  }

  lemma ConsumerKeyShape(d: Dest, s: string, noLocal: bool)
    ensures Key(ConsumerFor(d, s, noLocal)) == Head(d, s) + (",nl=" + Flag(noLocal))
  {
    HeadShape(d, s);
    var h := DestKey(d) + "s=" + s;
    assert h + ",nl=" + Flag(noLocal) == h + (",nl=" + Flag(noLocal));
  }

  /** Two consumer requests share a key exactly when they agree on the flag and the domain and
      the texts name + "]s=" + selector coincide. */
  lemma ConsumerKeyExact(d: Dest, s: string, m: bool, e: Dest, t: string, n: bool)
    ensures Key(ConsumerFor(d, s, m)) == Key(ConsumerFor(e, t, n)) <==>
      && m == n
      && (|| (d.Other? && e.Other? && s == t)
          || (d.IsQueue() && e.IsQueue() && Middle(d.name, s) == Middle(e.name, t))
          || (d.IsTopic() && e.IsTopic() && Middle(d.name, s) == Middle(e.name, t)))
  {
    ConsumerKeyShape(d, s, m);
    ConsumerKeyShape(e, t, n);
    var x, y := Head(d, s), Head(e, t);
    if x + (",nl=" + Flag(m)) == y + (",nl=" + Flag(n)) {
      AppendCancels(x, y, ",nl=" + Flag(m), ",nl=" + Flag(n));
      assert (",nl=" + Flag(m))[4] == (",nl=" + Flag(n))[4];
      assert x[1] == (if d.Other? then ']' else if d.IsQueue() then 'q' else 't');
      assert y[1] == (if e.Other? then ']' else if e.IsQueue() then 'q' else 't');
      if d.Other? {
        PrefixCancels("[" + MARKER, s, t);
      } else {
        PrefixCancels(if d.IsQueue() then "[q:" else "[t:", Middle(d.name, s), Middle(e.name, t));
      }
    }
  }

  /** In a + "]s=" + x with no marker in a, no marker starts before a ends: the marker
      overlaps no shifted copy of itself. */
  lemma FirstMarker(a: string, x: string, i: nat)
    requires !HasMarker(a)
    requires i < |a|
    ensures !OccursAt(Middle(a, x), MARKER, i)
  {
    var m := Middle(a, x);
    assert !OccursAt(a, MARKER, i);
    if i + 3 <= |a| {
      assert m[i..i + 3] == a[i..i + 3];
    } else {
      assert m[|a|] == MARKER[0];
      assert m[i..i + 3][|a| - i] == m[|a|];
      assert MARKER[|a| - i] != MARKER[0];
    }
  }

  lemma MarkerInMiddle(a: string, x: string)
    ensures OccursAt(Middle(a, x), MARKER, |a|)
  {
    assert Middle(a, x)[|a|..|a| + 3] == MARKER;
  }

  /** With no marker in the names, the name and the selector are recovered from the key. */
  lemma MiddleInjective(a: string, x: string, b: string, y: string)
    requires !HasMarker(a) && !HasMarker(b)
    requires Middle(a, x) == Middle(b, y)
    ensures a == b && x == y
  {
    MarkerInMiddle(a, x);
    MarkerInMiddle(b, y);
    if |b| < |a| { FirstMarker(a, x, |b|); }
    if |a| < |b| { FirstMarker(b, y, |a|); }
    AppendCancels(a, b, MARKER + x, MARKER + y) by {
      assert a + (MARKER + x) == Middle(a, x) && b + (MARKER + y) == Middle(b, y);
    }
    PrefixCancels(MARKER, x, y);
  }

  /** Consumer keys are injective, for arbitrary selectors, on names without the marker. */
  lemma ConsumerKeyInjective(d: Dest, s: string, m: bool, e: Dest, t: string, n: bool)
    requires PlainName(d) && PlainName(e)
    ensures Key(ConsumerFor(d, s, m)) == Key(ConsumerFor(e, t, n)) <==>
      SameKeyedDest(d, e) && s == t && m == n
  {
    ConsumerKeyExact(d, s, m, e, t, n);
    if !d.Other? && !e.Other? && Middle(d.name, s) == Middle(e.name, t) {
      MiddleInjective(d.name, s, e.name, t);
    }
  }

  /** The condition on names is exact: a queue or topic, temporary or not, whose name has the
      marker shares every one of its consumer keys with a destination of a shorter name under
      another selector. */
  lemma MarkerCollides(dest: Dest, selector: string, noLocal: bool)
    requires !PlainName(dest)
    ensures exists other: Dest, sel: string ::
              && !SameKeyedDest(other, dest)
              && Key(ConsumerFor(other, sel, noLocal)) == Key(ConsumerFor(dest, selector, noLocal))
  {
    var name := dest.name;
    var i: nat :| OccursAt(name, MARKER, i);
    var other := dest.(name := name[..i]);
    var sel := name[i + 3..] + MARKER + selector;
    assert name == name[..i] + MARKER + name[i + 3..];
    assert Middle(name[..i], sel) == Middle(name, selector);
    ConsumerKeyExact(other, sel, noLocal, dest, selector, noLocal);
    assert |other.name| < |name|;
  }
}

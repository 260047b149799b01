/**
  ActiveMQMapMessage: a map of named values, decoded on demand from the message content.  The
  marshaller is abstract; what is proved holds for any pair of inverse functions.
 */
module MapMessage {
  import opened Options
  import opened FixedWidth

  type Items<V> = map<string, V>

  /** PrimitiveTypesMarshaller; unmarshalling fails on bytes that no map marshals to. */
  datatype Codec<!V> = Codec(marshal: Items<V> -> seq<Byte>, unmarshal: seq<Byte> -> Option<Items<V>>)

  ghost predicate Inverse<V(!new)>(codec: Codec<V>) {
    forall m: Items<V> :: codec.unmarshal(codec.marshal(m)) == Some(m) && codec.marshal(m) != []
  }

  datatype Result<+T> = Ok(value: T) | NotWriteable | NoSuchItem | Corrupt

  /** The message body: content bytes, and the map once it has been decoded. */
  datatype Body<V> = Body(content: seq<Byte>, items: Option<Items<V>>, readOnly: bool)

  /** The map that some content stands for. */
  function Decode<V>(codec: Codec<V>, content: seq<Byte>): Option<Items<V>> {
    if content == [] then Some(map[]) else codec.unmarshal(content)
  }

  /** The map that the message shows, were it decoded now. */
  function View<V>(codec: Codec<V>, b: Body<V>): Option<Items<V>> {
    if b.items.Some? then b.items else Decode(codec, b.content)
  }

  function Unmarshalled<V>(codec: Codec<V>, b: Body<V>): Body<V> {
    b.(items := View(codec, b))
  }

  function Get<V>(codec: Codec<V>, b: Body<V>, name: string): (Body<V>, Result<V>) {
    match View(codec, b)
    case None => (b, Corrupt)
    case Some(m) => (Unmarshalled(codec, b), if name in m then Ok(m[name]) else NoSuchItem)
  }

  function Put<V>(codec: Codec<V>, b: Body<V>, name: string, v: V): (Body<V>, Result<V>) {
    if b.readOnly then (b, NotWriteable)
    else match View(codec, b)
      case None => (b, Corrupt)
      case Some(m) => (b.(items := Some(m[name := v])), Ok(v))
  }

  function ClearBody<V>(b: Body<V>): Body<V> {
    Body([], Some(map[]), false)
  }

  function CloneOf<V>(b: Body<V>): Body<V> {
    b.(readOnly := false)
  }

  /** beforeMarshal: encodes a decoded, non-empty map, and otherwise clears the body. */
  function BeforeMarshal<V>(codec: Codec<V>, b: Body<V>): Body<V> {
    if b.items.Some? && |b.items.value| != 0 then b.(content := codec.marshal(b.items.value)) else ClearBody(b)
  }

  // ---- Lazy decoding shows what eager decoding would ----

  datatype Op<V> = DoGet(name: string) | DoPut(name: string, v: V) | DoClone | DoClear | DoSend

  function Step<V>(codec: Codec<V>, b: Body<V>, op: Op<V>): (Body<V>, Option<Result<V>>) {
    match op
    case DoGet(name) => var (c, r) := Get(codec, b, name); (c, Some(r))
    case DoPut(name, v) => var (c, r) := Put(codec, b, name, v); (c, Some(r))
    case DoClone => (CloneOf(b), None)
    case DoClear => (ClearBody(b), None)
    case DoSend => (b.(readOnly := true), None)
  }

  function Results<V>(codec: Codec<V>, b: Body<V>, ops: seq<Op<V>>): seq<Option<Result<V>>>
    decreases |ops|
  {
    if ops == [] then []
    else var (c, r) := Step(codec, b, ops[0]); [r] + Results(codec, c, ops[1..])
  }

  /** A message that decodes its content as soon as it has any: only the map and the flag. */
  datatype Eager<V> = Eager(items: Option<Items<V>>, readOnly: bool)

  function EagerStep<V>(e: Eager<V>, op: Op<V>): (Eager<V>, Option<Result<V>>) {
    match op
    case DoGet(name) =>
      (e, Some(if e.items.None? then Corrupt else if name in e.items.value then Ok(e.items.value[name]) else NoSuchItem))
    case DoPut(name, v) =>
      if e.readOnly then (e, Some(NotWriteable))
      else if e.items.None? then (e, Some(Corrupt))
      else (e.(items := Some(e.items.value[name := v])), Some(Ok(v)))
    case DoClone => (e.(readOnly := false), None)
    case DoClear => (Eager(Some(map[]), false), None)
    case DoSend => (e.(readOnly := true), None)
  }

  function EagerResults<V>(e: Eager<V>, ops: seq<Op<V>>): seq<Option<Result<V>>>
    decreases |ops|
  {
    if ops == [] then [] else var (f, r) := EagerStep(e, ops[0]); [r] + EagerResults(f, ops[1..])
  }

  /** In every run of reads, writes, clones, clears and sends, on any content, the lazily decoded
      message answers exactly as an eagerly decoded one. */
  lemma {:induction false} LazyIsEager<V>(codec: Codec<V>, b: Body<V>, ops: seq<Op<V>>)
    ensures Results(codec, b, ops) == EagerResults(Eager(View(codec, b), b.readOnly), ops)
    decreases |ops|
  {
    if ops != [] {
      LazyIsEager(codec, Step(codec, b, ops[0]).0, ops[1..]);
    }
  }

  // ---- Marshalling ----

  /** beforeMarshal keeps the map that the message shows if and only if the map has been decoded
      or is empty; otherwise the body is lost. */
  lemma BeforeMarshalKeepsExact<V>(codec: Codec<V>, b: Body<V>)
    ensures View(codec, BeforeMarshal(codec, b)) == View(codec, b) <==>
      b.items.Some? || View(codec, b) == Some(map[])
  {
    if b.items.Some? && |b.items.value| == 0 { assert b.items.value == map[]; }
  }

  /** A received message that is passed on without being read loses its map. */
  lemma PassedOnUnread<V(!new)>(codec: Codec<V>, m: Items<V>)
    requires Inverse(codec) && m != map[]
    ensures var b := Body(codec.marshal(m), None, true);
      View(codec, b) == Some(m) && View(codec, BeforeMarshal(codec, b)) == Some(map[])
  {
  }

  /** After beforeMarshal the content stands for the map that the message shows, so a receiver
      of that content sees the same map. */
  lemma ContentInSync<V(!new)>(codec: Codec<V>, b: Body<V>)
    requires Inverse(codec)
    ensures var c := BeforeMarshal(codec, b);
      c.items.Some? && Decode(codec, c.content) == c.items && View(codec, Body(c.content, None, true)) == View(codec, c)
  {
  }

  /** beforeMarshal keeps a sent message read-only if and only if its decoded map is not empty. */
  lemma ReadOnlyKeptExact<V>(codec: Codec<V>, b: Body<V>)
    requires b.readOnly
    ensures BeforeMarshal(codec, b).readOnly <==> b.items.Some? && b.items.value != map[]
  {
    if b.items.Some? { assert |b.items.value| == 0 <==> b.items.value == map[]; }
  }

  class ActiveMQMapMessage<V> {
    const codec: Codec<V>
    var content: seq<Byte>
    var items: Option<Items<V>>
    var readOnlyBody: bool

    ghost function State(): Body<V>
      reads this
    {
      Body(content, items, readOnlyBody)
    }

    /** A message with content from the wire, or an empty new one. */
    constructor (codec: Codec<V>, content: seq<Byte>, readOnlyBody: bool)
      ensures this.codec == codec && State() == Body(content, None, readOnlyBody)
    {
      this.codec, this.content, this.items, this.readOnlyBody := codec, content, None, readOnlyBody;
    }

    /** checkMapIsUnmarshalled; false when the content cannot be decoded. */
    method CheckMapIsUnmarshalled() returns (ok: bool)
      modifies this`items
      ensures ok == View(codec, old(State())).Some? && State() == Unmarshalled(codec, old(State()))
    {
      if items == None && content != [] {
        items := codec.unmarshal(content);
        if items == None {
          return false;
        }
      } else if items == None {
        items := Some(map[]);
      }
      return true;
    }

    method GetItem(name: string) returns (r: Result<V>)
      modifies this`items
      ensures (State(), r) == Get(codec, old(State()), name)
    {
      var ok := CheckMapIsUnmarshalled();
      if !ok {
        return Corrupt;
      }
      return if name in items.value then Ok(items.value[name]) else NoSuchItem;
    }

    method SetItem(name: string, v: V) returns (r: Result<V>)
      modifies this`items
      ensures (State(), r) == Put(codec, old(State()), name, v)
    {
      if readOnlyBody {
        return NotWriteable;
      }
      var ok := CheckMapIsUnmarshalled();
      if !ok {
        return Corrupt;
      }
      items := Some(items.value[name := v]);
      return Ok(v);
    }

    method Clear()
      modifies this
      ensures State() == ClearBody(old(State()))
    {
      content, readOnlyBody := [], false;
      var ok := CheckMapIsUnmarshalled();
      items := Some(map[]);
    }

    method PrepareToMarshal()
      modifies this
      ensures State() == BeforeMarshal(codec, old(State()))
    {
      if items.Some? && |items.value| != 0 {
        content := codec.marshal(items.value);
      } else {
        Clear();
      }
    }

    method Clone() returns (copy: ActiveMQMapMessage<V>)
      ensures fresh(copy) && copy.codec == codec && copy.State() == CloneOf(State())
    {
      copy := new ActiveMQMapMessage(codec, content, readOnlyBody);
      if items.Some? {
        copy.items := items;
      }
      copy.readOnlyBody := false;
    }
  }
}

/**
  The body of a bytes message, with compression off: the stored content, the bytes written since,
  and the position of an open reader.
 */
module BytesBody {
  import opened Options
  import opened FixedWidth

  /** `out` is the output stream's buffer while it is open; `reader` the input stream's position
      in the content; `length` what getBodyLength answers from. */
  datatype Body = Body(content: seq<Byte>, readOnly: bool, out: Option<seq<Byte>>, reader: Option<nat>, length: nat)

  datatype Result<+T> = Ok(value: T) | NotReadable | NotWriteable | Eof | OutOfBounds

  /** A new or cleared body. */
  const EMPTY := Body([], false, None, None, 0)

  /** The content is taken from the output stream, which is then closed, if anything was written. */
  function StoreContent(b: Body): Body {
    if b.out.Some? && b.out.value != [] then b.(content := b.out.value, out := None) else b
  }

  function OpenWriter(b: Body): Body {
    if b.out.None? then b.(out := Some([]), length := 0) else b
  }

  function OpenReader(b: Body): Body {
    if b.reader.None? then b.(reader := Some(0), length := |b.content|) else b
  }

  function Append(b: Body, bytes: seq<Byte>): Body {
    var c := OpenWriter(b);
    c.(out := Some(c.out.value + bytes))
  }

  function Write(b: Body, bytes: seq<Byte>): (Body, Result<()>) {
    if b.readOnly then (b, NotWriteable) else (Append(b, bytes), Ok(()))
  }

  /** writeBytes(value, offset, length) tells the stream that the array has `length` bytes, so
      the stream's bounds check refuses every positive offset. */
  function WriteRange(b: Body, value: seq<Byte>, offset: int, length: int): (Body, Result<()>)
    requires offset >= 0 && length >= 0 ==> offset + length <= |value|
  {
    if b.readOnly then (b, NotWriteable)
    else if length == 0 then (OpenWriter(b), Ok(()))
    else if length < 0 || offset != 0 then (OpenWriter(b), OutOfBounds)
    else (Append(b, value[..length]), Ok(()))
  }

  function Reset(b: Body): Body {
    Body(StoreContent(b).content, true, None, None, 0)
  }

  function OnSend(b: Body): Body {
    StoreContent(b).(readOnly := true)
  }

  /** The clone of a message; the message itself is left as StoreContent leaves it. */
  function CloneOf(b: Body): Body {
    EMPTY.(content := StoreContent(b).content)
  }

  function BodyLength(b: Body): (Body, Result<int>) {
    if !b.readOnly then (b, NotReadable) else (OpenReader(b), Ok(OpenReader(b).length))
  }

  /** How many bytes are left to read. */
  function Remaining(b: Body): nat {
    if b.reader.Some? && b.reader.value <= |b.content| then |b.content| - b.reader.value else 0
  }

  function Min(a: nat, b: nat): nat {
    if a < b then a else b
  }

  /** The next k bytes. */
  function Ahead(b: Body, k: nat): seq<Byte> {
    if b.reader.Some? && b.reader.value <= |b.content| && k <= Remaining(b) then b.content[b.reader.value..b.reader.value + k] else []
  }

  function Advance(b: Body, k: nat): Body {
    if b.reader.Some? then b.(reader := Some(b.reader.value + k)) else b
  }

  /** readBytes: the count, or -1 when bytes were asked for and none is left; and the bytes. */
  function ReadBytes(b: Body, n: int): (Body, Result<(int, seq<Byte>)>) {
    if !b.readOnly then (b, NotReadable)
    else if n < 0 then (OpenReader(b), OutOfBounds)
    else
      var c := OpenReader(b);
      var k := Min(n, Remaining(c));
      (Advance(c, k), Ok((if k == 0 && n > 0 then -1 else k, Ahead(c, k))))
  }

  /** A fixed-width read; at the end of the body it uses up what is left and fails. */
  function ReadValue(b: Body, kind: Kind): (Body, Result<Value>) {
    if !b.readOnly then (b, NotReadable)
    else
      var c, w := OpenReader(b), Width(kind);
      if Remaining(c) < w then (Advance(c, Remaining(c)), Eof)
      else
        var bytes := Ahead(c, w);
        (Advance(c, w), if |bytes| == w then Ok(DecodeValue(kind, bytes)) else Eof)
  }

  // ---- Every run on one object ----

  datatype Op =
    | DoWrite(bytes: seq<Byte>)
    | DoWriteRange(value: seq<Byte>, offset: int, length: int)
    | DoWriteValue(v: Value)
    | DoClearBody
    | DoReset
    | DoOnSend
    | DoClone
    | DoBodyLength
    | DoReadBytes(n: int)
    | DoReadValue(kind: Kind)

  function Step(b: Body, op: Op): Body {
    match op
    case DoWrite(bytes) => Write(b, bytes).0
    case DoWriteRange(value, offset, length) =>
      if offset >= 0 && length >= 0 && offset + length > |value| then b else WriteRange(b, value, offset, length).0
    case DoWriteValue(v) => Write(b, EncodeValue(v)).0
    case DoClearBody => EMPTY
    case DoReset => Reset(b)
    case DoOnSend => OnSend(b)
    case DoClone => StoreContent(b)
    case DoBodyLength => BodyLength(b).0
    case DoReadBytes(n) => ReadBytes(b, n).0
    case DoReadValue(kind) => ReadValue(b, kind).0
  }

  function Run(b: Body, ops: seq<Op>): Body
    decreases |ops|
  {
    if ops == [] then b else Run(Step(b, ops[0]), ops[1..])
  }

  /** A reader is open only in read-only mode, inside the content and with its length known; and
      in read-only mode nothing written is still unstored. */
  ghost predicate Sound(b: Body) {
    && (b.reader.Some? ==> b.readOnly && b.reader.value <= |b.content| && b.length == |b.content|)
    && (b.readOnly && b.out.Some? ==> b.out.value == [])
  }

  lemma {:induction false} RunSound(b: Body, ops: seq<Op>)
    requires Sound(b)
    ensures Sound(Run(b, ops))
    decreases |ops|
  {
    if ops != [] { RunSound(Step(b, ops[0]), ops[1..]); }
  }

  /** The content never changes while a reader is open: any step that changes it closes the
      reader. */
  lemma ContentStaysUnderReader(b: Body, op: Op)
    requires Sound(b) && b.reader.Some? && Step(b, op).content != b.content
    ensures Step(b, op).reader.None?
  {
  }

  /** While nothing clears the body, a read-only message keeps its content, and refuses to write. */
  lemma {:induction false} ReadOnlyUntilCleared(b: Body, ops: seq<Op>)
    requires Sound(b) && b.readOnly && DoClearBody !in ops
    ensures var c := Run(b, ops);
      c.readOnly && c.content == b.content && forall bytes :: Write(c, bytes) == (c, NotWriteable)
    decreases |ops|
  {
    if ops != [] {
      assert ops[0] in ops;
      ReadOnlyUntilCleared(Step(b, ops[0]), ops[1..]);
    }
  }

  /** Until it is reset or sent, a message that can be written refuses every read. */
  lemma {:induction false} WriteOnlyUntilReset(b: Body, ops: seq<Op>)
    requires !b.readOnly && DoReset !in ops && DoOnSend !in ops
    ensures var c := Run(b, ops);
      && !c.readOnly && BodyLength(c) == (c, NotReadable)
      && (forall n: int :: ReadBytes(c, n) == (c, NotReadable))
      && (forall kind :: ReadValue(c, kind) == (c, NotReadable))
    decreases |ops|
  {
    if ops != [] {
      assert ops[0] in ops;
      WriteOnlyUntilReset(Step(b, ops[0]), ops[1..]);
    }
  }

  // ---- What was written is what is read ----

  /** The writes of a run, in order; a clone ends a segment. */
  datatype Event = Wrote(bytes: seq<Byte>) | Cloned

  function ToOp(e: Event): Op {
    match e
    case Wrote(bytes) => DoWrite(bytes)
    case Cloned => DoClone
  }

  function ToOps(es: seq<Event>): seq<Op> {
    if es == [] then [] else [ToOp(es[0])] + ToOps(es[1..])
  }

  /** All bytes written. */
  function Written(es: seq<Event>): seq<Byte> {
    if es == [] then []
    else (if es[0].Wrote? then es[0].bytes else []) + Written(es[1..])
  }

  /** The bytes that reset or onSend would make readable. */
  function Visible(b: Body): seq<Byte> {
    StoreContent(b).content
  }

  function Pending(b: Body): seq<Byte> {
    if b.out.Some? then b.out.value else []
  }

  /** What survives: `kept` was stored before, `open` is the segment being written. */
  function Surviving(kept: seq<Byte>, open: seq<Byte>, es: seq<Event>): seq<Byte>
    decreases |es|
  {
    if es == [] then (if open == [] then kept else open)
    else match es[0]
      case Wrote(bytes) => Surviving(kept, open + bytes, es[1..])
      case Cloned => Surviving(if open == [] then kept else open, [], es[1..])
  }

  /** After any writes and clones, what reset or onSend makes readable is the last segment, cut
      at the clones, in which anything was written. */
  lemma {:induction false} LastSegmentSurvives(b: Body, es: seq<Event>)
    requires !b.readOnly
    ensures var c := Run(b, ToOps(es)); !c.readOnly && Visible(c) == Surviving(b.content, Pending(b), es)
    decreases |es|
  {
    if es != [] {
      var op, c := ToOp(es[0]), Step(b, ToOp(es[0]));
      assert ToOps(es)[0] == op && ToOps(es)[1..] == ToOps(es[1..]);
      LastSegmentSurvives(c, es[1..]);
    }
  }

  lemma {:induction false} NoCloneNoLoss(kept: seq<Byte>, open: seq<Byte>, es: seq<Event>)
    requires Cloned !in es
    ensures var all := open + Written(es); Surviving(kept, open, es) == if all == [] then kept else all
    decreases |es|
  {
    if es == [] {
      assert open + Written(es) == open;
    } else {
      assert es[0] in es;
      NoCloneNoLoss(kept, open + es[0].bytes, es[1..]);
      assert open + es[0].bytes + Written(es[1..]) == open + Written(es);
    }
  }

  /** Without a clone in between, a new or cleared message that is reset or sent reads as exactly
      the concatenation of its writes, and getBodyLength says how long it is. */
  lemma WritesAreTheBody(es: seq<Event>)
    requires Cloned !in es
    ensures var b := Run(EMPTY, ToOps(es));
      forall r :: r in {Reset(b), OnSend(b)} ==>
        && r.content == Written(es) && r.readOnly
        && BodyLength(r).1 == Ok(|Written(es)|)
        && ReadBytes(r, |Written(es)|).1 == Ok((|Written(es)|, Written(es)))
  {
    LastSegmentSurvives(EMPTY, es);
    NoCloneNoLoss([], [], es);
    var b := Run(EMPTY, ToOps(es));
    RunSound(EMPTY, ToOps(es));
    assert [] + Written(es) == Written(es);
    assert Visible(b) == Written(es);
    WriteOnlyHasNoReader(b);
    ReadsAll(Reset(b));
    ReadsAll(OnSend(b));
  }

  /** Nor does it matter what a message went through before it was cleared. */
  lemma WritesSinceCleared(before: seq<Op>, es: seq<Event>)
    ensures Run(EMPTY, before + [DoClearBody] + ToOps(es)) == Run(EMPTY, ToOps(es))
  {
    var ops := [DoClearBody] + ToOps(es);
    assert before + [DoClearBody] + ToOps(es) == before + ops;
    RunAppend(EMPTY, before, ops);
    assert ops[1..] == ToOps(es);
  }

  lemma {:induction false} RunAppend(b: Body, first: seq<Op>, second: seq<Op>)
    ensures Run(b, first + second) == Run(Run(b, first), second)
    decreases |first|
  {
    if first == [] {
      assert first + second == second;
    } else {
      assert (first + second)[1..] == first[1..] + second;
      RunAppend(Step(b, first[0]), first[1..], second);
    }
  }

  lemma ReadsAll(r: Body)
    requires r.readOnly && r.reader.None?
    ensures BodyLength(r).1 == Ok(|r.content|)
    ensures ReadBytes(r, |r.content|).1 == Ok((|r.content|, r.content))
  {
    assert r.content[0..|r.content|] == r.content;
  }

  lemma WriteOnlyHasNoReader(b: Body)
    requires Sound(b) && !b.readOnly
    ensures b.reader.None?
  {
  }

  lemma {:induction false} SurvivingSplit(kept: seq<Byte>, open: seq<Byte>, before: seq<Event>, after: seq<Event>)
    requires Cloned !in before
    ensures Surviving(kept, open, before + [Cloned] + after) ==
      var all := open + Written(before); Surviving(if all == [] then kept else all, [], after)
    decreases |before|
  {
    var es := before + [Cloned] + after;
    if before == [] {
      assert es[1..] == after;
      assert open + Written(before) == open;
    } else {
      assert before[0] in before;
      assert es[1..] == before[1..] + [Cloned] + after;
      SurvivingSplit(kept, open + before[0].bytes, before[1..], after);
      assert open + before[0].bytes + Written(before[1..]) == open + Written(before);
    }
  }

  /** A clone in mid-write costs the earlier bytes exactly when more is written afterwards: the
      body equals all that was written if and only if one of the two halves is empty. */
  lemma CloneInMidWrite(before: seq<Event>, after: seq<Event>)
    requires Cloned !in before && Cloned !in after
    ensures var body := Visible(Run(EMPTY, ToOps(before + [Cloned] + after)));
      && body == (if Written(after) == [] then Written(before) else Written(after))
      && (body == Written(before) + Written(after) <==> Written(before) == [] || Written(after) == [])
  {
    LastSegmentSurvives(EMPTY, before + [Cloned] + after);
    SurvivingSplit([], [], before, after);
    assert [] + Written(before) == Written(before) && [] + Written(after) == Written(after);
    NoCloneNoLoss(Written(before), [], after);
    assert |Written(before) + Written(after)| == |Written(before)| + |Written(after)|;
    assert Written(before) + [] == Written(before);
  }

  /** writeBytes with an offset appends the asked-for portion if and only if the offset is zero
      or the portion is empty. */
  lemma WriteRangeExact(b: Body, value: seq<Byte>, offset: int, length: int)
    requires !b.readOnly && (offset >= 0 && length >= 0 ==> offset + length <= |value|)
    ensures var (c, r) := WriteRange(b, value, offset, length);
      && (offset >= 0 && length >= 0 ==>
            (c == Append(b, value[offset..offset + length]) && r.Ok? <==> offset == 0 || length == 0))
      && (r.Ok? <==> length == 0 || (offset == 0 && length > 0))
      && (r.Ok? || (r == OutOfBounds && c == OpenWriter(b)))
  {
    if offset >= 0 && length >= 0 {
      var portion := value[offset..offset + length];
      var c := OpenWriter(b);
      assert |c.out.value + portion| == |c.out.value| + length;
      if length == 0 { assert c.out.value + portion == c.out.value; }
    }
  }

  // ---- Reading in chunks ----

  /** The results of successive readBytes calls. */
  function ReadChunks(b: Body, ns: seq<nat>): seq<(int, seq<Byte>)>
    decreases |ns|
  {
    if ns == [] then []
    else
      var (c, r) := ReadBytes(b, ns[0]);
      if r.Ok? then [r.value] + ReadChunks(c, ns[1..]) else []
  }

  function Joined(chunks: seq<(int, seq<Byte>)>): seq<Byte> {
    if chunks == [] then [] else chunks[0].1 + Joined(chunks[1..])
  }

  function Total(ns: seq<nat>): nat {
    if ns == [] then 0 else ns[0] + Total(ns[1..])
  }

  /** Read-only, whether or not a reader is open yet: reset and onSend leave it closed, and the
      first read opens it. */
  ghost predicate Readable(b: Body) {
    Sound(b) && b.readOnly
  }

  /** What is still to be read. */
  function Unread(b: Body): seq<Byte> {
    var c := OpenReader(b);
    if c.reader.value <= |c.content| then c.content[c.reader.value..] else []
  }

  /** The reference: a byte sequence cut into chunks of the given lengths until it is used up. */
  function Cut(bytes: seq<Byte>, ns: seq<nat>): (chunks: seq<(int, seq<Byte>)>)
    ensures |chunks| == |ns|
    decreases |ns|
  {
    if ns == [] then []
    else
      var k := Min(ns[0], |bytes|);
      [(if k == 0 && ns[0] > 0 then -1 else k, bytes[..k])] + Cut(bytes[k..], ns[1..])
  }

  lemma ReadStep(b: Body, n: nat)
    requires Readable(b)
    ensures var (c, r) := ReadBytes(b, n);
      var k := Min(n, |Unread(b)|);
      && r == Ok((if k == 0 && n > 0 then -1 else k, Unread(b)[..k]))
      && Readable(c) && Unread(c) == Unread(b)[k..]
  {
    var k := Min(n, |Unread(b)|);
    assert Ahead(OpenReader(b), k) == Unread(b)[..k];
  }

  /** Successive reads cut up what is unread. */
  lemma {:induction false} ReadsCut(b: Body, ns: seq<nat>)
    requires Readable(b)
    ensures ReadChunks(b, ns) == Cut(Unread(b), ns)
    decreases |ns|
  {
    if ns != [] {
      hide ReadBytes, Unread, Readable;
      ReadStep(b, ns[0]);
      ReadsCut(ReadBytes(b, ns[0]).0, ns[1..]);
    }
  }

  lemma {:induction false} CutJoins(bytes: seq<Byte>, ns: seq<nat>)
    ensures Joined(Cut(bytes, ns)) == bytes[..Min(Total(ns), |bytes|)]
    decreases |ns|
  {
    if ns != [] {
      var k := Min(ns[0], |bytes|);
      CutJoins(bytes[k..], ns[1..]);
      assert Cut(bytes, ns)[1..] == Cut(bytes[k..], ns[1..]);
      PrefixSplit(bytes, k, Min(Total(ns[1..]), |bytes| - k));
    }
  }

  lemma PrefixSplit(bytes: seq<Byte>, k: nat, m: nat)
    requires k + m <= |bytes|
    ensures bytes[..k] + bytes[k..][..m] == bytes[..k + m]
  {
  }

  lemma {:induction false} CutShape(bytes: seq<Byte>, ns: seq<nat>, i: nat)
    requires i < |ns|
    ensures var chunk := Cut(bytes, ns)[i];
      |chunk.1| <= ns[i] && chunk.0 == if chunk.1 == [] && ns[i] > 0 then -1 else |chunk.1|
    decreases |ns|
  {
    if i > 0 { CutShape(bytes[Min(ns[0], |bytes|)..], ns[1..], i - 1); }
  }

  /** From `from` on every chunk is empty, which a read of some bytes reports as -1. */
  ghost predicate EndedFrom(chunks: seq<(int, seq<Byte>)>, ns: seq<nat>, from: nat) {
    |chunks| == |ns| && forall j :: from <= j < |ns| ==> chunks[j] == (if ns[j] > 0 then -1 else 0, [])
  }

  lemma {:induction false} CutNothing(ns: seq<nat>)
    ensures EndedFrom(Cut([], ns), ns, 0)
  {
    if ns != [] {
      CutNothing(ns[1..]);
      assert forall j :: 0 < j < |ns| ==> ns[j] == ns[1..][j - 1];
    }
  }

  lemma {:induction false} CutEnds(bytes: seq<Byte>, ns: seq<nat>, i: nat)
    requires i < |ns| && |Cut(bytes, ns)[i].1| < ns[i]
    ensures Joined(Cut(bytes, ns)[..i + 1]) == bytes && EndedFrom(Cut(bytes, ns), ns, i + 1)
    decreases |ns|
  {
    var k := Min(ns[0], |bytes|);
    var first, later := Cut(bytes, ns)[0], Cut(bytes[k..], ns[1..]);
    if i == 0 {
      CutNothing(ns[1..]);
      assert later[..0] == [] && bytes[k..] == [];
    } else {
      CutEnds(bytes[k..], ns[1..], i - 1);
    }
    assert EndedFrom(later, ns[1..], i) && first.1 + Joined(later[..i]) == bytes;
    hide Cut;
    ChunkPrepended(first, later, ns, i);
  }

  lemma ChunkPrepended(first: (int, seq<Byte>), later: seq<(int, seq<Byte>)>, ns: seq<nat>, i: nat)
    requires i < |ns| && EndedFrom(later, ns[1..], i)
    ensures var chunks := [first] + later;
      Joined(chunks[..i + 1]) == first.1 + Joined(later[..i]) && EndedFrom(chunks, ns, i + 1)
  {
    var chunks := [first] + later;
    assert chunks[..i + 1][1..] == later[..i];
    forall j | i + 1 <= j < |ns| ensures chunks[j] == (if ns[j] > 0 then -1 else 0, []) {
      assert chunks[j] == later[j - 1] && ns[j] == ns[1..][j - 1];
    }
  }

  /** The chunks that readBytes returns join to the next Total(ns) bytes of the body, or to all
      that is left of it. */
  lemma ChunksAreThePrefix(b: Body, ns: seq<nat>)
    requires Readable(b)
    ensures |ReadChunks(b, ns)| == |ns|
    ensures Joined(ReadChunks(b, ns)) == Unread(b)[..Min(Total(ns), |Unread(b)|)]
  {
    hide ReadChunks, Unread, Readable;
    ReadsCut(b, ns);
    CutJoins(Unread(b), ns);
  }

  /** Each result says how many bytes it carries, -1 standing for none when some were asked for. */
  lemma ChunkShape(b: Body, ns: seq<nat>, i: nat)
    requires Readable(b) && i < |ns|
    ensures |ReadChunks(b, ns)| == |ns|
    ensures var chunk := ReadChunks(b, ns)[i];
      |chunk.1| <= ns[i] && chunk.0 == if chunk.1 == [] && ns[i] > 0 then -1 else |chunk.1|
  {
    hide ReadChunks, Unread, Readable;
    ReadsCut(b, ns);
    CutShape(Unread(b), ns, i);
  }

  /** Whether chunk i is shorter than what was asked for. */
  ghost predicate Short(b: Body, ns: seq<nat>, i: nat) {
    i < |ns| == |ReadChunks(b, ns)| && |ReadChunks(b, ns)[i].1| < ns[i]
  }

  /** A chunk is short only at the end of the body, and every positive read after a short one
      answers -1 with no bytes. */
  lemma ShortOnlyAtTheEnd(b: Body, ns: seq<nat>, i: nat)
    requires Readable(b) && Short(b, ns, i)
    ensures Joined(ReadChunks(b, ns)[..i + 1]) == Unread(b)
    ensures EndedFrom(ReadChunks(b, ns), ns, i + 1)
  {
    hide ReadChunks, Unread, Readable;
    ReadsCut(b, ns);
    CutEnds(Unread(b), ns, i);
  }

  /** Writes, then reset or onSend, then reads in chunks of any lengths: the chunks join to the
      first Total(ns) bytes of all that was written, or to all of it; a short chunk completes the
      body, and every positive read after it answers -1. */
  lemma ChunksOfTheWrites(es: seq<Event>, ns: seq<nat>, r: Body)
    requires Cloned !in es
    requires var b := Run(EMPTY, ToOps(es)); r == Reset(b) || r == OnSend(b)
    ensures |ReadChunks(r, ns)| == |ns|
    ensures Joined(ReadChunks(r, ns)) == Written(es)[..Min(Total(ns), |Written(es)|)]
    ensures forall i: nat :: Short(r, ns, i) ==>
      Joined(ReadChunks(r, ns)[..i + 1]) == Written(es) && EndedFrom(ReadChunks(r, ns), ns, i + 1)
  {
    UnreadIsWritten(es);
    ChunksAreThePrefix(r, ns);
    forall i: nat | Short(r, ns, i)
      ensures Joined(ReadChunks(r, ns)[..i + 1]) == Written(es) && EndedFrom(ReadChunks(r, ns), ns, i + 1)
    {
      ShortOnlyAtTheEnd(r, ns, i);
    }
  }

  lemma NothingReadYet(r: Body)
    requires r.reader.None?
    ensures Unread(r) == r.content
  {
  }

  /** A new message that was reset or sent has everything written still to be read. */
  lemma UnreadIsWritten(es: seq<Event>)
    requires Cloned !in es
    ensures var b := Run(EMPTY, ToOps(es));
      forall r :: r in {Reset(b), OnSend(b)} ==> Readable(r) && Unread(r) == Written(es)
  {
    var b := Run(EMPTY, ToOps(es));
    WritesAreTheBody(es);
    RunSound(EMPTY, ToOps(es));
    LastSegmentSurvives(EMPTY, es);
    hide Run, ToOps, Written, Surviving, Visible;
    WriteOnlyHasNoReader(b);
    NothingReadYet(Reset(b));
    NothingReadYet(OnSend(b));
  }

  // ---- Clones ----

  /** A clone reads, once reset or sent, as its source would if it were reset or sent now; it can
      be written, and its first bytes then replace what it holds. */
  lemma CloneReadsAsSource(b: Body, r: Body)
    requires Sound(b)
    requires var copy := CloneOf(b); r == Reset(copy) || r == OnSend(copy)
    ensures Readable(r) && Unread(r) == Unread(Reset(b)) && BodyLength(r).1 == Ok(|Unread(Reset(b))|)
    ensures forall bytes :: bytes != [] ==>
      var (w, ok) := Write(CloneOf(b), bytes); ok == Ok(()) && Unread(Reset(w)) == bytes
  {
    forall bytes: seq<Byte> | bytes != []
      ensures var (w, ok) := Write(CloneOf(b), bytes); ok == Ok(()) && Unread(Reset(w)) == bytes
    {
      assert [] + bytes == bytes;
    }
  }

  /** So the clone of a new message has the last segment written before it, and without earlier
      clones all that was written. */
  lemma CloneHasTheWrites(es: seq<Event>, r: Body)
    requires var copy := CloneOf(Run(EMPTY, ToOps(es))); r == Reset(copy) || r == OnSend(copy)
    ensures Unread(r) == Surviving([], [], es) && BodyLength(r).1 == Ok(|Surviving([], [], es)|)
    ensures Cloned !in es ==> Unread(r) == Written(es) && BodyLength(r).1 == Ok(|Written(es)|)
  {
    var b := Run(EMPTY, ToOps(es));
    RunSound(EMPTY, ToOps(es));
    LastSegmentSurvives(EMPTY, es);
    if Cloned !in es {
      NoCloneNoLoss([], [], es);
      assert [] + Written(es) == Written(es);
    }
    hide Run, ToOps, Written, Surviving, Sound;
    CloneReadsAsSource(b, r);
    NothingReadYet(Reset(b));
  }

  // ---- Typed values through a message ----

  /** A typed read takes exactly the bytes of its type, or finds the end and uses up what is left. */
  lemma ReadValueExact(b: Body, kind: Kind)
    requires Readable(b)
    ensures var (c, r) := ReadValue(b, kind);
      var bytes, w := Unread(b), Width(kind);
      && Readable(c)
      && (|bytes| < w ==> r == Eof && Unread(c) == [])
      && (|bytes| >= w ==> r == Ok(DecodeValue(kind, bytes[..w])) && Unread(c) == bytes[w..])
  {
    var w := Width(kind);
    if |Unread(b)| >= w { assert Ahead(OpenReader(b), w) == Unread(b)[..w]; }
  }

  function WriteValues(vs: seq<Value>): seq<Event> {
    if vs == [] then [] else [Wrote(EncodeValue(vs[0]))] + WriteValues(vs[1..])
  }

  lemma {:induction false} WrittenValues(vs: seq<Value>)
    ensures Cloned !in WriteValues(vs) && Written(WriteValues(vs)) == EncodeAll(vs)
  {
    if vs != [] {
      WrittenValues(vs[1..]);
      assert WriteValues(vs)[1..] == WriteValues(vs[1..]);
    }
  }

  /** The results of successive typed reads, up to the first that fails. */
  function ReadValues(b: Body, kinds: seq<Kind>): (Body, seq<Value>)
    decreases |kinds|
  {
    if kinds == [] then (b, [])
    else
      match ReadValue(b, kinds[0])
      case (c, Ok(v)) => var (d, vs) := ReadValues(c, kinds[1..]); (d, [v] + vs)
      case (c, _) => (c, [])
  }

  lemma {:induction false} ReadsDecode(b: Body, kinds: seq<Kind>)
    requires Readable(b) && DecodeAll(kinds, Unread(b)).Decoded?
    ensures var (c, vs) := ReadValues(b, kinds); Readable(c) && DecodeAll(kinds, Unread(b)) == Decoded(vs, Unread(c))
    decreases |kinds|
  {
    if kinds != [] {
      var (c, r) := ReadValue(b, kinds[0]);
      var w := Width(kinds[0]);
      assert Unread(b)[..w] == Ahead(OpenReader(b), w) && Unread(b)[w..] == Unread(c);
      ReadsDecode(c, kinds[1..]);
    }
  }

  /** Any values written in order into a new message that is then reset or sent, and read back
      with the matching reads, are the same values; after them every read finds the end. */
  lemma ValuesThroughMessage(vs: seq<Value>, r: Body)
    requires forall v :: v in vs ==> InRange(v)
    requires var b := Run(EMPTY, ToOps(WriteValues(vs))); r == Reset(b) || r == OnSend(b)
    ensures var (c, ws) := ReadValues(r, Kinds(vs)); ws == vs && forall kind :: ReadValue(c, kind).1 == Eof
  {
    WrittenValues(vs);
    UnreadIsWritten(WriteValues(vs));
    assert Unread(r) == EncodeAll(vs) + [];
    ListRoundTrip(vs, []);
    ReadsDecode(r, Kinds(vs));
    AtTheEnd(ReadValues(r, Kinds(vs)).0);
  }

  lemma AtTheEnd(b: Body)
    requires Readable(b) && Unread(b) == []
    ensures forall kind :: ReadValue(b, kind).1 == Eof
  {
  }
}

/**
  The fixed-width encodings that DataOutputStream writes and DataInputStream reads: big-endian
  two's complement.
 */
module FixedWidth {

  type Byte = b: int | 0 <= b < 256

  /** 256 to the power w. */
  function Base(w: nat): (r: nat)
    ensures r >= 1
  {
    if w == 0 then 1 else 256 * Base(w - 1)
  }

  /** The low w bytes of a number, most significant first; dividing by 256 rounds down, as an
      arithmetic shift does. */
  function Encode(v: int, w: nat): (bytes: seq<Byte>)
    ensures |bytes| == w
    decreases w
  {
    if w == 0 then [] else Encode(v / 256, w - 1) + [v % 256]
  }

  function Unsigned(bytes: seq<Byte>): (r: nat)
    ensures r < Base(|bytes|)
  {
    if bytes == [] then 0 else 256 * Unsigned(bytes[..|bytes| - 1]) + bytes[|bytes| - 1]
  }

  function Signed(bytes: seq<Byte>): int {
    var u := Unsigned(bytes);
    if 2 * u < Base(|bytes|) then u else u - Base(|bytes|)
  }

  /** Decoding recovers the number modulo 256^w: the difference is a multiple of 256^w. */
  lemma {:induction false} UnsignedEncode(v: int, w: nat) returns (k: int)
    ensures v == Unsigned(Encode(v, w)) + k * Base(w)
    decreases w
  {
    if w == 0 {
      k := v;
    } else {
      k := UnsignedEncode(v / 256, w - 1);
      var e := Encode(v, w);
      assert e[..w - 1] == Encode(v / 256, w - 1);
      assert 256 * (k * Base(w - 1)) == k * Base(w);
    }
  }

  lemma MultipleBounds(k: int, b: int)
    requires b >= 0
    ensures k >= 1 ==> k * b >= b
    ensures k <= -1 ==> k * b <= -b
  {
  }

  lemma MultipleInRange(u: int, v: int, k: int, b: int)
    requires v == u + k * b && 0 <= u < b && 0 <= v < b
    ensures k == 0
  {
    MultipleBounds(k, b);
  }

  lemma UnsignedRoundTrip(v: nat, w: nat)
    requires v < Base(w)
    ensures Unsigned(Encode(v, w)) == v
  {
    var k := UnsignedEncode(v, w);
    MultipleInRange(Unsigned(Encode(v, w)), v, k, Base(w));
  }

  lemma SignedRoundTrip(v: int, w: nat)
    requires w >= 1 && 0 <= 2 * v + Base(w) < 2 * Base(w)
    ensures Signed(Encode(v, w)) == v
  {
    var k := UnsignedEncode(v, w);
    var u, b := Unsigned(Encode(v, w)), Base(w);
    if v >= 0 {
      MultipleInRange(u, v, k, b);
    } else {
      assert v + b == u + (k + 1) * b;
      MultipleInRange(u, v + b, k + 1, b);
    }
  }

  // ---- Typed values ----

  datatype Kind = BoolKind | ByteKind | ShortKind | UShortKind | IntKind | LongKind

  datatype Value = Value(kind: Kind, n: int)

  /** The documented widths. */
  function Width(kind: Kind): (w: nat)
    ensures w >= 1
  {
    match kind
    case BoolKind => 1
    case ByteKind => 1
    case ShortKind => 2
    case UShortKind => 2
    case IntKind => 4
    case LongKind => 8
  }

  predicate IsSigned(kind: Kind) {
    kind.ShortKind? || kind.IntKind? || kind.LongKind?
  }

  /** The values of each type; a boolean is 0 or 1, a byte is unsigned. */
  predicate InRange(v: Value) {
    var b := Base(Width(v.kind));
    if v.kind.BoolKind? then v.n == 0 || v.n == 1
    else if IsSigned(v.kind) then 0 <= 2 * v.n + b < 2 * b
    else 0 <= v.n < b
  }

  function EncodeValue(v: Value): (bytes: seq<Byte>)
    ensures |bytes| == Width(v.kind)
  {
    Encode(v.n, Width(v.kind))
  }

  function DecodeValue(kind: Kind, bytes: seq<Byte>): Value
    requires |bytes| == Width(kind)
  {
    if kind.BoolKind? then Value(kind, if bytes[0] != 0 then 1 else 0)
    else if IsSigned(kind) then Value(kind, Signed(bytes))
    else Value(kind, Unsigned(bytes))
  }

  lemma ValueRoundTrip(v: Value)
    requires InRange(v)
    ensures DecodeValue(v.kind, EncodeValue(v)) == v
  {
    if v.kind.BoolKind? {
      assert Base(1) == 256 * Base(0);
      assert Encode(v.n, 1) == Encode(v.n / 256, 0) + [v.n % 256];
    } else if IsSigned(v.kind) {
      SignedRoundTrip(v.n, Width(v.kind));
    } else {
      UnsignedRoundTrip(v.n, Width(v.kind));
    }
  }

  // ---- The documented bytes and ranges, in numbers ----

  lemma EncodeStep(n: int, w: nat)
    requires w > 0
    ensures Encode(n, w) == Encode(n / 256, w - 1) + [n % 256]
  {
  }

  lemma Bytes2(n: int)
    ensures Encode(n, 1) == [n % 256]
    ensures Encode(n, 2) == [n / 0x100 % 256, n % 256]
  {
    EncodeStep(n, 1);
    EncodeStep(n, 2);
    EncodeStep(n / 256, 1);
  }

  lemma Bytes4(n: int)
    ensures Encode(n, 4) == [n / 0x100_0000 % 256, n / 0x1_0000 % 256, n / 0x100 % 256, n % 256]
  {
    EncodeStep(n, 4);
    EncodeStep(n / 256, 3);
    assert n / 256 / 256 == n / 0x1_0000 && n / 0x1_0000 / 256 == n / 0x100_0000;
    Bytes2(n / 0x1_0000);
  }

  lemma Bytes8(n: int)
    ensures Encode(n, 8) == [
      n / 0x100_0000_0000_0000 % 256, n / 0x1_0000_0000_0000 % 256, n / 0x100_0000_0000 % 256, n / 0x1_0000_0000 % 256,
      n / 0x100_0000 % 256, n / 0x1_0000 % 256, n / 0x100 % 256, n % 256]
  {
    EncodeStep(n, 8);
    EncodeStep(n / 256, 7);
    assert n / 256 / 256 == n / 0x1_0000 && n / 0x1_0000 / 256 == n / 0x100_0000;
    EncodeStep(n / 0x1_0000, 6);
    EncodeStep(n / 0x100_0000, 5);
    var m := n / 0x1_0000_0000;
    assert n / 0x100_0000 / 256 == m;
    Bytes4(m);
    assert m / 0x100 == n / 0x100_0000_0000 && m / 0x1_0000 == n / 0x1_0000_0000_0000;
    assert m / 0x100_0000 == n / 0x100_0000_0000_0000;
  }

  /** Each type's bytes: 1, 1, 2, 2, 4 and 8 of them, the most significant first. */
  lemma BytesOfEachKind(n: int)
    ensures EncodeValue(Value(BoolKind, n)) == [n % 256]
    ensures EncodeValue(Value(ByteKind, n)) == [n % 256]
    ensures EncodeValue(Value(ShortKind, n)) == [n / 0x100 % 256, n % 256]
    ensures EncodeValue(Value(UShortKind, n)) == [n / 0x100 % 256, n % 256]
    ensures EncodeValue(Value(IntKind, n)) == [n / 0x100_0000 % 256, n / 0x1_0000 % 256, n / 0x100 % 256, n % 256]
    ensures EncodeValue(Value(LongKind, n)) == [
      n / 0x100_0000_0000_0000 % 256, n / 0x1_0000_0000_0000 % 256, n / 0x100_0000_0000 % 256, n / 0x1_0000_0000 % 256,
      n / 0x100_0000 % 256, n / 0x1_0000 % 256, n / 0x100 % 256, n % 256]
  {
    hide Encode;
    Bytes2(n);
    Bytes4(n);
    Bytes8(n);
  }

  /** Each type's values: a boolean is 0 or 1, a byte unsigned, the wider ones two's complement but
      for the unsigned short. */
  lemma RangeOfEachKind(n: int)
    ensures InRange(Value(BoolKind, n)) <==> n == 0 || n == 1
    ensures InRange(Value(ByteKind, n)) <==> 0 <= n < 0x100
    ensures InRange(Value(ShortKind, n)) <==> -0x8000 <= n < 0x8000
    ensures InRange(Value(UShortKind, n)) <==> 0 <= n < 0x1_0000
    ensures InRange(Value(IntKind, n)) <==> -0x8000_0000 <= n < 0x8000_0000
    ensures InRange(Value(LongKind, n)) <==> -0x8000_0000_0000_0000 <= n < 0x8000_0000_0000_0000
  {
    assert Base(1) == 0x100 && Base(2) == 0x1_0000;
    assert Base(3) == 0x100_0000 && Base(4) == 0x1_0000_0000;
    assert Base(5) == 0x100_0000_0000 && Base(6) == 0x1_0000_0000_0000;
    assert Base(7) == 0x100_0000_0000_0000 && Base(8) == 0x1_0000_0000_0000_0000;
  }

  /** Any byte but zero reads as true. */
  lemma BooleanOfByte(b: Byte)
    ensures Width(BoolKind) == 1 && DecodeValue(BoolKind, [b]) == Value(BoolKind, if b == 0 then 0 else 1)
  {
  }

  function EncodeAll(vs: seq<Value>): seq<Byte> {
    if vs == [] then [] else EncodeValue(vs[0]) + EncodeAll(vs[1..])
  }

  datatype Decoded = Decoded(values: seq<Value>, rest: seq<Byte>) | TooShort

  /** Reads values of the given kinds in order. */
  function DecodeAll(kinds: seq<Kind>, bytes: seq<Byte>): Decoded {
    if kinds == [] then Decoded([], bytes)
    else
      var w := Width(kinds[0]);
      if |bytes| < w then TooShort
      else
        match DecodeAll(kinds[1..], bytes[w..])
        case TooShort => TooShort
        case Decoded(vs, rest) => Decoded([DecodeValue(kinds[0], bytes[..w])] + vs, rest)
  }

  function Kinds(vs: seq<Value>): seq<Kind> {
    if vs == [] then [] else [vs[0].kind] + Kinds(vs[1..])
  }

  /** A list of values written in order and read back with the matching reads is the same list,
      and whatever follows it is left to read. */
  lemma {:induction false} ListRoundTrip(vs: seq<Value>, rest: seq<Byte>)
    requires forall v :: v in vs ==> InRange(v)
    ensures DecodeAll(Kinds(vs), EncodeAll(vs) + rest) == Decoded(vs, rest)
  {
    if vs == [] {
      assert EncodeAll(vs) + rest == rest;
    } else {
      var head, tail := EncodeValue(vs[0]), EncodeAll(vs[1..]) + rest;
      assert EncodeAll(vs) + rest == head + tail;
      assert (head + tail)[..|head|] == head && (head + tail)[|head|..] == tail;
      ValueRoundTrip(vs[0]);
      assert Kinds(vs)[0] == vs[0].kind && Kinds(vs)[1..] == Kinds(vs[1..]);
      ListRoundTrip(vs[1..], rest);
    }
  }
}

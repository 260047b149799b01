/** ActiveMQBytesMessage: streams opened on demand over the message content. */
module BytesMessage {
  import opened Options
  import opened FixedWidth
  import opened BytesBody

  /** ByteArrayOutputStream. */
  class OutputBuffer {
    var bytes: seq<Byte>

    constructor ()
      ensures bytes == []
    {
      bytes := [];
    }
  }

  class ActiveMQBytesMessage {
    var content: seq<Byte>
    var readOnlyBody: bool
    var readOnlyProperties: bool
    var bytesOut: OutputBuffer?   // the raw buffer
    var dataOut: OutputBuffer?    // the stream on it, which owns it
    var dataIn: Option<nat>       // the reader's position in the content
    var length: nat

    /** The raw buffer pointer is set exactly when the output stream is, and to its buffer. */
    ghost predicate Valid()
      reads this
    {
      bytesOut == dataOut
    }

    ghost function Buffers(): set<object>
      reads this
    {
      if dataOut == null then {} else {dataOut}
    }

    ghost function State(): Body
      reads this, Buffers()
    {
      Body(content, readOnlyBody, if dataOut == null then None else Some(dataOut.bytes), dataIn, length)
    }

    constructor ()
      ensures Valid() && State() == EMPTY && fresh(Buffers()) && !readOnlyProperties
    {
      content, readOnlyBody, readOnlyProperties := [], false, false;
      bytesOut, dataOut, dataIn, length := null, null, None, 0;
    }

    method ClearBody()
      modifies this
      ensures Valid() && State() == EMPTY && Buffers() == {} && readOnlyProperties == old(readOnlyProperties)
    {
      content, readOnlyBody := [], false;
      dataOut, bytesOut := null, null;
      dataIn, length := None, 0;
    }

    method StoreContent()
      requires Valid()
      modifies this
      ensures Valid() && State() == BytesBody.StoreContent(old(State())) && Buffers() <= old(Buffers())
      ensures readOnlyProperties == old(readOnlyProperties)
    {
      if dataOut != null && bytesOut.bytes != [] {
        content := bytesOut.bytes;
        dataOut, bytesOut := null, null;
      }
    }

    method Reset()
      requires Valid()
      modifies this
      ensures Valid() && State() == BytesBody.Reset(old(State())) && Buffers() == {}
    {
      StoreContent();
      bytesOut, dataIn, dataOut, length := null, None, null, 0;
      readOnlyBody := true;
    }

    method OnSend()
      requires Valid()
      modifies this
      ensures Valid() && State() == BytesBody.OnSend(old(State())) && readOnlyProperties && Buffers() <= old(Buffers())
    {
      StoreContent();
      readOnlyBody, readOnlyProperties := true, true;
    }

    /** clone(): stores what the source has written, and copies the content into a new message
        that can be written. */
    method Clone() returns (copy: ActiveMQBytesMessage)
      requires Valid()
      modifies this
      ensures Valid() && State() == BytesBody.StoreContent(old(State())) && Buffers() <= old(Buffers())
      ensures fresh(copy) && copy.Valid() && copy.State() == CloneOf(old(State())) && !copy.readOnlyProperties
      ensures copy.Buffers() == {}
    {
      copy := new ActiveMQBytesMessage();
      StoreContent();
      copy.content := content;
      copy.readOnlyBody, copy.readOnlyProperties := readOnlyBody, readOnlyProperties;
      copy.readOnlyBody, copy.readOnlyProperties := false, false;
    }

    /** Opens the output stream; false when the body is read-only. */
    method InitializeWriting() returns (ok: bool)
      requires Valid()
      modifies this
      ensures Valid() && ok == !old(readOnlyBody) && fresh(Buffers() - old(Buffers()))
      ensures State() == if ok then OpenWriter(old(State())) else old(State())
      ensures ok ==> dataOut != null
    {
      if readOnlyBody {
        return false;
      }
      if dataOut == null {
        length := 0;
        bytesOut := new OutputBuffer();
        dataOut := bytesOut;
      }
      return true;
    }

    /** writeBytes, and the array write behind setBodyBytes. */
    method WriteBytes(bytes: seq<Byte>) returns (r: Result<()>)
      requires Valid()
      modifies this, Buffers()
      ensures Valid() && (State(), r) == Write(old(State()), bytes) && fresh(Buffers() - old(Buffers()))
    {
      var ok := InitializeWriting();
      if !ok {
        return NotWriteable;
      }
      dataOut.bytes := dataOut.bytes + bytes;
      return Ok(());
    }

    /** writeBytes with an offset: the stream is told that the array is `length` long. */
    method WriteRange(value: seq<Byte>, offset: int, length: int) returns (r: Result<()>)
      requires Valid()
      requires offset >= 0 && length >= 0 ==> offset + length <= |value|
      modifies this, Buffers()
      ensures Valid() && (State(), r) == BytesBody.WriteRange(old(State()), value, offset, length)
      ensures fresh(Buffers() - old(Buffers()))
    {
      var ok := InitializeWriting();
      if !ok {
        return NotWriteable;
      }
      var size := length;
      if length == 0 {
        return Ok(());
      }
      if size < 0 || offset > size || offset < 0 || length > size - offset {
        return OutOfBounds;
      }
      dataOut.bytes := dataOut.bytes + value[offset..offset + length];
      return Ok(());
    }

    /** writeBoolean, writeByte, writeShort, writeUnsignedShort, writeInt, writeLong. */
    method WriteValue(v: Value) returns (r: Result<()>)
      requires Valid()
      modifies this, Buffers()
      ensures Valid() && (State(), r) == Write(old(State()), EncodeValue(v)) && fresh(Buffers() - old(Buffers()))
    {
      r := WriteBytes(EncodeValue(v));
    }

    /** Opens the input stream; false when the body is write-only. */
    method InitializeReading() returns (ok: bool)
      requires Valid()
      modifies this`dataIn, this`length
      ensures ok == readOnlyBody && (ok ==> dataIn.Some?)
      ensures State() == if ok then OpenReader(old(State())) else old(State())
    {
      if !readOnlyBody {
        return false;
      }
      if dataIn == None {
        length := |content|;
        dataIn := Some(0);
      }
      return true;
    }

    method GetBodyLength() returns (r: Result<int>)
      requires Valid()
      modifies this`dataIn, this`length
      ensures (State(), r) == BodyLength(old(State()))
    {
      var ok := InitializeReading();
      if !ok {
        return NotReadable;
      }
      return Ok(length);
    }

    /** One read of the input stream into part of a buffer: -1 at the end, otherwise between one
        byte and all that fit, as the stream likes. */
    method ReadSome(buffer: array<Byte>, offset: nat, max: nat) returns (count: int)
      requires dataIn.Some? && dataIn.value <= |content| && 0 < max && offset + max <= buffer.Length
      modifies this`dataIn, buffer
      ensures dataIn.Some?
      ensures old(dataIn.value) == |content| ==> count == -1 && dataIn == old(dataIn) && buffer[..] == old(buffer[..])
      ensures old(dataIn.value) < |content| ==>
        && 1 <= count <= max && old(dataIn.value) + count <= |content| && dataIn.value == old(dataIn.value) + count
        && buffer[..offset + count] == old(buffer[..offset]) + content[old(dataIn.value)..dataIn.value]
        && buffer[offset + count..] == old(buffer[offset + count..])
    {
      var pos := dataIn.value;
      if pos == |content| {
        return -1;
      }
      var limit := Min(max, |content| - pos);
      count :| 1 <= count <= limit;
      forall i | 0 <= i < count {
        buffer[offset + i] := content[pos + i];
      }
      dataIn := Some(pos + count);
    }

    /** The loop of readBytes: reads until the buffer is full or the body ends, however short the
        stream's own reads are. */
    method Fill(buffer: array<Byte>, wanted: nat) returns (n: nat)
      requires dataIn.Some? && dataIn.value <= |content| && wanted <= buffer.Length
      modifies this`dataIn, buffer
      ensures n == Min(wanted, |content| - old(dataIn.value)) && dataIn == Some(old(dataIn.value) + n)
      ensures buffer[..n] == content[old(dataIn.value)..old(dataIn.value) + n]
      ensures buffer[n..] == old(buffer[n..])
    {
      ghost var start, was := dataIn.value, buffer[..];
      n := 0;
      var atEnd := false;
      while n < wanted && !atEnd
        invariant 0 <= n <= wanted && dataIn == Some(start + n) && start + n <= |content|
        invariant buffer[..n] == content[start..start + n] && buffer[n..] == was[n..]
        invariant atEnd ==> start + n == |content|
        decreases wanted - n, !atEnd
      {
        var count := ReadSome(buffer, n, wanted - n);
        if count < 0 {
          atEnd := true;
        } else {
          assert content[start..start + n] + content[start + n..start + n + count] == content[start..start + n + count];
          n := n + count;
        }
      }
    }

    method ReadBytes(buffer: array<Byte>, wanted: int) returns (r: Result<int>)
      requires Valid() && Sound(State()) && wanted <= buffer.Length
      modifies this`dataIn, this`length, buffer
      ensures Valid() && var (b, out) := BytesBody.ReadBytes(old(State()), wanted);
        && State() == b
        && (out.Ok? ==>
              && r == Ok(out.value.0) && |out.value.1| <= buffer.Length
              && buffer[..] == out.value.1 + old(buffer[..])[|out.value.1|..])
        && (!out.Ok? ==> r == (if out.NotReadable? then NotReadable else OutOfBounds) && buffer[..] == old(buffer[..]))
    {
      var ok := InitializeReading();
      if !ok {
        return NotReadable;
      }
      if wanted < 0 {
        return OutOfBounds;
      }
      var n := Fill(buffer, wanted);
      assert buffer[..] == buffer[..n] + buffer[n..];
      assert old(buffer[..])[n..] == old(buffer[n..]);
      if n == 0 && wanted > 0 {
        return Ok(-1);
      }
      return Ok(n);
    }

    /** DataInputStream::readAllData: all bytes of a fixed-width value, or the end of the body. */
    method ReadAllData(w: nat) returns (r: Option<seq<Byte>>)
      requires 0 < w && dataIn.Some? && dataIn.value <= |content|
      modifies this`dataIn
      ensures dataIn.Some?
      ensures |content| - old(dataIn.value) < w ==> r == None && dataIn.value == |content|
      ensures |content| - old(dataIn.value) >= w ==>
        r == Some(content[old(dataIn.value)..old(dataIn.value) + w]) && dataIn.value == old(dataIn.value) + w
    {
      var buffer := new Byte[w](_ => 0);
      ghost var start := dataIn.value;
      var n := 0;
      while n < w
        invariant 0 <= n <= w && dataIn == Some(start + n) && start + n <= |content|
        invariant buffer[..n] == content[start..start + n]
      {
        var count := ReadSome(buffer, n, w - n);
        if count == -1 {
          return None;
        }
        assert content[start..start + n] + content[start + n..start + n + count] == content[start..start + n + count];
        n := n + count;
      }
      assert buffer[..] == buffer[..n];
      return Some(buffer[..]);
    }

    /** readBoolean, readByte, readShort, readUnsignedShort, readInt, readLong. */
    method ReadValue(kind: Kind) returns (r: Result<Value>)
      requires Valid() && Sound(State())
      modifies this`dataIn, this`length
      ensures Valid() && (State(), r) == BytesBody.ReadValue(old(State()), kind)
    {
      var ok := InitializeReading();
      if !ok {
        return NotReadable;
      }
      var bytes := ReadAllData(Width(kind));
      if bytes == None {
        return Eof;
      }
      return Ok(DecodeValue(kind, bytes.value));
    }
  }
}

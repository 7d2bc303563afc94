/** The payload writer and reader (pkg/protocol/wire.go, wire_convert.go) against the wire format. */
module Wire {
  import opened Common
  import opened Bytes
  import opened Schemas

  /** Writes fields into a buffer; without one it only measures. Writing past the end is a panic, and nothing happens after it. */
  class PayloadWriter {
    const buf: array?<Byte>
    var pos: nat
    var panicked: bool

    ghost predicate Valid()
      reads this
    {
      buf != null && !panicked ==> pos <= buf.Length
    }

    constructor (buf: array?<Byte>, pos: nat)
      requires buf != null ==> pos <= buf.Length
      ensures Valid() && this.buf == buf && this.pos == pos && !panicked
    {
      this.buf, this.pos, panicked := buf, pos, false;
    }

    predicate Room(n: nat)
      reads this
    {
      buf != null ==> pos + n <= buf.Length
    }

    /** The data has been written, or there was no room for all of it. */
    twostate predicate Wrote(d: Data)
      reads this, buf
    {
      && Valid()
      && (panicked <==> old(panicked) || !old(Room(|d|)))
      && (!panicked ==> pos == old(pos) + |d|)
      && (!panicked && buf != null ==> buf[..pos] == old(buf[..pos]) + d)
    }

    /** Reserves room for the bytes and copies them there; it panics exactly when there is no such room. */
    method Put(d: Data)
      requires Valid()
      modifies `pos, `panicked, buf
      ensures Wrote(d)
    {
      if panicked { return; }
      if buf != null {
        if pos + |d| > buf.Length {
          panicked := true;
          return;
        }
        for i := 0 to |d|
          invariant pos == old(pos) && !panicked && buf[..pos] == old(buf[..pos])
          invariant buf[pos..pos + i] == d[..i]
        {
          buf[pos + i] := d[i];
        }
        assert buf[..pos + |d|] == buf[..pos] + buf[pos..pos + |d|];
      }
      pos := pos + |d|;
    }

    method WriteLength(n: nat)
      requires Valid()
      modifies `pos, `panicked, buf
      ensures Wrote(LengthBytes(n))
    {
      Put(LengthBytes(n));
    }

    method WriteData(d: Data)
      requires Valid()
      modifies `pos, `panicked, buf
      ensures Wrote(LengthBytes(|d|) + d)
    {
      hide LengthBytes;
      WriteLength(|d|);
      Put(d);
      if buf != null && !panicked { Assoc(old(buf[..pos]), LengthBytes(|d|), d); }
    }

    /**
      * A payload's encode method: it moves and writes by exactly the wire format, whether measuring or writing, and runs past the
      * buffer exactly when the format takes more than the room there is.
      */
    method Write(s: Schema, v: Value)
      requires Fits(s, v) && Valid()
      modifies `pos, `panicked, buf
      ensures Wrote(Enc(s, v))
      decreases s, 0
    {
      hide LengthBytes, NilLength, EncItems;
      match s
      case Int(w, signed) => Put(IntBytes(v.i, w, signed));
      case Flag => Put([if v.b then 1 as char else 0 as char]);
      case Text => WriteData(v.text);
      case Blob => if v.blob.None? { Put(NilLength()); } else { WriteData(v.blob.value); }
      case List(e) =>
        WriteLength(|v.items|);
        WriteItems(e, v.items);
        if buf != null && !panicked { Assoc(old(buf[..pos]), LengthBytes(|v.items|), EncItems(e, v.items, |v.items|)); }
      case Pair(s1, s2) =>
        Write(s1, v.a);
        Write(s2, v.c);
        if buf != null && !panicked { Assoc(old(buf[..pos]), Enc(s1, v.a), Enc(s2, v.c)); }
    }

    method WriteItems(e: Schema, items: seq<Value>)
      requires (forall i :: 0 <= i < |items| ==> Fits(e, items[i])) && Valid()
      modifies `pos, `panicked, buf
      ensures Wrote(EncItems(e, items, |items|))
      decreases e, 1
    {
      hide Enc;
      NothingYet(e, items);
      if !panicked && buf != null { assert buf[..pos] == old(buf[..pos]) + []; }
      for i := 0 to |items|
        invariant Wrote(EncItems(e, items, i))
      {
        Write(e, items[i]);
        if buf != null && !panicked { Assoc(old(buf[..pos]), EncItems(e, items, i), Enc(e, items[i])); }
      }
    }
  }

  lemma NothingYet(e: Schema, items: seq<Value>)
    requires forall i :: 0 <= i < |items| ==> Fits(e, items[i])
    ensures EncItems(e, items, 0) == []
  {
  }

  lemma Assoc(x: Data, y: Data, z: Data)
    ensures (x + y) + z == x + (y + z)
  {
  }

  /** The measured size is the number of bytes written; a payload too large for a message measures as nothing. */
  method MeasurePayload(s: Schema, v: Value) returns (size: nat)
    requires Fits(s, v)
    ensures size == if |Enc(s, v)| > MAX_MESSAGE_SIZE then 0 else |Enc(s, v)|
  {
    var sizer := new PayloadWriter(null, 0);
    sizer.Write(s, v);
    if sizer.pos > MAX_MESSAGE_SIZE { return 0; }
    return sizer.pos;
  }

  // ---------------------------------------------------------------------
  // The reader
  // ---------------------------------------------------------------------

  /** Reads fields from a buffer. The first error sticks: nothing moves after it. */
  class PayloadReader {
    const buf: Data
    var pos: nat
    var err: Option<ReadError>

    ghost predicate Valid()
      reads this
    {
      pos <= |buf|
    }

    constructor (buf: Data)
      ensures Valid() && this.buf == buf && pos == 0 && err.None?
    {
      this.buf, pos, err := buf, 0, None;
    }

    /** Ends in the state of a parse from here: past the value, or with that parse's error. */
    twostate predicate Read<T>(r: Parsed<T>)
      reads this
    {
      && Valid()
      && (old(err).Some? ==> pos == old(pos) && err == old(err))
      && (old(err).None? ==>
            match r
            case Got(_, next) => err.None? && pos == next
            case Bad(e) => err == Some(e))
    }

    method TakeBytes(n: int) returns (d: Data)
      requires Valid()
      modifies `pos, `err
      ensures Read(Take(buf, old(pos), n))
      ensures err.None? ==> d == Take(buf, old(pos), n).value
    {
      if err.Some? { return []; }
      if n < 0 || pos + n > |buf| {
        err := Some(ReadError(pos, Short));
        return [];
      }
      d := buf[pos..pos + n];
      pos := pos + n;
    }

    method ReadInteger(w: nat, signed: bool) returns (i: int)
      requires Valid()
      modifies `pos, `err
      ensures Read(ReadInt(Checked, buf, old(pos), w, signed))
      ensures err.None? ==> i == ReadInt(Checked, buf, old(pos), w, signed).value
    {
      hide IntOf;
      var d := TakeBytes(w);
      if err.Some? { return 0; }
      return IntOf(d, signed);
    }

    method ReadOptional(nullable: bool) returns (d: Option<Data>)
      requires Valid()
      modifies `pos, `err
      ensures Read(ReadData(Checked, buf, old(pos), nullable))
      ensures err.None? ==> d == ReadData(Checked, buf, old(pos), nullable).value
    {
      hide ReadInt;
      var n := ReadInteger(4, true);
      if err.Some? { return None; }
      if nullable && n == -1 { return None; }
      if n < 0 {
        err := Some(ReadError(pos, NegativeLength));
        return None;
      }
      var b := TakeBytes(n);
      return Some(b);
    }

    method ReadLength() returns (n: nat)
      requires Valid()
      modifies `pos, `err
      ensures Read(ReadCount(Checked, buf, old(pos)))
      ensures err.None? ==> n == ReadCount(Checked, buf, old(pos)).value
    {
      hide ReadInt;
      var i := ReadInteger(4, true);
      if err.Some? { return 0; }
      if i < 0 {
        err := Some(ReadError(pos, NegativeLength));
        return 0;
      }
      if i > |buf| - pos {
        err := Some(ReadError(pos, TooMany));
        return 0;
      }
      return i;
    }

    /** A payload's decode method: it reads what the format says is there, or stops at the first error. */
    method ReadValue(s: Schema) returns (v: Value)
      requires Valid()
      modifies `pos, `err
      ensures Read(Parse(Checked, s, buf, old(pos)))
      ensures err.None? ==> v == Parse(Checked, s, buf, old(pos)).value
      decreases s, 0
    {
      hide ReadInt, ReadData, ReadCount, ParseItems;
      match s
      case Int(w, signed) =>
        var i := ReadInteger(w, signed);
        v := IntV(i);
      case Flag =>
        var d := TakeBytes(1);
        v := FlagV(err.None? && d[0] != 0 as char);
      case Text =>
        var d := ReadOptional(false);
        v := TextV(if d.Some? then d.value else []);
      case Blob =>
        var d := ReadOptional(true);
        v := BlobV(d);
      case List(e) =>
        var n := ReadLength();
        if err.Some? { return ListV([]); }
        var items := ReadItems(e, n);
        v := ListV(items);
      case Pair(s1, s2) =>
        var v1 := ReadValue(s1);
        var v2 := ReadValue(s2);
        v := PairV(v1, v2);
    }

    method ReadItems(e: Schema, n: nat) returns (items: seq<Value>)
      requires Valid() && err.None?
      modifies `pos, `err
      ensures Read(ParseItems(Checked, e, buf, old(pos), n))
      ensures err.None? ==> items == ParseItems(Checked, e, buf, old(pos), n).value
      decreases e, 1
    {
      hide Parse;
      items := [];
      for i := 0 to n
        invariant Read(ParseItems(Checked, e, buf, old(pos), i))
        invariant err.None? ==> items == ParseItems(Checked, e, buf, old(pos), i).value
      {
        var v := ReadValue(e);
        items := items + [v];
      }
    }
  }

  /** Decodes a self-describing payload: the value the format says is there, or the first error. */
  method DecodePayload(s: Schema, b: Data) returns (r: Result<Value, ReadError>)
    ensures match Parse(Checked, s, b, 0)
            case Got(v, _) => r == Ok(v)
            case Bad(e) => r == Err(e)
  {
    hide Parse;
    var reader := new PayloadReader(b);
    var v := reader.ReadValue(s);
    if reader.err.Some? { return Err(reader.err.value); }
    return Ok(v);
  }
}

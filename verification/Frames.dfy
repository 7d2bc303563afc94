/** Framing of requests: length, header, payload and checksum (pkg/protocol/codec.go). */
module Frames {
  import opened Common
  import opened Bytes
  import opened Schemas
  import opened WireLaws
  import opened Wire
  import opened Payloads
  import opened Messages
  import opened Codec
  import opened RequestLayouts

  const HEADER_SIZE: nat := 20

  datatype Header = Header(id: nat, version: nat, flags: nat)

  ghost predicate HeaderInRange(h: Header) { h.id < Pow(8) && h.version < 256 && h.flags < Pow(2) }

  function Head(h: Header, code: nat): (r: Data)
    requires h.version < 256 && code < 256
    ensures |r| == 12
  {
    BigEndian(h.id, 8) + [code as char, h.version as char] + BigEndian(h.flags, 2)
  }

  /** Length of the rest, header, payload, and a checksum of header and payload. */
  function Frame(head: Data, body: Data, crc: Data -> nat): Data {
    BigEndian(|head| + |body| + 4, 4) + (head + body) + BigEndian(crc(head + body), 4)
  }

  // ---------------------------------------------------------------------
  // Encoding
  // ---------------------------------------------------------------------

  datatype EncodeError = Oversized | Panic

  /**
    * The payload size, computed apart from the encoding, is the number of bytes the encoding takes in any header order; none when it
    * is out of range. A coordination payload out of range measures as zero instead.
    */
  method PayloadSize(r: Request, ghost orders: seq<seq<Data>>) returns (size: Option<nat>)
    requires WellFormed(r) && OrdersOf(MessagesOf(r), orders)
    ensures |Body(r, orders)| <= MAX_MESSAGE_SIZE ==> size == Some(|Body(r, orders)|)
    ensures |Body(r, orders)| > MAX_MESSAGE_SIZE ==> size == if r.Coordination? then Some(0) else None
  {
    hide LengthBytes, IntBytes, MessageList, OrdersOf, AllInBounds, SchemaOf, ToValue, Pow, Fits, Enc;
    var n := 0;
    if r.ListTopics? || r.HealthCheck? { return Some(0); }
    BaseFits(r, orders);
    match r {
      case Coordination(p) =>
        n := MeasurePayload(SchemaOf(KindOf(p)), ToValue(p));
        return Some(n);
      case Produce(t, p, ms, id, e) =>
        MessageListFits(ms, orders);
        var sum := MessagesSize(ms, orders);
        n := 4 + |t| + 4 + 4 + sum + 8 + 2;
        ProduceSize(r, orders);
      case Fetch(t, p, o, m, i) =>
        n := 4 + |t| + 4 + 8 + 4 + 1;
        FixedSize(r, orders);
      case GetOffset(t, p) =>
        n := 4 + |t| + 4;
        FixedSize(r, orders);
      case CreateTopic(t, p, f) =>
        n := 4 + |t| + 4 + 2;
        FixedSize(r, orders);
      case DeleteTopic(t) =>
        n := 4 + |t|;
        FixedSize(r, orders);
    }
    return if n > MAX_MESSAGE_SIZE then None else Some(n);
  }

  lemma ProduceSize(r: Request, orders: seq<seq<Data>>)
    requires r.Produce? && WellFormed(r) && OrdersOf(r.messages, orders) && Fits(List(MESSAGE), MessageList(r.messages, orders))
    ensures |Body(r, orders)| == 4 + |r.topic| + 4 + |Enc(List(MESSAGE), MessageList(r.messages, orders))| + 8 + 2
  {
    hide LengthBytes, IntBytes, MessageList, OrdersOf, AllInBounds, Pow;
    BaseFits(r, orders);
    var v := PairV(I(r.partition), MessageList(r.messages, orders));
    EncOfPair(Text, Pair(U32, List(MESSAGE)), PairV(T(r.topic), v));
    EncOfPair(U32, List(MESSAGE), v);
  }

  lemma FixedSize(r: Request, orders: seq<seq<Data>>)
    requires (r.Fetch? || r.GetOffset? || r.CreateTopic? || r.DeleteTopic?) && WellFormed(r) && OrdersOf(MessagesOf(r), orders)
    ensures |Body(r, orders)| == 4 + |r.topic| + if r.Fetch? then 17 else if r.GetOffset? then 4 else if r.CreateTopic? then 6 else 0
  {
    hide LengthBytes, IntBytes, OrdersOf, Pow;
    BaseFits(r, orders);
    match r
    case Fetch(t, p, o, m, i) =>
      EncOfPair(Text, Pair(U32, Pair(I64, U32)), PairV(T(t), PairV(I(p), PairV(I(o), I(m)))));
      EncOfPair(U32, Pair(I64, U32), PairV(I(p), PairV(I(o), I(m))));
      EncOfPair(I64, U32, PairV(I(o), I(m)));
    case GetOffset(t, p) => EncOfPair(Text, U32, PairV(T(t), I(p)));
    case CreateTopic(t, p, f) =>
      EncOfPair(Text, Pair(U32, U16), PairV(T(t), PairV(I(p), I(f))));
      EncOfPair(U32, U16, PairV(I(p), I(f)));
    case DeleteTopic(_) =>
  }

  /** Writes a request's payload, or runs past the buffer when there is no room for it. */
  method WriteBody(w: PayloadWriter, r: Request, orders: seq<seq<Data>>)
    requires WellFormed(r) && OrdersOf(MessagesOf(r), orders) && w.Valid()
    modifies w`pos, w`panicked, w.buf
    ensures w.Wrote(Body(r, orders))
  {
    hide Enc, Fits, IntBytes, MessageList, OrdersOf, AllInBounds, SchemaOf, ToValue, Pow;
    if r.ListTopics? || r.HealthCheck? {
      if w.buf != null && !w.panicked { assert w.buf[..w.pos] + [] == w.buf[..w.pos]; }
      return;
    }
    BaseFits(r, orders);
    var (s, v) := Base(r, orders);
    w.Write(s, v);
    ghost var body := Enc(s, v);
    assert body + [] == body;
    match r {
      case Produce(_, _, _, id, e) =>
        w.Put(IntBytes(id, 8, true));
        w.Put(IntBytes(e, 2, true));
        if w.buf != null && !w.panicked {
          Assoc(old(w.buf[..w.pos]) + Enc(s, v), IntBytes(id, 8, true), IntBytes(e, 2, true));
          Assoc(old(w.buf[..w.pos]), Enc(s, v), Later(r));
        }
      case Fetch(_, _, _, _, i) =>
        w.Put(IntBytes(i, 1, true));
        if w.buf != null && !w.panicked { Assoc(old(w.buf[..w.pos]), Enc(s, v), Later(r)); }
      case _ =>
    }
  }

  /**
    * Encodes a request. It succeeds exactly when the whole frame fits a message, and the frame is then full to the last byte. A
    * coordination payload larger than a message gets a buffer for an empty one: the writer has the checksum's four bytes and panics.
    */
  method EncodeRequest(h: Header, r: Request, crc: Data -> nat) returns (res: Result<Data, EncodeError>, orders: seq<seq<Data>>)
    requires WellFormed(r) && HeaderInRange(h)
    ensures OrdersOf(MessagesOf(r), orders)
    ensures HEADER_SIZE + |Body(r, orders)| <= MAX_MESSAGE_SIZE ==> res == Ok(Frame(Head(h, TypeCode(r)), Body(r, orders), crc))
    ensures HEADER_SIZE + |Body(r, orders)| > MAX_MESSAGE_SIZE ==>
              res == Err(if r.Coordination? && |Body(r, orders)| > MAX_MESSAGE_SIZE then Panic else Oversized)
    ensures res.Ok? ==> res.value == FrameBytes(h, r, orders, crc)
  {
    hide OrdersOf, WellFormed, Body, BigEndian, Pow, FrameBytes, TypeByte;
    orders := ChooseOrders(MessagesOf(r));
    var size := PayloadSize(r, orders);
    if size.None? { return Err(Oversized), orders; }
    var total := HEADER_SIZE + size.value;
    if total > MAX_MESSAGE_SIZE { return Err(Oversized), orders; }
    CodeSmall(r);
    FrameIsLayout(h, r, orders, crc);
    var frame := FillFrame(h, r, orders, size.value, crc);
    return if frame.Some? then Ok(frame.value) else Err(Panic), orders;
  }

  /**
    * A frame byte by byte: four bytes for the length of what follows, the request id, type, version and flags, the body, and a
    * checksum over everything between the length and itself.
    */
  ghost function FrameBytes(h: Header, r: Request, orders: seq<seq<Data>>, crc: Data -> nat): Data
    requires OrdersOf(MessagesOf(r), orders) && h.version < 256 && TypeByte(r) < 256
  {
    var body := BodyLayout(r, orders);
    var head := BigEndian(h.id, 8) + [TypeByte(r) as char] + [h.version as char] + BigEndian(h.flags, 2);
    BigEndian(16 + |body|, 4) + (head + body) + BigEndian(crc(head + body), 4)
  }

  lemma FrameIsLayout(h: Header, r: Request, orders: seq<seq<Data>>, crc: Data -> nat)
    requires WellFormed(r) && HeaderInRange(h) && OrdersOf(MessagesOf(r), orders)
    ensures TypeByte(r) < 256 && Frame(Head(h, TypeCode(r)), Body(r, orders), crc) == FrameBytes(h, r, orders, crc)
  {
    hide BigEndian, Body, BodyLayout, Pow, TypeCode, TypeByte, OrdersOf, WellTyped, AllInBounds, InRange;
    TypeByteIs(r);
    BodyIsLayout(r, orders);
    var head := BigEndian(h.id, 8) + [TypeByte(r) as char] + [h.version as char] + BigEndian(h.flags, 2);
    assert Head(h, TypeCode(r)) == head;
  }

  /** Fills a buffer for a payload of the given size: the writer panics when the payload takes that and the checksum's place as well. */
  method FillFrame(h: Header, r: Request, orders: seq<seq<Data>>, size: nat, crc: Data -> nat) returns (frame: Option<Data>)
    requires WellFormed(r) && HeaderInRange(h) && OrdersOf(MessagesOf(r), orders)
    requires |Body(r, orders)| == size || |Body(r, orders)| > size + 4
    ensures frame == if |Body(r, orders)| == size then Some(Frame(Head(h, TypeCode(r)), Body(r, orders), crc)) else None
  {
    hide OrdersOf, WellFormed, Body, BigEndian, Pow, TypeCode, Head;
    CodeSmall(r);
    ghost var body := Body(r, orders);
    var head, length := Head(h, TypeCode(r)), BigEndian(size + 16, 4);
    var buf := new Byte[HEADER_SIZE + size];
    var w := new PayloadWriter(buf, 0);
    w.Put(length);
    w.Put(head);
    WriteBody(w, r, orders);
    if w.panicked { return None; }
    Pieces(buf[..w.pos], length, head, body);
    var checked := buf[..w.pos][4..];
    w.Put(BigEndian(crc(checked), 4));
    Whole(buf[..], w.pos);
    return Some(buf[..]);
  }

  lemma Whole(b: Data, n: nat)
    requires n == |b|
    ensures b[..n] == b
  {
  }

  lemma Pieces(b: Data, x: Data, y: Data, z: Data)
    requires |x| == 4 && b == [] + x + y + z
    ensures b == x + (y + z) && b[4..] == y + z
  {
  }

  lemma CodeSmall(r: Request)
    requires WellFormed(r)
    ensures r.Coordination? ==> CodeOf(KindOf(r.payload)).Some?
  {
  }

  // ---------------------------------------------------------------------
  // Decoding
  // ---------------------------------------------------------------------

  /** Reads a frame off a stream: header, request, and what follows. */
  ghost function DecodeRequest(stream: Data, crc: Data -> nat): Result<(Header, Request, Data), DecodeError> {
    if |stream| < 4 then Err(Ended)
    else
      var length := Number(stream[..4]);
      if length > MAX_MESSAGE_SIZE then Err(TooLarge)
      else if |stream| - 4 < length then Err(Ended)
      else if length < 4 then Err(NoRoomForChecksum)
      else
        var body, sum := stream[4..length], stream[length..length + 4];
        if sum != BigEndian(crc(body), 4) then Err(Mismatch)
        else if |body| < 12 then Err(Panics)
        else
          var h := Header(Number(body[..8]), body[9] as int, Number(body[10..12]));
          match DecodeBody(body[8] as int, body[12..], sum)
          case Err(e) => Err(e)
          case Ok(r) => Ok((h, r, stream[length + 4..]))
  }

  lemma HeadBack(h: Header, code: nat)
    requires HeaderInRange(h) && code < 256
    ensures var d := Head(h, code);
            Number(d[..8]) == h.id && d[8] as int == code && d[9] as int == h.version && Number(d[10..12]) == h.flags
  {
    hide BigEndian, Number, Pow;
    var d := Head(h, code);
    assert d[..8] == BigEndian(h.id, 8) && d[10..12] == BigEndian(h.flags, 2);
    NumberOfBigEndian(h.id, 8);
    NumberOfBigEndian(h.flags, 2);
  }

  lemma FrameParts(head: Data, body: Data, crc: Data -> nat, rest: Data)
    requires |head| == 12 && |head| + |body| + 4 <= MAX_MESSAGE_SIZE
    ensures var s := Frame(head, body, crc) + rest;
            var n := |head| + |body| + 4;
            && |s| == 4 + n + |rest| && Number(s[..4]) == n && s[4..n] == head + body
            && s[n..n + 4] == BigEndian(crc(head + body), 4) && s[n + 4..] == rest
  {
    hide BigEndian, Number, Pow;
    var n := |head| + |body| + 4;
    var x, y, z := BigEndian(n, 4), head + body, BigEndian(crc(head + body), 4);
    var s := Frame(head, body, crc) + rest;
    assert s == x + y + z + rest;
    assert s[..4] == x && s[4..n] == y && s[n..n + 4] == z && s[n + 4..] == rest;
    Pow4();
    NumberOfBigEndian(n, 4);
  }

  /** A frame decodes to its header and request and leaves the stream at its end, whatever the header order and the checksum. */
  lemma RequestRoundTrip(h: Header, r: Request, orders: seq<seq<Data>>, crc: Data -> nat, rest: Data)
    requires WellFormed(r) && HeaderInRange(h) && OrdersOf(MessagesOf(r), orders)
    requires HEADER_SIZE + |Body(r, orders)| <= MAX_MESSAGE_SIZE
    ensures DecodeRequest(Frame(Head(h, TypeCode(r)), Body(r, orders), crc) + rest, crc) == Ok((h, r, rest))
  {
    hide WellFormed, OrdersOf, Body, BigEndian, Number, Pow, DecodeBody, Frame, Head;
    CodeSmall(r);
    var head, body := Head(h, TypeCode(r)), Body(r, orders);
    FrameParts(head, body, crc, rest);
    HeadBack(h, TypeCode(r));
    BodyRoundTrip(r, orders, BigEndian(crc(head + body), 4));
    var d := head + body;
    assert d[..8] == head[..8] && d[8] == head[8] && d[9] == head[9] && d[10..12] == head[10..12] && d[12..] == body;
  }
}

/** Requests and their frames (pkg/protocol/codec.go). */
module Codec {
  import opened Common
  import opened Bytes
  import opened Schemas
  import opened WireLaws
  import opened Payloads
  import opened Assignments
  import opened Messages

  /** A request's fields that travel. */
  datatype Request =
    | Produce(topic: Data, partition: int, messages: seq<Message>, producerId: int, producerEpoch: int)
    | Fetch(topic: Data, partition: int, offset: int, maxBytes: int, isolation: int)
    | GetOffset(topic: Data, partition: int)
    | CreateTopic(topic: Data, partitions: int, replication: int)
    | DeleteTopic(topic: Data)
    | ListTopics
    | HealthCheck
    | Coordination(payload: Payload)

  datatype FetchResponse = FetchResponse(highWaterMark: int, messages: seq<Message>, lastStableOffset: int, nextOffset: int)

  const PRODUCE := Pair(Text, Pair(U32, List(MESSAGE)))
  const FETCH := Pair(Text, Pair(U32, Pair(I64, U32)))
  const GET_OFFSET := Pair(Text, U32)
  const CREATE_TOPIC := Pair(Text, Pair(U32, U16))
  const FETCH_RESPONSE := Pair(I64, List(MESSAGE))

  // ---------------------------------------------------------------------
  // Lists of messages, each with an order of its headers
  // ---------------------------------------------------------------------

  ghost predicate OrdersOf(ms: seq<Message>, orders: seq<seq<Data>>) {
    |orders| == |ms| && forall i :: 0 <= i < |ms| ==> Lists(orders[i], ms[i].headers)
  }

  ghost predicate AllInBounds(ms: seq<Message>) { forall i :: 0 <= i < |ms| ==> InBounds(ms[i]) }

  function Values(ms: seq<Message>, orders: seq<seq<Data>>): (r: seq<Value>)
    requires |orders| == |ms| && forall i, j :: 0 <= i < |ms| && 0 <= j < |orders[i]| ==> orders[i][j] in ms[i].headers
    ensures |r| == |ms| && forall i :: 0 <= i < |ms| ==> r[i] == MessageValue(ms[i], orders[i])
  {
    seq(|ms|, i requires 0 <= i < |ms| && |orders| == |ms| && (forall j :: 0 <= j < |orders[i]| ==> orders[i][j] in ms[i].headers) =>
      MessageValue(ms[i], orders[i]))
  }

  lemma OrdersIn(ms: seq<Message>, orders: seq<seq<Data>>)
    requires OrdersOf(ms, orders)
    ensures |orders| == |ms| && forall i, j :: 0 <= i < |ms| && 0 <= j < |orders[i]| ==> orders[i][j] in ms[i].headers
  {
    forall i, j | 0 <= i < |ms| && 0 <= j < |orders[i]| ensures orders[i][j] in ms[i].headers {
      assert Lists(orders[i], ms[i].headers);
    }
  }

  /** The messages as a list on the wire. */
  function MessageList(ms: seq<Message>, orders: seq<seq<Data>>): Value
    requires OrdersOf(ms, orders)
  {
    OrdersIn(ms, orders);
    ListV(Values(ms, orders))
  }

  lemma MessageListFits(ms: seq<Message>, orders: seq<seq<Data>>)
    requires OrdersOf(ms, orders) && AllInBounds(ms)
    ensures Fits(List(MESSAGE), MessageList(ms, orders))
  {
    hide MessageValue, Lists, InBounds;
    OrdersIn(ms, orders);
    var vs := Values(ms, orders);
    forall i | 0 <= i < |vs| ensures Fits(MESSAGE, vs[i]) { MessageFits(ms[i], orders[i]); }
  }

  lemma MessageListBack(ms: seq<Message>, orders: seq<seq<Data>>)
    requires OrdersOf(ms, orders)
    ensures Map(ToMessage, Items(MessageList(ms, orders))) == ms
  {
    hide MessageValue, ToMessage, Lists;
    OrdersIn(ms, orders);
    var vs := Values(ms, orders);
    forall i | 0 <= i < |vs| ensures ToMessage(vs[i]) == ms[i] { MessageBack(ms[i], orders[i]); }
  }

  method ChooseOrders(ms: seq<Message>) returns (orders: seq<seq<Data>>)
    ensures OrdersOf(ms, orders)
  {
    hide Lists;
    orders := [];
    for i := 0 to |ms|
      invariant |orders| == i && forall j :: 0 <= j < i ==> Lists(orders[j], ms[j].headers)
    {
      var o := AnyOrder(ms[i].headers);
      orders := orders + [o];
    }
  }

  /** The summed sizes of the messages are what the list takes after its length, in any header order. */
  method MessagesSize(ms: seq<Message>, ghost orders: seq<seq<Data>>) returns (size: nat)
    requires OrdersOf(ms, orders) && AllInBounds(ms) && Fits(List(MESSAGE), MessageList(ms, orders))
    ensures |Enc(List(MESSAGE), MessageList(ms, orders))| == 4 + size
  {
    hide MessageValue, Lists, Enc, InBounds, Fits;
    ghost var vs := MessageList(ms, orders).items;
    ItemsFit(MESSAGE, vs);
    OrdersIn(ms, orders);
    size := 0;
    for i := 0 to |ms|
      invariant size == |EncItems(MESSAGE, vs, i)|
    {
      var one := MessageSize(ms[i]);
      assert vs[i] == MessageValue(ms[i], orders[i]);
      size := size + one;
    }
    EncOfList(MESSAGE, vs);
  }

  lemma ItemsFit(e: Schema, vs: seq<Value>)
    requires Fits(List(e), ListV(vs))
    ensures forall i :: 0 <= i < |vs| ==> Fits(e, vs[i])
  {
  }

  // ---------------------------------------------------------------------
  // Bodies
  // ---------------------------------------------------------------------

  function MessagesOf(r: Request): seq<Message> { if r.Produce? then r.messages else [] }

  /** Integers within their Go types. */
  ghost predicate WellFormed(r: Request) {
    match r
    case Produce(_, p, ms, id, e) => InRange(p, 4, false) && AllInBounds(ms) && InRange(id, 8, true) && InRange(e, 2, true)
    case Fetch(_, p, o, m, i) => InRange(p, 4, false) && InRange(o, 8, true) && InRange(m, 4, false) && InRange(i, 1, true)
    case GetOffset(_, p) => InRange(p, 4, false)
    case CreateTopic(_, p, f) => InRange(p, 4, false) && InRange(f, 2, false)
    case Coordination(p) => WellTyped(p) && CodeOf(KindOf(p)).Some?
    case _ => true
  }

  /** A request whose body is a schema's value and, after it, fields of later versions. */
  function Base(r: Request, orders: seq<seq<Data>>): (Schema, Value)
    requires OrdersOf(MessagesOf(r), orders) && !r.ListTopics? && !r.HealthCheck?
  {
    match r
    case Produce(t, p, ms, _, _) => (PRODUCE, PairV(T(t), PairV(I(p), MessageList(ms, orders))))
    case Fetch(t, p, o, m, _) => (FETCH, PairV(T(t), PairV(I(p), PairV(I(o), I(m)))))
    case GetOffset(t, p) => (GET_OFFSET, PairV(T(t), I(p)))
    case CreateTopic(t, p, f) => (CREATE_TOPIC, PairV(T(t), PairV(I(p), I(f))))
    case DeleteTopic(t) => (Text, T(t))
    case Coordination(p) => (SchemaOf(KindOf(p)), ToValue(p))
  }

  lemma BaseFits(r: Request, orders: seq<seq<Data>>)
    requires WellFormed(r) && OrdersOf(MessagesOf(r), orders) && !r.ListTopics? && !r.HealthCheck?
    ensures Fits(Base(r, orders).0, Base(r, orders).1)
  {
    hide MessageList, AllInBounds, SchemaOf, ToValue, Pow, OrdersOf;
    if r.Produce? {
      MessageListFits(r.messages, orders);
      assert Fits(Pair(U32, List(MESSAGE)), PairV(I(r.partition), MessageList(r.messages, orders)));
    } else if r.Fetch? {
      assert Fits(Pair(I64, U32), PairV(I(r.offset), I(r.maxBytes)));
      assert Fits(Pair(U32, Pair(I64, U32)), PairV(I(r.partition), PairV(I(r.offset), I(r.maxBytes))));
    } else if r.CreateTopic? {
      assert Fits(Pair(U32, U16), PairV(I(r.partitions), I(r.replication)));
    }
  }

  ghost function Later(r: Request): Data
    requires WellFormed(r)
  {
    match r
    case Produce(_, _, _, id, e) => IntBytes(id, 8, true) + IntBytes(e, 2, true)
    case Fetch(_, _, _, _, i) => IntBytes(i, 1, true)
    case _ => []
  }

  /** The payload bytes of a request, for the header order of each message. */
  ghost function Body(r: Request, orders: seq<seq<Data>>): Data
    requires WellFormed(r) && OrdersOf(MessagesOf(r), orders)
  {
    if r.ListTopics? || r.HealthCheck? then []
    else
      BaseFits(r, orders);
      Enc(Base(r, orders).0, Base(r, orders).1) + Later(r)
  }

  // ---------------------------------------------------------------------
  // Decoding a body
  // ---------------------------------------------------------------------

  /** Request type codes of the coordination payloads. */
  function CodeOf(k: Kind): Option<nat> {
    match k
    case JoinGroupReq => Some(0x08)
    case SyncGroupReq => Some(0x09)
    case HeartbeatReq => Some(0x0A)
    case LeaveGroupReq => Some(0x0B)
    case OffsetCommitReq => Some(0x0C)
    case OffsetFetchReq => Some(0x0D)
    case InitProducerIDReq => Some(0x0E)
    case AddPartitionsReq => Some(0x0F)
    case AddOffsetsReq => Some(0x10)
    case EndTxnReq => Some(0x11)
    case TxnOffsetCommitReq => Some(0x12)
    case FindCoordinatorReq => Some(0x13)
    case _ => None
  }

  function KindFor(code: nat): Option<Kind> {
    if code == 0x08 then Some(JoinGroupReq)
    else if code == 0x09 then Some(SyncGroupReq)
    else if code == 0x0A then Some(HeartbeatReq)
    else if code == 0x0B then Some(LeaveGroupReq)
    else if code == 0x0C then Some(OffsetCommitReq)
    else if code == 0x0D then Some(OffsetFetchReq)
    else if code == 0x0E then Some(InitProducerIDReq)
    else if code == 0x0F then Some(AddPartitionsReq)
    else if code == 0x10 then Some(AddOffsetsReq)
    else if code == 0x11 then Some(EndTxnReq)
    else if code == 0x12 then Some(TxnOffsetCommitReq)
    else if code == 0x13 then Some(FindCoordinatorReq)
    else None
  }

  function TypeCode(r: Request): (c: nat)
    requires r.Coordination? ==> CodeOf(KindOf(r.payload)).Some?
    ensures c < 256
  {
    match r
    case Produce(_, _, _, _, _) => 0x01
    case Fetch(_, _, _, _, _) => 0x02
    case GetOffset(_, _) => 0x03
    case CreateTopic(_, _, _) => 0x04
    case DeleteTopic(_) => 0x05
    case ListTopics => 0x06
    case HealthCheck => 0x07
    case Coordination(p) => CodeOf(KindOf(p)).value
  }

  datatype DecodeError = Ended | TooLarge | NoRoomForChecksum | Mismatch | UnknownType | Malformed(at: ReadError) | Panics

  /** A later field, when the bytes for it are there. */
  function Optional(b: Data, pos: nat, w: nat, default: int): int {
    if |b| - pos >= w then IntOf(b[pos..pos + w], true) else default
  }

  /** What each core request is read as. */
  function BaseSchema(code: nat): Schema {
    if code == 1 then PRODUCE else if code == 2 then FETCH else if code == 3 then GET_OFFSET else if code == 4 then CREATE_TOPIC else Text
  }

  /**
    * The core requests read without checks: anything that does not parse is a panic. The payload b is a slice of the frame, and the
    * bytes after it, the checksum, are within its capacity.
    */
  function DecodeCore(code: nat, b: Data, spare: Data): Result<Request, DecodeError> {
    if code == 0x06 then Ok(ListTopics)
    else if code == 0x07 then Ok(HealthCheck)
    else if code < 1 || code > 7 then Err(UnknownType)
    else
      match Parse(Unchecked(|spare|), BaseSchema(code), b + spare, 0)
      case Bad(_) => Err(Panics)
      case Got(v, p) =>
        if code == 1 then
          Ok(Produce(Txt(Field(v, 0)), Num(Field(v, 1)), Map(ToMessage, Items(Rest(v, 2))), Optional(b, p, 8, 0),
                     if |b| - p >= 8 then Optional(b, p + 8, 2, 0) else 0))
        else if code == 2 then
          Ok(Fetch(Txt(Field(v, 0)), Num(Field(v, 1)), Num(Field(v, 2)), Num(Rest(v, 3)), Optional(b, p, 1, 0)))
        else if code == 3 then Ok(GetOffset(Txt(Field(v, 0)), Num(Rest(v, 1))))
        else if code == 4 then Ok(CreateTopic(Txt(Field(v, 0)), Num(Field(v, 1)), Num(Rest(v, 2))))
        else Ok(DeleteTopic(Txt(v)))
  }

  ghost function DecodeBody(code: nat, b: Data, spare: Data): Result<Request, DecodeError> {
    match KindFor(code)
    case None => DecodeCore(code, b, spare)
    case Some(k) =>
      match PayloadOf(k, b)
      case Ok(p) => Ok(Coordination(p))
      case Err(e) => Err(Malformed(e))
  }

  lemma CoreReadable()
    ensures NoBlob(PRODUCE) && NoBlob(FETCH) && NoBlob(GET_OFFSET) && NoBlob(CREATE_TOPIC) && NoBlob(FETCH_RESPONSE)
  {
    assert NoBlob(HEADERS);
    assert NoBlob(Pair(Text, HEADERS));
    assert NoBlob(Pair(Text, Pair(Text, HEADERS)));
    assert NoBlob(MESSAGE);
    assert NoBlob(Pair(U32, List(MESSAGE)));
    assert NoBlob(Pair(I64, U32));
  }

  lemma OptionalAt(b: Data, p: nat, w: nat, v: int, default: int)
    requires InRange(v, w, true) && At(b, p, IntBytes(v, w, true))
    ensures p + w <= |b| && Optional(b, p, w, default) == v
  {
    hide IntBytes, IntOf;
    IntRoundTrip(v, w, true);
  }

  /** The base of a core request, followed by anything, is read back whole. */
  lemma BaseRead(r: Request, orders: seq<seq<Data>>, tail: Data, spare: Data)
    requires WellFormed(r) && OrdersOf(MessagesOf(r), orders)
    requires r.Produce? || r.Fetch? || r.GetOffset? || r.CreateTopic? || r.DeleteTopic?
    requires Fits(Base(r, orders).0, Base(r, orders).1) && |Enc(Base(r, orders).0, Base(r, orders).1)| <= MAX_MESSAGE_SIZE
    ensures var (s, v) := Base(r, orders);
            Parse(Unchecked(|spare|), s, Enc(s, v) + tail + spare, 0) == Got(v, |Enc(s, v)|)
  {
    hide Parse, Enc, Fits, MessageList, NoBlob, OrdersOf, WellFormed;
    CoreReadable();
    assert NoBlob(Text) by { TextReadable(); }
    var (s, v) := Base(r, orders);
    RoundTrip(Unchecked(|spare|), s, v, tail + spare);
    assert Enc(s, v) + tail + spare == Enc(s, v) + (tail + spare);
  }

  lemma TextReadable()
    ensures NoBlob(Text)
  {
  }

  /** Decoding the base and a tail gives the request with its later fields taken from the tail. */
  lemma DecodeBase(r: Request, orders: seq<seq<Data>>, tail: Data, spare: Data)
    requires WellFormed(r) && OrdersOf(MessagesOf(r), orders)
    requires r.Produce? || r.Fetch? || r.GetOffset? || r.CreateTopic? || r.DeleteTopic?
    requires Fits(Base(r, orders).0, Base(r, orders).1) && |Enc(Base(r, orders).0, Base(r, orders).1)| <= MAX_MESSAGE_SIZE
    ensures var d := Enc(Base(r, orders).0, Base(r, orders).1);
            DecodeBody(TypeCode(r), d + tail, spare) ==
            match r
            case Produce(t, p, ms, _, _) =>
              Ok(Produce(t, p, ms, Optional(d + tail, |d|, 8, 0), if |tail| >= 8 then Optional(d + tail, |d| + 8, 2, 0) else 0))
            case Fetch(t, p, o, m, _) => Ok(Fetch(t, p, o, m, Optional(d + tail, |d|, 1, 0)))
            case _ => Ok(r)
  {
    hide Parse, Enc, Fits, OrdersOf, MessageList, WellFormed, ToMessage, Map, Optional;
    BaseRead(r, orders, tail, spare);
    if r.Produce? { MessageListBack(r.messages, orders); }
  }

  /**
    * A request's body decodes to the request, in whatever order its messages' header maps were walked: no field is lost, moved or
    * clamped.
    */
  lemma BodyRoundTrip(r: Request, orders: seq<seq<Data>>, spare: Data)
    requires WellFormed(r) && OrdersOf(MessagesOf(r), orders) && |Body(r, orders)| <= MAX_MESSAGE_SIZE
    ensures DecodeBody(TypeCode(r), Body(r, orders), spare) == Ok(r)
  {
    hide Parse, Enc, Fits, OrdersOf, MessageList, ToMessage, Map, Optional, IntBytes, DecodeBody, Base;
    if r.ListTopics? || r.HealthCheck? {
      EmptyBody(r, spare);
    } else {
      BaseFits(r, orders);
      var d := Enc(Base(r, orders).0, Base(r, orders).1);
      if r.Coordination? {
        CoordinationBody(r, orders, spare);
      } else {
        DecodeBase(r, orders, Later(r), spare);
        LaterBack(r, d);
      }
    }
  }

  lemma EmptyBody(r: Request, spare: Data)
    requires r.ListTopics? || r.HealthCheck?
    ensures DecodeBody(TypeCode(r), [], spare) == Ok(r)
  {
    hide Parse, PayloadOf, ToMessage, Map, Optional;
  }

  lemma CoordinationBody(r: Request, orders: seq<seq<Data>>, spare: Data)
    requires r.Coordination? && WellFormed(r) && OrdersOf(MessagesOf(r), orders) && |Body(r, orders)| <= MAX_MESSAGE_SIZE
    ensures DecodeBody(TypeCode(r), Body(r, orders), spare) == Ok(r)
  {
    hide Parse, Enc, Fits, SchemaOf, ToValue, FromValue, PayloadOf, MessageList, OrdersOf;
    var d := PayloadBytes(r.payload);
    assert Body(r, orders) == d + [] == d;
    PayloadRoundTrip(r.payload, []);
    assert KindFor(TypeCode(r)) == Some(KindOf(r.payload)) by { KindBack(KindOf(r.payload)); }
  }

  lemma KindBack(k: Kind)
    requires CodeOf(k).Some?
    ensures KindFor(CodeOf(k).value) == Some(k)
  {
  }

  lemma LaterBack(r: Request, d: Data)
    requires WellFormed(r)
    ensures var b := d + Later(r);
            && (r.Produce? ==> |Later(r)| == 10 && Optional(b, |d|, 8, 0) == r.producerId && Optional(b, |d| + 8, 2, 0) == r.producerEpoch)
            && (r.Fetch? ==> Optional(b, |d|, 1, 0) == r.isolation)
  {
    hide IntBytes, Optional, AllInBounds, WellTyped;
    var b := d + Later(r);
    assert At(b, |d|, Later(r));
    if r.Produce? {
      AtSplit(b, |d|, IntBytes(r.producerId, 8, true), IntBytes(r.producerEpoch, 2, true));
      OptionalAt(b, |d|, 8, r.producerId, 0);
      OptionalAt(b, |d| + 8, 2, r.producerEpoch, 0);
    } else if r.Fetch? {
      OptionalAt(b, |d|, 1, r.isolation, 0);
    }
  }

  /** A produce request from before producer identities decodes as not transactional, a fetch from before isolation as uncommitted. */
  lemma OldRequests(r: Request, orders: seq<seq<Data>>, spare: Data)
    requires WellFormed(r) && OrdersOf(MessagesOf(r), orders) && (r.Produce? || r.Fetch?)
    requires Fits(Base(r, orders).0, Base(r, orders).1) && |Enc(Base(r, orders).0, Base(r, orders).1)| <= MAX_MESSAGE_SIZE
    ensures DecodeBody(TypeCode(r), Enc(Base(r, orders).0, Base(r, orders).1), spare) ==
            Ok(if r.Produce? then r.(producerId := 0, producerEpoch := 0) else r.(isolation := 0))
  {
    hide Parse, Enc, Fits, OrdersOf, MessageList, DecodeBody, WellFormed, Base;
    var d := Enc(Base(r, orders).0, Base(r, orders).1);
    DecodeBase(r, orders, [], spare);
    assert d + [] == d;
    NoLaterField(d, |d|, 8, 0);
    NoLaterField(d, |d|, 1, 0);
  }

  // ---------------------------------------------------------------------
  // Fetch responses
  // ---------------------------------------------------------------------

  ghost predicate FetchedInBounds(f: FetchResponse) {
    InRange(f.highWaterMark, 8, true) && AllInBounds(f.messages) && InRange(f.lastStableOffset, 8, true) && InRange(f.nextOffset, 8, true)
  }

  ghost function FetchedValue(f: FetchResponse, orders: seq<seq<Data>>): Value
    requires OrdersOf(f.messages, orders)
  {
    PairV(I(f.highWaterMark), MessageList(f.messages, orders))
  }

  function DecodeFetched(b: Data, spare: Data): Option<FetchResponse> {
    match Parse(Unchecked(|spare|), FETCH_RESPONSE, b + spare, 0)
    case Bad(_) => None
    case Got(v, p) =>
      var high := Num(Field(v, 0));
      Some(FetchResponse(high, Map(ToMessage, Items(Rest(v, 1))), Optional(b, p, 8, high), if |b| - p >= 8 then Optional(b, p + 8, 8, -1) else -1))
  }

  lemma FetchedRead(f: FetchResponse, orders: seq<seq<Data>>, tail: Data, spare: Data)
    requires FetchedInBounds(f) && OrdersOf(f.messages, orders)
    ensures Fits(FETCH_RESPONSE, FetchedValue(f, orders))
    ensures var d := Enc(FETCH_RESPONSE, FetchedValue(f, orders));
            |d| <= MAX_MESSAGE_SIZE ==>
              DecodeFetched(d + tail, spare) == Some(FetchResponse(f.highWaterMark, f.messages, Optional(d + tail, |d|, 8, f.highWaterMark),
                                                            if |tail| >= 8 then Optional(d + tail, |d| + 8, 8, -1) else -1))
  {
    hide Parse, Enc, MessageList, OrdersOf, ToMessage, Map, Optional, NoBlob, Pow, AllInBounds;
    MessageListFits(f.messages, orders);
    MessageListBack(f.messages, orders);
    CoreReadable();
    if |Enc(FETCH_RESPONSE, FetchedValue(f, orders))| <= MAX_MESSAGE_SIZE {
      var d := Enc(FETCH_RESPONSE, FetchedValue(f, orders));
      RoundTrip(Unchecked(|spare|), FETCH_RESPONSE, FetchedValue(f, orders), tail + spare);
      assert d + tail + spare == d + (tail + spare);
    }
  }

  /** A fetch response decodes to itself; from a server without the later fields, to no stable-offset limit and no next offset. */
  lemma FetchResponseRoundTrip(f: FetchResponse, orders: seq<seq<Data>>, spare: Data)
    requires FetchedInBounds(f) && OrdersOf(f.messages, orders)
    requires Fits(FETCH_RESPONSE, FetchedValue(f, orders)) && |Enc(FETCH_RESPONSE, FetchedValue(f, orders))| <= MAX_MESSAGE_SIZE
    ensures var d := Enc(FETCH_RESPONSE, FetchedValue(f, orders));
            && DecodeFetched(d + IntBytes(f.lastStableOffset, 8, true) + IntBytes(f.nextOffset, 8, true), spare) == Some(f)
            && DecodeFetched(d + IntBytes(f.lastStableOffset, 8, true), spare) == Some(f.(nextOffset := -1))
            && DecodeFetched(d, spare) == Some(f.(lastStableOffset := f.highWaterMark, nextOffset := -1))
  {
    hide Parse, Enc, Fits, MessageList, OrdersOf, DecodeFetched, IntBytes, Optional, AllInBounds, InRange;
    var d := Enc(FETCH_RESPONSE, FetchedValue(f, orders));
    var x, y := IntBytes(f.lastStableOffset, 8, true), IntBytes(f.nextOffset, 8, true);
    FetchedRead(f, orders, x + y, spare);
    FetchedRead(f, orders, x, spare);
    FetchedRead(f, orders, [], spare);
    assert d + [] == d && d + (x + y) == d + x + y;
    assert At(d + (x + y), |d|, x + y);
    AtSplit(d + (x + y), |d|, x, y);
    OptionalAt(d + (x + y), |d|, 8, f.lastStableOffset, f.highWaterMark);
    OptionalAt(d + (x + y), |d| + 8, 8, f.nextOffset, -1);
    assert At(d + x, |d|, x);
    OptionalAt(d + x, |d|, 8, f.lastStableOffset, f.highWaterMark);
    NoLaterField(d + x, |d| + 8, 8, -1);
    NoLaterField(d, |d|, 8, f.highWaterMark);
  }

  lemma NoLaterField(b: Data, p: nat, w: nat, default: int)
    requires p == |b| && w > 0
    ensures Optional(b, p, w, default) == default
  {
  }
}

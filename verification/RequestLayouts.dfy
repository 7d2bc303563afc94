/** Which bytes messages, requests and member blobs are, told without schemas. */
module RequestLayouts {
  import opened Bytes
  import opened Schemas
  import opened WireLaws
  import opened Payloads
  import opened Layouts
  import opened Assignments
  import opened Messages
  import opened Codec

  // ---------------------------------------------------------------------
  // Messages
  // ---------------------------------------------------------------------

  ghost function HeaderBytes(h: (Data, Data)): Data { Str(h.0) + Str(h.1) }

  ghost function MessageBytes(m: Message, order: seq<Data>): Data
    requires forall i :: 0 <= i < |order| ==> order[i] in m.headers
  {
    Be(m.offset, 8) + (Be(m.timestamp, 8) + (Str(m.key) + (Str(m.value) + Listed(Entries(m.headers, order), HeaderBytes))))
  }

  lemma HeaderLayouts(hs: seq<(Data, Data)>)
    requires Fits(HEADERS, ListV(Map(FromHeader, hs)))
    ensures Enc(HEADERS, ListV(Map(FromHeader, hs))) == Listed(hs, HeaderBytes)
  {
    hide Enc, Fits, Str, Listed, Map;
    var e := Pair(Text, Text);
    forall h: (Data, Data) | Fits(e, FromHeader(h)) ensures Enc(e, FromHeader(h)) == HeaderBytes(h) {
      ThenText(h.0, Text, T(h.1));
      TextField(h.1);
    }
    ListField(e, FromHeader, HeaderBytes, hs);
  }

  lemma MessageLayout(m: Message, order: seq<Data>)
    requires (forall i :: 0 <= i < |order| ==> order[i] in m.headers) && Fits(MESSAGE, MessageValue(m, order))
    ensures Enc(MESSAGE, MessageValue(m, order)) == MessageBytes(m, order)
  {
    hide Enc, Fits, Str, Be, Listed, Map, Entries;
    var hs := Entries(m.headers, order);
    var s4, v4 := HEADERS, ListV(Map(FromHeader, hs));
    var s3, v3 := Pair(Text, s4), PairV(T(m.value), v4);
    var s2, v2 := Pair(Text, s3), PairV(T(m.key), v3);
    ThenInt(m.offset, 8, true, Pair(I64, s2), PairV(I(m.timestamp), v2));
    ThenInt(m.timestamp, 8, true, s2, v2);
    ThenText(m.key, s3, v3);
    ThenText(m.value, s4, v4);
    HeaderLayouts(hs);
  }

  /** The first k messages one after the other, each in its own header order. */
  ghost function MessagesCat(ms: seq<Message>, orders: seq<seq<Data>>, k: nat): Data
    requires OrdersOf(ms, orders) && k <= |ms|
  {
    if k == 0 then []
    else
      OrdersIn(ms, orders);
      MessagesCat(ms, orders, k - 1) + MessageBytes(ms[k - 1], orders[k - 1])
  }

  ghost function MessagesBytes(ms: seq<Message>, orders: seq<seq<Data>>): Data
    requires OrdersOf(ms, orders)
  {
    Count(|ms|) + MessagesCat(ms, orders, |ms|)
  }

  lemma {:induction false} MessagesCatIs(ms: seq<Message>, orders: seq<seq<Data>>, vs: seq<Value>, k: nat)
    requires OrdersOf(ms, orders) && k <= |ms| && MessageList(ms, orders) == ListV(vs)
    requires forall i :: 0 <= i < |vs| ==> Fits(MESSAGE, vs[i])
    ensures |vs| == |ms| && EncItems(MESSAGE, vs, k) == MessagesCat(ms, orders, k)
  {
    hide Enc, Fits, MessageBytes, MessageValue, Lists;
    OrdersIn(ms, orders);
    if k > 0 {
      MessagesCatIs(ms, orders, vs, k - 1);
      assert vs[k - 1] == MessageValue(ms[k - 1], orders[k - 1]);
      MessageLayout(ms[k - 1], orders[k - 1]);
    }
  }

  lemma MessagesLayout(ms: seq<Message>, orders: seq<seq<Data>>)
    requires OrdersOf(ms, orders) && Fits(List(MESSAGE), MessageList(ms, orders))
    ensures Enc(List(MESSAGE), MessageList(ms, orders)) == MessagesBytes(ms, orders)
  {
    hide Enc, Fits, MessageBytes, MessagesCat, LengthBytes, Lists, Values, Count, EncItems;
    var vs := MessageList(ms, orders).items;
    ItemsFit(MESSAGE, vs);
    MessagesCatIs(ms, orders, vs, |ms|);
    CountIs(|ms|);
    EncOfList(MESSAGE, vs);
  }

  // ---------------------------------------------------------------------
  // Request bodies and frames
  // ---------------------------------------------------------------------

  ghost function BodyLayout(r: Request, orders: seq<seq<Data>>): Data
    requires OrdersOf(MessagesOf(r), orders)
  {
    match r
    case Produce(topic, partition, messages, producerId, producerEpoch) =>
      (Str(topic) + (Be(partition, 4) + MessagesBytes(messages, orders))) + (Be(producerId, 8) + Be(producerEpoch, 2))
    case Fetch(topic, partition, offset, maxBytes, isolation) =>
      (Str(topic) + (Be(partition, 4) + (Be(offset, 8) + Be(maxBytes, 4)))) + Be(isolation, 1)
    case GetOffset(topic, partition) => Str(topic) + Be(partition, 4)
    case CreateTopic(topic, partitions, replication) => Str(topic) + (Be(partitions, 4) + Be(replication, 2))
    case DeleteTopic(topic) => Str(topic)
    case ListTopics => []
    case HealthCheck => []
    case Coordination(payload) => Layout(payload)
  }

  lemma IntBytesAre(x: int, w: nat, signed: bool)
    requires w > 0 && InRange(x, w, signed)
    ensures IntBytes(x, w, signed) == Be(x, w)
  {
    hide Be, IntBytes, Pow;
    IntField(x, w, signed);
  }

  lemma ProduceLayout(r: Request, orders: seq<seq<Data>>)
    requires r.Produce? && WellFormed(r) && OrdersOf(MessagesOf(r), orders)
    ensures Body(r, orders) == BodyLayout(r, orders)
  {
    hide Enc, Fits, Str, Be, MessagesBytes, MessageList, OrdersOf, IntBytes, Pow, AllInBounds;
    BaseFits(r, orders);
    var list := MessageList(r.messages, orders);
    ThenText(r.topic, Pair(U32, List(MESSAGE)), PairV(I(r.partition), list));
    ThenInt(r.partition, 4, false, List(MESSAGE), list);
    MessagesLayout(r.messages, orders);
    IntBytesAre(r.producerId, 8, true);
    IntBytesAre(r.producerEpoch, 2, true);
  }

  lemma FixedLayout(r: Request, orders: seq<seq<Data>>)
    requires (r.Fetch? || r.GetOffset? || r.CreateTopic? || r.DeleteTopic?) && WellFormed(r) && OrdersOf(MessagesOf(r), orders)
    ensures Body(r, orders) == BodyLayout(r, orders)
  {
    hide Enc, Fits, Str, Be, MessageList, OrdersOf, IntBytes, Pow;
    BaseFits(r, orders);
    match r
    case Fetch(t, p, o, m, i) =>
      ThenText(t, Pair(U32, Pair(I64, U32)), PairV(I(p), PairV(I(o), I(m))));
      ThenInt(p, 4, false, Pair(I64, U32), PairV(I(o), I(m)));
      ThenInt(o, 8, true, U32, I(m));
      IntField(m, 4, false);
      IntBytesAre(i, 1, true);
    case GetOffset(t, p) =>
      ThenText(t, U32, I(p));
      IntField(p, 4, false);
    case CreateTopic(t, p, f) =>
      ThenText(t, Pair(U32, U16), PairV(I(p), I(f)));
      ThenInt(p, 4, false, U16, I(f));
      IntField(f, 2, false);
    case DeleteTopic(t) => TextField(t);
  }

  /** Every request body is written as its layout. */
  lemma BodyIsLayout(r: Request, orders: seq<seq<Data>>)
    requires WellFormed(r) && OrdersOf(MessagesOf(r), orders)
    ensures Body(r, orders) == BodyLayout(r, orders)
  {
    hide Enc, Fits, OrdersOf, MessageList, Layout, SchemaOf, ToValue;
    match r
    case Produce(_, _, _, _, _) => ProduceLayout(r, orders);
    case ListTopics =>
    case HealthCheck =>
    case Coordination(p) => PayloadLayout(p);
    case _ => FixedLayout(r, orders);
  }

  /** The type byte of a request that can be sent. */
  ghost function TypeByte(r: Request): nat {
    match r
    case Produce(_, _, _, _, _) => 0x01
    case Fetch(_, _, _, _, _) => 0x02
    case GetOffset(_, _) => 0x03
    case CreateTopic(_, _, _) => 0x04
    case DeleteTopic(_) => 0x05
    case ListTopics => 0x06
    case HealthCheck => 0x07
    case Coordination(p) =>
      if p.JoinGroupRequest? then 0x08 else if p.SyncGroupRequest? then 0x09 else if p.HeartbeatRequest? then 0x0A
      else if p.LeaveGroupRequest? then 0x0B else if p.OffsetCommitRequest? then 0x0C else if p.OffsetFetchRequest? then 0x0D
      else if p.InitProducerIDRequest? then 0x0E else if p.AddPartitionsToTxnRequest? then 0x0F else if p.AddOffsetsToTxnRequest? then 0x10
      else if p.EndTxnRequest? then 0x11 else if p.TxnOffsetCommitRequest? then 0x12 else 0x13
  }

  lemma TypeByteIs(r: Request)
    requires r.Coordination? ==> CodeOf(KindOf(r.payload)).Some?
    ensures TypeCode(r) == TypeByte(r) < 256
  {
  }

  // ---------------------------------------------------------------------
  // Fetch responses and member blobs
  // ---------------------------------------------------------------------

  lemma FetchedLayout(f: FetchResponse, orders: seq<seq<Data>>)
    requires FetchedInBounds(f) && OrdersOf(f.messages, orders) && Fits(FETCH_RESPONSE, FetchedValue(f, orders))
    ensures Enc(FETCH_RESPONSE, FetchedValue(f, orders)) == Be(f.highWaterMark, 8) + MessagesBytes(f.messages, orders)
  {
    hide Enc, Fits, Be, MessagesBytes, MessageList, OrdersOf;
    ThenInt(f.highWaterMark, 8, true, List(MESSAGE), MessageList(f.messages, orders));
    MessagesLayout(f.messages, orders);
  }

  lemma SubscriptionLayout(s: Subscription)
    ensures EncodedSubscription(s) == Be(1, 2) + (Listed(s.topics, Str) + OptBytes(s.userData))
  {
    hide Enc, Fits, Str, Be, Listed, Map, OptBytes;
    SubscriptionFits(s);
    var topics := ListV(Map(T, s.topics));
    ThenInt(COORDINATION_VERSION, 2, true, Pair(List(Text), Blob), PairV(topics, BlobV(s.userData)));
    PairFits(List(Text), Blob, topics, BlobV(s.userData));
    forall x: Data { TextField(x); }
    ListField(Text, T, Str, s.topics);
    BlobField(s.userData);
  }

  lemma PairFits(s1: Schema, s2: Schema, v1: Value, v2: Value)
    requires Fits(Pair(s1, s2), PairV(v1, v2))
    ensures Fits(s1, v1) && Fits(s2, v2) && Enc(Pair(s1, s2), PairV(v1, v2)) == Enc(s1, v1) + Enc(s2, v2)
  {
    hide LengthBytes, EncItems;
  }

  ghost function EntryBytes(e: (Data, seq<int>)): Data { Str(e.0) + Listed(e.1, NumberBytes) }

  lemma AssignmentLayout(a: MemberAssignment, keys: seq<Data>)
    requires Lists(keys, a.partitions) && Fits(ASSIGNMENT, AssignmentValue(a, keys))
    ensures Enc(ASSIGNMENT, AssignmentValue(a, keys)) == Be(1, 2) + (Listed(Entries(a.partitions, keys), EntryBytes) + OptBytes(a.userData))
  {
    hide Enc, Fits, Str, Be, Listed, Map, OptBytes, Entries;
    var e, es := Pair(Text, List(I32)), Entries(a.partitions, keys);
    var list := ListV(Map(FromEntry, es));
    ThenInt(COORDINATION_VERSION, 2, true, Pair(List(e), Blob), PairV(list, BlobV(a.userData)));
    PairFits(List(e), Blob, list, BlobV(a.userData));
    forall x: (Data, seq<int>) | Fits(e, FromEntry(x)) ensures Enc(e, FromEntry(x)) == EntryBytes(x) {
      ThenText(x.0, List(I32), ListV(Map(I, x.1)));
      NumberLayouts(x.1);
    }
    ListField(e, FromEntry, EntryBytes, es);
    BlobField(a.userData);
  }
}

/** The decode loops of the core codec, an offset threaded through the buffer (pkg/protocol/codec.go). */
module Decoding {
  import opened Common
  import opened Bytes
  import opened Schemas
  import opened WireLaws
  import opened Payloads
  import opened Assignments
  import opened Messages
  import opened Codec
  import opened Frames

  // ---------------------------------------------------------------------
  // One step of the wire format at a time
  // ---------------------------------------------------------------------

  lemma PairStep(m: Mode, s1: Schema, s2: Schema, b: Data, pos: nat)
    requires pos <= |b|
    ensures var r1 := Parse(m, s1, b, pos);
            && (r1.Bad? ==> Parse(m, Pair(s1, s2), b, pos).Bad?)
            && (r1.Got? ==>
                  var r2 := Parse(m, s2, b, r1.next);
                  && (r2.Bad? ==> Parse(m, Pair(s1, s2), b, pos).Bad?)
                  && (r2.Got? ==> Parse(m, Pair(s1, s2), b, pos) == Got(PairV(r1.value, r2.value), r2.next)))
  {
  }

  lemma IntStep(m: Mode, w: nat, signed: bool, b: Data, pos: nat)
    requires pos <= |b|
    ensures var r := ReadInt(m, b, pos, w, signed);
            && (r.Bad? ==> Parse(m, Int(w, signed), b, pos).Bad?)
            && (r.Got? ==> Parse(m, Int(w, signed), b, pos) == Got(IntV(r.value), r.next))
  {
    hide ReadInt;
  }

  lemma TextStep(m: Mode, b: Data, pos: nat)
    requires pos <= |b|
    ensures var r := ReadData(m, b, pos, false);
            && (r.Bad? ==> Parse(m, Text, b, pos).Bad?)
            && (r.Got? ==> r.value.Some? && Parse(m, Text, b, pos) == Got(TextV(r.value.value), r.next))
  {
    hide ReadData;
  }

  lemma ListStep(m: Mode, e: Schema, b: Data, pos: nat)
    requires pos <= |b| && m.Unchecked?
    ensures var r := ReadInt(m, b, pos, 4, false);
            && (r.Bad? ==> Parse(m, List(e), b, pos).Bad?)
            && (r.Got? ==>
                  && r.value >= 0
                  && var items := ParseItems(m, e, b, r.next, r.value);
                  && (items.Bad? ==> Parse(m, List(e), b, pos).Bad?)
                  && (items.Got? ==> Parse(m, List(e), b, pos) == Got(ListV(items.value), items.next)))
  {
    hide ReadInt, ParseItems;
  }

  lemma ItemStep(m: Mode, e: Schema, b: Data, pos: nat, k: nat)
    requires pos <= |b| && ParseItems(m, e, b, pos, k).Got?
    ensures var r := ParseItems(m, e, b, pos, k);
            var one := Parse(m, e, b, r.next);
            && (one.Bad? ==> ParseItems(m, e, b, pos, k + 1).Bad?)
            && (one.Got? ==> ParseItems(m, e, b, pos, k + 1) == Got(r.value + [one.value], one.next))
  {
    hide Parse;
  }

  lemma {:induction false} BadStays(m: Mode, e: Schema, b: Data, pos: nat, k: nat, n: nat)
    requires pos <= |b| && k <= n && ParseItems(m, e, b, pos, k).Bad?
    ensures ParseItems(m, e, b, pos, n).Bad?
  {
    hide Parse;
    if k < n { BadStays(m, e, b, pos, k, n - 1); }
  }

  // ---------------------------------------------------------------------
  // Messages
  // ---------------------------------------------------------------------

  lemma MapPush<A, B>(f: A -> B, xs: seq<A>, x: A)
    ensures Map(f, xs + [x]) == Map(f, xs) + [f(x)]
  {
  }

  lemma {:induction false} CollectPrefix<V>(es: seq<(Data, V)>, e: (Data, V), k: nat)
    requires k <= |es|
    ensures Collect(es + [e], k) == Collect(es, k)
  {
    if k > 0 { CollectPrefix(es, e, k - 1); }
  }

  lemma CollectPush<V>(es: seq<(Data, V)>, e: (Data, V))
    ensures Collect(es + [e], |es| + 1) == Collect(es, |es|)[e.0 := e.1]
  {
    CollectPrefix(es, e, |es|);
  }

  /** The headers of the first k entries, as the loop has collected them. */
  ghost predicate HeadersSoFar(m: Mode, b: Data, pos: nat, k: nat, headers: map<Data, Data>, offset: nat)
    requires pos <= |b|
  {
    var r := ParseItems(m, Pair(Text, Text), b, pos, k);
    r.Got? && offset == r.next && headers == Collect(Map(ToHeader, r.value), k)
  }

  lemma HeaderStep(m: Mode, b: Data, pos: nat, k: nat, headers: map<Data, Data>, offset: nat, name: Parsed<Option<Data>>, value: Parsed<Option<Data>>)
    requires pos <= |b| && HeadersSoFar(m, b, pos, k, headers, offset) && offset <= |b| && name == ReadData(m, b, offset, false)
    requires name.Got? ==> value == ReadData(m, b, name.next, false)
    ensures name.Bad? || value.Bad? ==> ParseItems(m, Pair(Text, Text), b, pos, k + 1).Bad?
    ensures name.Got? && value.Got? ==>
              name.value.Some? && value.value.Some? && HeadersSoFar(m, b, pos, k + 1, headers[name.value.value := value.value.value], value.next)
  {
    hide Parse, ParseItems, ReadData, Map, Collect;
    var r := ParseItems(m, Pair(Text, Text), b, pos, k);
    ItemStep(m, Pair(Text, Text), b, pos, k);
    PairStep(m, Text, Text, b, offset);
    TextStep(m, b, offset);
    if name.Got? {
      TextStep(m, b, name.next);
      if value.Got? {
        var v := PairV(TextV(name.value.value), TextV(value.value.value));
        MapPush(ToHeader, r.value, v);
        MapSize(ToHeader, r.value);
        CollectPush(Map(ToHeader, r.value), ToHeader(v));
      }
    }
  }

  lemma MapSize<A, B>(f: A -> B, xs: seq<A>)
    ensures |Map(f, xs)| == |xs|
  {
  }

  method DecodeHeaders(m: Mode, b: Data, pos: nat, n: nat) returns (r: Option<(map<Data, Data>, nat)>)
    requires pos <= |b|
    ensures match ParseItems(m, Pair(Text, Text), b, pos, n)
            case Got(items, next) => r == Some((Collect(Map(ToHeader, items), n), next))
            case Bad(_) => r == None
  {
    hide Parse, ReadData, Map, Collect, ParseItems;
    var headers: map<Data, Data>, offset: nat := map[], pos;
    NoHeaders(m, b, pos);
    for i := 0 to n
      invariant offset <= |b| && HeadersSoFar(m, b, pos, i, headers, offset)
    {
      var name := ReadData(m, b, offset, false);
      var value := if name.Got? then ReadData(m, b, name.next, false) else name;
      HeaderStep(m, b, pos, i, headers, offset, name, value);
      if name.Bad? || value.Bad? {
        BadStays(m, Pair(Text, Text), b, pos, i + 1, n);
        return None;
      }
      headers, offset := headers[name.value.value := value.value.value], value.next;
    }
    return Some((headers, offset));
  }

  lemma NoHeaders(m: Mode, b: Data, pos: nat)
    requires pos <= |b|
    ensures HeadersSoFar(m, b, pos, 0, map[], pos)
  {
  }

  /** What the format has at a position, as a message. */
  ghost function MessageAt(m: Mode, b: Data, pos: nat): Option<(Message, nat)>
    requires pos <= |b|
  {
    match Parse(m, MESSAGE, b, pos)
    case Got(v, next) => Some((ToMessage(v), next))
    case Bad(_) => None
  }

  /** Decodes the message at an offset of a slice, or panics exactly when the format has none there, spare capacity included. */
  method DecodeMessage(m: Mode, b: Data, pos: nat) returns (r: Option<(Message, nat)>)
    requires pos <= |b| && m.Unchecked?
    ensures r == MessageAt(m, b, pos)
  {
    hide Parse, ParseItems, ReadData, ReadInt, Map, Collect;
    var rest3, rest2, rest1 := Pair(Text, HEADERS), Pair(Text, Pair(Text, HEADERS)), Pair(I64, Pair(Text, Pair(Text, HEADERS)));
    PairStep(m, I64, rest1, b, pos);
    IntStep(m, 8, true, b, pos);
    var offset := ReadInt(m, b, pos, 8, true);
    if offset.Bad? { return None; }
    PairStep(m, I64, rest2, b, offset.next);
    IntStep(m, 8, true, b, offset.next);
    var timestamp := ReadInt(m, b, offset.next, 8, true);
    if timestamp.Bad? { return None; }
    PairStep(m, Text, rest3, b, timestamp.next);
    TextStep(m, b, timestamp.next);
    var key := ReadData(m, b, timestamp.next, false);
    if key.Bad? { return None; }
    PairStep(m, Text, HEADERS, b, key.next);
    TextStep(m, b, key.next);
    var value := ReadData(m, b, key.next, false);
    if value.Bad? { return None; }
    ListStep(m, Pair(Text, Text), b, value.next);
    var n := ReadInt(m, b, value.next, 4, false);
    if n.Bad? { return None; }
    var headers := DecodeHeaders(m, b, n.next, n.value);
    if headers.None? { return None; }
    ghost var items := ParseItems(m, Pair(Text, Text), b, n.next, n.value).value;
    MapSize(ToHeader, items);
    return Some((Message(offset.value, timestamp.value, key.value.value, value.value.value, headers.value.0), headers.value.1));
  }

  /** The first k messages of a list, as the loop has collected them. */
  ghost predicate MessagesSoFar(m: Mode, b: Data, pos: nat, k: nat, ms: seq<Message>, offset: nat)
    requires pos <= |b|
  {
    var r := ParseItems(m, MESSAGE, b, pos, k);
    r.Got? && offset == r.next && ms == Map(ToMessage, r.value)
  }

  lemma MessageStep(m: Mode, b: Data, pos: nat, k: nat, ms: seq<Message>, offset: nat)
    requires pos <= |b| && MessagesSoFar(m, b, pos, k, ms, offset) && offset <= |b|
    ensures MessageAt(m, b, offset).None? ==> ParseItems(m, MESSAGE, b, pos, k + 1).Bad?
    ensures MessageAt(m, b, offset).Some? ==> MessagesSoFar(m, b, pos, k + 1, ms + [MessageAt(m, b, offset).value.0], MessageAt(m, b, offset).value.1)
  {
    hide Parse, ParseItems, Map, ToMessage;
    ItemStep(m, MESSAGE, b, pos, k);
    var r := ParseItems(m, MESSAGE, b, pos, k);
    var one := Parse(m, MESSAGE, b, offset);
    if one.Got? { MapPush(ToMessage, r.value, one.value); }
  }

  lemma NoMessages(m: Mode, b: Data, pos: nat)
    requires pos <= |b|
    ensures MessagesSoFar(m, b, pos, 0, [], pos)
  {
  }

  method DecodeMessages(m: Mode, b: Data, pos: nat, n: nat) returns (r: Option<(seq<Message>, nat)>)
    requires pos <= |b| && m.Unchecked?
    ensures match ParseItems(m, MESSAGE, b, pos, n)
            case Got(items, next) => r == Some((Map(ToMessage, items), next))
            case Bad(_) => r == None
  {
    hide Parse, Map, ParseItems, ToMessage, MessageAt;
    var ms: seq<Message>, offset: nat := [], pos;
    NoMessages(m, b, pos);
    for i := 0 to n
      invariant offset <= |b| && MessagesSoFar(m, b, pos, i, ms, offset)
    {
      var one := DecodeMessage(m, b, offset);
      MessageStep(m, b, pos, i, ms, offset);
      if one.None? {
        BadStays(m, MESSAGE, b, pos, i + 1, n);
        return None;
      }
      ms, offset := ms + [one.value.0], one.value.1;
    }
    return Some((ms, offset));
  }

  // ---------------------------------------------------------------------
  // Requests
  // ---------------------------------------------------------------------

  method DecodeProduce(b: Data, spare: Data) returns (r: Result<Request, DecodeError>)
    ensures r == DecodeCore(1, b, spare)
  {
    hide Parse, ParseItems, ReadData, ReadInt, Map, Optional, ToMessage;
    var m, f := Unchecked(|spare|), b + spare;
    PairStep(m, Text, Pair(U32, List(MESSAGE)), f, 0);
    TextStep(m, f, 0);
    var topic := ReadData(m, f, 0, false);
    if topic.Bad? { return Err(Panics); }
    PairStep(m, U32, List(MESSAGE), f, topic.next);
    IntStep(m, 4, false, f, topic.next);
    var partition := ReadInt(m, f, topic.next, 4, false);
    if partition.Bad? { return Err(Panics); }
    ListStep(m, MESSAGE, f, partition.next);
    var n := ReadInt(m, f, partition.next, 4, false);
    if n.Bad? { return Err(Panics); }
    var ms := DecodeMessages(m, f, n.next, n.value);
    if ms.None? { return Err(Panics); }
    var (messages, offset) := ms.value;
    var producerId, producerEpoch := 0, 0;
    if |b| - offset >= 8 {
      producerId := Optional(b, offset, 8, 0);
      producerEpoch := Optional(b, offset + 8, 2, 0);
    } else {
      TooShort(b, offset, 8, 0);
    }
    return Ok(Produce(topic.value.value, partition.value, messages, producerId, producerEpoch));
  }

  lemma TooShort(b: Data, pos: nat, w: nat, default: int)
    requires |b| - pos < w
    ensures Optional(b, pos, w, default) == default
  {
  }

  method DecodeFetch(b: Data, spare: Data) returns (r: Result<Request, DecodeError>)
    ensures r == DecodeCore(2, b, spare)
  {
    hide Parse, ReadData, ReadInt, Map, Optional, ToMessage;
    var m, f := Unchecked(|spare|), b + spare;
    PairStep(m, Text, Pair(U32, Pair(I64, U32)), f, 0);
    TextStep(m, f, 0);
    var topic := ReadData(m, f, 0, false);
    if topic.Bad? { return Err(Panics); }
    PairStep(m, U32, Pair(I64, U32), f, topic.next);
    IntStep(m, 4, false, f, topic.next);
    var partition := ReadInt(m, f, topic.next, 4, false);
    if partition.Bad? { return Err(Panics); }
    PairStep(m, I64, U32, f, partition.next);
    IntStep(m, 8, true, f, partition.next);
    var offset := ReadInt(m, f, partition.next, 8, true);
    if offset.Bad? { return Err(Panics); }
    IntStep(m, 4, false, f, offset.next);
    var maxBytes := ReadInt(m, f, offset.next, 4, false);
    if maxBytes.Bad? { return Err(Panics); }
    return Ok(Fetch(topic.value.value, partition.value, offset.value, maxBytes.value, Optional(b, maxBytes.next, 1, 0)));
  }

  method DecodeGetOffset(b: Data, spare: Data) returns (r: Result<Request, DecodeError>)
    ensures r == DecodeCore(3, b, spare)
  {
    hide Parse, ReadData, ReadInt, Map, Optional, ToMessage;
    var m, f := Unchecked(|spare|), b + spare;
    PairStep(m, Text, U32, f, 0);
    TextStep(m, f, 0);
    var topic := ReadData(m, f, 0, false);
    if topic.Bad? { return Err(Panics); }
    IntStep(m, 4, false, f, topic.next);
    var partition := ReadInt(m, f, topic.next, 4, false);
    if partition.Bad? { return Err(Panics); }
    return Ok(GetOffset(topic.value.value, partition.value));
  }

  method DecodeCreateTopic(b: Data, spare: Data) returns (r: Result<Request, DecodeError>)
    ensures r == DecodeCore(4, b, spare)
  {
    hide Parse, ReadData, ReadInt, Map, Optional, ToMessage;
    var m, f := Unchecked(|spare|), b + spare;
    PairStep(m, Text, Pair(U32, U16), f, 0);
    TextStep(m, f, 0);
    var topic := ReadData(m, f, 0, false);
    if topic.Bad? { return Err(Panics); }
    PairStep(m, U32, U16, f, topic.next);
    IntStep(m, 4, false, f, topic.next);
    var partitions := ReadInt(m, f, topic.next, 4, false);
    if partitions.Bad? { return Err(Panics); }
    IntStep(m, 2, false, f, partitions.next);
    var replication := ReadInt(m, f, partitions.next, 2, false);
    if replication.Bad? { return Err(Panics); }
    return Ok(CreateTopic(topic.value.value, partitions.value, replication.value));
  }

  method DecodeDeleteTopic(b: Data, spare: Data) returns (r: Result<Request, DecodeError>)
    ensures r == DecodeCore(5, b, spare)
  {
    hide Parse, ReadData, Map, Optional, ToMessage;
    var m, f := Unchecked(|spare|), b + spare;
    TextStep(m, f, 0);
    var topic := ReadData(m, f, 0, false);
    if topic.Bad? { return Err(Panics); }
    return Ok(DeleteTopic(topic.value.value));
  }

  method DecodeFetchResponse(b: Data, spare: Data) returns (r: Option<FetchResponse>)
    ensures r == DecodeFetched(b, spare)
  {
    hide Parse, ParseItems, ReadData, ReadInt, Map, Optional, ToMessage;
    var m, f := Unchecked(|spare|), b + spare;
    PairStep(m, I64, List(MESSAGE), f, 0);
    IntStep(m, 8, true, f, 0);
    var high := ReadInt(m, f, 0, 8, true);
    if high.Bad? { return None; }
    ListStep(m, MESSAGE, f, high.next);
    var n := ReadInt(m, f, high.next, 4, false);
    if n.Bad? { return None; }
    var ms := DecodeMessages(m, f, n.next, n.value);
    if ms.None? { return None; }
    var (messages, offset) := ms.value;
    var stable, next := high.value, -1;
    if |b| - offset >= 8 {
      stable := Optional(b, offset, 8, high.value);
      next := Optional(b, offset + 8, 8, -1);
    } else {
      TooShort(b, offset, 8, high.value);
    }
    return Some(FetchResponse(high.value, messages, stable, next));
  }

  /** Decodes a payload by type: what the format holds, the first error of a checked read, or a panic. */
  method DecodeRequestPayload(code: nat, b: Data, spare: Data) returns (r: Result<Request, DecodeError>)
    ensures r == DecodeBody(code, b, spare)
  {
    hide DecodeCore, PayloadOf;
    match KindFor(code) {
      case Some(k) =>
        var p := DecodeCoordination(k, b);
        match p {
          case Ok(payload) => return Ok(Coordination(payload));
          case Err(e) => return Err(Malformed(e));
        }
      case None =>
        match code {
          case 1 => r := DecodeProduce(b, spare);
          case 2 => r := DecodeFetch(b, spare);
          case 3 => r := DecodeGetOffset(b, spare);
          case 4 => r := DecodeCreateTopic(b, spare);
          case 5 => r := DecodeDeleteTopic(b, spare);
          case _ =>
            NoFields(code, b, spare);
            r := if code == 6 then Ok(ListTopics) else if code == 7 then Ok(HealthCheck) else Err(UnknownType);
        }
    }
  }

  lemma NoFields(code: nat, b: Data, spare: Data)
    requires code == 0 || code > 5
    ensures DecodeCore(code, b, spare) == if code == 6 then Ok(ListTopics) else if code == 7 then Ok(HealthCheck) else Err(UnknownType)
  {
    hide Parse, ToMessage, Map, Optional;
  }

  /** Reads a request frame off a stream: length, checksum, header and payload in turn. */
  method DecodeFrame(stream: Data, crc: Data -> nat) returns (r: Result<(Header, Request, Data), DecodeError>)
    ensures r == DecodeRequest(stream, crc)
  {
    hide DecodeBody, BigEndian, Number;
    if |stream| < 4 { return Err(Ended); }
    var length := Number(stream[..4]);
    if length > MAX_MESSAGE_SIZE { return Err(TooLarge); }
    if |stream| - 4 < length { return Err(Ended); }
    var buf := stream[4..4 + length];
    if length < 4 { return Err(NoRoomForChecksum); }
    var body, sum := buf[..length - 4], buf[length - 4..];
    assert body == stream[4..length] && sum == stream[length..length + 4];
    if sum != BigEndian(crc(body), 4) { return Err(Mismatch); }
    if |body| < 12 { return Err(Panics); }
    var h := Header(Number(body[..8]), body[9] as int, Number(body[10..12]));
    var payload := DecodeRequestPayload(body[8] as int, body[12..], sum);
    match payload {
      case Err(e) => return Err(e);
      case Ok(req) => return Ok((h, req, stream[length + 4..]));
    }
  }

  // ---------------------------------------------------------------------
  // Running into the checksum
  // ---------------------------------------------------------------------

  /** Requests that end with an integer panic exactly when the payload itself holds no such request. */
  lemma FixedRequestPanicsIff(code: nat, b: Data, spare: Data)
    requires 2 <= code <= 4
    ensures DecodeCore(code, b, spare) == Err(Panics) <==> Parse(Unchecked(0), BaseSchema(code), b, 0).Bad?
  {
    hide Parse, Map, ToMessage, Optional, NoBlob;
    CoreReadable();
    FixedSchemas();
    var s := BaseSchema(code);
    SpareOnlyAtTheEnd(s, b, spare, 0);
    var r := Parse(Unchecked(|spare|), s, b + spare, 0);
    if r.Got? { FixedEndsBefore(Unchecked(|spare|), s, b + spare, 0); }
  }

  lemma FixedSchemas()
    ensures EndsFixed(FETCH) && EndsFixed(GET_OFFSET) && EndsFixed(CREATE_TOPIC)
  {
    assert EndsFixed(Pair(I64, U32)) && EndsFixed(Pair(U32, Pair(I64, U32)));
  }

  /** A topic deletion panics exactly when its length is cut short or more than the payload and the bytes after it hold. */
  lemma DeleteTopicPanicsIff(b: Data, spare: Data)
    ensures DecodeCore(5, b, spare) == Err(Panics) <==> |b| < 4 || 4 + Number(b[..4]) > |b| + |spare|
  {
    hide Number, Pow;
    if |b| >= 4 { assert (b + spare)[0..4] == b[..4]; }
  }

  /** So a frame with nothing but the length of a topic is accepted: the topic deleted is the frame's checksum. */
  lemma ShortDeleteTopicAccepted(h: Header, crc: Data -> nat, rest: Data)
    requires HeaderInRange(h)
    ensures var body := BigEndian(4, 4);
            var sum := BigEndian(crc(Head(h, 5) + body), 4);
            && Parse(Unchecked(0), Text, body, 0).Bad?
            && DecodeRequest(Frame(Head(h, 5), body, crc) + rest, crc) == Ok((h, DeleteTopic(sum), rest))
  {
    hide BigEndian, Number, Pow, Frame, Head;
    var head, body := Head(h, 5), BigEndian(4, 4);
    var sum := BigEndian(crc(head + body), 4);
    FrameParts(head, body, crc, rest);
    HeadBack(h, 5);
    DeclaresFour();
    ShortTopic(body, sum);
    var d := head + body;
    assert d[..8] == head[..8] && d[8] == head[8] && d[9] == head[9] && d[10..12] == head[10..12] && d[12..] == body;
  }

  lemma DeclaresFour()
    ensures Number(BigEndian(4, 4)) == 4
  {
    Pow4();
    NumberOfBigEndian(4, 4);
  }

  lemma ShortTopic(b: Data, sum: Data)
    requires |b| == 4 && |sum| == 4 && Number(b) == 4
    ensures Parse(Unchecked(0), Text, b, 0).Bad? && DecodeBody(5, b, sum) == Ok(DeleteTopic(sum))
  {
    hide Number, Pow;
    Pow4();
    assert b[0..4] == b && (b + sum)[0..4] == b && (b + sum)[4..8] == sum;
  }

  /**
    * A produce request cut short inside its last header value is accepted too: the bytes after the payload make up the value. Here d
    * is the request's encoding, of which the last k bytes are not part of the payload.
    */
  lemma CutProduceAccepted(r: Request, orders: seq<seq<Data>>, k: nat)
    requires r.Produce? && WellFormed(r) && OrdersOf(r.messages, orders) && Fits(PRODUCE, Base(r, orders).1)
    requires |Enc(PRODUCE, Base(r, orders).1)| <= MAX_MESSAGE_SIZE && k <= LastText(PRODUCE, Base(r, orders).1)
    ensures var d := Enc(PRODUCE, Base(r, orders).1);
            k <= |d| && DecodeCore(1, d[..|d| - k], d[|d| - k..]) == Ok(r.(producerId := 0, producerEpoch := 0))
  {
    hide Parse, Enc, Fits, MessageList, OrdersOf, WellFormed, ToMessage, Map, Optional, NoBlob, LastText;
    var v := Base(r, orders).1;
    var d := Enc(PRODUCE, v);
    LastTextWithin(PRODUCE, v);
    var b, spare := d[..|d| - k], d[|d| - k..];
    assert b + spare == d && d[0..|d|] == d;
    CoreReadable();
    ParseIntoSpare(Unchecked(k), PRODUCE, v, d, 0);
    MessageListBack(r.messages, orders);
    TooShort(b, |d|, 8, 0);
  }

  /** And so is a fetch response. */
  lemma CutFetchResponseAccepted(f: FetchResponse, orders: seq<seq<Data>>, k: nat)
    requires FetchedInBounds(f) && OrdersOf(f.messages, orders) && Fits(FETCH_RESPONSE, FetchedValue(f, orders))
    requires |Enc(FETCH_RESPONSE, FetchedValue(f, orders))| <= MAX_MESSAGE_SIZE && k <= LastText(FETCH_RESPONSE, FetchedValue(f, orders))
    ensures var d := Enc(FETCH_RESPONSE, FetchedValue(f, orders));
            k <= |d| && DecodeFetched(d[..|d| - k], d[|d| - k..]) == Some(f.(lastStableOffset := f.highWaterMark, nextOffset := -1))
  {
    hide Parse, Enc, Fits, MessageList, OrdersOf, ToMessage, Map, Optional, NoBlob, LastText, FetchedInBounds;
    var v := FetchedValue(f, orders);
    var d := Enc(FETCH_RESPONSE, v);
    LastTextWithin(FETCH_RESPONSE, v);
    var b, spare := d[..|d| - k], d[|d| - k..];
    assert b + spare == d && d[0..|d|] == d;
    CoreReadable();
    ParseIntoSpare(Unchecked(k), FETCH_RESPONSE, v, d, 0);
    MessageListBack(f.messages, orders);
    TooShort(b, |d|, 8, f.highWaterMark);
  }
}

/** Which bytes the payloads are: every field by name, width and place, told without schemas. */
module Layouts {
  import opened Common
  import opened Bytes
  import opened Schemas
  import opened WireLaws
  import opened Payloads

  // ---------------------------------------------------------------------
  // Fields
  // ---------------------------------------------------------------------

  /** The w low bytes of an integer in two's complement, most significant first. */
  function Be(x: int, w: nat): Data { BigEndian(x % Pow(w), w) }

  /** A length: one beyond the message limit is written as zero. */
  function Count(n: nat): Data { BigEndian(if n > MAX_MESSAGE_SIZE then 0 else n, 4) }

  function Str(d: Data): Data { Count(|d|) + d }

  /** Nil is the length -1. */
  function OptBytes(d: Option<Data>): Data { if d.None? then Be(-1, 4) else Str(d.value) }

  function BoolByte(b: bool): Data { [if b then 1 as char else 0 as char] }

  ghost function Cat<A(!new)>(xs: seq<A>, lay: A -> Data, k: nat): Data
    requires k <= |xs|
  {
    if k == 0 then [] else Cat(xs, lay, k - 1) + lay(xs[k - 1])
  }

  ghost function Listed<A(!new)>(xs: seq<A>, lay: A -> Data): Data { Count(|xs|) + Cat(xs, lay, |xs|) }

  /** The byte at i is the digit of 256 to the power w - 1 - i. */
  lemma {:induction false} BigEndianByte(x: nat, w: nat, i: nat)
    requires i < w
    ensures BigEndian(x, w)[i] as int == (x / Pow(w - 1 - i)) % 256
  {
    if i == w - 1 {
      assert Pow(0) == 1;
    } else {
      BigEndianByte(x / 256, w - 1, i);
      DivTwice(x, Pow(w - 2 - i));
      assert Pow(w - 1 - i) == 256 * Pow(w - 2 - i);
    }
  }

  lemma DivTwice(x: nat, n: nat)
    requires n > 0
    ensures (x / 256) / n == x / (256 * n)
  {
    var q := (x / 256) / n;
    var r := (x / 256) % n;
    assert x == 256 * (n * q + r) + x % 256;
    assert x == (256 * n) * q + (256 * r + x % 256);
    UniqueRemainder(x, 256 * n, q, 256 * r + x % 256);
  }

  // ---------------------------------------------------------------------
  // The writers' fields are these
  // ---------------------------------------------------------------------

  lemma ModOnce(x: int, m: int)
    requires m > 0
    ensures 0 <= x < m ==> x % m == x
    ensures -m <= x < 0 ==> x % m == x + m
  {
    if -m <= x < 0 { assert x == m * (-1) + (x + m); }
  }

  lemma IntField(x: int, w: nat, signed: bool)
    requires Fits(Int(w, signed), I(x))
    ensures Enc(Int(w, signed), I(x)) == Be(x, w)
  {
    hide BigEndian, Pow;
    ModOnce(x, Pow(w));
  }

  lemma CountIs(n: nat)
    ensures LengthBytes(n) == Count(n)
  {
    hide BigEndian, Pow;
    LengthInRange(if n > MAX_MESSAGE_SIZE then 0 else n);
  }

  lemma TextField(d: Data)
    ensures Fits(Text, T(d)) && Enc(Text, T(d)) == Str(d)
  {
    hide LengthBytes;
    CountIs(|d|);
  }

  lemma BlobField(d: Option<Data>)
    ensures Fits(Blob, BlobV(d)) && Enc(Blob, BlobV(d)) == OptBytes(d)
  {
    hide LengthBytes, BigEndian, Pow;
    if d.Some? { CountIs(|d.value|); } else { NilIs(); }
  }

  lemma NilIs()
    ensures NilLength() == Be(-1, 4)
  {
    hide BigEndian, Pow;
    LengthInRange(0);
    ModOnce(-1, Pow(4));
  }

  lemma FlagField(b: bool)
    ensures Fits(Flag, FlagV(b)) && Enc(Flag, FlagV(b)) == BoolByte(b)
  {
  }

  lemma ThenText(d: Data, s: Schema, v: Value)
    requires Fits(Pair(Text, s), PairV(T(d), v))
    ensures Fits(s, v) && Enc(Pair(Text, s), PairV(T(d), v)) == Str(d) + Enc(s, v)
  {
    hide Str, LengthBytes;
    TextField(d);
  }

  lemma ThenInt(x: int, w: nat, signed: bool, s: Schema, v: Value)
    requires Fits(Pair(Int(w, signed), s), PairV(I(x), v))
    ensures Fits(s, v) && Enc(Pair(Int(w, signed), s), PairV(I(x), v)) == Be(x, w) + Enc(s, v)
  {
    hide Be, IntBytes, Pow;
    IntField(x, w, signed);
  }

  lemma {:induction false} CatIs<A(!new)>(e: Schema, f: A -> Value, lay: A -> Data, xs: seq<A>, k: nat)
    requires k <= |xs| && Fits(List(e), ListV(Map(f, xs)))
    requires forall x :: Fits(e, f(x)) ==> Enc(e, f(x)) == lay(x)
    ensures EncItems(e, Map(f, xs), k) == Cat(xs, lay, k)
  {
    hide Enc;
    if k > 0 { CatIs(e, f, lay, xs, k - 1); }
  }

  lemma ListField<A(!new)>(e: Schema, f: A -> Value, lay: A -> Data, xs: seq<A>)
    requires Fits(List(e), ListV(Map(f, xs)))
    requires forall x :: Fits(e, f(x)) ==> Enc(e, f(x)) == lay(x)
    ensures Enc(List(e), ListV(Map(f, xs))) == Listed(xs, lay)
  {
    hide Cat, LengthBytes, EncItems;
    CatIs(e, f, lay, xs, |xs|);
    CountIs(|xs|);
    EncOfList(e, Map(f, xs));
  }

  // ---------------------------------------------------------------------
  // List items
  // ---------------------------------------------------------------------

  ghost function NamedBytes(x: Named): Data { Str(x.name) + OptBytes(x.data) }

  ghost function CommitPartitionBytes(x: CommitPartition): Data { Be(x.partition, 4) + (Be(x.offset, 8) + Str(x.metadata)) }

  ghost function CommitBytes(x: CommitTopic): Data { Str(x.topic) + Listed(x.partitions, CommitPartitionBytes) }

  ghost function PartitionResultBytes(x: PartitionResult): Data { Be(x.partition, 4) + Be(x.code, 2) }

  ghost function ResultBytes(x: TopicResult): Data { Str(x.topic) + Listed(x.partitions, PartitionResultBytes) }

  ghost function NumberBytes(x: int): Data { Be(x, 4) }

  ghost function FetchBytes(x: FetchTopic): Data { Str(x.topic) + Listed(x.partitions, NumberBytes) }

  ghost function FetchPartitionBytes(x: FetchPartition): Data { Be(x.partition, 4) + (Be(x.offset, 8) + (Str(x.metadata) + Be(x.code, 2))) }

  ghost function FetchedBytes(x: FetchTopicResult): Data { Str(x.topic) + Listed(x.partitions, FetchPartitionBytes) }

  ghost function TxnBytes(x: TxnPartition): Data { Str(x.topic) + Be(x.partition, 4) }

  ghost function TxnResultBytes(x: TxnPartitionResult): Data { Str(x.topic) + (Be(x.partition, 4) + Be(x.code, 2)) }

  lemma NamedLayouts(xs: seq<Named>)
    requires Fits(List(Pair(Text, Blob)), ListV(Map(FromNamed, xs)))
    ensures Enc(List(Pair(Text, Blob)), ListV(Map(FromNamed, xs))) == Listed(xs, NamedBytes)
  {
    hide Enc, Fits, Str, OptBytes, Listed, Map;
    forall x: Named | Fits(Pair(Text, Blob), FromNamed(x)) ensures Enc(Pair(Text, Blob), FromNamed(x)) == NamedBytes(x) {
      ThenText(x.name, Blob, BlobV(x.data));
      BlobField(x.data);
    }
    ListField(Pair(Text, Blob), FromNamed, NamedBytes, xs);
  }

  lemma CommitPartitionLayouts(xs: seq<CommitPartition>)
    requires Fits(List(Pair(I32, Pair(I64, Text))), ListV(Map(FromCommit, xs)))
    ensures Enc(List(Pair(I32, Pair(I64, Text))), ListV(Map(FromCommit, xs))) == Listed(xs, CommitPartitionBytes)
  {
    hide Enc, Fits, Str, Be, Listed, Map;
    var e := Pair(I32, Pair(I64, Text));
    forall x: CommitPartition | Fits(e, FromCommit(x)) ensures Enc(e, FromCommit(x)) == CommitPartitionBytes(x) {
      ThenInt(x.partition, 4, true, Pair(I64, Text), PairV(I(x.offset), T(x.metadata)));
      ThenInt(x.offset, 8, true, Text, T(x.metadata));
      TextField(x.metadata);
    }
    ListField(e, FromCommit, CommitPartitionBytes, xs);
  }

  lemma CommitLayouts(xs: seq<CommitTopic>)
    requires Fits(COMMITS, ListV(Map(FromCommits, xs)))
    ensures Enc(COMMITS, ListV(Map(FromCommits, xs))) == Listed(xs, CommitBytes)
  {
    hide Enc, Fits, Str, Be, Listed, Map;
    var e := Pair(Text, List(Pair(I32, Pair(I64, Text))));
    forall x: CommitTopic | Fits(e, FromCommits(x)) ensures Enc(e, FromCommits(x)) == CommitBytes(x) {
      ThenText(x.topic, e.second, ListV(Map(FromCommit, x.partitions)));
      CommitPartitionLayouts(x.partitions);
    }
    ListField(e, FromCommits, CommitBytes, xs);
  }

  lemma PartitionResultLayouts(xs: seq<PartitionResult>)
    requires Fits(List(Pair(I32, U16)), ListV(Map(FromResult, xs)))
    ensures Enc(List(Pair(I32, U16)), ListV(Map(FromResult, xs))) == Listed(xs, PartitionResultBytes)
  {
    hide Enc, Fits, Str, Be, Listed, Map;
    var e := Pair(I32, U16);
    forall x: PartitionResult | Fits(e, FromResult(x)) ensures Enc(e, FromResult(x)) == PartitionResultBytes(x) {
      ThenInt(x.partition, 4, true, U16, I(x.code));
      IntField(x.code, 2, false);
    }
    ListField(e, FromResult, PartitionResultBytes, xs);
  }

  lemma ResultLayouts(xs: seq<TopicResult>)
    requires Fits(RESULTS, ListV(Map(FromResults, xs)))
    ensures Enc(RESULTS, ListV(Map(FromResults, xs))) == Listed(xs, ResultBytes)
  {
    hide Enc, Fits, Str, Be, Listed, Map;
    var e := Pair(Text, List(Pair(I32, U16)));
    forall x: TopicResult | Fits(e, FromResults(x)) ensures Enc(e, FromResults(x)) == ResultBytes(x) {
      ThenText(x.topic, e.second, ListV(Map(FromResult, x.partitions)));
      PartitionResultLayouts(x.partitions);
    }
    ListField(e, FromResults, ResultBytes, xs);
  }

  lemma NumberLayouts(xs: seq<int>)
    requires Fits(List(I32), ListV(Map(I, xs)))
    ensures Enc(List(I32), ListV(Map(I, xs))) == Listed(xs, NumberBytes)
  {
    hide Enc, Fits, Be, Listed, Map;
    forall x: int | Fits(I32, I(x)) ensures Enc(I32, I(x)) == NumberBytes(x) { IntField(x, 4, true); }
    ListField(I32, I, NumberBytes, xs);
  }

  lemma FetchLayouts(xs: seq<FetchTopic>)
    requires Fits(FETCHES, ListV(Map(FromFetch, xs)))
    ensures Enc(FETCHES, ListV(Map(FromFetch, xs))) == Listed(xs, FetchBytes)
  {
    hide Enc, Fits, Str, Be, Listed, Map;
    var e := Pair(Text, List(I32));
    forall x: FetchTopic | Fits(e, FromFetch(x)) ensures Enc(e, FromFetch(x)) == FetchBytes(x) {
      ThenText(x.topic, e.second, ListV(Map(I, x.partitions)));
      NumberLayouts(x.partitions);
    }
    ListField(e, FromFetch, FetchBytes, xs);
  }

  lemma FetchPartitionLayouts(xs: seq<FetchPartition>)
    requires Fits(List(Pair(I32, Pair(I64, Pair(Text, U16)))), ListV(Map(FromFetchedPartition, xs)))
    ensures Enc(List(Pair(I32, Pair(I64, Pair(Text, U16)))), ListV(Map(FromFetchedPartition, xs))) == Listed(xs, FetchPartitionBytes)
  {
    hide Enc, Fits, Str, Be, Listed, Map;
    var e := Pair(I32, Pair(I64, Pair(Text, U16)));
    forall x: FetchPartition | Fits(e, FromFetchedPartition(x)) ensures Enc(e, FromFetchedPartition(x)) == FetchPartitionBytes(x) {
      ThenInt(x.partition, 4, true, Pair(I64, Pair(Text, U16)), PairV(I(x.offset), PairV(T(x.metadata), I(x.code))));
      ThenInt(x.offset, 8, true, Pair(Text, U16), PairV(T(x.metadata), I(x.code)));
      ThenText(x.metadata, U16, I(x.code));
      IntField(x.code, 2, false);
    }
    ListField(e, FromFetchedPartition, FetchPartitionBytes, xs);
  }

  lemma FetchedLayouts(xs: seq<FetchTopicResult>)
    requires Fits(FETCHED, ListV(Map(FromFetched, xs)))
    ensures Enc(FETCHED, ListV(Map(FromFetched, xs))) == Listed(xs, FetchedBytes)
  {
    hide Enc, Fits, Str, Be, Listed, Map;
    var e := Pair(Text, List(Pair(I32, Pair(I64, Pair(Text, U16)))));
    forall x: FetchTopicResult | Fits(e, FromFetched(x)) ensures Enc(e, FromFetched(x)) == FetchedBytes(x) {
      ThenText(x.topic, e.second, ListV(Map(FromFetchedPartition, x.partitions)));
      FetchPartitionLayouts(x.partitions);
    }
    ListField(e, FromFetched, FetchedBytes, xs);
  }

  lemma TxnLayouts(xs: seq<TxnPartition>)
    requires Fits(List(Pair(Text, I32)), ListV(Map(FromTxnPartition, xs)))
    ensures Enc(List(Pair(Text, I32)), ListV(Map(FromTxnPartition, xs))) == Listed(xs, TxnBytes)
  {
    hide Enc, Fits, Str, Be, Listed, Map;
    var e := Pair(Text, I32);
    forall x: TxnPartition | Fits(e, FromTxnPartition(x)) ensures Enc(e, FromTxnPartition(x)) == TxnBytes(x) {
      ThenText(x.topic, I32, I(x.partition));
      IntField(x.partition, 4, true);
    }
    ListField(e, FromTxnPartition, TxnBytes, xs);
  }

  lemma TxnResultLayouts(xs: seq<TxnPartitionResult>)
    requires Fits(List(Pair(Text, Pair(I32, U16))), ListV(Map(FromTxnResult, xs)))
    ensures Enc(List(Pair(Text, Pair(I32, U16))), ListV(Map(FromTxnResult, xs))) == Listed(xs, TxnResultBytes)
  {
    hide Enc, Fits, Str, Be, Listed, Map;
    var e := Pair(Text, Pair(I32, U16));
    forall x: TxnPartitionResult | Fits(e, FromTxnResult(x)) ensures Enc(e, FromTxnResult(x)) == TxnResultBytes(x) {
      ThenText(x.topic, Pair(I32, U16), PairV(I(x.partition), I(x.code)));
      ThenInt(x.partition, 4, true, U16, I(x.code));
      IntField(x.code, 2, false);
    }
    ListField(e, FromTxnResult, TxnResultBytes, xs);
  }

  // ---------------------------------------------------------------------
  // Payloads
  // ---------------------------------------------------------------------

  /** The bytes of every payload: its fields in order, each with its width. */
  ghost function Layout(p: Payload): Data {
    match p
    case JoinGroupRequest(groupId, memberId, clientId, protocolType, sessionTimeoutMs, rebalanceTimeoutMs, protocols) =>
      Str(groupId) + (Str(memberId) + (Str(clientId) + (Str(protocolType) + (Be(sessionTimeoutMs, 4) + (Be(rebalanceTimeoutMs, 4) + Listed(protocols, NamedBytes))))))
    case JoinGroupResponse(code, generationId, protocolName, memberId, leaderId, members) =>
      Be(code, 2) + (Be(generationId, 4) + (Str(protocolName) + (Str(memberId) + (Str(leaderId) + Listed(members, NamedBytes)))))
    case SyncGroupRequest(groupId, generationId, memberId, assignments) =>
      Str(groupId) + (Be(generationId, 4) + (Str(memberId) + Listed(assignments, NamedBytes)))
    case SyncGroupResponse(code, assignment) =>
      Be(code, 2) + OptBytes(assignment)
    case HeartbeatRequest(groupId, generationId, memberId) =>
      Str(groupId) + (Be(generationId, 4) + Str(memberId))
    case HeartbeatResponse(code) =>
      Be(code, 2)
    case LeaveGroupRequest(groupId, memberId) =>
      Str(groupId) + Str(memberId)
    case LeaveGroupResponse(code) =>
      Be(code, 2)
    case OffsetCommitRequest(groupId, generationId, memberId, commits) =>
      Str(groupId) + (Be(generationId, 4) + (Str(memberId) + Listed(commits, CommitBytes)))
    case OffsetCommitResponse(results) =>
      Listed(results, ResultBytes)
    case OffsetFetchRequest(groupId, fetches) =>
      Str(groupId) + Listed(fetches, FetchBytes)
    case OffsetFetchResponse(fetched) =>
      Listed(fetched, FetchedBytes)
    case InitProducerIDRequest(transactionId, timeoutMs) =>
      Str(transactionId) + Be(timeoutMs, 4)
    case InitProducerIDResponse(producerId, producerEpoch, code) =>
      Be(producerId, 8) + (Be(producerEpoch, 2) + Be(code, 2))
    case AddPartitionsToTxnRequest(transactionId, producerId, producerEpoch, partitions) =>
      Str(transactionId) + (Be(producerId, 8) + (Be(producerEpoch, 2) + Listed(partitions, TxnBytes)))
    case AddPartitionsToTxnResponse(outcomes) =>
      Listed(outcomes, TxnResultBytes)
    case AddOffsetsToTxnRequest(transactionId, producerId, producerEpoch, groupId) =>
      Str(transactionId) + (Be(producerId, 8) + (Be(producerEpoch, 2) + Str(groupId)))
    case AddOffsetsToTxnResponse(code) =>
      Be(code, 2)
    case EndTxnRequest(transactionId, producerId, producerEpoch, commit) =>
      Str(transactionId) + (Be(producerId, 8) + (Be(producerEpoch, 2) + BoolByte(commit)))
    case EndTxnResponse(code) =>
      Be(code, 2)
    case TxnOffsetCommitRequest(transactionId, groupId, producerId, producerEpoch, commits) =>
      Str(transactionId) + (Str(groupId) + (Be(producerId, 8) + (Be(producerEpoch, 2) + Listed(commits, CommitBytes))))
    case TxnOffsetCommitResponse(results) =>
      Listed(results, ResultBytes)
    case FindCoordinatorRequest(key, keyType) =>
      Str(key) + Be(keyType, 1)
    case FindCoordinatorResponse(code, nodeId, host, port) =>
      Be(code, 2) + (Be(nodeId, 4) + (Str(host) + Be(port, 4)))
  }

  lemma JoinGroupRequestLayout(p: Payload)
    requires p.JoinGroupRequest? && WellTyped(p)
    ensures PayloadBytes(p) == Layout(p)
  {
    hide Enc, Fits, Str, Be, OptBytes, Listed, Map;
    var s6, v6 := List(Pair(Text, Blob)), ListV(Map(FromNamed, p.protocols));
    var s5, v5 := Pair(Int(4, true), s6), PairV(I(p.rebalanceTimeoutMs), v6);
    var s4, v4 := Pair(Int(4, true), s5), PairV(I(p.sessionTimeoutMs), v5);
    var s3, v3 := Pair(Text, s4), PairV(T(p.protocolType), v4);
    var s2, v2 := Pair(Text, s3), PairV(T(p.clientId), v3);
    var s1, v1 := Pair(Text, s2), PairV(T(p.memberId), v2);
    ThenText(p.groupId, s1, v1);
    ThenText(p.memberId, s2, v2);
    ThenText(p.clientId, s3, v3);
    ThenText(p.protocolType, s4, v4);
    ThenInt(p.sessionTimeoutMs, 4, true, s5, v5);
    ThenInt(p.rebalanceTimeoutMs, 4, true, s6, v6);
    NamedLayouts(p.protocols);
  }

  lemma JoinGroupResponseLayout(p: Payload)
    requires p.JoinGroupResponse? && WellTyped(p)
    ensures PayloadBytes(p) == Layout(p)
  {
    hide Enc, Fits, Str, Be, OptBytes, Listed, Map;
    var s5, v5 := List(Pair(Text, Blob)), ListV(Map(FromNamed, p.members));
    var s4, v4 := Pair(Text, s5), PairV(T(p.leaderId), v5);
    var s3, v3 := Pair(Text, s4), PairV(T(p.memberId), v4);
    var s2, v2 := Pair(Text, s3), PairV(T(p.protocolName), v3);
    var s1, v1 := Pair(Int(4, true), s2), PairV(I(p.generationId), v2);
    ThenInt(p.code, 2, false, s1, v1);
    ThenInt(p.generationId, 4, true, s2, v2);
    ThenText(p.protocolName, s3, v3);
    ThenText(p.memberId, s4, v4);
    ThenText(p.leaderId, s5, v5);
    NamedLayouts(p.members);
  }

  lemma SyncGroupRequestLayout(p: Payload)
    requires p.SyncGroupRequest? && WellTyped(p)
    ensures PayloadBytes(p) == Layout(p)
  {
    hide Enc, Fits, Str, Be, OptBytes, Listed, Map;
    var s3, v3 := List(Pair(Text, Blob)), ListV(Map(FromNamed, p.assignments));
    var s2, v2 := Pair(Text, s3), PairV(T(p.memberId), v3);
    var s1, v1 := Pair(Int(4, true), s2), PairV(I(p.generationId), v2);
    ThenText(p.groupId, s1, v1);
    ThenInt(p.generationId, 4, true, s2, v2);
    ThenText(p.memberId, s3, v3);
    NamedLayouts(p.assignments);
  }

  lemma SyncGroupResponseLayout(p: Payload)
    requires p.SyncGroupResponse? && WellTyped(p)
    ensures PayloadBytes(p) == Layout(p)
  {
    hide Enc, Fits, Str, Be, OptBytes, Listed, Map;
    var s1, v1 := Blob, BlobV(p.assignment);
    ThenInt(p.code, 2, false, s1, v1);
    BlobField(p.assignment);
  }

  lemma HeartbeatRequestLayout(p: Payload)
    requires p.HeartbeatRequest? && WellTyped(p)
    ensures PayloadBytes(p) == Layout(p)
  {
    hide Enc, Fits, Str, Be, OptBytes, Listed, Map;
    var s2, v2 := Text, T(p.memberId);
    var s1, v1 := Pair(Int(4, true), s2), PairV(I(p.generationId), v2);
    ThenText(p.groupId, s1, v1);
    ThenInt(p.generationId, 4, true, s2, v2);
    TextField(p.memberId);
  }

  lemma LeaveGroupRequestLayout(p: Payload)
    requires p.LeaveGroupRequest? && WellTyped(p)
    ensures PayloadBytes(p) == Layout(p)
  {
    hide Enc, Fits, Str, Be, OptBytes, Listed, Map;
    var s1, v1 := Text, T(p.memberId);
    ThenText(p.groupId, s1, v1);
    TextField(p.memberId);
  }

  lemma OffsetCommitRequestLayout(p: Payload)
    requires p.OffsetCommitRequest? && WellTyped(p)
    ensures PayloadBytes(p) == Layout(p)
  {
    hide Enc, Fits, Str, Be, OptBytes, Listed, Map;
    var s3, v3 := List(Pair(Text, List(Pair(I32, Pair(I64, Text))))), ListV(Map(FromCommits, p.commits));
    var s2, v2 := Pair(Text, s3), PairV(T(p.memberId), v3);
    var s1, v1 := Pair(Int(4, true), s2), PairV(I(p.generationId), v2);
    ThenText(p.groupId, s1, v1);
    ThenInt(p.generationId, 4, true, s2, v2);
    ThenText(p.memberId, s3, v3);
    CommitLayouts(p.commits);
  }

  lemma OffsetCommitResponseLayout(p: Payload)
    requires p.OffsetCommitResponse? && WellTyped(p)
    ensures PayloadBytes(p) == Layout(p)
  {
    hide Enc, Fits, Str, Be, OptBytes, Listed, Map;
    ResultLayouts(p.results);
  }

  lemma OffsetFetchRequestLayout(p: Payload)
    requires p.OffsetFetchRequest? && WellTyped(p)
    ensures PayloadBytes(p) == Layout(p)
  {
    hide Enc, Fits, Str, Be, OptBytes, Listed, Map;
    var s1, v1 := List(Pair(Text, List(I32))), ListV(Map(FromFetch, p.fetches));
    ThenText(p.groupId, s1, v1);
    FetchLayouts(p.fetches);
  }

  lemma OffsetFetchResponseLayout(p: Payload)
    requires p.OffsetFetchResponse? && WellTyped(p)
    ensures PayloadBytes(p) == Layout(p)
  {
    hide Enc, Fits, Str, Be, OptBytes, Listed, Map;
    FetchedLayouts(p.fetched);
  }

  lemma InitProducerIDRequestLayout(p: Payload)
    requires p.InitProducerIDRequest? && WellTyped(p)
    ensures PayloadBytes(p) == Layout(p)
  {
    hide Enc, Fits, Str, Be, OptBytes, Listed, Map;
    var s1, v1 := Int(4, true), I(p.timeoutMs);
    ThenText(p.transactionId, s1, v1);
    IntField(p.timeoutMs, 4, true);
  }

  lemma InitProducerIDResponseLayout(p: Payload)
    requires p.InitProducerIDResponse? && WellTyped(p)
    ensures PayloadBytes(p) == Layout(p)
  {
    hide Enc, Fits, Str, Be, OptBytes, Listed, Map;
    var s2, v2 := Int(2, false), I(p.code);
    var s1, v1 := Pair(Int(2, true), s2), PairV(I(p.producerEpoch), v2);
    ThenInt(p.producerId, 8, true, s1, v1);
    ThenInt(p.producerEpoch, 2, true, s2, v2);
    IntField(p.code, 2, false);
  }

  lemma AddPartitionsToTxnRequestLayout(p: Payload)
    requires p.AddPartitionsToTxnRequest? && WellTyped(p)
    ensures PayloadBytes(p) == Layout(p)
  {
    hide Enc, Fits, Str, Be, OptBytes, Listed, Map;
    var s3, v3 := List(Pair(Text, I32)), ListV(Map(FromTxnPartition, p.partitions));
    var s2, v2 := Pair(Int(2, true), s3), PairV(I(p.producerEpoch), v3);
    var s1, v1 := Pair(Int(8, true), s2), PairV(I(p.producerId), v2);
    ThenText(p.transactionId, s1, v1);
    ThenInt(p.producerId, 8, true, s2, v2);
    ThenInt(p.producerEpoch, 2, true, s3, v3);
    TxnLayouts(p.partitions);
  }

  lemma AddPartitionsToTxnResponseLayout(p: Payload)
    requires p.AddPartitionsToTxnResponse? && WellTyped(p)
    ensures PayloadBytes(p) == Layout(p)
  {
    hide Enc, Fits, Str, Be, OptBytes, Listed, Map;
    TxnResultLayouts(p.outcomes);
  }

  lemma AddOffsetsToTxnRequestLayout(p: Payload)
    requires p.AddOffsetsToTxnRequest? && WellTyped(p)
    ensures PayloadBytes(p) == Layout(p)
  {
    hide Enc, Fits, Str, Be, OptBytes, Listed, Map;
    var s3, v3 := Text, T(p.groupId);
    var s2, v2 := Pair(Int(2, true), s3), PairV(I(p.producerEpoch), v3);
    var s1, v1 := Pair(Int(8, true), s2), PairV(I(p.producerId), v2);
    ThenText(p.transactionId, s1, v1);
    ThenInt(p.producerId, 8, true, s2, v2);
    ThenInt(p.producerEpoch, 2, true, s3, v3);
    TextField(p.groupId);
  }

  lemma EndTxnRequestLayout(p: Payload)
    requires p.EndTxnRequest? && WellTyped(p)
    ensures PayloadBytes(p) == Layout(p)
  {
    hide Enc, Fits, Str, Be, OptBytes, Listed, Map;
    var s3, v3 := Flag, FlagV(p.commit);
    var s2, v2 := Pair(Int(2, true), s3), PairV(I(p.producerEpoch), v3);
    var s1, v1 := Pair(Int(8, true), s2), PairV(I(p.producerId), v2);
    ThenText(p.transactionId, s1, v1);
    ThenInt(p.producerId, 8, true, s2, v2);
    ThenInt(p.producerEpoch, 2, true, s3, v3);
    FlagField(p.commit);
  }

  lemma TxnOffsetCommitRequestLayout(p: Payload)
    requires p.TxnOffsetCommitRequest? && WellTyped(p)
    ensures PayloadBytes(p) == Layout(p)
  {
    hide Enc, Fits, Str, Be, OptBytes, Listed, Map;
    var s4, v4 := List(Pair(Text, List(Pair(I32, Pair(I64, Text))))), ListV(Map(FromCommits, p.commits));
    var s3, v3 := Pair(Int(2, true), s4), PairV(I(p.producerEpoch), v4);
    var s2, v2 := Pair(Int(8, true), s3), PairV(I(p.producerId), v3);
    var s1, v1 := Pair(Text, s2), PairV(T(p.groupId), v2);
    ThenText(p.transactionId, s1, v1);
    ThenText(p.groupId, s2, v2);
    ThenInt(p.producerId, 8, true, s3, v3);
    ThenInt(p.producerEpoch, 2, true, s4, v4);
    CommitLayouts(p.commits);
  }

  lemma TxnOffsetCommitResponseLayout(p: Payload)
    requires p.TxnOffsetCommitResponse? && WellTyped(p)
    ensures PayloadBytes(p) == Layout(p)
  {
    hide Enc, Fits, Str, Be, OptBytes, Listed, Map;
    ResultLayouts(p.results);
  }

  lemma FindCoordinatorRequestLayout(p: Payload)
    requires p.FindCoordinatorRequest? && WellTyped(p)
    ensures PayloadBytes(p) == Layout(p)
  {
    hide Enc, Fits, Str, Be, OptBytes, Listed, Map;
    var s1, v1 := Int(1, true), I(p.keyType);
    ThenText(p.key, s1, v1);
    IntField(p.keyType, 1, true);
  }

  lemma FindCoordinatorResponseLayout(p: Payload)
    requires p.FindCoordinatorResponse? && WellTyped(p)
    ensures PayloadBytes(p) == Layout(p)
  {
    hide Enc, Fits, Str, Be, OptBytes, Listed, Map;
    var s3, v3 := Int(4, true), I(p.port);
    var s2, v2 := Pair(Text, s3), PairV(T(p.host), v3);
    var s1, v1 := Pair(Int(4, true), s2), PairV(I(p.nodeId), v2);
    ThenInt(p.code, 2, false, s1, v1);
    ThenInt(p.nodeId, 4, true, s2, v2);
    ThenText(p.host, s3, v3);
    IntField(p.port, 4, true);
  }

  lemma CodeLayout(p: Payload)
    requires OneField(p) && WellTyped(p)
    ensures PayloadBytes(p) == Layout(p)
  {
    hide Be, IntBytes, Pow;
    IntField(p.code, 2, false);
  }

  /** Every payload is written as its layout. */
  lemma PayloadLayout(p: Payload)
    requires WellTyped(p)
    ensures PayloadBytes(p) == Layout(p)
  {
    hide Layout, PayloadBytes, WellTyped;
    if OneField(p) { CodeLayout(p); }
    else if p.JoinGroupRequest? { JoinGroupRequestLayout(p); }
    else if p.JoinGroupResponse? { JoinGroupResponseLayout(p); }
    else if p.SyncGroupRequest? { SyncGroupRequestLayout(p); }
    else if p.SyncGroupResponse? { SyncGroupResponseLayout(p); }
    else if p.HeartbeatRequest? { HeartbeatRequestLayout(p); }
    else if p.LeaveGroupRequest? { LeaveGroupRequestLayout(p); }
    else if p.OffsetCommitRequest? { OffsetCommitRequestLayout(p); }
    else if p.OffsetCommitResponse? { OffsetCommitResponseLayout(p); }
    else if p.OffsetFetchRequest? { OffsetFetchRequestLayout(p); }
    else if p.OffsetFetchResponse? { OffsetFetchResponseLayout(p); }
    else if p.InitProducerIDRequest? { InitProducerIDRequestLayout(p); }
    else if p.InitProducerIDResponse? { InitProducerIDResponseLayout(p); }
    else if p.AddPartitionsToTxnRequest? { AddPartitionsToTxnRequestLayout(p); }
    else if p.AddPartitionsToTxnResponse? { AddPartitionsToTxnResponseLayout(p); }
    else if p.AddOffsetsToTxnRequest? { AddOffsetsToTxnRequestLayout(p); }
    else if p.EndTxnRequest? { EndTxnRequestLayout(p); }
    else if p.TxnOffsetCommitRequest? { TxnOffsetCommitRequestLayout(p); }
    else if p.TxnOffsetCommitResponse? { TxnOffsetCommitResponseLayout(p); }
    else if p.FindCoordinatorRequest? { FindCoordinatorRequestLayout(p); }
    else if p.FindCoordinatorResponse? { FindCoordinatorResponseLayout(p); }
  }
}

/** The coordination and transaction payloads (pkg/protocol/coordination.go, transaction.go, find_coordinator.go). */
module Payloads {
  import opened Common
  import opened Bytes
  import opened Schemas
  import opened WireLaws
  import opened Wire

  /** A name with optional bytes: a group protocol, a joined member, a member's assignment. */
  datatype Named = Named(name: Data, data: Option<Data>)

  datatype CommitPartition = CommitPartition(partition: int, offset: int, metadata: Data)

  datatype CommitTopic = CommitTopic(topic: Data, partitions: seq<CommitPartition>)

  datatype PartitionResult = PartitionResult(partition: int, code: int)

  datatype TopicResult = TopicResult(topic: Data, partitions: seq<PartitionResult>)

  datatype FetchTopic = FetchTopic(topic: Data, partitions: seq<int>)

  datatype FetchPartition = FetchPartition(partition: int, offset: int, metadata: Data, code: int)

  datatype FetchTopicResult = FetchTopicResult(topic: Data, partitions: seq<FetchPartition>)

  datatype TxnPartition = TxnPartition(topic: Data, partition: int)

  datatype TxnPartitionResult = TxnPartitionResult(topic: Data, partition: int, code: int)

  datatype Payload =
    | JoinGroupRequest(groupId: Data, memberId: Data, clientId: Data, protocolType: Data,
                       sessionTimeoutMs: int, rebalanceTimeoutMs: int, protocols: seq<Named>)
    | JoinGroupResponse(code: int, generationId: int, protocolName: Data, memberId: Data, leaderId: Data, members: seq<Named>)
    | SyncGroupRequest(groupId: Data, generationId: int, memberId: Data, assignments: seq<Named>)
    | SyncGroupResponse(code: int, assignment: Option<Data>)
    | HeartbeatRequest(groupId: Data, generationId: int, memberId: Data)
    | HeartbeatResponse(code: int)
    | LeaveGroupRequest(groupId: Data, memberId: Data)
    | LeaveGroupResponse(code: int)
    | OffsetCommitRequest(groupId: Data, generationId: int, memberId: Data, commits: seq<CommitTopic>)
    | OffsetCommitResponse(results: seq<TopicResult>)
    | OffsetFetchRequest(groupId: Data, fetches: seq<FetchTopic>)
    | OffsetFetchResponse(fetched: seq<FetchTopicResult>)
    | InitProducerIDRequest(transactionId: Data, timeoutMs: int)
    | InitProducerIDResponse(producerId: int, producerEpoch: int, code: int)
    | AddPartitionsToTxnRequest(transactionId: Data, producerId: int, producerEpoch: int, partitions: seq<TxnPartition>)
    | AddPartitionsToTxnResponse(outcomes: seq<TxnPartitionResult>)
    | AddOffsetsToTxnRequest(transactionId: Data, producerId: int, producerEpoch: int, groupId: Data)
    | AddOffsetsToTxnResponse(code: int)
    | EndTxnRequest(transactionId: Data, producerId: int, producerEpoch: int, commit: bool)
    | EndTxnResponse(code: int)
    | TxnOffsetCommitRequest(transactionId: Data, groupId: Data, producerId: int, producerEpoch: int, commits: seq<CommitTopic>)
    | TxnOffsetCommitResponse(results: seq<TopicResult>)
    | FindCoordinatorRequest(key: Data, keyType: int)
    | FindCoordinatorResponse(code: int, nodeId: int, host: Data, port: int)

  datatype Kind =
    | JoinGroupReq | JoinGroupResp | SyncGroupReq | SyncGroupResp | HeartbeatReq | HeartbeatResp | LeaveGroupReq | LeaveGroupResp
    | OffsetCommitReq | OffsetCommitResp | OffsetFetchReq | OffsetFetchResp | InitProducerIDReq | InitProducerIDResp
    | AddPartitionsReq | AddPartitionsResp | AddOffsetsReq | AddOffsetsResp | EndTxnReq | EndTxnResp
    | TxnOffsetCommitReq | TxnOffsetCommitResp | FindCoordinatorReq | FindCoordinatorResp

  function KindOf(p: Payload): Kind {
    match p
    case JoinGroupRequest(_, _, _, _, _, _, _) => JoinGroupReq
    case JoinGroupResponse(_, _, _, _, _, _) => JoinGroupResp
    case SyncGroupRequest(_, _, _, _) => SyncGroupReq
    case SyncGroupResponse(_, _) => SyncGroupResp
    case HeartbeatRequest(_, _, _) => HeartbeatReq
    case HeartbeatResponse(_) => HeartbeatResp
    case LeaveGroupRequest(_, _) => LeaveGroupReq
    case LeaveGroupResponse(_) => LeaveGroupResp
    case OffsetCommitRequest(_, _, _, _) => OffsetCommitReq
    case OffsetCommitResponse(_) => OffsetCommitResp
    case OffsetFetchRequest(_, _) => OffsetFetchReq
    case OffsetFetchResponse(_) => OffsetFetchResp
    case InitProducerIDRequest(_, _) => InitProducerIDReq
    case InitProducerIDResponse(_, _, _) => InitProducerIDResp
    case AddPartitionsToTxnRequest(_, _, _, _) => AddPartitionsReq
    case AddPartitionsToTxnResponse(_) => AddPartitionsResp
    case AddOffsetsToTxnRequest(_, _, _, _) => AddOffsetsReq
    case AddOffsetsToTxnResponse(_) => AddOffsetsResp
    case EndTxnRequest(_, _, _, _) => EndTxnReq
    case EndTxnResponse(_) => EndTxnResp
    case TxnOffsetCommitRequest(_, _, _, _, _) => TxnOffsetCommitReq
    case TxnOffsetCommitResponse(_) => TxnOffsetCommitResp
    case FindCoordinatorRequest(_, _) => FindCoordinatorReq
    case FindCoordinatorResponse(_, _, _, _) => FindCoordinatorResp
  }

  const I8 := Int(1, true)
  const I16 := Int(2, true)
  const U16 := Int(2, false)
  const I32 := Int(4, true)
  const I64 := Int(8, true)
  const NAMED := List(Pair(Text, Blob))
  const COMMITS := List(Pair(Text, List(Pair(I32, Pair(I64, Text)))))
  const RESULTS := List(Pair(Text, List(Pair(I32, U16))))
  const FETCHES := List(Pair(Text, List(I32)))
  const FETCHED := List(Pair(Text, List(Pair(I32, Pair(I64, Pair(Text, U16))))))

  /** The wire types of each payload's fields. */
  function SchemaOf(k: Kind): Schema {
    match k
    case JoinGroupReq => Pair(Text, Pair(Text, Pair(Text, Pair(Text, Pair(I32, Pair(I32, NAMED))))))
    case JoinGroupResp => Pair(U16, Pair(I32, Pair(Text, Pair(Text, Pair(Text, NAMED)))))
    case SyncGroupReq => Pair(Text, Pair(I32, Pair(Text, NAMED)))
    case SyncGroupResp => Pair(U16, Blob)
    case HeartbeatReq => Pair(Text, Pair(I32, Text))
    case HeartbeatResp => U16
    case LeaveGroupReq => Pair(Text, Text)
    case LeaveGroupResp => U16
    case OffsetCommitReq => Pair(Text, Pair(I32, Pair(Text, COMMITS)))
    case OffsetCommitResp => RESULTS
    case OffsetFetchReq => Pair(Text, FETCHES)
    case OffsetFetchResp => FETCHED
    case InitProducerIDReq => Pair(Text, I32)
    case InitProducerIDResp => Pair(I64, Pair(I16, U16))
    case AddPartitionsReq => Pair(Text, Pair(I64, Pair(I16, List(Pair(Text, I32)))))
    case AddPartitionsResp => List(Pair(Text, Pair(I32, U16)))
    case AddOffsetsReq => Pair(Text, Pair(I64, Pair(I16, Text)))
    case AddOffsetsResp => U16
    case EndTxnReq => Pair(Text, Pair(I64, Pair(I16, Flag)))
    case EndTxnResp => U16
    case TxnOffsetCommitReq => Pair(Text, Pair(Text, Pair(I64, Pair(I16, COMMITS))))
    case TxnOffsetCommitResp => RESULTS
    case FindCoordinatorReq => Pair(Text, I8)
    case FindCoordinatorResp => Pair(U16, Pair(I32, Pair(Text, I32)))
  }

  function Map<A, B>(f: A -> B, xs: seq<A>): (r: seq<B>)
    ensures |r| == |xs| && forall i :: 0 <= i < |xs| ==> r[i] == f(xs[i])
  {
    seq(|xs|, i requires 0 <= i < |xs| => f(xs[i]))
  }

  // ---------------------------------------------------------------------
  // Writing: the fields in the order the encode methods write them
  // ---------------------------------------------------------------------

  function T(d: Data): Value { TextV(d) }

  function I(i: int): Value { IntV(i) }

  function FromNamed(x: Named): Value { PairV(T(x.name), BlobV(x.data)) }

  function FromCommit(x: CommitPartition): Value { PairV(I(x.partition), PairV(I(x.offset), T(x.metadata))) }

  function FromCommits(x: CommitTopic): Value { PairV(T(x.topic), ListV(Map(FromCommit, x.partitions))) }

  function FromResult(x: PartitionResult): Value { PairV(I(x.partition), I(x.code)) }

  function FromResults(x: TopicResult): Value { PairV(T(x.topic), ListV(Map(FromResult, x.partitions))) }

  function FromFetch(x: FetchTopic): Value { PairV(T(x.topic), ListV(Map(I, x.partitions))) }

  function FromFetchedPartition(x: FetchPartition): Value {
    PairV(I(x.partition), PairV(I(x.offset), PairV(T(x.metadata), I(x.code))))
  }

  function FromFetched(x: FetchTopicResult): Value { PairV(T(x.topic), ListV(Map(FromFetchedPartition, x.partitions))) }

  function FromTxnPartition(x: TxnPartition): Value { PairV(T(x.topic), I(x.partition)) }

  function FromTxnResult(x: TxnPartitionResult): Value { PairV(T(x.topic), PairV(I(x.partition), I(x.code))) }

  function ToValue(p: Payload): Value {
    match p
    case JoinGroupRequest(g, m, c, t, s, r, ps) =>
      PairV(T(g), PairV(T(m), PairV(T(c), PairV(T(t), PairV(I(s), PairV(I(r), ListV(Map(FromNamed, ps))))))))
    case JoinGroupResponse(code, g, p, m, l, ms) =>
      PairV(I(code), PairV(I(g), PairV(T(p), PairV(T(m), PairV(T(l), ListV(Map(FromNamed, ms)))))))
    case SyncGroupRequest(g, n, m, xs) => PairV(T(g), PairV(I(n), PairV(T(m), ListV(Map(FromNamed, xs)))))
    case SyncGroupResponse(code, x) => PairV(I(code), BlobV(x))
    case HeartbeatRequest(g, n, m) => PairV(T(g), PairV(I(n), T(m)))
    case HeartbeatResponse(code) => I(code)
    case LeaveGroupRequest(g, m) => PairV(T(g), T(m))
    case LeaveGroupResponse(code) => I(code)
    case OffsetCommitRequest(g, n, m, xs) => PairV(T(g), PairV(I(n), PairV(T(m), ListV(Map(FromCommits, xs)))))
    case OffsetCommitResponse(xs) => ListV(Map(FromResults, xs))
    case OffsetFetchRequest(g, xs) => PairV(T(g), ListV(Map(FromFetch, xs)))
    case OffsetFetchResponse(xs) => ListV(Map(FromFetched, xs))
    case InitProducerIDRequest(t, ms) => PairV(T(t), I(ms))
    case InitProducerIDResponse(p, e, code) => PairV(I(p), PairV(I(e), I(code)))
    case AddPartitionsToTxnRequest(t, p, e, xs) => PairV(T(t), PairV(I(p), PairV(I(e), ListV(Map(FromTxnPartition, xs)))))
    case AddPartitionsToTxnResponse(xs) => ListV(Map(FromTxnResult, xs))
    case AddOffsetsToTxnRequest(t, p, e, g) => PairV(T(t), PairV(I(p), PairV(I(e), T(g))))
    case AddOffsetsToTxnResponse(code) => I(code)
    case EndTxnRequest(t, p, e, commit) => PairV(T(t), PairV(I(p), PairV(I(e), FlagV(commit))))
    case EndTxnResponse(code) => I(code)
    case TxnOffsetCommitRequest(t, g, p, e, xs) =>
      PairV(T(t), PairV(T(g), PairV(I(p), PairV(I(e), ListV(Map(FromCommits, xs))))))
    case TxnOffsetCommitResponse(xs) => ListV(Map(FromResults, xs))
    case FindCoordinatorRequest(k, t) => PairV(T(k), I(t))
    case FindCoordinatorResponse(code, n, h, p) => PairV(I(code), PairV(I(n), PairV(T(h), I(p))))
  }

  // ---------------------------------------------------------------------
  // Reading: the fields in the order the decode methods read them
  // ---------------------------------------------------------------------

  function Txt(v: Value): Data { if v.TextV? then v.text else [] }

  function Num(v: Value): int { if v.IntV? then v.i else 0 }

  function Bit(v: Value): bool { v.FlagV? && v.b }

  function Opt(v: Value): Option<Data> { if v.BlobV? then v.blob else None }

  function Items(v: Value): seq<Value> { if v.ListV? then v.items else [] }

  function Tail(v: Value): Value { if v.PairV? then v.c else v }

  /** What follows the first k fields of a row of pairs, and field k. */
  function Rest(v: Value, k: nat): Value {
    if k == 0 then v
    else if k == 1 then Tail(v)
    else if k == 2 then Tail(Tail(v))
    else if k == 3 then Tail(Tail(Tail(v)))
    else if k == 4 then Tail(Tail(Tail(Tail(v))))
    else if k == 5 then Tail(Tail(Tail(Tail(Tail(v)))))
    else Tail(Tail(Tail(Tail(Tail(Tail(v))))))
  }

  function Field(v: Value, k: nat): Value {
    var r := Rest(v, k);
    if r.PairV? then r.a else r
  }

  function ToNamed(v: Value): Named { Named(Txt(Field(v, 0)), Opt(Rest(v, 1))) }

  function ToCommit(v: Value): CommitPartition { CommitPartition(Num(Field(v, 0)), Num(Field(v, 1)), Txt(Rest(v, 2))) }

  function ToCommits(v: Value): CommitTopic { CommitTopic(Txt(Field(v, 0)), Map(ToCommit, Items(Rest(v, 1)))) }

  function ToResult(v: Value): PartitionResult { PartitionResult(Num(Field(v, 0)), Num(Rest(v, 1))) }

  function ToResults(v: Value): TopicResult { TopicResult(Txt(Field(v, 0)), Map(ToResult, Items(Rest(v, 1)))) }

  function ToFetch(v: Value): FetchTopic { FetchTopic(Txt(Field(v, 0)), Map(Num, Items(Rest(v, 1)))) }

  function ToFetchedPartition(v: Value): FetchPartition {
    FetchPartition(Num(Field(v, 0)), Num(Field(v, 1)), Txt(Field(v, 2)), Num(Rest(v, 3)))
  }

  function ToFetched(v: Value): FetchTopicResult { FetchTopicResult(Txt(Field(v, 0)), Map(ToFetchedPartition, Items(Rest(v, 1)))) }

  function ToTxnPartition(v: Value): TxnPartition { TxnPartition(Txt(Field(v, 0)), Num(Rest(v, 1))) }

  function ToTxnResult(v: Value): TxnPartitionResult { TxnPartitionResult(Txt(Field(v, 0)), Num(Field(v, 1)), Num(Rest(v, 2))) }

  function FromValue(k: Kind, v: Value): Payload {
    match k
    case JoinGroupReq =>
      JoinGroupRequest(Txt(Field(v, 0)), Txt(Field(v, 1)), Txt(Field(v, 2)), Txt(Field(v, 3)), Num(Field(v, 4)), Num(Field(v, 5)),
                       Map(ToNamed, Items(Rest(v, 6))))
    case JoinGroupResp =>
      JoinGroupResponse(Num(Field(v, 0)), Num(Field(v, 1)), Txt(Field(v, 2)), Txt(Field(v, 3)), Txt(Field(v, 4)),
                        Map(ToNamed, Items(Rest(v, 5))))
    case SyncGroupReq => SyncGroupRequest(Txt(Field(v, 0)), Num(Field(v, 1)), Txt(Field(v, 2)), Map(ToNamed, Items(Rest(v, 3))))
    case SyncGroupResp => SyncGroupResponse(Num(Field(v, 0)), Opt(Rest(v, 1)))
    case HeartbeatReq => HeartbeatRequest(Txt(Field(v, 0)), Num(Field(v, 1)), Txt(Rest(v, 2)))
    case HeartbeatResp => HeartbeatResponse(Num(v))
    case LeaveGroupReq => LeaveGroupRequest(Txt(Field(v, 0)), Txt(Rest(v, 1)))
    case LeaveGroupResp => LeaveGroupResponse(Num(v))
    case OffsetCommitReq => OffsetCommitRequest(Txt(Field(v, 0)), Num(Field(v, 1)), Txt(Field(v, 2)), Map(ToCommits, Items(Rest(v, 3))))
    case OffsetCommitResp => OffsetCommitResponse(Map(ToResults, Items(v)))
    case OffsetFetchReq => OffsetFetchRequest(Txt(Field(v, 0)), Map(ToFetch, Items(Rest(v, 1))))
    case OffsetFetchResp => OffsetFetchResponse(Map(ToFetched, Items(v)))
    case InitProducerIDReq => InitProducerIDRequest(Txt(Field(v, 0)), Num(Rest(v, 1)))
    case InitProducerIDResp => InitProducerIDResponse(Num(Field(v, 0)), Num(Field(v, 1)), Num(Rest(v, 2)))
    case AddPartitionsReq =>
      AddPartitionsToTxnRequest(Txt(Field(v, 0)), Num(Field(v, 1)), Num(Field(v, 2)), Map(ToTxnPartition, Items(Rest(v, 3))))
    case AddPartitionsResp => AddPartitionsToTxnResponse(Map(ToTxnResult, Items(v)))
    case AddOffsetsReq => AddOffsetsToTxnRequest(Txt(Field(v, 0)), Num(Field(v, 1)), Num(Field(v, 2)), Txt(Rest(v, 3)))
    case AddOffsetsResp => AddOffsetsToTxnResponse(Num(v))
    case EndTxnReq => EndTxnRequest(Txt(Field(v, 0)), Num(Field(v, 1)), Num(Field(v, 2)), Bit(Rest(v, 3)))
    case EndTxnResp => EndTxnResponse(Num(v))
    case TxnOffsetCommitReq =>
      TxnOffsetCommitRequest(Txt(Field(v, 0)), Txt(Field(v, 1)), Num(Field(v, 2)), Num(Field(v, 3)), Map(ToCommits, Items(Rest(v, 4))))
    case TxnOffsetCommitResp => TxnOffsetCommitResponse(Map(ToResults, Items(v)))
    case FindCoordinatorReq => FindCoordinatorRequest(Txt(Field(v, 0)), Num(Rest(v, 1)))
    case FindCoordinatorResp => FindCoordinatorResponse(Num(Field(v, 0)), Num(Field(v, 1)), Txt(Field(v, 2)), Num(Rest(v, 3)))
  }

  // ---------------------------------------------------------------------
  // Round trip
  // ---------------------------------------------------------------------

  lemma MapBack<A(!new), B>(f: A -> B, g: B -> A, xs: seq<A>)
    requires forall x :: g(f(x)) == x
    ensures Map(g, Map(f, xs)) == xs
  {
  }

  lemma CommitsBack(x: CommitTopic)
    ensures ToCommits(FromCommits(x)) == x
  {
    MapBack(FromCommit, ToCommit, x.partitions);
  }

  lemma ResultsBack(x: TopicResult)
    ensures ToResults(FromResults(x)) == x
  {
    MapBack(FromResult, ToResult, x.partitions);
  }

  lemma FetchBack(x: FetchTopic)
    ensures ToFetch(FromFetch(x)) == x
  {
    MapBack(I, Num, x.partitions);
  }

  lemma FetchedBack(x: FetchTopicResult)
    ensures ToFetched(FromFetched(x)) == x
  {
    MapBack(FromFetchedPartition, ToFetchedPartition, x.partitions);
  }

  lemma CommitListBack(xs: seq<CommitTopic>)
    ensures Map(ToCommits, Map(FromCommits, xs)) == xs
  {
    forall x { CommitsBack(x); }
    MapBack(FromCommits, ToCommits, xs);
  }

  lemma ResultListBack(xs: seq<TopicResult>)
    ensures Map(ToResults, Map(FromResults, xs)) == xs
  {
    forall x { ResultsBack(x); }
    MapBack(FromResults, ToResults, xs);
  }

  /** Decoding takes every field from where encoding put it. */
  lemma FieldsBack(p: Payload)
    ensures FromValue(KindOf(p), ToValue(p)) == p
  {
    hide Map, ToCommits, FromCommits, ToResults, FromResults, ToFetch, FromFetch, ToFetched, FromFetched, ToNamed, FromNamed;
    hide ToValue, FromValue, Rest;
    match p
    case JoinGroupRequest(_, _, _, _, _, _, _) => GroupFieldsBack(p);
    case JoinGroupResponse(_, _, _, _, _, _) => GroupFieldsBack(p);
    case SyncGroupRequest(_, _, _, _) => GroupFieldsBack(p);
    case OffsetCommitRequest(_, _, _, _) => OffsetFieldsBack(p);
    case OffsetCommitResponse(_) => OffsetFieldsBack(p);
    case OffsetFetchRequest(_, _) => OffsetFieldsBack(p);
    case OffsetFetchResponse(_) => OffsetFieldsBack(p);
    case AddPartitionsToTxnRequest(_, _, _, _) => TxnFieldsBack(p);
    case AddPartitionsToTxnResponse(_) => TxnFieldsBack(p);
    case TxnOffsetCommitRequest(_, _, _, _, _) => TxnCommitFieldsBack(p);
    case TxnOffsetCommitResponse(_) => TxnCommitFieldsBack(p);
    case _ => if OneField(p) { OneFieldBack(p); } else { PlainFieldsBack(p); }
  }

  lemma GroupFieldsBack(p: Payload)
    requires p.JoinGroupRequest? || p.JoinGroupResponse? || p.SyncGroupRequest?
    ensures FromValue(KindOf(p), ToValue(p)) == p
  {
    hide Map, ToNamed, FromNamed;
    match p
    case JoinGroupRequest(_, _, _, _, _, _, xs) => NamedListBack(xs);
    case JoinGroupResponse(_, _, _, _, _, xs) => NamedListBack(xs);
    case SyncGroupRequest(_, _, _, xs) => NamedListBack(xs);
  }

  lemma OffsetFieldsBack(p: Payload)
    requires p.OffsetCommitRequest? || p.OffsetCommitResponse? || p.OffsetFetchRequest? || p.OffsetFetchResponse?
    ensures FromValue(KindOf(p), ToValue(p)) == p
  {
    hide Map, ToCommits, FromCommits, ToResults, FromResults, ToFetch, FromFetch, ToFetched, FromFetched;
    match p
    case OffsetCommitRequest(_, _, _, xs) => CommitListBack(xs);
    case OffsetCommitResponse(xs) => ResultListBack(xs);
    case OffsetFetchRequest(_, xs) =>
      forall x { FetchBack(x); }
      MapBack(FromFetch, ToFetch, xs);
    case OffsetFetchResponse(xs) =>
      forall x { FetchedBack(x); }
      MapBack(FromFetched, ToFetched, xs);
  }

  lemma TxnFieldsBack(p: Payload)
    requires p.AddPartitionsToTxnRequest? || p.AddPartitionsToTxnResponse?
    ensures FromValue(KindOf(p), ToValue(p)) == p
  {
    hide Map, ToTxnPartition, FromTxnPartition, ToTxnResult, FromTxnResult;
    match p
    case AddPartitionsToTxnRequest(_, _, _, xs) => TxnPartitionsBack(xs);
    case AddPartitionsToTxnResponse(xs) => TxnResultsBack(xs);
  }

  lemma TxnPartitionsBack(xs: seq<TxnPartition>)
    ensures Map(ToTxnPartition, Map(FromTxnPartition, xs)) == xs
  {
    MapBack(FromTxnPartition, ToTxnPartition, xs);
  }

  lemma TxnResultsBack(xs: seq<TxnPartitionResult>)
    ensures Map(ToTxnResult, Map(FromTxnResult, xs)) == xs
  {
    MapBack(FromTxnResult, ToTxnResult, xs);
  }

  lemma TxnCommitFieldsBack(p: Payload)
    requires p.TxnOffsetCommitRequest? || p.TxnOffsetCommitResponse?
    ensures FromValue(KindOf(p), ToValue(p)) == p
  {
    hide Map, ToCommits, FromCommits, ToResults, FromResults;
    match p
    case TxnOffsetCommitRequest(_, _, _, _, xs) => CommitListBack(xs);
    case TxnOffsetCommitResponse(xs) => ResultListBack(xs);
  }

  ghost predicate OneField(p: Payload) {
    || p.HeartbeatResponse? || p.LeaveGroupResponse? || p.AddOffsetsToTxnResponse? || p.EndTxnResponse?
  }

  lemma OneFieldBack(p: Payload)
    requires OneField(p)
    ensures FromValue(KindOf(p), ToValue(p)) == p
  {
    hide Map;
  }

  lemma PlainFieldsBack(p: Payload)
    requires p.SyncGroupResponse? || p.HeartbeatRequest? || p.LeaveGroupRequest? || p.InitProducerIDRequest? || p.InitProducerIDResponse?
          || p.AddOffsetsToTxnRequest? || p.EndTxnRequest? || p.FindCoordinatorRequest? || p.FindCoordinatorResponse?
    ensures FromValue(KindOf(p), ToValue(p)) == p
  {
    hide Map;
  }

  lemma NamedListBack(xs: seq<Named>)
    ensures Map(ToNamed, Map(FromNamed, xs)) == xs
  {
    MapBack(FromNamed, ToNamed, xs);
  }

  /** A payload whose integers fit their Go types. */
  ghost predicate WellTyped(p: Payload) { Fits(SchemaOf(KindOf(p)), ToValue(p)) }

  ghost function PayloadBytes(p: Payload): Data
    requires WellTyped(p)
  {
    Enc(SchemaOf(KindOf(p)), ToValue(p))
  }

  ghost function PayloadOf(k: Kind, b: Data): Result<Payload, ReadError> {
    match Parse(Checked, SchemaOf(k), b, 0)
    case Got(v, _) => Ok(FromValue(k, v))
    case Bad(e) => Err(e)
  }

  /**
    * Measures a payload and writes it into a buffer of that size and some bytes to spare; none when the writer runs past them. That is
    * so exactly for a payload larger than any message, which measures as empty, when it does not fit the spare bytes either.
    */
  method EncodePayload(p: Payload, spare: nat) returns (r: Option<Data>)
    requires WellTyped(p)
    ensures r == if |PayloadBytes(p)| <= Max(MAX_MESSAGE_SIZE, spare) then Some(PayloadBytes(p)) else None
  {
    hide Enc, Fits, ToValue, SchemaOf;
    var s, v := SchemaOf(KindOf(p)), ToValue(p);
    var size := MeasurePayload(s, v);
    var buf := new Byte[size + spare];
    var w := new PayloadWriter(buf, 0);
    w.Write(s, v);
    if w.panicked { return None; }
    assert [] + Enc(s, v) == Enc(s, v);
    return Some(buf[..w.pos]);
  }

  /** Such a payload: leaving a group whose name alone is as long as a message may be. */
  lemma OversizedPayload(member: Data)
    ensures var p := LeaveGroupRequest(seq(MAX_MESSAGE_SIZE, _ => 'g'), member);
            WellTyped(p) && |PayloadBytes(p)| == MAX_MESSAGE_SIZE + 8 + |member|
  {
    hide LengthBytes;
  }

  method DecodeCoordination(k: Kind, b: Data) returns (r: Result<Payload, ReadError>)
    ensures r == PayloadOf(k, b)
  {
    hide Parse, FromValue, SchemaOf;
    var v := DecodePayload(SchemaOf(k), b);
    match v
    case Ok(x) => return Ok(FromValue(k, x));
    case Err(e) => return Err(e);
  }

  /** A payload that fits a message decodes to itself, nil and empty bytes apart, whatever follows it. */
  lemma PayloadRoundTrip(p: Payload, trailing: Data)
    requires WellTyped(p) && |PayloadBytes(p)| <= MAX_MESSAGE_SIZE
    ensures PayloadOf(KindOf(p), PayloadBytes(p) + trailing) == Ok(p)
  {
    hide Parse, Enc, Fits, FromValue, ToValue, SchemaOf;
    RoundTrip(Checked, SchemaOf(KindOf(p)), ToValue(p), trailing);
    FieldsBack(p);
  }

  /** Cut anywhere before its end, it is rejected. */
  lemma PayloadPrefixRejected(p: Payload, k: nat)
    requires WellTyped(p) && k < |PayloadBytes(p)| <= MAX_MESSAGE_SIZE
    ensures PayloadOf(KindOf(p), PayloadBytes(p)[..k]).Err?
  {
    hide Parse, Enc, Fits, FromValue, ToValue, SchemaOf;
    PrefixRejected(Checked, SchemaOf(KindOf(p)), ToValue(p), k);
  }
}

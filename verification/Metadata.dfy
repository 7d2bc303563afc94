/** The replicated metadata state machine (pkg/metadata/fsm.go, types.go). */
module Metadata {
  import opened Common
  import opened PartitionKeys

  datatype Resources = Resources(diskTotal: nat, diskUsed: nat, diskAvailable: nat, bandwidth: nat,
                                 cpuCores: int, memoryTotal: nat, memoryUsed: nat)

  datatype Status = Alive | Dead | Draining | Unreachable

  datatype Broker = Broker(id: nat, addr: string, status: Status, resources: Resources, rack: string,
                           registeredAt: int, lastHeartbeat: int)

  datatype Config = Config(retentionMs: int, retentionBytes: int, segmentMs: int, segmentBytes: int,
                           minInsync: int, compression: string)

  datatype Topic = Topic(name: string, partitions: int, replication: int, config: Config, createdAt: int, modifiedAt: int)

  datatype Partition = Partition(topic: string, number: int, leader: nat, replicas: seq<nat>, isr: seq<nat>,
                                 offline: seq<nat>, leaderEpoch: nat, createdAt: int, modifiedAt: int) {
    function Key(): string { PartitionKey(topic, number) }
  }

  datatype State = State(brokers: map<nat, Broker>, topics: map<string, Topic>, partitions: map<string, Partition>,
                         version: nat, lastModified: int)

  const EMPTY := State(map[], map[], map[], 0, 0)

  datatype Op =
    | RegisterBroker(broker: Broker)
    | UnregisterBroker(id: nat)
    | UpdateBroker(id: nat, status: Status, resources: Resources, heartbeat: int)
    | CreateTopic(name: string, count: int, replication: int, config: Config)
    | DeleteTopic(name: string)
    | UpdateTopic(name: string, config: Config)
    | CreatePartition(p: Partition)
    | BatchCreatePartitions(ps: seq<Partition>)
    | UpdatePartition(p: Partition)
    | UpdateLeader(topic: string, number: int, leader: nat, epoch: nat)
    | UpdateISR(topic: string, number: int, isr: seq<nat>)
    | UpdateReplicaList(topic: string, number: int, replicas: seq<nat>)
    | Malformed  // undecodable, or of an unknown type

  function Changed(s: State, now: int): State {
    s.(version := s.version + 1, lastModified := now)
  }

  /** A partition as it is created: first epoch, both times now. */
  function Created(p: Partition, now: int): Partition {
    p.(createdAt := now, modifiedAt := now, leaderEpoch := 1)
  }

  /** The partitions created by the first k of a batch. */
  function WithBatch(parts: map<string, Partition>, ps: seq<Partition>, k: nat, now: int): map<string, Partition>
    requires k <= |ps|
  {
    if k == 0 then parts else WithBatch(parts, ps, k - 1, now)[ps[k - 1].Key() := Created(ps[k - 1], now)]
  }

  ghost function WithoutTopic(parts: map<string, Partition>, name: string): map<string, Partition> {
    map id | id in parts && parts[id].topic != name :: parts[id]
  }

  /** Apply, for every operation: the new state, or nothing when the operation is refused. */
  ghost function Applied(s: State, op: Op, now: int): Option<State> {
    match op
    case RegisterBroker(b) =>
      if b.id in s.brokers then None
      else Some(Changed(s.(brokers := s.brokers[b.id := b.(registeredAt := now, lastHeartbeat := now, status := Alive)]), now))
    case UnregisterBroker(id) =>
      if id !in s.brokers then None else Some(Changed(s.(brokers := s.brokers - {id}), now))
    case UpdateBroker(id, status, resources, heartbeat) =>
      if id !in s.brokers then None
      else Some(Changed(s.(brokers := s.brokers[id := s.brokers[id].(status := status, resources := resources, lastHeartbeat := heartbeat)]), now))
    case CreateTopic(name, count, replication, config) =>
      if name in s.topics then None
      else Some(Changed(s.(topics := s.topics[name := Topic(name, count, replication, config, now, now)]), now))
    case DeleteTopic(name) =>
      if name !in s.topics then None
      else Some(Changed(s.(topics := s.topics - {name}, partitions := WithoutTopic(s.partitions, name)), now))
    case UpdateTopic(name, config) =>
      if name !in s.topics then None
      else Some(Changed(s.(topics := s.topics[name := s.topics[name].(config := config, modifiedAt := now)]), now))
    case CreatePartition(p) =>
      if p.Key() in s.partitions then None
      else Some(Changed(s.(partitions := s.partitions[p.Key() := Created(p, now)]), now))
    case BatchCreatePartitions(ps) =>
      if exists p :: p in ps && p.Key() in s.partitions then None
      else Some(Changed(s.(partitions := WithBatch(s.partitions, ps, |ps|, now)), now))
    case UpdatePartition(p) =>
      if p.Key() !in s.partitions then None
      else Some(Changed(s.(partitions := s.partitions[p.Key() := p.(modifiedAt := now)]), now))
    case UpdateLeader(topic, number, leader, epoch) =>
      var id := PartitionKey(topic, number);
      if id !in s.partitions then None
      else Some(Changed(s.(partitions := s.partitions[id := s.partitions[id].(leader := leader, leaderEpoch := epoch, modifiedAt := now)]), now))
    case UpdateISR(topic, number, isr) =>
      var id := PartitionKey(topic, number);
      if id !in s.partitions then None
      else Some(Changed(s.(partitions := s.partitions[id := s.partitions[id].(isr := isr, modifiedAt := now)]), now))
    case UpdateReplicaList(topic, number, replicas) =>
      var id := PartitionKey(topic, number);
      if id !in s.partitions then None
      else Some(Changed(s.(partitions := s.partitions[id := s.partitions[id].(replicas := replicas, modifiedAt := now)]), now))
    case Malformed => None
  }

  class FSM {
    var state: State

    constructor ()
      ensures state == EMPTY
    {
      state := EMPTY;
    }

    /** A refused operation changes nothing; an accepted one is Applied. */
    method Apply(op: Op, now: int) returns (ok: bool)
      modifies this
      ensures match Applied(old(state), op, now)
              case Some(s) => ok && state == s
              case None => !ok && state == old(state)
    {
      match op {
        case RegisterBroker(b) =>
          if b.id in state.brokers { return false; }
          state := state.(brokers := state.brokers[b.id := b.(registeredAt := now, lastHeartbeat := now, status := Alive)]);
        case UnregisterBroker(id) =>
          if id !in state.brokers { return false; }
          state := state.(brokers := state.brokers - {id});
        case UpdateBroker(id, status, resources, heartbeat) =>
          if id !in state.brokers { return false; }
          state := state.(brokers := state.brokers[id := state.brokers[id].(status := status, resources := resources, lastHeartbeat := heartbeat)]);
        case CreateTopic(name, count, replication, config) =>
          if name in state.topics { return false; }
          state := state.(topics := state.topics[name := Topic(name, count, replication, config, now, now)]);
        case DeleteTopic(name) =>
          if name !in state.topics { return false; }
          var parts := DropTopic(state.partitions, name);
          state := state.(topics := state.topics - {name}, partitions := parts);
        case UpdateTopic(name, config) =>
          if name !in state.topics { return false; }
          state := state.(topics := state.topics[name := state.topics[name].(config := config, modifiedAt := now)]);
        case CreatePartition(p) =>
          if p.Key() in state.partitions { return false; }
          state := state.(partitions := state.partitions[p.Key() := Created(p, now)]);
        case BatchCreatePartitions(ps) =>
          var fresh_ := NoneExists(state.partitions, ps);
          if !fresh_ { return false; }
          var parts := AddBatch(state.partitions, ps, now);
          state := state.(partitions := parts);
        case UpdatePartition(p) =>
          if p.Key() !in state.partitions { return false; }
          state := state.(partitions := state.partitions[p.Key() := p.(modifiedAt := now)]);
        case UpdateLeader(topic, number, leader, epoch) =>
          var id := PartitionKey(topic, number);
          if id !in state.partitions { return false; }
          state := state.(partitions := state.partitions[id := state.partitions[id].(leader := leader, leaderEpoch := epoch, modifiedAt := now)]);
        case UpdateISR(topic, number, isr) =>
          var id := PartitionKey(topic, number);
          if id !in state.partitions { return false; }
          state := state.(partitions := state.partitions[id := state.partitions[id].(isr := isr, modifiedAt := now)]);
        case UpdateReplicaList(topic, number, replicas) =>
          var id := PartitionKey(topic, number);
          if id !in state.partitions { return false; }
          state := state.(partitions := state.partitions[id := state.partitions[id].(replicas := replicas, modifiedAt := now)]);
        case Malformed =>
          return false;
      }
      state := state.(version := state.version + 1, lastModified := now);
      return true;
    }
  }

  method DropTopic(parts: map<string, Partition>, name: string) returns (r: map<string, Partition>)
    ensures r == WithoutTopic(parts, name)
  {
    r := parts;
    var rest := parts.Keys;
    while rest != {}
      invariant rest <= parts.Keys
      invariant forall id :: id in r <==> id in parts && (id in rest || parts[id].topic != name)
      invariant forall id :: id in r ==> r[id] == parts[id]
      decreases rest
    {
      var id :| id in rest;
      if parts[id].topic == name { r := r - {id}; }
      rest := rest - {id};
    }
  }

  method NoneExists(parts: map<string, Partition>, ps: seq<Partition>) returns (ok: bool)
    ensures ok <==> !exists p :: p in ps && p.Key() in parts
  {
    for i := 0 to |ps|
      invariant forall j :: 0 <= j < i ==> ps[j].Key() !in parts
    {
      if ps[i].Key() in parts { return false; }
    }
    return true;
  }

  method AddBatch(parts: map<string, Partition>, ps: seq<Partition>, now: int) returns (r: map<string, Partition>)
    ensures r == WithBatch(parts, ps, |ps|, now)
  {
    r := parts;
    for i := 0 to |ps|
      invariant r == WithBatch(parts, ps, i, now)
    {
      r := r[ps[i].Key() := Created(ps[i], now)];
    }
  }

  // ---------------------------------------------------------------------
  // Invariants of every accepted operation
  // ---------------------------------------------------------------------

  /** Every partition is stored under its own key. */
  ghost predicate OwnKeys(parts: map<string, Partition>) {
    forall id :: id in parts ==> parts[id].Key() == id
  }

  lemma {:induction false} BatchOwnKeys(parts: map<string, Partition>, ps: seq<Partition>, k: nat, now: int)
    requires OwnKeys(parts) && k <= |ps|
    ensures OwnKeys(WithBatch(parts, ps, k, now))
  {
    hide PartitionKey;
    if k > 0 { BatchOwnKeys(parts, ps, k - 1, now); }
  }

  /** Each success raises the version by exactly one and keeps partitions under their own keys. */
  lemma AppliedKeeps(s: State, op: Op, now: int)
    requires OwnKeys(s.partitions) && Applied(s, op, now).Some?
    ensures Applied(s, op, now).value.version == s.version + 1
    ensures OwnKeys(Applied(s, op, now).value.partitions)
  {
    hide PartitionKey, WithBatch;
    if op.BatchCreatePartitions? { BatchOwnKeys(s.partitions, op.ps, |op.ps|, now); }
  }

  /** So a lookup finds a partition of exactly that topic and number. */
  lemma LookupExact(s: State, topic: string, number: int)
    requires OwnKeys(s.partitions) && PartitionKey(topic, number) in s.partitions
    ensures s.partitions[PartitionKey(topic, number)].topic == topic && s.partitions[PartitionKey(topic, number)].number == number
  {
    hide PartitionKey;
    var p := s.partitions[PartitionKey(topic, number)];
    assert p.Key() == PartitionKey(topic, number);
    KeyInjective(p.topic, p.number, topic, number);
  }

  lemma {:induction false} BatchElsewhere(parts: map<string, Partition>, ps: seq<Partition>, k: nat, now: int, id: string)
    requires k <= |ps|
    ensures id in WithBatch(parts, ps, k, now) ==> id in parts || exists j :: 0 <= j < k && id == ps[j].Key()
    ensures id in WithBatch(parts, ps, k, now) && id !in parts ==> WithBatch(parts, ps, k, now)[id].Key() == id
    ensures id in parts && (forall j :: 0 <= j < k ==> ps[j].Key() != id) ==>
              id in WithBatch(parts, ps, k, now) && WithBatch(parts, ps, k, now)[id] == parts[id]
  {
    hide PartitionKey;
    if k > 0 { BatchElsewhere(parts, ps, k - 1, now, id); }
  }

  /** The topics an operation names. */
  function TopicsOf(op: Op): set<string> {
    match op
    case CreateTopic(name, _, _, _) => {name}
    case DeleteTopic(name) => {name}
    case UpdateTopic(name, _) => {name}
    case CreatePartition(p) => {p.topic}
    case BatchCreatePartitions(ps) => set p | p in ps :: p.topic
    case UpdatePartition(p) => {p.topic}
    case UpdateLeader(topic, _, _, _) => {topic}
    case UpdateISR(topic, _, _) => {topic}
    case UpdateReplicaList(topic, _, _) => {topic}
    case _ => {}
  }

  /** An operation leaves every partition of a topic it does not name as it was. */
  lemma OtherTopicsUntouched(s: State, op: Op, now: int, id: string)
    requires OwnKeys(s.partitions) && Applied(s, op, now).Some?
    requires id in s.partitions && s.partitions[id].topic !in TopicsOf(op)
    ensures id in Applied(s, op, now).value.partitions && Applied(s, op, now).value.partitions[id] == s.partitions[id]
  {
    hide PartitionKey, WithBatch;
    match op
    case BatchCreatePartitions(ps) => BatchElsewhere(s.partitions, ps, |ps|, now, id);
    case UpdatePartition(p) => OtherKey(s.partitions[id], p.topic, p.number);
    case UpdateLeader(topic, number, _, _) => OtherKey(s.partitions[id], topic, number);
    case UpdateISR(topic, number, _) => OtherKey(s.partitions[id], topic, number);
    case UpdateReplicaList(topic, number, _) => OtherKey(s.partitions[id], topic, number);
    case _ =>
  }

  lemma OtherKey(p: Partition, topic: string, number: int)
    requires p.topic != topic
    ensures p.Key() != PartitionKey(topic, number)
  {
    hide PartitionKey;
    if p.Key() == PartitionKey(topic, number) { KeyInjective(p.topic, p.number, topic, number); }
  }

  /** Deleting a topic takes back its creation and that of its partitions: only the version and time of change remain. */
  lemma DeleteUndoesCreate(s: State, name: string, count: int, replication: int, config: Config, ps: seq<Partition>, now: int)
    requires name !in s.topics
    requires forall id :: id in s.partitions ==> s.partitions[id].topic != name
    requires forall p :: p in ps ==> p.topic == name && p.Key() !in s.partitions
    ensures var s1 := Applied(s, CreateTopic(name, count, replication, config), now);
            && s1.Some?
            && var s2 := Applied(s1.value, BatchCreatePartitions(ps), now);
            && s2.Some?
            && var s3 := Applied(s2.value, DeleteTopic(name), now);
            && s3 == Some(s.(version := s.version + 3, lastModified := now))
  {
    hide PartitionKey, WithBatch;
    var parts := WithBatch(s.partitions, ps, |ps|, now);
    assert s.topics[name := Topic(name, count, replication, config, now, now)] - {name} == s.topics;
    assert WithoutTopic(parts, name) == s.partitions by {
      forall id
        ensures id in s.partitions ==> id in parts && parts[id] == s.partitions[id]
        ensures id in parts && id !in s.partitions ==> parts[id].topic == name
      {
        BatchElsewhere(s.partitions, ps, |ps|, now, id);
        if id in parts && id !in s.partitions { BatchTopic(s.partitions, ps, |ps|, now, name, id); }
      }
    }
  }

  lemma {:induction false} BatchTopic(parts: map<string, Partition>, ps: seq<Partition>, k: nat, now: int, name: string, id: string)
    requires k <= |ps| && forall p :: p in ps ==> p.topic == name
    requires id in WithBatch(parts, ps, k, now) && id !in parts
    ensures WithBatch(parts, ps, k, now)[id].topic == name
  {
    hide PartitionKey;
    if k > 0 && id != ps[k - 1].Key() { BatchTopic(parts, ps, k - 1, now, name, id); }
  }

  // ---------------------------------------------------------------------
  // Replicas agree up to local clocks
  // ---------------------------------------------------------------------

  function TimelessBroker(b: Broker): Broker { b.(registeredAt := 0, lastHeartbeat := 0) }

  function TimelessTopic(t: Topic): Topic { t.(createdAt := 0, modifiedAt := 0) }

  function TimelessPartition(p: Partition): Partition { p.(createdAt := 0, modifiedAt := 0) }

  ghost predicate SameParts(a: map<string, Partition>, b: map<string, Partition>) {
    && a.Keys == b.Keys
    && forall id :: id in a ==> TimelessPartition(a[id]) == TimelessPartition(b[id])
  }

  /** Equal but for what a local clock wrote. */
  ghost predicate Agree(a: State, b: State) {
    && a.brokers.Keys == b.brokers.Keys
    && (forall id :: id in a.brokers ==> TimelessBroker(a.brokers[id]) == TimelessBroker(b.brokers[id]))
    && a.topics.Keys == b.topics.Keys
    && (forall name :: name in a.topics ==> TimelessTopic(a.topics[name]) == TimelessTopic(b.topics[name]))
    && SameParts(a.partitions, b.partitions)
    && a.version == b.version
  }

  lemma {:induction false} BatchAgrees(a: map<string, Partition>, b: map<string, Partition>, ps: seq<Partition>, k: nat, now: int, now': int)
    requires k <= |ps| && SameParts(a, b)
    ensures SameParts(WithBatch(a, ps, k, now), WithBatch(b, ps, k, now'))
  {
    hide PartitionKey;
    if k > 0 { BatchAgrees(a, b, ps, k - 1, now, now'); }
  }

  lemma BrokerOpsAgree(a: State, b: State, op: Op, now: int, now': int)
    requires Agree(a, b)
    requires op.RegisterBroker? || op.UnregisterBroker? || op.UpdateBroker?
    ensures Applied(a, op, now).Some? <==> Applied(b, op, now').Some?
    ensures Applied(a, op, now).Some? ==> Agree(Applied(a, op, now).value, Applied(b, op, now').value)
  {
    hide PartitionKey, WithBatch;
  }

  lemma PartsAgree(a: State, b: State, pa: map<string, Partition>, pb: map<string, Partition>, now: int, now': int)
    requires Agree(a, b) && SameParts(pa, pb)
    ensures Agree(Changed(a.(partitions := pa), now), Changed(b.(partitions := pb), now'))
  {
    hide SameParts;
  }

  lemma PutAgrees(pa: map<string, Partition>, pb: map<string, Partition>, id: string, x: Partition, y: Partition)
    requires SameParts(pa, pb) && TimelessPartition(x) == TimelessPartition(y)
    ensures SameParts(pa[id := x], pb[id := y])
  {
  }

  lemma PartsOf(a: State, b: State)
    requires Agree(a, b)
    ensures SameParts(a.partitions, b.partitions) && a.partitions.Keys == b.partitions.Keys
    ensures forall id :: id in a.partitions ==> TimelessPartition(a.partitions[id]) == TimelessPartition(b.partitions[id])
  {
  }

  lemma DropAgrees(pa: map<string, Partition>, pb: map<string, Partition>, name: string)
    requires SameParts(pa, pb)
    ensures SameParts(WithoutTopic(pa, name), WithoutTopic(pb, name))
  {
    assert forall id :: id in pa ==> TimelessPartition(pa[id]).topic == pa[id].topic && TimelessPartition(pb[id]).topic == pb[id].topic;
  }

  lemma TopicOpsAgree(a: State, b: State, op: Op, now: int, now': int)
    requires Agree(a, b)
    requires op.CreateTopic? || op.DeleteTopic? || op.UpdateTopic?
    ensures Applied(a, op, now).Some? <==> Applied(b, op, now').Some?
    ensures Applied(a, op, now).Some? ==> Agree(Applied(a, op, now).value, Applied(b, op, now').value)
  {
    hide PartitionKey, WithBatch, SameParts, WithoutTopic;
    if op.DeleteTopic? { DropAgrees(a.partitions, b.partitions, op.name); }
  }

  lemma PartitionOpsAgree(a: State, b: State, op: Op, now: int, now': int)
    requires Agree(a, b)
    requires op.CreatePartition? || op.UpdatePartition? || op.BatchCreatePartitions?
    ensures Applied(a, op, now).Some? <==> Applied(b, op, now').Some?
    ensures Applied(a, op, now).Some? ==> Agree(Applied(a, op, now).value, Applied(b, op, now').value)
  {
    hide PartitionKey, WithBatch, Agree, SameParts;
    PartsOf(a, b);
    if Applied(a, op, now).Some? {
      if op.BatchCreatePartitions? {
        BatchAgrees(a.partitions, b.partitions, op.ps, |op.ps|, now, now');
      } else if op.CreatePartition? {
        PutAgrees(a.partitions, b.partitions, op.p.Key(), Created(op.p, now), Created(op.p, now'));
      } else {
        PutAgrees(a.partitions, b.partitions, op.p.Key(), op.p.(modifiedAt := now), op.p.(modifiedAt := now'));
      }
      PartsAgree(a, b, Applied(a, op, now).value.partitions, Applied(b, op, now').value.partitions, now, now');
    }
  }

  lemma ReplicaOpsAgree(a: State, b: State, op: Op, now: int, now': int)
    requires Agree(a, b)
    requires op.UpdateLeader? || op.UpdateISR? || op.UpdateReplicaList?
    ensures Applied(a, op, now).Some? <==> Applied(b, op, now').Some?
    ensures Applied(a, op, now).Some? ==> Agree(Applied(a, op, now).value, Applied(b, op, now').value)
  {
    hide PartitionKey, WithBatch, Agree, SameParts;
    PartsOf(a, b);
    if Applied(a, op, now).Some? {
      var id := PartitionKey(op.topic, op.number);
      var pa, pb := Applied(a, op, now).value.partitions, Applied(b, op, now').value.partitions;
      PutAgrees(a.partitions, b.partitions, id, pa[id], pb[id]);
      PartsAgree(a, b, pa, pb, now, now');
    }
  }

  /** Two replicas that differ only in clock readings accept the same operations and stay that way. */
  lemma ApplyIgnoresClocks(a: State, b: State, op: Op, now: int, now': int)
    requires Agree(a, b)
    ensures Applied(a, op, now).Some? <==> Applied(b, op, now').Some?
    ensures Applied(a, op, now).Some? ==> Agree(Applied(a, op, now).value, Applied(b, op, now').value)
  {
    hide PartitionKey, WithBatch, Agree;
    if op.RegisterBroker? || op.UnregisterBroker? || op.UpdateBroker? {
      BrokerOpsAgree(a, b, op, now, now');
    } else if op.CreateTopic? || op.DeleteTopic? || op.UpdateTopic? {
      TopicOpsAgree(a, b, op, now, now');
    } else if op.CreatePartition? || op.UpdatePartition? || op.BatchCreatePartitions? {
      PartitionOpsAgree(a, b, op, now, now');
    } else if op.UpdateLeader? || op.UpdateISR? || op.UpdateReplicaList? {
      ReplicaOpsAgree(a, b, op, now, now');
    }
  }
}

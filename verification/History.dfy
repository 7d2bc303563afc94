/** What the metadata holds, told by the log alone: every field is what the last command about it carried. */
module History {
  import opened Common
  import opened PartitionKeys
  import opened Metadata
  import opened RaftNode

  // ---------------------------------------------------------------------
  // Looking things up
  // ---------------------------------------------------------------------

  function PartitionAt(s: State, t: string, n: int): Option<Partition> {
    var id := PartitionKey(t, n);
    if id in s.partitions then Some(s.partitions[id]) else None
  }

  function TopicAt(s: State, name: string): Option<Topic> {
    if name in s.topics then Some(s.topics[name]) else None
  }

  function BrokerAt(s: State, id: nat): Option<Broker> {
    if id in s.brokers then Some(s.brokers[id]) else None
  }

  function Of<A, B>(x: Option<A>, field: A -> B): Option<B> {
    if x.Some? then Some(field(x.value)) else None
  }

  // ---------------------------------------------------------------------
  // What an operation carries
  // ---------------------------------------------------------------------

  predicate Names(p: Partition, t: string, n: int) { p.topic == t && p.number == n }

  /** The last record for a partition in a batch. */
  function LastNamed(ps: seq<Partition>, t: string, n: int): (r: Option<Partition>)
    ensures r.Some? ==> exists j :: 0 <= j < |ps| && ps[j] == r.value && Names(ps[j], t, n) && forall i :: j < i < |ps| ==> !Names(ps[i], t, n)
    ensures r.None? ==> forall i :: 0 <= i < |ps| ==> !Names(ps[i], t, n)
  {
    if ps == [] then None
    else if Names(ps[|ps| - 1], t, n) then Some(ps[|ps| - 1])
    else LastNamed(ps[..|ps| - 1], t, n)
  }

  /** The record with which an operation creates a partition. */
  function CreationIn(op: Op, t: string, n: int): Option<Partition> {
    match op
    case CreatePartition(p) => if Names(p, t, n) then Some(p) else None
    case BatchCreatePartitions(ps) => LastNamed(ps, t, n)
    case _ => None
  }

  /** The whole record an operation carries for a partition. */
  function RecordIn(op: Op, t: string, n: int): Option<Partition> {
    if op.UpdatePartition? && Names(op.p, t, n) then Some(op.p) else CreationIn(op, t, n)
  }

  function LeaderIn(op: Op, t: string, n: int): Option<nat> {
    if op.UpdateLeader? && op.topic == t && op.number == n then Some(op.leader)
    else Of(RecordIn(op, t, n), (x: Partition) => x.leader)
  }

  /** A partition is created with epoch 1, whatever its record says. */
  function EpochIn(op: Op, t: string, n: int): Option<nat> {
    if op.UpdateLeader? && op.topic == t && op.number == n then Some(op.epoch)
    else if CreationIn(op, t, n).Some? then Some(1)
    else Of(RecordIn(op, t, n), (x: Partition) => x.leaderEpoch)
  }

  function IsrIn(op: Op, t: string, n: int): Option<seq<nat>> {
    if op.UpdateISR? && op.topic == t && op.number == n then Some(op.isr)
    else Of(RecordIn(op, t, n), (x: Partition) => x.isr)
  }

  function ReplicasIn(op: Op, t: string, n: int): Option<seq<nat>> {
    if op.UpdateReplicaList? && op.topic == t && op.number == n then Some(op.replicas)
    else Of(RecordIn(op, t, n), (x: Partition) => x.replicas)
  }

  function OfflineIn(op: Op, t: string, n: int): Option<seq<nat>> {
    Of(RecordIn(op, t, n), (x: Partition) => x.offline)
  }

  /** When a partition was created: an update brings its own time along. */
  function BirthIn(op: Op, t: string, n: int, now: int): Option<int> {
    if CreationIn(op, t, n).Some? then Some(now) else Of(RecordIn(op, t, n), (x: Partition) => x.createdAt)
  }

  function ChangeIn(op: Op, t: string, n: int, now: int): Option<int> {
    if LeaderIn(op, t, n).Some? || IsrIn(op, t, n).Some? || ReplicasIn(op, t, n).Some? then Some(now) else None
  }

  function RegistrationIn(op: Op, id: nat): Option<Broker> {
    if op.RegisterBroker? && op.broker.id == id then Some(op.broker) else None
  }

  predicate Reports(op: Op, id: nat) { op.UpdateBroker? && op.id == id }

  /** A broker is registered alive, whatever its record says. */
  function StatusIn(op: Op, id: nat): Option<Status> {
    if Reports(op, id) then Some(op.status) else if RegistrationIn(op, id).Some? then Some(Alive) else None
  }

  function ResourcesIn(op: Op, id: nat): Option<Resources> {
    if Reports(op, id) then Some(op.resources) else Of(RegistrationIn(op, id), (x: Broker) => x.resources)
  }

  function HeartbeatIn(op: Op, id: nat, now: int): Option<int> {
    if Reports(op, id) then Some(op.heartbeat) else if RegistrationIn(op, id).Some? then Some(now) else None
  }

  predicate Creates(op: Op, name: string) { op.CreateTopic? && op.name == name }

  function ConfigIn(op: Op, name: string): Option<Config> {
    if (op.UpdateTopic? || op.CreateTopic?) && op.name == name then Some(op.config) else None
  }

  // ---------------------------------------------------------------------
  // One accepted operation
  // ---------------------------------------------------------------------

  /** Gone, or what the operation carried, or what was there. */
  function Overwritten<T>(gone: bool, carried: Option<T>, before: Option<T>): Option<T> {
    if gone then None else if carried.Some? then carried else before
  }

  /** When an operation is accepted, told by lookups. */
  ghost predicate Acceptable(s: State, op: Op) {
    match op
    case RegisterBroker(b) => BrokerAt(s, b.id).None?
    case UnregisterBroker(id) => BrokerAt(s, id).Some?
    case UpdateBroker(id, _, _, _) => BrokerAt(s, id).Some?
    case CreateTopic(name, _, _, _) => TopicAt(s, name).None?
    case DeleteTopic(name) => TopicAt(s, name).Some?
    case UpdateTopic(name, _) => TopicAt(s, name).Some?
    case CreatePartition(p) => PartitionAt(s, p.topic, p.number).None?
    case BatchCreatePartitions(ps) => forall p :: p in ps ==> PartitionAt(s, p.topic, p.number).None?
    case UpdatePartition(p) => PartitionAt(s, p.topic, p.number).Some?
    case UpdateLeader(t, n, _, _) => PartitionAt(s, t, n).Some?
    case UpdateISR(t, n, _) => PartitionAt(s, t, n).Some?
    case UpdateReplicaList(t, n, _) => PartitionAt(s, t, n).Some?
    case Malformed => false
  }

  lemma AcceptedIff(s: State, op: Op, now: int)
    ensures Applied(s, op, now).Some? <==> Acceptable(s, op)
    ensures Applied(s, op, now).Some? ==> Applied(s, op, now).value.lastModified == now
  {
    hide PartitionKey, WithBatch;
  }

  /** Each field of a partition afterwards, and that it is there: what was carried, else what it was. */
  ghost predicate PartitionWritten(s: State, op: Op, now: int, s': State, t: string, n: int) {
    var gone, p, q := op == DeleteTopic(t), PartitionAt(s, t, n), PartitionAt(s', t, n);
    && (q.Some? ==> Names(q.value, t, n))
    && Of(q, (x: Partition) => x.leader) == Overwritten(gone, LeaderIn(op, t, n), Of(p, (x: Partition) => x.leader))
    && Of(q, (x: Partition) => x.leaderEpoch) == Overwritten(gone, EpochIn(op, t, n), Of(p, (x: Partition) => x.leaderEpoch))
    && Of(q, (x: Partition) => x.isr) == Overwritten(gone, IsrIn(op, t, n), Of(p, (x: Partition) => x.isr))
    && Of(q, (x: Partition) => x.replicas) == Overwritten(gone, ReplicasIn(op, t, n), Of(p, (x: Partition) => x.replicas))
    && Of(q, (x: Partition) => x.offline) == Overwritten(gone, OfflineIn(op, t, n), Of(p, (x: Partition) => x.offline))
    && Of(q, (x: Partition) => x.createdAt) == Overwritten(gone, BirthIn(op, t, n, now), Of(p, (x: Partition) => x.createdAt))
    && Of(q, (x: Partition) => x.modifiedAt) == Overwritten(gone, ChangeIn(op, t, n, now), Of(p, (x: Partition) => x.modifiedAt))
  }

  ghost predicate BrokerWritten(s: State, op: Op, now: int, s': State, id: nat) {
    var gone, b, c := op == UnregisterBroker(id), BrokerAt(s, id), BrokerAt(s', id);
    var reg := RegistrationIn(op, id);
    && Of(c, (x: Broker) => x.addr) == Overwritten(gone, Of(reg, (x: Broker) => x.addr), Of(b, (x: Broker) => x.addr))
    && Of(c, (x: Broker) => x.rack) == Overwritten(gone, Of(reg, (x: Broker) => x.rack), Of(b, (x: Broker) => x.rack))
    && Of(c, (x: Broker) => x.status) == Overwritten(gone, StatusIn(op, id), Of(b, (x: Broker) => x.status))
    && Of(c, (x: Broker) => x.resources) == Overwritten(gone, ResourcesIn(op, id), Of(b, (x: Broker) => x.resources))
    && Of(c, (x: Broker) => x.lastHeartbeat) == Overwritten(gone, HeartbeatIn(op, id, now), Of(b, (x: Broker) => x.lastHeartbeat))
    && Of(c, (x: Broker) => x.registeredAt) == Overwritten(gone, Of(reg, (x: Broker) => now), Of(b, (x: Broker) => x.registeredAt))
  }

  ghost predicate TopicWritten(s: State, op: Op, now: int, s': State, name: string) {
    var gone, t, u := op == DeleteTopic(name), TopicAt(s, name), TopicAt(s', name);
    var made := Creates(op, name);
    && Of(u, (x: Topic) => x.partitions) == Overwritten(gone, if made then Some(op.count) else None, Of(t, (x: Topic) => x.partitions))
    && Of(u, (x: Topic) => x.replication) == Overwritten(gone, if made then Some(op.replication) else None, Of(t, (x: Topic) => x.replication))
    && Of(u, (x: Topic) => x.config) == Overwritten(gone, ConfigIn(op, name), Of(t, (x: Topic) => x.config))
    && Of(u, (x: Topic) => x.createdAt) == Overwritten(gone, if made then Some(now) else None, Of(t, (x: Topic) => x.createdAt))
    && Of(u, (x: Topic) => x.modifiedAt) == Overwritten(gone, if ConfigIn(op, name).Some? then Some(now) else None, Of(t, (x: Topic) => x.modifiedAt))
  }

  lemma BrokerReadBack(s: State, op: Op, now: int, id: nat)
    requires Applied(s, op, now).Some?
    ensures BrokerWritten(s, op, now, Applied(s, op, now).value, id)
  {
    hide Applied, BrokerWritten;
    if op.RegisterBroker? || op.UnregisterBroker? || op.UpdateBroker? {
      NamedBrokerReadBack(s, op, now, id);
    } else {
      OtherBrokerReadBack(s, op, now, id);
    }
  }

  lemma NamedBrokerReadBack(s: State, op: Op, now: int, id: nat)
    requires Applied(s, op, now).Some? && (op.RegisterBroker? || op.UnregisterBroker? || op.UpdateBroker?)
    ensures BrokerWritten(s, op, now, Applied(s, op, now).value, id)
  {
    hide PartitionKey, WithBatch, WithoutTopic;
  }

  lemma OtherBrokerReadBack(s: State, op: Op, now: int, id: nat)
    requires Applied(s, op, now).Some? && !op.RegisterBroker? && !op.UnregisterBroker? && !op.UpdateBroker?
    ensures BrokerWritten(s, op, now, Applied(s, op, now).value, id)
  {
    hide PartitionKey, WithBatch, WithoutTopic;
    assert BrokerAt(Applied(s, op, now).value, id) == BrokerAt(s, id);
    hide Applied, BrokerAt;
  }

  lemma TopicReadBack(s: State, op: Op, now: int, name: string)
    requires Applied(s, op, now).Some?
    ensures TopicWritten(s, op, now, Applied(s, op, now).value, name)
  {
    hide PartitionKey, WithBatch, WithoutTopic;
  }

  lemma SameKeyIff(p: Partition, t: string, n: int)
    ensures p.Key() == PartitionKey(t, n) <==> Names(p, t, n)
  {
    hide PartitionKey;
    if p.Key() == PartitionKey(t, n) { KeyInjective(p.topic, p.number, t, n); }
  }

  lemma SamePairIff(t: string, n: int, u: string, m: int)
    ensures PartitionKey(t, n) == PartitionKey(u, m) <==> t == u && n == m
  {
    hide PartitionKey;
    if PartitionKey(t, n) == PartitionKey(u, m) { KeyInjective(t, n, u, m); }
  }

  /** A batch leaves the last record it holds for a partition, freshly created. */
  lemma {:induction false} BatchLast(parts: map<string, Partition>, ps: seq<Partition>, k: nat, now: int, t: string, n: int)
    requires k <= |ps|
    ensures var id, all := PartitionKey(t, n), WithBatch(parts, ps, k, now);
            match LastNamed(ps[..k], t, n)
            case Some(p) => id in all && all[id] == p.(createdAt := now, modifiedAt := now, leaderEpoch := 1)
            case None => (id in all <==> id in parts) && (id in parts ==> all[id] == parts[id])
  {
    hide PartitionKey;
    if k > 0 {
      BatchLast(parts, ps, k - 1, now, t, n);
      SameKeyIff(ps[k - 1], t, n);
      assert ps[..k][..k - 1] == ps[..k - 1];
    }
  }

  lemma BatchReadBack(s: State, ps: seq<Partition>, now: int, t: string, n: int)
    requires OwnKeys(s.partitions) && Applied(s, BatchCreatePartitions(ps), now).Some?
    ensures PartitionWritten(s, BatchCreatePartitions(ps), now, Applied(s, BatchCreatePartitions(ps), now).value, t, n)
  {
    hide PartitionKey, WithBatch, LastNamed;
    var id := PartitionKey(t, n);
    if id in s.partitions { SameKeyIff(s.partitions[id], t, n); }
    BatchLast(s.partitions, ps, |ps|, now, t, n);
    assert ps[..|ps|] == ps;
  }

  lemma WholeReadBack(s: State, op: Op, now: int, t: string, n: int)
    requires OwnKeys(s.partitions) && Applied(s, op, now).Some?
    requires op.CreatePartition? || op.UpdatePartition?
    ensures PartitionWritten(s, op, now, Applied(s, op, now).value, t, n)
  {
    hide PartitionKey, WithBatch, LastNamed;
    var id := PartitionKey(t, n);
    if id in s.partitions { SameKeyIff(s.partitions[id], t, n); }
    SameKeyIff(op.p, t, n);
  }

  lemma LeaderReadBack(s: State, op: Op, now: int, t: string, n: int)
    requires OwnKeys(s.partitions) && Applied(s, op, now).Some? && op.UpdateLeader?
    ensures PartitionWritten(s, op, now, Applied(s, op, now).value, t, n)
  {
    hide PartitionKey, WithBatch, LastNamed;
    var id := PartitionKey(t, n);
    if id in s.partitions { SameKeyIff(s.partitions[id], t, n); }
    SamePairIff(t, n, op.topic, op.number);
  }

  lemma ListReadBack(s: State, op: Op, now: int, t: string, n: int)
    requires OwnKeys(s.partitions) && Applied(s, op, now).Some? && (op.UpdateISR? || op.UpdateReplicaList?)
    ensures PartitionWritten(s, op, now, Applied(s, op, now).value, t, n)
  {
    hide PartitionKey, WithBatch, LastNamed;
    var id := PartitionKey(t, n);
    if id in s.partitions { SameKeyIff(s.partitions[id], t, n); }
    SamePairIff(t, n, op.topic, op.number);
  }

  lemma DeleteReadBack(s: State, op: Op, now: int, t: string, n: int)
    requires OwnKeys(s.partitions) && Applied(s, op, now).Some? && op.DeleteTopic?
    ensures PartitionWritten(s, op, now, Applied(s, op, now).value, t, n)
  {
    hide PartitionKey, WithBatch, LastNamed;
    var id := PartitionKey(t, n);
    if id in s.partitions { SameKeyIff(s.partitions[id], t, n); }
  }

  lemma OthersReadBack(s: State, op: Op, now: int, t: string, n: int)
    requires OwnKeys(s.partitions) && Applied(s, op, now).Some?
    requires op.RegisterBroker? || op.UnregisterBroker? || op.UpdateBroker? || op.CreateTopic? || op.UpdateTopic?
    ensures PartitionWritten(s, op, now, Applied(s, op, now).value, t, n)
  {
    hide PartitionKey, WithBatch, LastNamed;
    var id := PartitionKey(t, n);
    if id in s.partitions { SameKeyIff(s.partitions[id], t, n); }
    assert PartitionAt(Applied(s, op, now).value, t, n) == PartitionAt(s, t, n);
    hide Applied;
  }

  /** What any accepted operation stores about a partition, and what it leaves alone. */
  lemma PartitionReadBack(s: State, op: Op, now: int, t: string, n: int)
    requires OwnKeys(s.partitions) && Applied(s, op, now).Some?
    ensures PartitionWritten(s, op, now, Applied(s, op, now).value, t, n)
  {
    hide PartitionWritten, OwnKeys;
    AcceptedIff(s, op, now);
    hide Applied;
    if op.BatchCreatePartitions? {
      BatchReadBack(s, op.ps, now, t, n);
    } else if op.CreatePartition? || op.UpdatePartition? {
      WholeReadBack(s, op, now, t, n);
    } else if op.UpdateLeader? {
      LeaderReadBack(s, op, now, t, n);
    } else if op.UpdateISR? || op.UpdateReplicaList? {
      ListReadBack(s, op, now, t, n);
    } else if op.DeleteTopic? {
      DeleteReadBack(s, op, now, t, n);
    } else {
      OthersReadBack(s, op, now, t, n);
    }
  }

  // ---------------------------------------------------------------------
  // Every log and every replica
  // ---------------------------------------------------------------------

  /** What the last of the first k entries to carry something carried, unless it is gone since. */
  ghost function Latest<T>(log: seq<Content>, k: nat, carried: Op -> Option<T>, gone: Op -> bool): Option<T>
    requires k <= |log|
  {
    if k == 0 then None
    else
      var before := Latest(log, k - 1, carried, gone);
      if log[k - 1].Command? then Overwritten(gone(log[k - 1].op), carried(log[k - 1].op), before) else before
  }

  /** The entry at j carried x, and nothing after it carried anything or removed it. */
  ghost predicate LastWriter<T>(log: seq<Content>, j: nat, k: nat, carried: Op -> Option<T>, gone: Op -> bool, x: T)
    requires j < k <= |log|
  {
    && log[j].Command? && !gone(log[j].op) && carried(log[j].op) == Some(x)
    && forall i :: j < i < k && log[i].Command? ==> !gone(log[i].op) && carried(log[i].op) == None
  }

  lemma {:induction false} LatestIs<T>(log: seq<Content>, k: nat, carried: Op -> Option<T>, gone: Op -> bool, x: T)
    requires k <= |log|
    ensures Latest(log, k, carried, gone) == Some(x) <==> exists j: nat :: j < k && LastWriter(log, j, k, carried, gone, x)
  {
    if k > 0 {
      LatestIs(log, k - 1, carried, gone, x);
      if Latest(log, k, carried, gone) == Some(x) {
        if log[k - 1].Command? && carried(log[k - 1].op).Some? {
          assert LastWriter(log, k - 1, k, carried, gone, x);
        } else {
          var j: nat :| j < k - 1 && LastWriter(log, j, k - 1, carried, gone, x);
          assert LastWriter(log, j, k, carried, gone, x);
        }
      }
      if j: nat :| j < k && LastWriter(log, j, k, carried, gone, x) {
        if j < k - 1 { assert LastWriter(log, j, k - 1, carried, gone, x); }
      }
    }
  }

  /** Every field of a partition is what the last command about it carried since its topic was last deleted. */
  ghost predicate PartitionTold(log: seq<Content>, k: nat, s: State, t: string, n: int)
    requires k <= |log|
  {
    var p, gone := PartitionAt(s, t, n), (op: Op) => op == DeleteTopic(t);
    && Of(p, (x: Partition) => x.leader) == Latest(log, k, (op: Op) => LeaderIn(op, t, n), gone)
    && Of(p, (x: Partition) => x.leaderEpoch) == Latest(log, k, (op: Op) => EpochIn(op, t, n), gone)
    && Of(p, (x: Partition) => x.isr) == Latest(log, k, (op: Op) => IsrIn(op, t, n), gone)
    && Of(p, (x: Partition) => x.replicas) == Latest(log, k, (op: Op) => ReplicasIn(op, t, n), gone)
    && Of(p, (x: Partition) => x.offline) == Latest(log, k, (op: Op) => OfflineIn(op, t, n), gone)
  }

  /** Every field of a broker is what the last command about it carried since it was last unregistered. */
  ghost predicate BrokerTold(log: seq<Content>, k: nat, s: State, id: nat)
    requires k <= |log|
  {
    var b, gone := BrokerAt(s, id), (op: Op) => op == UnregisterBroker(id);
    && Of(b, (x: Broker) => x.addr) == Latest(log, k, (op: Op) => Of(RegistrationIn(op, id), (x: Broker) => x.addr), gone)
    && Of(b, (x: Broker) => x.rack) == Latest(log, k, (op: Op) => Of(RegistrationIn(op, id), (x: Broker) => x.rack), gone)
    && Of(b, (x: Broker) => x.status) == Latest(log, k, (op: Op) => StatusIn(op, id), gone)
    && Of(b, (x: Broker) => x.resources) == Latest(log, k, (op: Op) => ResourcesIn(op, id), gone)
  }

  /** Every field of a topic is what the last command about it carried since it was last deleted. */
  ghost predicate TopicTold(log: seq<Content>, k: nat, s: State, name: string)
    requires k <= |log|
  {
    var t, gone := TopicAt(s, name), (op: Op) => op == DeleteTopic(name);
    && Of(t, (x: Topic) => x.partitions) == Latest(log, k, (op: Op) => if Creates(op, name) then Some(op.count) else None, gone)
    && Of(t, (x: Topic) => x.replication) == Latest(log, k, (op: Op) => if Creates(op, name) then Some(op.replication) else None, gone)
    && Of(t, (x: Topic) => x.config) == Latest(log, k, (op: Op) => ConfigIn(op, name), gone)
  }

  lemma {:induction false} FoldPartition(log: seq<Content>, k: nat, t: string, n: int)
    requires k <= |log| && Fold(log, k).Some?
    ensures PartitionTold(log, k, Fold(log, k).value, t, n)
  {
    hide Applied, PartitionKey, LeaderIn, EpochIn, IsrIn, ReplicasIn, OfflineIn, BirthIn, ChangeIn;
    if k > 0 {
      FoldPartition(log, k - 1, t, n);
      FoldVersion(log, k - 1);
      if log[k - 1].Command? { PartitionReadBack(Fold(log, k - 1).value, log[k - 1].op, 0, t, n); }
    }
  }

  lemma {:induction false} FoldBroker(log: seq<Content>, k: nat, id: nat)
    requires k <= |log| && Fold(log, k).Some?
    ensures BrokerTold(log, k, Fold(log, k).value, id)
  {
    hide Applied, StatusIn, ResourcesIn, HeartbeatIn, RegistrationIn;
    if k > 0 {
      FoldBroker(log, k - 1, id);
      if log[k - 1].Command? { BrokerReadBack(Fold(log, k - 1).value, log[k - 1].op, 0, id); }
    }
  }

  lemma {:induction false} FoldTopic(log: seq<Content>, k: nat, name: string)
    requires k <= |log| && Fold(log, k).Some?
    ensures TopicTold(log, k, Fold(log, k).value, name)
  {
    hide Applied, ConfigIn;
    if k > 0 {
      FoldTopic(log, k - 1, name);
      if log[k - 1].Command? { TopicReadBack(Fold(log, k - 1).value, log[k - 1].op, 0, name); }
    }
  }

  lemma AgreeOnLookups(a: State, b: State, t: string, n: int, id: nat)
    requires Agree(a, b)
    ensures Of(PartitionAt(a, t, n), (x: Partition) => TimelessPartition(x)) == Of(PartitionAt(b, t, n), (x: Partition) => TimelessPartition(x))
    ensures Of(BrokerAt(a, id), (x: Broker) => TimelessBroker(x)) == Of(BrokerAt(b, id), (x: Broker) => TimelessBroker(x))
    ensures Of(TopicAt(a, t), (x: Topic) => TimelessTopic(x)) == Of(TopicAt(b, t), (x: Topic) => TimelessTopic(x))
  {
    hide PartitionKey;
  }

  /** On every replica, at every point of every run, the metadata is what the applied part of the log tells. */
  lemma ReplicaTold(log: seq<Content>, ns: seq<Progress>, es: seq<Event>, i: nat, t: string, n: int, id: nat)
    requires IsRun(log, ns, es) && i < |ns|
    ensures var k := ns[i].applied;
            && k <= |log| && PartitionTold(log, k, ns[i].state, t, n) && BrokerTold(log, k, ns[i].state, id) && TopicTold(log, k, ns[i].state, t)
  {
    hide Applied, Fold, IsRun, Agree, PartitionTold, BrokerTold, TopicTold;
    RunFollows(log, ns, es, i);
    var k := ns[i].applied;
    var s := Fold(log, k).value;
    FoldPartition(log, k, t, n);
    FoldBroker(log, k, id);
    FoldTopic(log, k, t);
    AgreeOnLookups(ns[i].state, s, t, n, id);
    ToldAlike(log, k, ns[i].state, s, t, n, id);
  }

  lemma ToldAlike(log: seq<Content>, k: nat, a: State, b: State, t: string, n: int, id: nat)
    requires k <= |log| && PartitionTold(log, k, b, t, n) && BrokerTold(log, k, b, id) && TopicTold(log, k, b, t)
    requires Of(PartitionAt(a, t, n), (x: Partition) => TimelessPartition(x)) == Of(PartitionAt(b, t, n), (x: Partition) => TimelessPartition(x))
    requires Of(BrokerAt(a, id), (x: Broker) => TimelessBroker(x)) == Of(BrokerAt(b, id), (x: Broker) => TimelessBroker(x))
    requires Of(TopicAt(a, t), (x: Topic) => TimelessTopic(x)) == Of(TopicAt(b, t), (x: Topic) => TimelessTopic(x))
    ensures PartitionTold(log, k, a, t, n) && BrokerTold(log, k, a, id) && TopicTold(log, k, a, t)
  {
    hide Latest, PartitionAt, BrokerAt, TopicAt;
  }
}

/** Partition-to-broker assignments and per-broker limits (pkg/cluster assignment.go, load.go). */
module Placements {
  import opened Common
  import opened PartitionKeys

  /** Broker ids are 32-bit signed integers. */
  newtype BrokerId = x: int | -0x8000_0000 <= x < 0x8000_0000

  datatype Broker = Broker(id: BrokerId, rack: string, capacity: int)

  datatype PartitionInfo = PartitionInfo(topic: string, partition: int, replicas: nat) {
    function Key(): string { PartitionKey(topic, partition) }
  }

  datatype Constraints = Constraints(
    rackAware: bool, maxPerBroker: int, existingLoad: map<BrokerId, int>, excluded: set<BrokerId>)

  datatype PlacementError =
    NoBrokers | NoAvailableBrokers | ZeroReplicas | NotEnoughBrokers | InvalidAssignment
    | Diverges  // the call never returns

  /** The value of an Assignment object. */
  datatype Placement = Placement(
    partitions: map<string, seq<BrokerId>>, leaders: map<string, BrokerId>, load: map<BrokerId, int>, version: int)

  const EMPTY := Placement(map[], map[], map[], 0)

  // ---------------------------------------------------------------------
  // Replica counts
  // ---------------------------------------------------------------------

  /** Every replica of every partition: the multiplicity of a broker is its true load. */
  ghost function Total(parts: map<string, seq<BrokerId>>): multiset<BrokerId> {
    if parts == map[] then multiset{}
    else
      var k :| k in parts;
      multiset(parts[k]) + Total(parts - {k})
  }

  lemma SomeEntry(parts: map<string, seq<BrokerId>>) returns (c: string)
    requires parts != map[]
    ensures c in parts && Total(parts) == multiset(parts[c]) + Total(parts - {c})
  {
    c :| c in parts && Total(parts) == multiset(parts[c]) + Total(parts - {c});
  }

  lemma {:induction false} TotalRemove(parts: map<string, seq<BrokerId>>, k: string)
    requires k in parts
    ensures Total(parts) == multiset(parts[k]) + Total(parts - {k})
    decreases |parts|
  {
    var c := SomeEntry(parts);
    hide Total;
    if c != k {
      RemoveTwo(parts, c, k);
      TotalRemove(parts - {c}, k);
      TotalRemove(parts - {k}, c);
    }
  }

  lemma RemoveTwo(parts: map<string, seq<BrokerId>>, c: string, k: string)
    requires c in parts && k in parts && c != k
    ensures |parts - {c}| == |parts - {k}| == |parts| - 1
    ensures k in parts - {c} && (parts - {c})[k] == parts[k] && c in parts - {k} && (parts - {k})[c] == parts[c]
    ensures parts - {c} - {k} == parts - {k} - {c}
  {
    assert (parts - {c}).Keys == parts.Keys - {c} && (parts - {k}).Keys == parts.Keys - {k};
  }

  lemma TotalInsert(parts: map<string, seq<BrokerId>>, k: string, s: seq<BrokerId>)
    requires k !in parts
    ensures Total(parts[k := s]) == Total(parts) + multiset(s)
  {
    TotalRemove(parts[k := s], k);
    assert parts[k := s] - {k} == parts;
  }

  lemma TotalUpdate(parts: map<string, seq<BrokerId>>, k: string, s: seq<BrokerId>)
    requires k in parts
    ensures Total(parts[k := s]) == Total(parts) - multiset(parts[k]) + multiset(s)
  {
    TotalRemove(parts, k);
    TotalRemove(parts[k := s], k);
    assert parts[k := s] - {k} == parts - {k};
  }

  lemma {:induction false} TotalMember(parts: map<string, seq<BrokerId>>, b: BrokerId) returns (k: string)
    requires Total(parts)[b] > 0
    ensures k in parts && b in parts[k]
    decreases |parts|
  {
    k :| k in parts && Total(parts) == multiset(parts[k]) + Total(parts - {k});
    if b !in parts[k] {
      k := TotalMember(parts - {k}, b);
    }
  }

  lemma TotalContains(parts: map<string, seq<BrokerId>>, k: string, b: BrokerId)
    requires k in parts && b in parts[k]
    ensures Total(parts)[b] > 0
  {
    TotalRemove(parts, k);
  }

  /** The counters after one increment for each broker listed in s. */
  ghost function Tally(load: map<BrokerId, int>, s: seq<BrokerId>): map<BrokerId, int> {
    map b | b in load.Keys + Elems(s) :: Get(load, b) + multiset(s)[b]
  }

  /** Counters recomputed from the replica lists: only brokers holding something appear. */
  ghost function Recount(parts: map<string, seq<BrokerId>>): map<BrokerId, int> {
    map b | b in Total(parts) :: Total(parts)[b]
  }

  ghost predicate ExactLoad(v: Placement) {
    forall b :: Get(v.load, b) == Total(v.partitions)[b]
  }

  /** What Validate accepts. */
  ghost predicate Consistent(v: Placement) {
    && (forall k :: k in v.partitions ==> k in v.leaders)
    && (forall k :: k in v.leaders ==> k in v.partitions && v.leaders[k] in v.partitions[k])
    && (forall b :: b in v.load ==> v.load[b] == Total(v.partitions)[b])
  }

  ghost predicate WellFormed(v: Placement) {
    && v.leaders.Keys == v.partitions.Keys
    && (forall k :: k in v.partitions ==>
          Distinct(v.partitions[k]) && v.leaders[k] in v.partitions[k])
    && ExactLoad(v)
  }

  /** The first replica of the list leads. */
  ghost predicate FirstLeads(v: Placement, k: string) {
    && k in v.partitions && v.partitions[k] != [] && k in v.leaders
    && v.leaders[k] == v.partitions[k][0]
  }

  ghost predicate AllFirst(v: Placement) { forall k :: k in v.partitions ==> FirstLeads(v, k) }

  lemma VersionIsFree(v: Placement, n: int)
    requires WellFormed(v)
    ensures WellFormed(v.(version := n))
  {
    hide Distinct, Total, Get;
  }

  lemma LoadsNonNegative(v: Placement)
    requires ExactLoad(v)
    ensures forall b :: b in v.load ==> v.load[b] >= 0
  {
    assert forall b :: b in v.load ==> v.load[b] == Get(v.load, b);
  }

  /** Largest minus smallest recorded load is at most d. */
  ghost predicate Balanced(load: map<BrokerId, int>, d: int) {
    forall a, b :: a in load && b in load ==> load[a] - load[b] <= d
  }

  class Assignment {
    var partitions: map<string, seq<BrokerId>>
    var leaders: map<string, BrokerId>
    var brokerLoad: map<BrokerId, int>
    var version: int

    function View(): Placement
      reads this
    {
      Placement(partitions, leaders, brokerLoad, version)
    }

    constructor ()
      ensures View() == EMPTY
    {
      partitions, leaders, brokerLoad, version := map[], map[], map[], 0;
    }

    constructor Clone(a: Assignment)
      ensures View() == a.View()
    {
      partitions, leaders, brokerLoad, version := a.partitions, a.leaders, a.brokerLoad, a.version;
    }

    method AddReplica(topic: string, partition: int, replicas: seq<BrokerId>)
      modifies this
      ensures View() == Added(old(View()), PartitionKey(topic, partition), replicas)
    {
      var key := PartitionKey(topic, partition);
      partitions := partitions[key := replicas];
      if |replicas| > 0 {
        leaders := leaders[key := replicas[0]];
      }
      brokerLoad := Incremented(brokerLoad, replicas);
    }

    method RecomputeBrokerLoad()
      modifies this`brokerLoad
      ensures brokerLoad == Recount(partitions)
    {
      var load := CountReplicas(partitions);
      brokerLoad := load;
    }

    /** Whether the loads lie within maxImbalance of each other; a negative load also counts against zero. */
    method IsBalanced(maxImbalance: int) returns (r: bool)
      ensures r <==> brokerLoad == map[]
                     || (Balanced(brokerLoad, maxImbalance) && forall b :: b in brokerLoad ==> 0 - brokerLoad[b] <= maxImbalance)
      ensures (forall b :: b in brokerLoad ==> brokerLoad[b] >= 0) ==>
                (r <==> brokerLoad == map[] || Balanced(brokerLoad, maxImbalance))
    {
      if |brokerLoad| == 0 { return true; }
      var min, max := GetLoadRange();
      assert exists b :: b in brokerLoad && brokerLoad[b] == min;
      assert max != 0 ==> exists b :: b in brokerLoad && brokerLoad[b] == max;
      r := max - min <= maxImbalance;
    }

    /** The least load, and the greatest or zero when none is positive. */
    method GetLoadRange() returns (min: int, max: int)
      ensures brokerLoad == map[] ==> min == max == 0
      ensures brokerLoad != map[] ==> min in brokerLoad.Values
      ensures max >= 0 && (max == 0 || max in brokerLoad.Values)
      ensures forall b :: b in brokerLoad ==> min <= brokerLoad[b] <= max
    {
      if |brokerLoad| == 0 { return 0, 0; }
      var rest := brokerLoad.Keys;
      assert rest != {};
      var first :| first in rest;
      min, max := brokerLoad[first], 0;
      while rest != {}
        invariant rest <= brokerLoad.Keys
        invariant forall b :: b in brokerLoad.Keys - rest ==> min <= brokerLoad[b] <= max
        invariant min in brokerLoad.Values && max >= 0 && (max == 0 || max in brokerLoad.Values)
        decreases rest
      {
        var b :| b in rest;
        if brokerLoad[b] < min { min := brokerLoad[b]; }
        if brokerLoad[b] > max { max := brokerLoad[b]; }
        rest := rest - {b};
      }
    }

    method Validate() returns (ok: bool)
      ensures ok <==> Consistent(View())
    {
      if k :| k in partitions && k !in leaders { return false; }
      if k :| k in leaders && (k !in partitions || leaders[k] !in partitions[k]) { return false; }
      var computed := CountReplicas(partitions);
      if b :| b in brokerLoad && Get(computed, b) != brokerLoad[b] {
        return false;
      }
      return true;
    }
  }

  /** AddReplica on values: the first replica leads. */
  ghost function Added(v: Placement, key: string, replicas: seq<BrokerId>): Placement {
    Placement(
      v.partitions[key := replicas],
      if |replicas| > 0 then v.leaders[key := replicas[0]] else v.leaders,
      Tally(v.load, replicas),
      v.version)
  }

  lemma TallyAppend(load: map<BrokerId, int>, s: seq<BrokerId>, b: BrokerId)
    ensures Tally(load, s + [b]) == Tally(load, s)[b := Get(Tally(load, s), b) + 1]
  {
    var before, after := Tally(load, s), Tally(load, s + [b]);
    assert Elems(s + [b]) == Elems(s) + {b};
    assert multiset(s + [b]) == multiset(s) + multiset{b};
    assert after.Keys == before.Keys + {b};
  }

  lemma TallyNothing(load: map<BrokerId, int>)
    ensures Tally(load, []) == load
  {
  }

  method Incremented(load: map<BrokerId, int>, brokers: seq<BrokerId>) returns (r: map<BrokerId, int>)
    ensures r == Tally(load, brokers)
  {
    hide Tally;
    r := load;
    TallyNothing(load);
    assert brokers[..0] == [];
    for i := 0 to |brokers|
      invariant r == Tally(load, brokers[..i])
    {
      var b := brokers[i];
      TallyAppend(load, brokers[..i], b);
      assert brokers[..i + 1] == brokers[..i] + [b];
      r := r[b := Get(r, b) + 1];
    }
    assert brokers[..|brokers|] == brokers;
  }

  method CountReplicas(parts: map<string, seq<BrokerId>>) returns (load: map<BrokerId, int>)
    ensures load == Recount(parts)
  {
    load := map[];
    var rest := parts;
    while rest != map[]
      invariant forall b :: Get(load, b) + Total(rest)[b] == Total(parts)[b]
      invariant forall b :: b in load ==> load[b] > 0
      decreases rest.Keys
    {
      var k :| k in rest;
      TotalRemove(rest, k);
      load := Incremented(load, rest[k]);
      rest := rest - {k};
    }
    RecountIs(load, parts);
  }

  lemma RecountIs(load: map<BrokerId, int>, parts: map<string, seq<BrokerId>>)
    requires forall b :: Get(load, b) == Total(parts)[b]
    requires forall b :: b in load ==> load[b] > 0
    ensures load == Recount(parts)
  {
    forall b ensures b in load <==> b in Total(parts) {
      assert Get(load, b) == Total(parts)[b];
    }
    assert forall b :: b in load ==> load[b] == Get(load, b);
  }

  // ---------------------------------------------------------------------
  // Broker limits
  // ---------------------------------------------------------------------

  /** The smaller of two limits; zero or negative means unlimited. */
  function TighterLimit(a: int, b: int): int {
    var a := if a < 0 then 0 else a;
    var b := if b < 0 then 0 else b;
    if a == 0 then b else if b == 0 then a else if a < b then a else b
  }

  predicate Allows(limit: int, n: int) { limit <= 0 || n <= limit }

  lemma TighterLimitIsBoth(a: int, b: int, n: int)
    ensures Allows(TighterLimit(a, b), n) <==> Allows(a, n) && Allows(b, n)
  {
  }

  /** Effective limit of every broker; among equal ids the last one counts. */
  function CapacityLimits(brokers: seq<Broker>, maxPerBroker: int): (r: map<BrokerId, int>)
    ensures r.Keys == Ids(brokers)
  {
    if brokers == [] then map[]
    else
      var last := brokers[|brokers| - 1];
      CapacityLimits(brokers[..|brokers| - 1], maxPerBroker)[last.id := TighterLimit(maxPerBroker, last.capacity)]
  }

  predicate WithinLimit(limits: map<BrokerId, int>, id: BrokerId, current: int) {
    Allows(Get(limits, id), current + 1)
  }

  function Ids(brokers: seq<Broker>): set<BrokerId> {
    set i | 0 <= i < |brokers| :: brokers[i].id
  }

  ghost predicate DistinctIds(brokers: seq<Broker>) {
    forall i, j :: 0 <= i < j < |brokers| ==> brokers[i].id != brokers[j].id
  }

  /** A broker's limit is the tighter of the two of the last entry with its id. */
  lemma {:induction false} LimitOfLast(brokers: seq<Broker>, maxPerBroker: int, i: nat)
    requires i < |brokers| && forall j :: i < j < |brokers| ==> brokers[j].id != brokers[i].id
    ensures CapacityLimits(brokers, maxPerBroker)[brokers[i].id] == TighterLimit(maxPerBroker, brokers[i].capacity)
  {
    var n := |brokers| - 1;
    if i < n { LimitOfLast(brokers[..n], maxPerBroker, i); }
  }

  lemma LimitOf(brokers: seq<Broker>, maxPerBroker: int, b: Broker)
    requires b in brokers && DistinctIds(brokers)
    ensures CapacityLimits(brokers, maxPerBroker)[b.id] == TighterLimit(maxPerBroker, b.capacity)
  {
    var i :| 0 <= i < |brokers| && brokers[i] == b;
    LimitOfLast(brokers, maxPerBroker, i);
  }

  function FilterExcluded(brokers: seq<Broker>, excluded: set<BrokerId>): (r: seq<Broker>)
    ensures forall b :: b in r <==> b in brokers && b.id !in excluded
    ensures DistinctIds(brokers) ==> DistinctIds(r)
  {
    if brokers == [] then []
    else
      var rest := FilterExcluded(brokers[1..], excluded);
      if brokers[0].id in excluded then rest else [brokers[0]] + rest
  }

  predicate BrokerLess(a: Broker, b: Broker) { a.id < b.id }

  lemma BrokersOrdered(brokers: seq<Broker>)
    requires DistinctIds(brokers)
    ensures Orders(BrokerLess, Elems(brokers))
  {
  }

  /** The brokers a strategy works on: not excluded, ordered by id. */
  function Available(brokers: seq<Broker>, c: Constraints): seq<Broker> {
    Sort(BrokerLess, FilterExcluded(brokers, c.excluded))
  }

  lemma AvailableDistinct(brokers: seq<Broker>, c: Constraints)
    requires DistinctIds(brokers)
    ensures DistinctIds(Available(brokers, c))
    ensures Elems(Available(brokers, c)) == Elems(FilterExcluded(brokers, c.excluded))
    ensures Sorted(BrokerLess, Available(brokers, c))
  {
    var f := FilterExcluded(brokers, c.excluded);
    var a := Available(brokers, c);
    SameElems(f, a);
    DistinctPermutation(f, a);
    forall i, j | 0 <= i < j < |a| ensures a[i].id != a[j].id {
      assert a[i] in Elems(f) && a[j] in Elems(f);
    }
    BrokersOrdered(f);
    SortSorted(BrokerLess, f);
  }

  predicate LoadLess(load: map<BrokerId, int>, a: Broker, b: Broker) {
    Get(load, a.id) < Get(load, b.id) || (Get(load, a.id) == Get(load, b.id) && a.id < b.id)
  }

  /** Least loaded first, ties by id. */
  function SortByLoad(brokers: seq<Broker>, load: map<BrokerId, int>): seq<Broker> {
    Sort((a, b) => LoadLess(load, a, b), brokers)
  }

  /** The counts a tracker starts from. */
  ghost function Seed(bs: seq<Broker>, existing: map<BrokerId, int>): map<BrokerId, int> {
    map id | id in Ids(bs) :: Get(existing, id)
  }

  /** Replica counts during one assignment pass, with the limits they must respect. */
  class LoadTracker {
    var counts: map<BrokerId, int>
    var limits: map<BrokerId, int>

    constructor (brokers: seq<Broker>, c: Constraints)
      ensures limits == CapacityLimits(brokers, c.maxPerBroker)
      ensures counts == Seed(brokers, c.existingLoad)
    {
      limits := CapacityLimits(brokers, c.maxPerBroker);
      counts := map id | id in Ids(brokers) :: Get(c.existingLoad, id);
    }

    predicate HasCapacity(id: BrokerId)
      reads this
    {
      HasRoom(limits, counts, id)
    }

    method AddAll(ids: seq<BrokerId>)
      modifies this`counts
      ensures counts == Tally(old(counts), ids)
    {
      counts := Incremented(counts, ids);
    }
  }

  predicate HasRoom(limits: map<BrokerId, int>, counts: map<BrokerId, int>, id: BrokerId) {
    WithinLimit(limits, id, Get(counts, id))
  }

  /** No broker has a limit: zero and below mean none. */
  ghost predicate Unlimited(limits: map<BrokerId, int>) {
    forall id :: id in limits ==> limits[id] <= 0
  }
}

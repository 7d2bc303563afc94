/** Round-robin placement (pkg/cluster/roundrobin.go). */
module RoundRobin {
  import opened Common
  import opened PartitionKeys
  import opened Placements
  import opened Batches
  import opened Selection
  import opened Racks
  import opened RackPass
  import opened Turns
  import opened Rebuilding

  /**
   * Walks the brokers from idx, skipping full ones. Up to twice round is tried, but once round
   * is enough: the result is the start of one full turn.
   */
  method SelectStandard(want: nat, bs: seq<Broker>, idx: nat, load: LoadTracker)
    returns (r: Result<seq<BrokerId>, PlacementError>, idx': nat)
    requires DistinctIds(bs) && 0 < want <= |bs|
    ensures r.Ok? <==> |Capable(bs, load.limits, load.counts)| >= want
    ensures r.Ok? ==>
      && Choice(r.value, want, bs, load.limits, load.counts)
      && idx <= idx' <= idx + |bs|
      && r.value == RoomIds(Window(bs, idx, idx' - idx), load.limits, load.counts)
      && r.value <= Turn(bs, idx, load.limits, load.counts)
      && idx < idx' && r.value[want - 1] == Seat(bs, idx' - 1)
    ensures r.Err? ==> r.error == NotEnoughBrokers
  {
    hide Scan, Window, RoomIds, Capable, Choice, DistinctIds, Turn, HasRoom, Seat;
    ghost var limits, counts := load.limits, load.counts;
    var n := |bs|;
    NothingScanned(bs, idx, limits, counts);
    var replicas: seq<BrokerId> := [];
    var attempts := 0;
    idx' := idx;
    while |replicas| < want && attempts < n * 2
      invariant 0 <= attempts <= n * 2 && idx' == idx + attempts
      invariant |replicas| <= want
      invariant replicas == Scan(bs, idx, attempts, limits, counts)
      invariant attempts > n ==> |replicas| < want
      invariant |replicas| == want ==> attempts > 0 && replicas[want - 1] == Seat(bs, idx' - 1)
      decreases n * 2 - attempts
    {
      var broker := bs[idx' % n];
      assert broker.id == Seat(bs, idx') by { AtSeat(bs, idx'); }
      ScanNext(bs, idx, attempts, limits, counts);
      idx' := idx' + 1;
      attempts := attempts + 1;
      if broker.id !in replicas && load.HasCapacity(broker.id) {
        replicas := replicas + [broker.id];
      }
    }
    ScanIsWindow(bs, idx, attempts, limits, counts);
    TurnMeetsAll(bs, idx, limits, counts);
    ScanIsPrefix(bs, idx, Min(attempts, n), limits, counts);
    if |replicas| < want {
      return Err(NotEnoughBrokers), idx';
    }
    PrefixIsChoice(replicas, want, bs, idx, limits, counts);
    r := Ok(replicas);
  }

  lemma AtSeat(bs: seq<Broker>, i: nat)
    requires bs != []
    ensures Seat(bs, i) == bs[i % |bs|].id
  {
  }

  lemma ScanIsWindow(bs: seq<Broker>, start: nat, k: nat, limits: map<BrokerId, int>, counts: map<BrokerId, int>)
    requires bs != []
    ensures Scan(bs, start, k, limits, counts) == RoomIds(Window(bs, start, Min(k, |bs|)), limits, counts)
    ensures k >= |bs| ==> Scan(bs, start, k, limits, counts) == Turn(bs, start, limits, counts)
  {
  }

  lemma PrefixIsChoice(list: seq<BrokerId>, want: nat, bs: seq<Broker>, start: nat,
                       limits: map<BrokerId, int>, counts: map<BrokerId, int>)
    requires DistinctIds(bs) && 0 < want <= |bs| && |list| == want
    requires list <= Turn(bs, start, limits, counts)
    ensures Choice(list, want, bs, limits, counts)
  {
    var turn := Turn(bs, start, limits, counts);
    TurnMeetsAll(bs, start, limits, counts);
    assert list == turn[..want];
    forall b | b in list ensures b in Ids(bs) && HasRoom(limits, counts, b) {
      assert b in Elems(turn);
    }
  }

  /** A partition can be placed: it wants a replica, enough brokers have room and, rack-aware, enough racks do. */
  ghost predicate Placeable(p: PartitionInfo, bs: seq<Broker>, rackAware: bool, limits: map<BrokerId, int>, counts: map<BrokerId, int>) {
    var want := Min(p.replicas, |bs|);
    0 < want <= |Capable(bs, limits, counts)| && !Stalls(p, bs, rackAware, limits, counts)
  }

  /** The rack-aware selection loops forever: too few racks have room. */
  ghost predicate Stalls(p: PartitionInfo, bs: seq<Broker>, rackAware: bool, limits: map<BrokerId, int>, counts: map<BrokerId, int>) {
    rackAware && |RoomyRacks(bs, limits, counts)| < Min(Min(p.replicas, |bs|), |RackNames(bs)|)
  }

  /** Succeeds exactly when the partition can be placed, and never returns exactly when it stalls. */
  method SelectReplicas(p: PartitionInfo, bs: seq<Broker>, idx: nat, c: Constraints, load: LoadTracker)
    returns (r: Result<seq<BrokerId>, PlacementError>, idx': nat)
    requires DistinctIds(bs) && bs != []
    ensures p.replicas == 0 ==> r == Err(ZeroReplicas)
    ensures r.Ok? <==> Placeable(p, bs, c.rackAware, load.limits, load.counts)
    ensures r == Err(Diverges) <==> Stalls(p, bs, c.rackAware, load.limits, load.counts)
    ensures r.Err? ==> r.error in {ZeroReplicas, Diverges, NotEnoughBrokers}
    ensures r.Ok? ==> Choice(r.value, p.replicas, bs, load.limits, load.counts)
    ensures !c.rackAware && r.Ok? ==>
      && idx <= idx' <= idx + |bs|
      && r.value == RoomIds(Window(bs, idx, idx' - idx), load.limits, load.counts)
    ensures c.rackAware && r.Ok? ==>
      |RacksOf(bs, r.value)| == Min(Min(p.replicas, |bs|), |RackNames(bs)|)
    ensures r.Ok? ==> Takes(p, bs, c.rackAware, load.limits, Deal(idx, load.counts, r.value), idx')
  {
    hide Job.Chosen, RackList, Seat;
    var want := Min(p.replicas, |bs|);
    if want == 0 { return Err(ZeroReplicas), idx; }
    if c.rackAware {
      r, idx' := SelectRackAware(want, bs, idx, load);
    } else {
      r, idx' := SelectStandard(want, bs, idx, load);
    }
  }

  // ---------------------------------------------------------------------
  // Even spread
  // ---------------------------------------------------------------------

  /** How many t below total have t mod n = i. */
  ghost function Share(total: nat, n: nat, i: nat): nat
    requires n > 0
  {
    if total == 0 then 0
    else Share(total - 1, n, i) + if (total - 1) % n == i then 1 else 0
  }

  lemma {:induction false} ShareValue(total: nat, n: nat, i: nat)
    requires i < n
    ensures Share(total, n, i) == total / n + if i < total % n then 1 else 0
  {
    if total == 0 {
      UniqueRemainder(0, n, 0, 0);
    } else {
      ShareValue(total - 1, n, i);
      DivStep(total - 1, n);
    }
  }

  lemma DivStep(x: nat, n: nat)
    requires n > 0
    ensures if x % n + 1 < n then (x + 1) / n == x / n && (x + 1) % n == x % n + 1
            else (x + 1) / n == x / n + 1 && (x + 1) % n == 0
  {
    var q, r := x / n, x % n;
    if r + 1 < n {
      UniqueRemainder(x + 1, n, q, r + 1);
    } else {
      assert n * (q + 1) == n * q + n;
      UniqueRemainder(x + 1, n, q + 1, 0);
    }
  }

  /** Shares differ by at most one. */
  lemma SharesEven(total: nat, n: nat, i: nat, j: nat)
    requires i < n && j < n
    ensures Share(total, n, i) - Share(total, n, j) <= 1
  {
    ShareValue(total, n, i);
    ShareValue(total, n, j);
  }

  lemma {:induction false} WindowFull(bs: seq<Broker>, idx: nat, k: nat, limits: map<BrokerId, int>, counts: map<BrokerId, int>)
    requires bs != [] && Unlimited(limits)
    ensures |RoomIds(Window(bs, idx, k), limits, counts)| == k
  {
    if k > 0 {
      WindowFull(bs, idx, k - 1, limits, counts);
      WindowAppend(bs, idx, k - 1, limits, counts);
    }
  }

  lemma ShareStep(total: nat, n: nat, i: nat, j: nat)
    requires n > 0 && j == total % n
    ensures Share(total + 1, n, i) == Share(total, n, i) + if j == i then 1 else 0
  {
  }

  lemma {:induction false} WindowShare(bs: seq<Broker>, idx: nat, k: nat, i: nat, limits: map<BrokerId, int>, counts: map<BrokerId, int>)
    requires DistinctIds(bs) && i < |bs| && Unlimited(limits)
    ensures multiset(RoomIds(Window(bs, idx, k), limits, counts))[bs[i].id] + Share(idx, |bs|, i) == Share(idx + k, |bs|, i)
  {
    hide RoomIds, Window, Share;
    if k == 0 {
      NothingScanned(bs, idx, limits, counts);
    } else {
      var m := idx + (k - 1);
      WindowShare(bs, idx, k - 1, i, limits, counts);
      WindowAppend(bs, idx, k - 1, limits, counts);
      ShareStep(m, |bs|, i, m % |bs|);
      assert bs[m % |bs|].id == bs[i].id <==> i == m % |bs|;
      assert m + 1 == idx + k;
    }
  }

  lemma NothingScanned(bs: seq<Broker>, idx: nat, limits: map<BrokerId, int>, counts: map<BrokerId, int>)
    requires bs != []
    ensures RoomIds(Window(bs, idx, 0), limits, counts) == []
    ensures Scan(bs, idx, 0, limits, counts) == []
  {
  }

  /** Without limits nothing stalls, and whatever wants a replica can be placed, rack-aware or not. */
  lemma UnlimitedPlaceable(p: PartitionInfo, bs: seq<Broker>, rackAware: bool, limits: map<BrokerId, int>, counts: map<BrokerId, int>)
    requires DistinctIds(bs) && bs != [] && Unlimited(limits)
    ensures !Stalls(p, bs, rackAware, limits, counts)
    ensures p.replicas > 0 ==> Placeable(p, bs, rackAware, limits, counts)
  {
    assert Capable(bs, limits, counts) == Ids(bs);
    assert RoomyRacks(bs, limits, counts) == RackNames(bs);
    IdsCardinality(bs);
  }

  ghost predicate Even(placed: multiset<BrokerId>, bs: seq<Broker>, total: nat) {
    forall i :: 0 <= i < |bs| ==> placed[bs[i].id] == Share(total, |bs|, i)
  }

  lemma EvenStep(placed: multiset<BrokerId>, bs: seq<Broker>, ps: seq<PartitionInfo>, n: nat, idx: nat, k: nat,
                 limits: map<BrokerId, int>, counts: map<BrokerId, int>)
    requires DistinctIds(bs) && bs != [] && Unlimited(limits) && n < |ps|
    requires idx == Slots(ps, |bs|, n) && Even(placed, bs, idx)
    requires Choice(RoomIds(Window(bs, idx, k), limits, counts), ps[n].replicas, bs, limits, counts)
    ensures Even(placed + multiset(RoomIds(Window(bs, idx, k), limits, counts)), bs, idx + k)
    ensures idx + k == Slots(ps, |bs|, n + 1)
  {
    var list := RoomIds(Window(bs, idx, k), limits, counts);
    WindowFull(bs, idx, k, limits, counts);
    forall i | 0 <= i < |bs| ensures (placed + multiset(list))[bs[i].id] == Share(idx + k, |bs|, i) {
      WindowShare(bs, idx, k, i, limits, counts);
    }
  }

  lemma EvenDone(v: Placement, ps: seq<PartitionInfo>, bs: seq<Broker>, placed: multiset<BrokerId>,
                 limits: map<BrokerId, int>, existing: map<BrokerId, int>, counts: map<BrokerId, int>)
    requires bs != [] && Progress(v, ps, bs, placed, limits, existing, counts) && Even(placed, bs, Slots(ps, |bs|, |ps|))
    ensures EvenLoad(v, ps, bs)
  {
    forall i | 0 <= i < |bs| ensures Get(v.load, bs[i].id) == Share(Slots(ps, |bs|, |ps|), |bs|, i) {
      assert Get(v.load, bs[i].id) == placed[bs[i].id];
    }
  }

  /** The broker at position i of the sorted list holds every n-th replica, starting with the i-th. */
  ghost predicate EvenLoad(v: Placement, ps: seq<PartitionInfo>, bs: seq<Broker>)
    requires bs != []
  {
    forall i :: 0 <= i < |bs| ==> Get(v.load, bs[i].id) == Share(Slots(ps, |bs|, |ps|), |bs|, i)
  }

  // ---------------------------------------------------------------------
  // Whole batches
  // ---------------------------------------------------------------------

  /** How far a pass got, the turns it took, and where it stood then. */
  datatype Stop = Stop(reached: nat, turns: seq<Deal>, idx: nat, counts: map<BrokerId, int>)

  /** The first partitions were placed, up to the end of the batch or to one that cannot be. */
  ghost predicate StoppedAt(at: Stop, ps: seq<PartitionInfo>, bs: seq<Broker>, c: Constraints) {
    && at.reached == |at.turns| <= |ps| && bs != [] && Chain(at.turns, ps, bs, c, at.idx, at.counts)
    && (at.reached < |ps| ==> !Placeable(ps[at.reached], bs, c.rackAware, CapacityLimits(bs, c.maxPerBroker), at.counts))
  }

  ghost predicate StalledAt(at: Stop, ps: seq<PartitionInfo>, bs: seq<Broker>, c: Constraints) {
    && at.reached < |ps|
    && Stalls(ps[at.reached], bs, c.rackAware, CapacityLimits(bs, c.maxPerBroker), at.counts)
  }

  /** A batch is placed as far as it can be; all of it and without repeated keys is a success. */
  method Assign(ps: seq<PartitionInfo>, brokers: seq<Broker>, c: Constraints)
    returns (r: Result<Assignment, PlacementError>, ghost at: Stop)
    requires DistinctIds(brokers)
    ensures brokers == [] ==> r == Err(NoBrokers)
    ensures r.Ok? ==> fresh(r.value)
    ensures r.Ok? && ps == [] ==> r.value.View() == EMPTY
    ensures r.Ok? ==>
      var bs := Available(brokers, c);
      Places(r.value.View(), ps, bs, CapacityLimits(bs, c.maxPerBroker), c.existingLoad)
    ensures
      var bs := Available(brokers, c);
      bs != [] ==> StoppedAt(at, ps, bs, c) && (r.Ok? <==> at.reached == |ps| && DistinctKeys(ps))
    ensures r == Err(Diverges) <==> var bs := Available(brokers, c); bs != [] && StalledAt(at, ps, bs, c)
    ensures
      var bs := Available(brokers, c);
      bs != [] && Unlimited(CapacityLimits(bs, c.maxPerBroker)) ==>
        && r != Err(Diverges)
        && ((forall p :: p in ps ==> p.replicas > 0) ==> (r.Ok? <==> DistinctKeys(ps)))
        && (r.Ok? ==> if c.rackAware then RackSpread(r.value.View(), ps, bs)
                      else RoundSpread(r.value.View(), ps, bs) && EvenLoad(r.value.View(), ps, bs))
    ensures r.Ok? ==> Dealt(r.value.View(), ps, at.turns)
  {
    hide InPass, Placeable, Stalls, Unlimited, Chain;
    var bs := Available(brokers, c);
    var limits := CapacityLimits(bs, c.maxPerBroker);
    AvailableDistinct(brokers, c);
    at := Stop(0, [], 0, Seed(bs, c.existingLoad));
    if |brokers| == 0 {
      assert bs == [];
      return Err(NoBrokers), at;
    }
    if |ps| == 0 {
      var a := new Assignment();
      EmptyPlaces(bs, limits, c.existingLoad);
      if bs != [] { ChainStart(ps, bs, c); }
      return Ok(a), at;
    }
    if |bs| == 0 { return Err(NoAvailableBrokers), at; }
    AvailableById(brokers, c);
    r, at := AssignTo(ps, bs, c);
  }

  lemma AvailableById(brokers: seq<Broker>, c: Constraints)
    requires DistinctIds(brokers)
    ensures ById(Available(brokers, c))
  {
    AvailableDistinct(brokers, c);
  }

  /** Between two partitions of a pass; even when nothing limits the choice. */
  ghost predicate InPass(v: Placement, ps: seq<PartitionInfo>, i: nat, bs: seq<Broker>, c: Constraints,
                         counts: map<BrokerId, int>, placed: multiset<BrokerId>, idx: nat)
    requires i <= |ps|
  {
    var limits := CapacityLimits(bs, c.maxPerBroker);
    && Progress(v, ps[..i], bs, placed, limits, Seed(bs, c.existingLoad), counts)
    && (!c.rackAware && Unlimited(limits) ==> idx == Slots(ps, |bs|, i) && Even(placed, bs, idx))
  }

  lemma StartOfPass(ps: seq<PartitionInfo>, bs: seq<Broker>, c: Constraints)
    requires bs != []
    ensures InPass(EMPTY, ps, 0, bs, c, Seed(bs, c.existingLoad), multiset{}, 0)
  {
    HoldsEmpty(bs);
    assert ps[..0] == [];
  }

  lemma StepOfPass(v: Placement, ps: seq<PartitionInfo>, i: nat, bs: seq<Broker>, c: Constraints, counts: map<BrokerId, int>,
                   placed: multiset<BrokerId>, idx: nat, idx': nat, list: seq<BrokerId>)
    requires DistinctIds(bs) && bs != [] && i < |ps| && InPass(v, ps, i, bs, c, counts, placed, idx)
    requires Choice(list, ps[i].replicas, bs, CapacityLimits(bs, c.maxPerBroker), counts)
    requires !c.rackAware ==> idx <= idx' && list == RoomIds(Window(bs, idx, idx' - idx), CapacityLimits(bs, c.maxPerBroker), counts)
    ensures InPass(Added(v, ps[i].Key(), list), ps, i + 1, bs, c, Tally(counts, list), placed + multiset(list), idx')
  {
    hide Progress, Even, Slots, Choice, Added, Tally, RoomIds, Window;
    var limits := CapacityLimits(bs, c.maxPerBroker);
    ProgressStep(v, ps[..i], bs, placed, limits, Seed(bs, c.existingLoad), counts, ps[i], list);
    assert ps[..i + 1] == ps[..i] + [ps[i]];
    if !c.rackAware && Unlimited(limits) {
      EvenStep(placed, bs, ps, i, idx, idx' - idx, limits, counts);
    }
  }

  lemma EndOfPass(v: Placement, ps: seq<PartitionInfo>, bs: seq<Broker>, c: Constraints, counts: map<BrokerId, int>,
                  placed: multiset<BrokerId>, idx: nat)
    requires bs != [] && InPass(v, ps, |ps|, bs, c, counts, placed, idx)
    ensures Consistent(v) <==> DistinctKeys(ps)
    ensures DistinctKeys(ps) ==> Places(v, ps, bs, CapacityLimits(bs, c.maxPerBroker), c.existingLoad)
    ensures !c.rackAware && Unlimited(CapacityLimits(bs, c.maxPerBroker)) ==> EvenLoad(v, ps, bs)
  {
    hide Progress, Even, Slots, Places, EvenLoad, Consistent, DistinctKeys;
    var limits := CapacityLimits(bs, c.maxPerBroker);
    assert ps[..|ps|] == ps;
    ProgressDone(v, ps, bs, placed, limits, c.existingLoad, counts);
    if !c.rackAware && Unlimited(limits) {
      EvenDone(v, ps, bs, placed, limits, Seed(bs, c.existingLoad), counts);
    }
  }

  method AssignTo(ps: seq<PartitionInfo>, bs: seq<Broker>, c: Constraints)
    returns (r: Result<Assignment, PlacementError>, ghost at: Stop)
    requires DistinctIds(bs) && bs != [] && ById(bs)
    ensures r.Ok? ==> fresh(r.value) && Dealt(r.value.View(), ps, at.turns) && Places(r.value.View(), ps, bs, CapacityLimits(bs, c.maxPerBroker), c.existingLoad)
    ensures StoppedAt(at, ps, bs, c) && (r.Ok? <==> at.reached == |ps| && DistinctKeys(ps))
    ensures r == Err(Diverges) <==> StalledAt(at, ps, bs, c)
    ensures Unlimited(CapacityLimits(bs, c.maxPerBroker)) ==>
        && r != Err(Diverges)
        && ((forall p :: p in ps ==> p.replicas > 0) ==> at.reached == |ps|)
        && (r.Ok? ==> if c.rackAware then RackSpread(r.value.View(), ps, bs)
                      else RoundSpread(r.value.View(), ps, bs) && EvenLoad(r.value.View(), ps, bs))
  {
    hide Chain, Dealt, Takes, RackSpread, RoundSpread, ById, InPass, Unlimited, Seed, Tally, Added, Choice, Places, Capable, RoomIds, Window, Consistent, EvenLoad, DistinctKeys, Placeable, Stalls;
    var a := new Assignment();
    var load := new LoadTracker(bs, c);
    var limits := CapacityLimits(bs, c.maxPerBroker);
    var idx: nat := 0;
    ghost var placed: multiset<BrokerId> := multiset{};
    ghost var turns: seq<Deal> := [];
    StartOfPass(ps, bs, c);
    ChainStart(ps, bs, c);
    for i := 0 to |ps|
      invariant fresh(a) && fresh(load) && load.limits == limits
      invariant InPass(a.View(), ps, i, bs, c, load.counts, placed, idx)
      invariant |turns| == i && Chain(turns, ps, bs, c, idx, load.counts) && Dealt(a.View(), ps, turns)
    {
      var p := ps[i];
      var choice, idx' := SelectReplicas(p, bs, idx, c, load);
      if choice.Err? {
        if Unlimited(limits) { UnlimitedPlaceable(p, bs, c.rackAware, limits, load.counts); }
        return Err(choice.error), Stop(i, turns, idx, load.counts);
      }
      StepOfPass(a.View(), ps, i, bs, c, load.counts, placed, idx, idx', choice.value);
      ChainStep(turns, ps, bs, c, idx, load.counts, choice.value, idx');
      DealtStep(a.View(), ps, turns, Deal(idx, load.counts, choice.value));
      turns := turns + [Deal(idx, load.counts, choice.value)];
      placed := placed + multiset(choice.value);
      load.AddAll(choice.value);
      a.AddReplica(p.topic, p.partition, choice.value);
      idx := idx';
    }
    at := Stop(|ps|, turns, idx, load.counts);
    EndOfPass(a.View(), ps, bs, c, load.counts, placed, idx);
    var ok := a.Validate();
    if !ok { return Err(InvalidAssignment), at; }
    Spreads(a.View(), turns, ps, bs, c, idx, load.counts);
    r := Ok(a);
  }

  lemma Spreads(v: Placement, turns: seq<Deal>, ps: seq<PartitionInfo>, bs: seq<Broker>, c: Constraints, idx: nat, counts: map<BrokerId, int>)
    requires bs != [] && DistinctIds(bs) && ById(bs) && Chain(turns, ps, bs, c, idx, counts) && |turns| == |ps| && Dealt(v, ps, turns)
    requires Places(v, ps, bs, CapacityLimits(bs, c.maxPerBroker), c.existingLoad) && DistinctKeys(ps)
    ensures Unlimited(CapacityLimits(bs, c.maxPerBroker)) ==> if c.rackAware then RackSpread(v, ps, bs) else RoundSpread(v, ps, bs)
  {
    hide DistinctIds, ById, Chain, Dealt, Places, RackSpread, RoundSpread, Unlimited, AllFirst, CapacityLimits, DistinctKeys;
    PlacesAllFirst(v, ps, bs, CapacityLimits(bs, c.maxPerBroker), c.existingLoad);
    if Unlimited(CapacityLimits(bs, c.maxPerBroker)) {
      if c.rackAware { SpreadRacks(v, turns, ps, bs, c, idx, counts); } else { SpreadRound(v, turns, ps, bs, c, idx, counts); }
    }
  }

  predicate PartitionLess(a: PartitionInfo, b: PartitionInfo) {
    StringLess(a.topic, b.topic) || (a.topic == b.topic && a.partition < b.partition)
  }

  /** A balanced assignment comes back as it is, whatever brokers are available; otherwise all is placed anew. */
  method Rebalance(current: Assignment, brokers: seq<Broker>, c: Constraints)
    returns (r: Result<Assignment, PlacementError>, ghost ps: seq<PartitionInfo>, ghost at: Stop)
    requires DistinctIds(brokers) && WellFormed(current.View())
    ensures brokers == [] ==> r == Err(NoBrokers)
    ensures brokers != [] && Balanced(current.brokerLoad, 1) ==> r == Ok(current)
    ensures r.Ok? && !Balanced(current.brokerLoad, 1) ==>
      var bs := Available(brokers, c);
      && fresh(r.value)
      && Rebuilt(r.value.View(), current.View(), bs, CapacityLimits(bs, c.maxPerBroker), c.existingLoad)
      && InTopicOrder(ps) && Dealt(r.value.View(), ps, at.turns)
      && (Unlimited(CapacityLimits(bs, c.maxPerBroker)) && bs != [] ==>
            if c.rackAware then RackSpread(r.value.View(), ps, bs) else RoundSpread(r.value.View(), ps, bs))
    ensures
      var bs := Available(brokers, c);
      bs != [] && !Balanced(current.brokerLoad, 1) ==>
        && AsksFor(ps, old(current.partitions)) && StoppedAt(at, ps, bs, c)
        && (r == Err(Diverges) <==> StalledAt(at, ps, bs, c))
        && (r.Ok? <==> at.reached == |ps| && Unambiguous(old(current.partitions)))
    ensures
      var bs := Available(brokers, c);
      bs != [] && !Balanced(current.brokerLoad, 1) && Unlimited(CapacityLimits(bs, c.maxPerBroker)) ==>
        && r != Err(Diverges)
        && (r.Ok? <==> Unambiguous(old(current.partitions)))
    ensures r == Err(Diverges) ==> c.rackAware && !Unlimited(CapacityLimits(Available(brokers, c), c.maxPerBroker))
  {
    hide Places, Rebuilt, AsksFor, EvenLoad, DistinctKeys, Unlimited, WellFormed, Balanced, DistinctIds, StoppedAt, StalledAt, Unambiguous,
      Available, CapacityLimits, Sort, InTopicOrder, Dealt, RackSpread, RoundSpread;
    ps, at := [], Stop(0, [], 0, map[]);
    NobodyAvailable(c);
    if |brokers| == 0 { return Err(NoBrokers), ps, at; }
    LoadsOfWellFormed(current.View());
    var balanced := current.IsBalanced(1);
    if balanced { return Ok(current), ps, at; }
    var extracted := ExtractPartitions(current.partitions);
    SortedAsksFor(PartitionLess, extracted, current.partitions);
    var sorted := Sort(PartitionLess, extracted);
    ps := sorted;
    AskedOnceIff(ps, current.partitions);
    AllAsk(ps, current.View());
    r, at := Assign(sorted, brokers, c);
    ghost var bs := Available(brokers, c);
    StallsByRack(at, ps, bs, c);
    if r.Ok? {
      PlacesRebuilds(r.value.View(), current.View(), ps, bs, CapacityLimits(bs, c.maxPerBroker), c.existingLoad);
      PlacesDistinct(r.value.View(), ps, bs, CapacityLimits(bs, c.maxPerBroker), c.existingLoad);
      SortedAsks(extracted);
      VersionSpread(r.value.View(), current.version + 1, ps, at.turns, bs);
      r.value.version := current.version + 1;
    }
  }

  lemma PlacesDistinct(v: Placement, ps: seq<PartitionInfo>, bs: seq<Broker>, limits: map<BrokerId, int>, existing: map<BrokerId, int>)
    requires Places(v, ps, bs, limits, existing)
    ensures DistinctKeys(ps)
  {
  }

  /** By topic, then by number. */
  ghost predicate InTopicOrder(ps: seq<PartitionInfo>) {
    forall i, j :: 0 <= i < j < |ps| ==>
      StringLess(ps[i].topic, ps[j].topic) || (ps[i].topic == ps[j].topic && ps[i].partition < ps[j].partition)
  }

  /** Distinct keys are put in order. */
  lemma SortedAsks(ps: seq<PartitionInfo>)
    requires DistinctKeys(Sort(PartitionLess, ps))
    ensures InTopicOrder(Sort(PartitionLess, ps))
  {
    hide Sort;
    var sorted := Sort(PartitionLess, ps);
    SameElems(sorted, ps);
    PlacesOrdered(sorted, Elems(ps));
    hide Orders, PartitionLess;
    SortSorted(PartitionLess, ps);
    forall i, j | 0 <= i < j < |sorted|
      ensures StringLess(sorted[i].topic, sorted[j].topic) || (sorted[i].topic == sorted[j].topic && sorted[i].partition < sorted[j].partition)
    {
      assert sorted[i].Key() != sorted[j].Key();
      Ordered(sorted[i], sorted[j]);
    }
  }

  lemma PlacesOrdered(sorted: seq<PartitionInfo>, all: set<PartitionInfo>)
    requires DistinctKeys(sorted) && Elems(sorted) == all
    ensures Orders(PartitionLess, all)
  {
    hide DistinctKeys, StringLess;
    forall x, y, z | PartitionLess(x, y) && PartitionLess(y, z) ensures PartitionLess(x, z) {
      if StringLess(x.topic, y.topic) && StringLess(y.topic, z.topic) { StringLessTransitive(x.topic, y.topic, z.topic); }
    }
    forall x ensures !PartitionLess(x, x) { StringLessIrreflexive(x.topic); }
    forall x, y | x in all && y in all && x != y ensures PartitionLess(x, y) || PartitionLess(y, x) {
      DifferentPlaces(sorted, x, y);
      StringLessTotal(x.topic, y.topic);
    }
  }

  /** Of two places that are not out of order, the first comes first. */
  lemma Ordered(x: PartitionInfo, y: PartitionInfo)
    requires !PartitionLess(y, x) && x.Key() != y.Key()
    ensures StringLess(x.topic, y.topic) || (x.topic == y.topic && x.partition < y.partition)
  {
    hide StringLess;
    StringLessTotal(x.topic, y.topic);
  }

  lemma DifferentPlaces(ps: seq<PartitionInfo>, x: PartitionInfo, y: PartitionInfo)
    requires DistinctKeys(ps) && x in Elems(ps) && y in Elems(ps) && x != y
    ensures x.topic != y.topic || x.partition != y.partition
  {
    var i :| 0 <= i < |ps| && ps[i] == x;
    var j :| 0 <= j < |ps| && ps[j] == y;
    assert ps[i].Key() != ps[j].Key();
  }

  lemma VersionSpread(v: Placement, n: int, ps: seq<PartitionInfo>, turns: seq<Deal>, bs: seq<Broker>)
    ensures Dealt(v, ps, turns) ==> Dealt(v.(version := n), ps, turns)
    ensures bs != [] && RackSpread(v, ps, bs) ==> RackSpread(v.(version := n), ps, bs)
    ensures bs != [] && RoundSpread(v, ps, bs) ==> RoundSpread(v.(version := n), ps, bs)
  {
    hide Lowest, RackFrom, Seat, Slots, DistinctKeys, RackList, PartitionInfo.Key;
    var w := v.(version := n);
    if bs != [] {
      forall k | 0 <= k < |ps| && GoesRoundRacks(v, ps[k], bs, k) ensures GoesRoundRacks(w, ps[k], bs, k) {}
      forall k | 0 <= k < |ps| && GoesRound(v, ps[k], bs, Slots(ps, |bs|, k)) ensures GoesRound(w, ps[k], bs, Slots(ps, |bs|, k)) {}
    }
    assert forall k, list :: HasList(v, k, list) ==> HasList(w, k, list);
  }

  lemma NobodyAvailable(c: Constraints)
    ensures Available([], c) == []
  {
  }

  lemma StallsByRack(at: Stop, ps: seq<PartitionInfo>, bs: seq<Broker>, c: Constraints)
    ensures StalledAt(at, ps, bs, c) ==> c.rackAware
  {
  }

  /** Every partition of a well-formed assignment has a replica. */
  lemma AllAsk(ps: seq<PartitionInfo>, v: Placement)
    requires WellFormed(v) && AsksFor(ps, v.partitions)
    ensures forall p :: p in ps ==> p.replicas > 0
  {
    hide AsksFor, ParsePartitionKey, ExactLoad, Distinct;
    AskedFor(ps, v.partitions);
  }
}

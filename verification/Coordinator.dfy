/** The cluster coordinator (pkg/cluster/coordinator.go). */
module Coordinator {
  import opened Common
  import opened Placements
  import opened Batches
  import opened Rebuilding
  import opened Turns
  import opened StickyStrategy
  import opened ClusterRuns
  import RoundRobin
  import RangeAssign

  /** The strategy never returns exactly when it is not range and the partition it stopped at stalls. */
  method AssignWith(strategy: Strategy, ps: seq<PartitionInfo>, brokers: seq<Broker>, c: Constraints)
    returns (r: Result<Assignment, PlacementError>, ghost at: RoundRobin.Stop)
    requires DistinctIds(brokers)
    ensures r.Ok? ==> fresh(r.value) && AssignResult(r.value.View(), ps, brokers, c)
    ensures !strategy.UseRange? && Available(brokers, c) != [] ==> RoundRobin.StoppedAt(at, ps, Available(brokers, c), c)
    ensures r == Err(Diverges) <==> Hangs(strategy, at, ps, brokers, c)
  {
    hide Places, DistinctIds, RoundRobin.StoppedAt, RoundRobin.StalledAt, Unlimited, RoundRobin.EvenLoad, DistinctKeys;
    match strategy {
      case UseRoundRobin => r, at := RoundRobin.Assign(ps, brokers, c);
      case UseRange =>
        ghost var topics;
        r, topics := RangeAssign.Assign(ps, brokers, c);
        at := RoundRobin.Stop(0, [], 0, map[]);
      case UseSticky => r, at := StickyStrategy.Assign(ps, brokers, c);
    }
  }

  /** Round-robin and sticky loop forever at a partition for which too few racks have room. */
  ghost predicate Hangs(strategy: Strategy, at: RoundRobin.Stop, ps: seq<PartitionInfo>, brokers: seq<Broker>, c: Constraints) {
    var bs := Available(brokers, c);
    !strategy.UseRange? && bs != [] && RoundRobin.StalledAt(at, ps, bs, c)
  }

  lemma SomethingAsked(ps: seq<PartitionInfo>, parts: map<string, seq<BrokerId>>)
    requires AsksFor(ps, parts)
    ensures parts != map[] ==> ps != []
  {
    AskedFor(ps, parts);
  }

  /** Without limits a rebuilt assignment is spread by its strategy over the racks of all brokers. */
  ghost predicate SpreadAnew(strategy: Strategy, v: Placement, parts: map<string, seq<BrokerId>>, brokers: seq<Broker>, limit: int) {
    var bs := Available(brokers, RebalanceConstraints(limit));
    parts != map[] && bs != [] && Unlimited(CapacityLimits(bs, limit)) ==>
      exists ps :: AsksFor(ps, parts) && SpreadBy(strategy, v, ps, bs)
  }

  ghost predicate SpreadBy(strategy: Strategy, v: Placement, ps: seq<PartitionInfo>, bs: seq<Broker>)
    requires bs != []
  {
    if strategy.UseRoundRobin? then RoundRobin.InTopicOrder(ps) && RackSpread(v, ps, bs)
    else exists topics :: RangeAssign.IsTopicList(topics, ps) && RangeAssign.RangesLed(v, ps, topics, bs, true)
  }

  method RebalanceWith(strategy: Strategy, current: Assignment, brokers: seq<Broker>, limit: int)
    returns (r: Result<Assignment, PlacementError>)
    requires DistinctIds(brokers) && WellFormed(current.View())
    ensures r.Ok? ==> (r.value == current || fresh(r.value)) && RebalanceResult(strategy, r.value.View(), current.View(), brokers, limit)
    ensures r == Err(Diverges) ==> strategy.UseRoundRobin? && !Unlimited(CapacityLimits(Available(brokers, RebalanceConstraints(limit)), limit))
    ensures r.Ok? && !strategy.UseSticky? && !Balanced(current.brokerLoad, 1) ==>
      SpreadAnew(strategy, r.value.View(), old(current.partitions), brokers, limit)
  {
    hide DistinctIds, WellFormed, Rebuilt, Rebalanced, Balanced, Available, CapacityLimits, Unlimited, AsksFor, Unambiguous,
      RoundRobin.StoppedAt, RoundRobin.StalledAt, RoundRobin.InTopicOrder, RackSpread, RangeAssign.RangesLed, RangeAssign.IsTopicList, RoundSpread, Dealt;
    var c := RebalanceConstraints(limit);
    match strategy {
      case UseRoundRobin =>
        ghost var ps, at;
        r, ps, at := RoundRobin.Rebalance(current, brokers, c);
      case UseRange =>
        ghost var ps, topics;
        r, ps, topics := RangeAssign.Rebalance(current, brokers, c);
        if r.Ok? && !Balanced(current.brokerLoad, 1) { SomethingAsked(ps, current.partitions); }
      case UseSticky =>
        NoneExcluded(brokers);
        ghost var topped;
        r, topped := StickyStrategy.Rebalance(current, brokers, c);
    }
  }

  function Given(constraints: Option<Constraints>): Constraints {
    if constraints.Some? then constraints.value else Constraints(false, 0, map[], {})
  }

  class ClusterCoordinator {
    const strategy: Strategy
    var currentAssignment: Assignment?
    var partitionLimit: int
    var rebalancing: bool
    var rebalanceCount: nat
    var failedRebalances: nat

    // what performRebalance read before it let go of the lock
    var snapshot: Assignment?
    var snapshotLimit: int

    // an AssignPartitions call loops forever and holds the lock for good
    var stuck: bool

    /** The value-level state the runs are about. */
    ghost function Abstract(): State
      reads this, currentAssignment, snapshot
    {
      State(if currentAssignment == null then None else Some(currentAssignment.View()), partitionLimit,
            if snapshot == null then None else Some(Snapshot(snapshot.View(), snapshotLimit)))
    }

    ghost predicate Valid()
      reads this, currentAssignment, snapshot
    {
      && (currentAssignment != null ==> WellFormed(currentAssignment.View()))
      && (snapshot != null ==> rebalancing && WellFormed(snapshot.View()))
    }

    constructor (strategy: Strategy)
      ensures Valid() && Abstract() == START && this.strategy == strategy && !rebalancing && !stuck
    {
      this.strategy := strategy;
      currentAssignment, snapshot := null, null;
      partitionLimit, snapshotLimit := 0, 0;
      rebalancing, rebalanceCount, failedRebalances, stuck := false, 0, 0, false;
    }

    method CumulativeExistingLoad(caller: map<BrokerId, int>) returns (merged: map<BrokerId, int>)
      ensures merged == Cumulative(Abstract().current, caller)
    {
      var own := if currentAssignment == null then map[] else currentAssignment.brokerLoad;
      merged := own;
      var rest := caller.Keys;
      while rest != {}
        invariant rest <= caller.Keys && merged.Keys == own.Keys + (caller.Keys - rest)
        invariant forall b :: b in merged ==> merged[b] == Get(own, b) + if b in rest then 0 else Get(caller, b)
        decreases rest
      {
        var b :| b in rest;
        merged := merged[b := Get(merged, b) + caller[b]];
        rest := rest - {b};
      }
    }

    /**
     * A successful assignment is one Assigned step; a failed one changes nothing. When the strategy loops
     * forever the lock is never given back, and from then on no call returns.
     */
    method AssignPartitions(ps: seq<PartitionInfo>, brokers: seq<Broker>, constraints: Option<Constraints>)
      returns (r: Result<Assignment, PlacementError>, ghost at: RoundRobin.Stop)
      requires Valid() && DistinctIds(brokers)
      modifies this
      ensures Valid()
      ensures r.Err? ==> Abstract() == old(Abstract())
      ensures r.Ok? ==>
        var c := Given(constraints);
        && fresh(r.value) && r.value != currentAssignment
        && Step(strategy, old(Abstract()), Assigned(ps, brokers, c, r.value.View()), Abstract())
        && Records(old(Abstract()), r.value.View(), Abstract()) && partitionLimit == c.maxPerBroker
      ensures r.Ok? ==>
        var c := Given(constraints);
        forall b :: Total(r.value.partitions)[b] > 0 ==>
          Allows(Get(CapacityLimits(Available(brokers, c), c.maxPerBroker), b),
                 Get(old(LoadOf(Abstract().current)), b) + Get(c.existingLoad, b) + Total(r.value.partitions)[b])
      ensures snapshot == old(snapshot) && rebalancing == old(rebalancing)
      ensures stuck <==> r == Err(Diverges)
      ensures stuck <==>
        var c := Given(constraints);
        old(stuck) || (brokers != [] && Hangs(strategy, at, ps, brokers, c.(existingLoad := Cumulative(old(Abstract()).current, c.existingLoad))))
    {
      hide WellFormed, AssignResult, Cumulative, Merged, DistinctIds, Hangs, RoundRobin.StoppedAt, Available, CapacityLimits, Records, Total;
      ghost var s := Abstract();
      at := RoundRobin.Stop(0, [], 0, map[]);
      if stuck { return Err(Diverges), at; }
      if |brokers| == 0 { return Err(NoBrokers), at; }
      var c := Given(constraints);
      var existing := CumulativeExistingLoad(c.existingLoad);
      var effective := c.(existingLoad := existing);
      r, at := AssignWith(strategy, ps, brokers, effective);
      stuck := r == Err(Diverges);
      if r.Err? { return; }
      ghost var was := Abstract().current;
      AssignedWellFormed(r.value.View(), ps, brokers, effective);
      MergedWellFormed(was, r.value.View());
      var merged := MergeAssignment(currentAssignment, r.value);
      currentAssignment := merged;
      partitionLimit := c.maxPerBroker;
      AssignRecords(strategy, s, Assigned(ps, brokers, c, r.value.View()), Abstract());
      CallerCounted(r.value.View(), ps, brokers, c, s.current);
    }

    /** Takes the snapshot, unless a rebalance is running or nothing was ever assigned. */
    method BeginRebalance() returns (outcome: Outcome)
      requires Valid()
      modifies this
      ensures Valid() && stuck == old(stuck)
      ensures outcome.NeverReturns? <==> stuck
      ensures outcome.Done? <==> !stuck && !old(rebalancing) && currentAssignment != null
      ensures !outcome.Done? ==> Abstract() == old(Abstract()) && rebalancing == old(rebalancing)
      ensures outcome.Done? ==> rebalancing && snapshot != null && Step(strategy, old(Abstract()), Began, Abstract())
    {
      hide WellFormed;
      if stuck { return NeverReturns; }
      if rebalancing { return GaveUp; }
      if currentAssignment == null { return GaveUp; }
      rebalancing := true;
      snapshot, snapshotLimit := currentAssignment, partitionLimit;
      return Done;
    }

    /**
     * Computes on the snapshot and installs the result. On failure only the snapshot is dropped; if the
     * strategy loops forever, or the lock is never given back, the rebalance stays in progress for good.
     */
    method FinishRebalance(brokers: seq<Broker>) returns (outcome: Outcome)
      requires Valid() && snapshot != null && DistinctIds(brokers)
      modifies this
      ensures Valid()
      ensures outcome.Done? ==>
        && currentAssignment != null && !rebalancing && rebalanceCount == old(rebalanceCount) + 1
        && Step(strategy, old(Abstract()), Installed(brokers, currentAssignment.View()), Abstract())
        && (!strategy.UseSticky? && !Balanced(old(snapshot.brokerLoad), 1) ==>
              SpreadAnew(strategy, currentAssignment.View(), old(snapshot.partitions), brokers, old(snapshotLimit)))
      ensures outcome.GaveUp? ==>
        && !rebalancing && failedRebalances == old(failedRebalances) + 1
        && Step(strategy, old(Abstract()), Failed, Abstract())
      ensures outcome.NeverReturns? ==>
        && Abstract() == old(Abstract()) && rebalancing
        && (stuck || (strategy.UseRoundRobin? && !Unlimited(CapacityLimits(Available(brokers, RebalanceConstraints(snapshotLimit)), snapshotLimit))))
      ensures stuck ==> outcome.NeverReturns?
      ensures stuck == old(stuck)
    {
      hide WellFormed, RebalanceResult, DistinctIds, Unlimited, Available, CapacityLimits, SpreadAnew, Balanced;
      if stuck { return NeverReturns; }
      if |brokers| == 0 {
        failedRebalances, rebalancing, snapshot := failedRebalances + 1, false, null;
        return GaveUp;
      }
      var r := RebalanceWith(strategy, snapshot, brokers, snapshotLimit);
      if r == Err(Diverges) { return NeverReturns; }
      if r.Err? {
        failedRebalances, rebalancing, snapshot := failedRebalances + 1, false, null;
        return GaveUp;
      }
      RebalancedWellFormed(strategy, r.value.View(), snapshot.View(), brokers, snapshotLimit);
      currentAssignment := r.value;
      rebalanceCount, rebalancing, snapshot := rebalanceCount + 1, false, null;
      return Done;
    }
  }

  datatype Outcome = Done | GaveUp | NeverReturns

  /** The limits hold with the running loads and the caller's on top of each other. */
  lemma CallerCounted(v: Placement, ps: seq<PartitionInfo>, brokers: seq<Broker>, c: Constraints, current: Option<Placement>)
    requires AssignResult(v, ps, brokers, c.(existingLoad := Cumulative(current, c.existingLoad)))
    ensures forall b :: Total(v.partitions)[b] > 0 ==>
      Allows(Get(CapacityLimits(Available(brokers, c), c.maxPerBroker), b),
             Get(LoadOf(current), b) + Get(c.existingLoad, b) + Total(v.partitions)[b])
  {
    hide Total, CapacityLimits, Places, Available, Cumulative;
    var d := c.(existingLoad := Cumulative(current, c.existingLoad));
    var bs := Available(brokers, d);
    SameAvailable(brokers, c, d);
    PlacesWithin(v, ps, bs, CapacityLimits(bs, d.maxPerBroker), d.existingLoad);
    forall b { CumulativeIs(current, c.existingLoad, b); }
  }

  lemma SameAvailable(brokers: seq<Broker>, c: Constraints, d: Constraints)
    requires c.excluded == d.excluded
    ensures Available(brokers, c) == Available(brokers, d)
  {
  }

  lemma PlacesWithin(v: Placement, ps: seq<PartitionInfo>, bs: seq<Broker>, limits: map<BrokerId, int>, existing: map<BrokerId, int>)
    requires Places(v, ps, bs, limits, existing)
    ensures WithinLimits(Total(v.partitions), limits, existing)
  {
    hide Total, ListFor, DistinctKeys, ExactLoad, WithinLimits;
  }

  lemma CumulativeIs(current: Option<Placement>, caller: map<BrokerId, int>, b: BrokerId)
    ensures Get(Cumulative(current, caller), b) == Get(LoadOf(current), b) + Get(caller, b)
  {
  }

  lemma AssignedWellFormed(v: Placement, ps: seq<PartitionInfo>, brokers: seq<Broker>, c: Constraints)
    requires AssignResult(v, ps, brokers, c)
    ensures WellFormed(v)
  {
    hide Places;
    var bs := Available(brokers, c);
    PlacesWellFormed(v, ps, bs, CapacityLimits(bs, c.maxPerBroker), c.existingLoad);
  }

  lemma RebalancedWellFormed(strategy: Strategy, v: Placement, taken: Placement, brokers: seq<Broker>, limit: int)
    requires RebalanceResult(strategy, v, taken, brokers, limit) && WellFormed(taken)
    ensures WellFormed(v)
  {
    hide WellFormed;
  }

  /** Folds a batch into the running assignment, copying rather than sharing. */
  method MergeAssignment(existing: Assignment?, added: Assignment) returns (merged: Assignment)
    ensures fresh(merged)
    ensures merged.View() == Merged(if existing == null then None else Some(existing.View()), added.View())
  {
    hide Recount;
    merged := new Assignment();
    if existing != null {
      merged.version := existing.version;
      merged.partitions := existing.partitions;
      merged.leaders := existing.leaders;
    }
    merged.partitions := merged.partitions + added.partitions;
    merged.leaders := merged.leaders + added.leaders;
    merged.version := merged.version + 1;
    merged.RecomputeBrokerLoad();
  }
}

/** The sticky strategy as a whole (Rebalance in pkg/cluster/sticky.go). */
module StickyStrategy {
  import opened Common
  import opened PartitionKeys
  import opened Placements
  import opened Selection
  import opened LoadBalancing
  import opened Sticky
  import opened Reassign
  import opened Balancer
  import opened Turns
  import opened RoundRobin
  import opened Batches

  /** A first assignment is left to round-robin. */
  method Assign(ps: seq<PartitionInfo>, brokers: seq<Broker>, c: Constraints)
    returns (r: Result<Assignment, PlacementError>, ghost at: Stop)
    requires DistinctIds(brokers)
    ensures brokers == [] ==> r == Err(NoBrokers)
    ensures r.Ok? ==>
      var bs := Available(brokers, c);
      fresh(r.value) && Places(r.value.View(), ps, bs, CapacityLimits(bs, c.maxPerBroker), c.existingLoad)
    ensures
      var bs := Available(brokers, c);
      bs != [] ==> StoppedAt(at, ps, bs, c) && (r.Ok? <==> at.reached == |ps| && DistinctKeys(ps))
    ensures r == Err(Diverges) <==> var bs := Available(brokers, c); bs != [] && StalledAt(at, ps, bs, c)
    ensures
      var bs := Available(brokers, c);
      bs != [] && Unlimited(CapacityLimits(bs, c.maxPerBroker)) ==>
        && r != Err(Diverges)
        && ((forall p :: p in ps ==> p.replicas > 0) ==> (r.Ok? <==> DistinctKeys(ps)))
        && (r.Ok? ==> if c.rackAware then RackSpread(r.value.View(), ps, bs)
                      else RoundSpread(r.value.View(), ps, bs) && EvenLoad(r.value.View(), ps, bs))
    ensures r.Ok? ==> Dealt(r.value.View(), ps, at.turns)
  {
    hide *;
    r, at := RoundRobin.Assign(ps, brokers, c);
  }

  /** What a rebalanced assignment owes to the one it replaces, on the available brokers ids. */
  ghost predicate Rebalanced(v: Placement, orig: Placement, ids: set<BrokerId>, limits: map<BrokerId, int>) {
    && v.partitions.Keys == orig.partitions.Keys && v.version == orig.version + 1
    && (forall k :: k in orig.partitions ==> |v.partitions[k]| == |orig.partitions[k]| && Elems(v.partitions[k]) <= ids)
    && WellFormed(v)
    && (Capped(orig, limits) ==> Capped(v, limits))
    && (forall k :: k in orig.partitions ==> LedAsBefore(v, orig, ids, k))
  }

  /**
   * The replicas on available brokers come first and those that stay keep their places. Where the first replica led it still
   * does. A leader still listed still leads exactly when its partition lost nothing or it is the first that was not lost; a new
   * leader is the first of the list.
   */
  ghost predicate LedAsBefore(v: Placement, orig: Placement, ids: set<BrokerId>, k: string)
    requires k in orig.partitions
  {
    var kept := FilterReplicas(orig.partitions[k], orig.load.Keys - ids);
    && k in orig.leaders && k in v.leaders && k in v.partitions && |v.partitions[k]| >= |kept|
    && (forall i :: 0 <= i < |kept| && kept[i] in v.partitions[k] ==> v.partitions[k][i] == kept[i])
    && (FirstLeads(orig, k) ==> FirstLeads(v, k))
    && (v.leaders[k] == orig.leaders[k] || FirstLeads(v, k))
    && (orig.leaders[k] in v.partitions[k] ==>
          (v.leaders[k] == orig.leaders[k] <==> kept == orig.partitions[k] || (kept != [] && kept[0] == orig.leaders[k])))
    && (FirstLeads(orig, k) && orig.leaders[k] in v.partitions[k] ==> v.leaders[k] == orig.leaders[k])
  }

  lemma FirstKept(list: seq<BrokerId>, removed: set<BrokerId>)
    requires list != [] && list[0] !in removed
    ensures FilterReplicas(list, removed) != [] && FilterReplicas(list, removed)[0] == list[0]
  {
  }

  lemma LedThroughout(b: Placement, topped: Placement, orig: Placement, ids: set<BrokerId>, k: string)
    requires WellFormed(orig) && Restored(topped, orig, ids) && StayPut(b, topped) && Sound(b, ids) && k in orig.partitions
    ensures LedAsBefore(b, orig, ids, k)
  {
    hide ExactLoad, FilterReplicas, Distinct;
    assert RestoredLeader(topped, orig, ids, k);
    assert SoundList(b, k, ids) && SoundList(topped, k, ids);
    LedEntry(b, topped, orig, ids, k);
  }

  lemma LedEntry(b: Placement, topped: Placement, orig: Placement, ids: set<BrokerId>, k: string)
    requires k in orig.partitions && k in orig.leaders && orig.leaders[k] in orig.partitions[k]
    requires k in topped.partitions && k in b.partitions && SoundList(topped, k, ids) && SoundList(b, k, ids)
    requires |b.partitions[k]| == |topped.partitions[k]| == |orig.partitions[k]|
    requires forall i :: 0 <= i < |topped.partitions[k]| && topped.partitions[k][i] in b.partitions[k] ==> b.partitions[k][i] == topped.partitions[k][i]
    requires if topped.leaders[k] in b.partitions[k] then b.leaders[k] == topped.leaders[k] else FirstLeads(b, k)
    requires FirstLeads(topped, k) ==> FirstLeads(b, k)
    requires FilterReplicas(orig.partitions[k], orig.load.Keys - ids) <= topped.partitions[k] && RestoredLeader(topped, orig, ids, k)
    ensures LedAsBefore(b, orig, ids, k)
  {
    hide FilterReplicas;
    var removed, list, lead, new_ := orig.load.Keys - ids, orig.partitions[k], orig.leaders[k], b.partitions[k];
    var kept := FilterReplicas(list, removed);
    if lead in new_ {
      assert lead in Elems(new_) && lead in kept;
      if list[0] == lead { FirstKept(list, removed); }
      var i :| 0 <= i < |kept| && kept[i] == lead;
      assert new_[i] == lead;
    }
  }

  lemma UnchangedIsRebalanced(orig: Placement, ids: set<BrokerId>, limits: map<BrokerId, int>)
    requires WellFormed(orig) && orig.load.Keys == ids
    ensures Rebalanced(orig.(version := orig.version + 1), orig, ids, limits)
  {
    hide Total, Distinct, FilterReplicas, LedAsBefore, Capped;
    var v := orig.(version := orig.version + 1);
    forall k | k in orig.partitions ensures Elems(orig.partitions[k]) <= ids && LedAsBefore(v, orig, ids, k) {
      forall b | b in orig.partitions[k] ensures b in ids {
        TotalContains(orig.partitions, k, b);
        assert Get(orig.load, b) == Total(orig.partitions)[b];
      }
      UnchangedLed(v, orig, ids, k);
    }
    assert Capped(orig, limits) ==> Capped(v, limits) by { SameCap(v, orig, limits); }
  }

  lemma SameCap(v: Placement, orig: Placement, limits: map<BrokerId, int>)
    requires v.partitions == orig.partitions
    ensures Capped(orig, limits) ==> Capped(v, limits)
  {
  }

  lemma UnchangedLed(v: Placement, orig: Placement, ids: set<BrokerId>, k: string)
    requires k in orig.partitions && k in orig.leaders && orig.leaders[k] in orig.partitions[k] && orig.load.Keys == ids
    requires v.partitions == orig.partitions && v.leaders == orig.leaders
    ensures LedAsBefore(v, orig, ids, k)
  {
    FilterNone(orig.partitions[k], orig.load.Keys - ids);
    hide FilterReplicas;
  }

  /** The clean-up pass at the end: filters every list once more. */
  method FinalPass(a: Assignment, removed: set<BrokerId>) returns (lost: set<string>)
    requires a.leaders.Keys == a.partitions.Keys
    modifies a`partitions, a`leaders
    ensures lost == set k | k in old(a.partitions) && |FilterReplicas(old(a.partitions)[k], removed)| != |old(a.partitions)[k]|
    ensures lost == {} ==> a.View() == old(a.View())
  {
    ghost var was := a.View();
    hide FilterReplicas;
    var rest := a.partitions.Keys;
    lost := {};
    while rest != {}
      invariant rest <= a.partitions.Keys == was.partitions.Keys
      invariant forall k :: k in rest ==> a.partitions[k] == was.partitions[k]
      invariant lost == set k | k in was.partitions && k !in rest && |FilterReplicas(was.partitions[k], removed)| != |was.partitions[k]|
      invariant lost == {} ==> a.View() == was
      decreases rest
    {
      var k :| k in rest;
      var filtered := FilterReplicas(a.partitions[k], removed);
      if |filtered| != |a.partitions[k]| {
        a.partitions := a.partitions[k := filtered];
        if |filtered| > 0 { a.leaders := a.leaders[k := filtered[0]]; }
        lost := lost + {k};
      }
      rest := rest - {k};
    }
  }

  lemma NothingLost(v: Placement, ids: set<BrokerId>, removed: set<BrokerId>)
    requires Sound(v, ids) && removed !! ids
    ensures forall k :: k in v.partitions ==> |FilterReplicas(v.partitions[k], removed)| == |v.partitions[k]|
  {
    forall k | k in v.partitions ensures |FilterReplicas(v.partitions[k], removed)| == |v.partitions[k]| {
      assert SoundList(v, k, ids);
      assert forall b :: b in v.partitions[k] ==> b in Elems(v.partitions[k]);
      FilterNone(v.partitions[k], removed);
    }
  }

  lemma {:induction false} FilterNone(s: seq<BrokerId>, removed: set<BrokerId>)
    requires forall b :: b in s ==> b !in removed
    ensures FilterReplicas(s, removed) == s
  {
    if s != [] { FilterNone(s[1..], removed); }
  }

  /** Removes the brokers that are gone, leaving what must be topped up; counters restart from the lists. */
  method DropRemoved(a: Assignment, bs: seq<Broker>, limits: map<BrokerId, int>) returns (pending: map<string, nat>)
    requires WellFormed(a.View())
    modifies a
    ensures Topping(a.View(), a.View(), old(a.View()), pending, pending.Keys, Ids(bs), limits)
    ensures Capped(old(a.View()), limits) ==> Capped(a.View(), limits)
    ensures a.version == old(a.version)
    ensures old(a.leaders).Keys == old(a.partitions).Keys
    ensures Filtered(a.View(), old(a.View()), old(a.brokerLoad).Keys - Ids(bs), {})
    ensures pending == Losers(old(a.View()), old(a.brokerLoad).Keys - Ids(bs), {})
  {
    hide Sound, Sized, Capped, Topping, Filtered, Losers, WellFormed, ExactLoad, Total;
    ghost var was := a.View();
    ghost var ids := Ids(bs);
    WellFormedParts(was);
    pending := FilterRemoved(a, a.brokerLoad.Keys - Ids(bs));
    OnlyAvailable(a.View(), was, ids);
    var load := RecountOver(a.partitions, Ids(bs));
    FilteredLoadFree(a.View(), was, was.load.Keys - ids, load);
    a.brokerLoad := load;
    Dropped(a.View(), was, ids, limits);
  }

  lemma OnlyAvailable(v: Placement, was: Placement, ids: set<BrokerId>)
    requires WellFormed(was) && Filtered(v, was, was.load.Keys - ids, {})
    ensures forall k :: k in v.partitions ==> Elems(v.partitions[k]) <= ids
  {
    forall k | k in v.partitions ensures Elems(v.partitions[k]) <= ids {
      KeptList(v, was, k, ids);
    }
  }

  lemma Dropped(v: Placement, was: Placement, ids: set<BrokerId>, limits: map<BrokerId, int>)
    requires WellFormed(was) && Filtered(v, was, was.load.Keys - ids, {})
    requires v.load.Keys == ids && forall b :: Get(v.load, b) == Total(v.partitions)[b]
    ensures var pending := Losers(was, was.load.Keys - ids, {});
            Topping(v, v, was, pending, pending.Keys, ids, limits)
    ensures Capped(was, limits) ==> Capped(v, limits)
  {
    hide Sound, Sized, Capped, Filtered, Losers, WellFormed, Total;
    assert ExactLoad(v);
    FilteredIsSound(v, was, ids);
    FilteredIsSized(v, was, ids);
    if Capped(was, limits) { FilteredIsCapped(v, was, ids, limits); }
    WellFormedParts(was);
    LosersAreShort(v, was, was.load.Keys - ids);
  }

  lemma LosersAreShort(v: Placement, was: Placement, removed: set<BrokerId>)
    requires was.leaders.Keys == was.partitions.Keys && Filtered(v, was, removed, {})
    ensures forall k :: k in Losers(was, removed, {}) ==> Losers(was, removed, {})[k] > |ListOf(v, k)|
  {
    forall k | k in Losers(was, removed, {}) ensures |was.partitions[k]| > |ListOf(v, k)| {
      assert EntryFiltered(v, was, k, removed);
    }
  }

  /** The same partitions with the same replica counts, all of it sound. */
  lemma Finished(v: Placement, b: Placement, topped: Placement, was: Placement, orig: Placement, ids: set<BrokerId>, all: set<string>, limits: map<BrokerId, int>)
    requires Topping(topped, was, orig, map[], all, ids, limits) && was.version == orig.version
    requires Sound(b, ids) && SameShape(b, topped)
    requires v == b.(load := Recount(b.partitions))
    requires Capped(orig, limits) ==> Capped(b, limits)
    ensures Consistent(v) && WellFormed(v)
    ensures v.partitions.Keys == orig.partitions.Keys && v.version == orig.version
    ensures forall k :: k in orig.partitions ==> |v.partitions[k]| == |orig.partitions[k]| && Elems(v.partitions[k]) <= ids
    ensures Capped(orig, limits) ==> Capped(v, limits)
  {
    hide Total, Distinct;
    forall k | k in orig.partitions ensures |v.partitions[k]| == |orig.partitions[k]| && Elems(v.partitions[k]) <= ids {
      assert SoundList(b, k, ids);
    }
    RecountSound(v, b, ids);
    hide Sound, Topping, SameShape, SoundList, WellFormed, Consistent, Recount;
  }

  lemma RecountSound(v: Placement, b: Placement, ids: set<BrokerId>)
    requires Sound(b, ids) && v == b.(load := Recount(b.partitions))
    ensures Consistent(v) && WellFormed(v)
  {
    hide Total, Distinct;
    forall k | k in b.partitions ensures Distinct(b.partitions[k]) && b.leaders[k] in b.partitions[k] {
      assert SoundList(b, k, ids);
    }
  }

  /** The assignment the balancer starts from: survivors first, in their order, then new replicas. */
  ghost predicate Restored(topped: Placement, orig: Placement, ids: set<BrokerId>) {
    && Sound(topped, ids) && topped.partitions.Keys == orig.partitions.Keys
    && forall k :: k in orig.partitions ==>
        && |topped.partitions[k]| == |orig.partitions[k]|
        && FilterReplicas(orig.partitions[k], orig.load.Keys - ids) <= topped.partitions[k]
        && RestoredLeader(topped, orig, ids, k)
  }

  /** A partition that lost nothing keeps its leader; the first replica leads any other. */
  ghost predicate RestoredLeader(topped: Placement, orig: Placement, ids: set<BrokerId>, k: string)
    requires k in orig.partitions
  {
    if FilterReplicas(orig.partitions[k], orig.load.Keys - ids) == orig.partitions[k]
    then k in topped.leaders && k in orig.leaders && topped.leaders[k] == orig.leaders[k]
    else FirstLeads(topped, k)
  }

  /** The load of each available broker, idle ones included. */
  function LoadOver(v: Placement, ids: set<BrokerId>): map<BrokerId, int> {
    map b | b in ids :: Get(v.load, b)
  }

  /** How far a rebalance from the restored assignment gets, and how few surviving replicas it moves. */
  ghost predicate Settled(v: Placement, topped: Placement, orig: Placement, bs: seq<Broker>, limits: map<BrokerId, int>)
    requires bs != []
  {
    var t := |orig.partitions| / |bs|;
    && ("" !in orig.partitions ==>
          (Balanced(LoadOver(v, Ids(bs)), 1) <==> Balanced(topped.load, 1) || CanBalance(topped.load, limits, t)))
    && |Displaced(v, orig, Ids(bs))| <= Deficit(topped.load, limits, t) <= |orig.partitions|
    && (Balanced(topped.load, 1) ==> Displaced(v, orig, Ids(bs)) == {})
  }

  /**
   * From an assignment with exact loads: same partitions, same replica counts, only available brokers, limits kept.
   * Without limits it succeeds exactly when no partition has more replicas than there are brokers.
   */
  method Rebalance(current: Assignment, brokers: seq<Broker>, c: Constraints)
    returns (r: Result<Assignment, PlacementError>, ghost topped: Placement)
    requires DistinctIds(brokers) && WellFormed(current.View())
    ensures brokers == [] ==> r == Err(NoBrokers)
    ensures r.Ok? ==>
      var bs := FilterExcluded(brokers, c.excluded);
      && fresh(r.value)
      && Rebalanced(r.value.View(), current.View(), Ids(bs), CapacityLimits(bs, c.maxPerBroker))
    ensures r.Ok? && !(Balanced(current.brokerLoad, 1) && current.brokerLoad.Keys == Ids(FilterExcluded(brokers, c.excluded))) ==>
      var bs := FilterExcluded(brokers, c.excluded);
      && bs != [] && Restored(topped, current.View(), Ids(bs))
      && Settled(r.value.View(), topped, current.View(), bs, CapacityLimits(bs, c.maxPerBroker))
    ensures r.Ok? && Balanced(current.brokerLoad, 1) && current.brokerLoad.Keys == Ids(FilterExcluded(brokers, c.excluded)) ==>
      r.value.View() == old(current.View()).(version := old(current.version) + 1)
    ensures
      var bs := FilterExcluded(brokers, c.excluded);
      bs != [] && Unlimited(CapacityLimits(bs, c.maxPerBroker)) ==>
        (r.Ok? <==> forall k :: k in current.partitions ==> |current.partitions[k]| <= |bs|)
    ensures r.Err? ==> r.error in {NoBrokers, NoAvailableBrokers, NotEnoughBrokers}
  {
    hide WellFormed, Rebalanced, Balanced, Capped, Ids, CapacityLimits, Elems, DistinctIds, Settled, Restored, Unlimited, LedAsBefore;
    topped := current.View();
    var bs := FilterExcluded(brokers, c.excluded);
    if |brokers| == 0 { return Err(NoBrokers), topped; }
    if |bs| == 0 { return Err(NoAvailableBrokers), topped; }
    var limits := CapacityLimits(bs, c.maxPerBroker);
    WellFormedParts(current.View());
    var balanced := current.IsBalanced(1);
    BalancedEmpty(current.brokerLoad, 1);
    if balanced && current.brokerLoad.Keys == Ids(bs) {
      var same := new Assignment.Clone(current);
      same.version := same.version + 1;
      UnchangedIsRebalanced(current.View(), Ids(bs), limits);
      ListsFit(current.View(), same.View(), bs, limits);
      return Ok(same), topped;
    }
    var a := new Assignment.Clone(current);
    a.version := a.version + 1;
    VersionIsFree(current.View(), current.version + 1);
    var ok, t := Redistribute(a, bs, limits);
    if !ok { return Err(NotEnoughBrokers), topped; }
    topped := t;
    VersionRebalanced(a.View(), current.View(), Ids(bs), limits);
    VersionSettled(a.View(), topped, current.View(), current.version + 1, bs, limits);
    r := Ok(a);
  }

  lemma VersionSettled(v: Placement, topped: Placement, orig: Placement, n: int, bs: seq<Broker>, limits: map<BrokerId, int>)
    requires bs != [] && Restored(topped, orig.(version := n), Ids(bs)) && Settled(v, topped, orig.(version := n), bs, limits)
    ensures Restored(topped, orig, Ids(bs)) && Settled(v, topped, orig, bs, limits)
  {
    hide Sound, Balanced, CanBalance, Deficit, FilterReplicas, LoadOver;
    assert Displaced(v, orig, Ids(bs)) == Displaced(v, orig.(version := n), Ids(bs));
  }

  /** Lists on the brokers of bs are no longer than bs. */
  lemma ListsFit(orig: Placement, v: Placement, bs: seq<Broker>, limits: map<BrokerId, int>)
    requires WellFormed(orig) && Rebalanced(v, orig, Ids(bs), limits) && DistinctIds(bs)
    ensures forall k :: k in orig.partitions ==> |orig.partitions[k]| <= |bs|
  {
    hide DistinctIds, ExactLoad, Capped, Distinct;
    IdsCardinality(bs);
    forall k | k in orig.partitions ensures |orig.partitions[k]| <= |bs| {
      DistinctCardinality(v.partitions[k]);
      SubsetCardinality(Elems(v.partitions[k]), Ids(bs));
    }
  }

  /** The body of a rebalance that has something to do, on the cloned assignment. */
  method Redistribute(a: Assignment, bs: seq<Broker>, limits: map<BrokerId, int>) returns (ok: bool, ghost topped: Placement)
    requires DistinctIds(bs) && bs != [] && WellFormed(a.View())
    modifies a
    ensures ok ==>
      var v, orig := a.View(), old(a.View());
      && WellFormed(v) && v.partitions.Keys == orig.partitions.Keys && v.version == orig.version
      && (forall k :: k in orig.partitions ==> |v.partitions[k]| == |orig.partitions[k]| && Elems(v.partitions[k]) <= Ids(bs))
      && (Capped(orig, limits) ==> Capped(v, limits))
      && (forall k :: k in orig.partitions ==> LedAsBefore(v, orig, Ids(bs), k))
      && Restored(topped, orig, Ids(bs)) && Settled(v, topped, orig, bs, limits)
    ensures Unlimited(limits) ==> (ok <==> forall k :: k in old(a.partitions) ==> |old(a.partitions)[k]| <= |bs|)
  {
    hide WellFormed, Sound, Sized, Capped, SameShape, Topping, Consistent, FilterReplicas, Recount, Balanced, CanBalance, DistinctIds,
      Losers, Filtered, Displaced, Deficit, Restored, Settled, Unlimited, LoadOver, LedAsBefore, StayPut;
    ghost var orig, ids := a.View(), Ids(bs);
    var removed := a.brokerLoad.Keys - Ids(bs);
    var pending := DropRemoved(a, bs, limits);
    ghost var was := a.View();
    PendingFits(orig, bs);
    ghost var short;
    ok, short := ReassignPartitions(a, pending, bs, limits, orig);
    topped := a.View();
    if !ok { return; }
    ToppingParts(topped, was, orig, map[], pending.Keys, ids, limits);
    ToppingRestores(topped, was, orig, pending.Keys, ids, limits);
    BalanceLoad(a, bs, limits);
    NothingLost(a.View(), ids, removed);
    SoundParts(a.View(), ids);
    ghost var b := a.View();
    var lost := FinalPass(a, removed);
    if lost != {} {
      assert false;  // nothing is left for a second top-up
    }
    a.RecomputeBrokerLoad();
    Finished(a.View(), b, topped, was, orig, ids, pending.Keys, limits);
    Settles(a.View(), b, topped, was, orig, bs, limits);
    AllLedAsBefore(a.View(), b, topped, orig, ids);
    var valid := a.Validate();
    if !valid {
      assert false;  // the result always passes validation
    }
  }

  lemma AllLedAsBefore(v: Placement, b: Placement, topped: Placement, orig: Placement, ids: set<BrokerId>)
    requires WellFormed(orig) && Restored(topped, orig, ids) && StayPut(b, topped) && Sound(b, ids)
    requires v == b.(load := Recount(b.partitions))
    ensures forall k :: k in orig.partitions ==> LedAsBefore(v, orig, ids, k)
  {
    hide WellFormed, Restored, StayPut, Sound, Recount, FilterReplicas, FirstLeads;
    forall k | k in orig.partitions ensures LedAsBefore(v, orig, ids, k) {
      LedThroughout(b, topped, orig, ids, k);
      SameLed(v, b, orig, ids, k);
    }
  }

  /** The counters play no part in who leads. */
  lemma SameLed(v: Placement, b: Placement, orig: Placement, ids: set<BrokerId>, k: string)
    requires k in orig.partitions && LedAsBefore(b, orig, ids, k) && v.partitions == b.partitions && v.leaders == b.leaders
    ensures LedAsBefore(v, orig, ids, k)
  {
    hide FilterReplicas;
  }

  /** Only a partition that lost a replica can want more brokers than there are. */
  lemma PendingFits(orig: Placement, bs: seq<Broker>)
    requires WellFormed(orig) && DistinctIds(bs)
    ensures var pending := Losers(orig, orig.load.Keys - Ids(bs), {});
            (forall k :: k in pending ==> pending[k] <= |bs|) <==> (forall k :: k in orig.partitions ==> |orig.partitions[k]| <= |bs|)
  {
    hide FilterReplicas, ExactLoad, DistinctIds, Distinct;
    var removed := orig.load.Keys - Ids(bs);
    forall k | k in orig.partitions && k !in Losers(orig, removed, {}) ensures |orig.partitions[k]| <= |bs| {
      NothingFiltered(orig, k, Ids(bs));
      DistinctCardinality(orig.partitions[k]);
      IdsCardinality(bs);
      SubsetCardinality(Elems(orig.partitions[k]), Ids(bs));
    }
  }

  lemma NothingFiltered(orig: Placement, k: string, ids: set<BrokerId>)
    requires WellFormed(orig) && k in orig.partitions
    requires |FilterReplicas(orig.partitions[k], orig.load.Keys - ids)| == |orig.partitions[k]|
    ensures Elems(orig.partitions[k]) <= ids
  {
    hide Total, Distinct;
    forall b | b in orig.partitions[k] ensures b in ids {
      TotalContains(orig.partitions, k, b);
      assert Get(orig.load, b) == Total(orig.partitions)[b];
      assert b in FilterReplicas(orig.partitions[k], orig.load.Keys - ids);
    }
  }

  lemma ToppingRestores(topped: Placement, was: Placement, orig: Placement, all: set<string>, ids: set<BrokerId>, limits: map<BrokerId, int>)
    requires WellFormed(orig) && Topping(topped, was, orig, map[], all, ids, limits)
    requires Filtered(was, orig, orig.load.Keys - ids, {}) && all == Losers(orig, orig.load.Keys - ids, {}).Keys
    ensures Restored(topped, orig, ids)
  {
    hide Sound, Capped, FilterReplicas, WellFormed, Filtered, FirstLeads;
    WellFormedParts(orig);
    forall k | k in orig.partitions
      ensures FilterReplicas(orig.partitions[k], orig.load.Keys - ids) <= topped.partitions[k] && RestoredLeader(topped, orig, ids, k)
    {
      SurvivorsFirst(was, orig, k, orig.load.Keys - ids);
      assert k in was.partitions ==> was.partitions[k] <= topped.partitions[k];
      if k !in all { SameLeader(topped, was, orig, k, orig.load.Keys - ids); }
    }
  }

  lemma SameLeader(topped: Placement, was: Placement, orig: Placement, k: string, removed: set<BrokerId>)
    requires orig.leaders.Keys == orig.partitions.Keys && Filtered(was, orig, removed, {}) && k in orig.partitions
    requires |FilterReplicas(orig.partitions[k], removed)| == |orig.partitions[k]|
    requires k in was.partitions ==> EntryLeader(topped, k) == EntryLeader(was, k)
    ensures k in topped.leaders && topped.leaders[k] == orig.leaders[k]
  {
    assert EntryFiltered(was, orig, k, removed);
  }

  lemma SurvivorsFirst(was: Placement, orig: Placement, k: string, removed: set<BrokerId>)
    requires orig.leaders.Keys == orig.partitions.Keys && Filtered(was, orig, removed, {}) && k in orig.partitions
    ensures FilterReplicas(orig.partitions[k], removed) == if k in was.partitions then was.partitions[k] else []
  {
    hide FilterReplicas;
    assert EntryFiltered(was, orig, k, removed);
  }

  /** A surviving replica that is missing at the end was moved by the balancer. */
  lemma DisplacedByMoves(b: Placement, topped: Placement, orig: Placement, ids: set<BrokerId>)
    requires Restored(topped, orig, ids)
    ensures Displaced(b, orig, ids) <= Displaced(b, topped, ids)
    ensures |Displaced(b, orig, ids)| <= |Displaced(b, topped, ids)|
  {
    hide Sound, FilterReplicas;
    forall x | x in Displaced(b, orig, ids) ensures x in Displaced(b, topped, ids) {
      var kept := FilterReplicas(orig.partitions[x.0], orig.load.Keys - ids);
      assert x.1 in kept;
      assert kept <= topped.partitions[x.0];
    }
    SubsetCardinality(Displaced(b, orig, ids), Displaced(b, topped, ids));
  }

  lemma Settles(v: Placement, b: Placement, topped: Placement, was: Placement, orig: Placement, bs: seq<Broker>, limits: map<BrokerId, int>)
    requires bs != [] && Restored(topped, orig, Ids(bs)) && Sound(b, Ids(bs)) && v == b.(load := Recount(b.partitions))
    requires "" !in topped.partitions ==>
      (Balanced(b.load, 1) <==> Balanced(topped.load, 1) || CanBalance(topped.load, limits, |topped.partitions| / |bs|))
    requires Balanced(topped.load, 1) ==> b == topped
    requires |Displaced(b, topped, Ids(bs))| <= Deficit(topped.load, limits, |topped.partitions| / |bs|) <= |topped.partitions|
    ensures Settled(v, topped, orig, bs, limits)
  {
    hide Sound, Balanced, CanBalance, Deficit, FilterReplicas, Recount, LoadOver, Displaced;
    DisplacedByMoves(b, topped, orig, Ids(bs));
    SamePlaces(v, b, topped, orig, Ids(bs));
    assert |topped.partitions.Keys| == |topped.partitions| && |orig.partitions.Keys| == |orig.partitions|;
  }

  lemma SamePlaces(v: Placement, b: Placement, topped: Placement, orig: Placement, ids: set<BrokerId>)
    requires Sound(b, ids) && v == b.(load := Recount(b.partitions)) && Displaced(b, orig, ids) <= Displaced(b, topped, ids)
    ensures Displaced(v, orig, ids) == Displaced(b, orig, ids)
    ensures LoadOver(v, ids) == b.load
    ensures b == topped ==> Displaced(v, orig, ids) == {}
  {
    hide Total, SoundList;
    forall x | x in ids ensures Get(v.load, x) == b.load[x] {
      assert Get(b.load, x) == Total(b.partitions)[x];
    }
  }

  lemma ToppingParts(v: Placement, was: Placement, orig: Placement, pending: map<string, nat>, all: set<string>, ids: set<BrokerId>, limits: map<BrokerId, int>)
    requires Topping(v, was, orig, pending, all, ids, limits)
    ensures Sound(v, ids) && (Capped(was, limits) ==> Capped(v, limits))
  {
  }

  lemma VersionRebalanced(v: Placement, orig: Placement, ids: set<BrokerId>, limits: map<BrokerId, int>)
    requires WellFormed(v) && v.partitions.Keys == orig.partitions.Keys && v.version == orig.version + 1
    requires forall k :: k in orig.partitions ==> |v.partitions[k]| == |orig.partitions[k]| && Elems(v.partitions[k]) <= ids
    requires Capped(orig.(version := orig.version + 1), limits) ==> Capped(v, limits)
    requires forall k :: k in orig.partitions ==> LedAsBefore(v, orig.(version := orig.version + 1), ids, k)
    ensures Rebalanced(v, orig, ids, limits)
  {
    hide WellFormed, Total, FilterReplicas, LedAsBefore;
    forall k | k in orig.partitions ensures LedAsBefore(v, orig, ids, k) { VersionLed(v, orig, orig.version + 1, ids, k); }
  }

  lemma VersionLed(v: Placement, orig: Placement, n: int, ids: set<BrokerId>, k: string)
    requires k in orig.partitions && LedAsBefore(v, orig.(version := n), ids, k)
    ensures LedAsBefore(v, orig, ids, k)
  {
    hide FilterReplicas;
  }

  lemma WellFormedParts(v: Placement)
    requires WellFormed(v)
    ensures v.leaders.Keys == v.partitions.Keys
    ensures forall b :: b in v.load ==> v.load[b] >= 0
  {
    LoadsNonNegative(v);
  }

  lemma SoundParts(v: Placement, ids: set<BrokerId>)
    requires Sound(v, ids)
    ensures v.leaders.Keys == v.partitions.Keys
  {
  }

  // ---------------------------------------------------------------------
  // An imbalance the balancer does not mend
  // ---------------------------------------------------------------------

  const THREE: seq<Broker> := [Broker(1, "", 0), Broker(2, "", 0), Broker(3, "", 0)]

  ghost function BothOnOne(a: string, b: string): Placement {
    Placement(map[a := [1], b := [1]], map[a := 1, b := 1], map[1 := 2], 0)
  }

  lemma BothWellFormed(a: string, b: string)
    requires a != b
    ensures Total(map[a := [1], b := [1]]) == multiset{1, 1}
    ensures WellFormed(BothOnOne(a, b))
  {
    var none: map<string, seq<BrokerId>> := map[];
    TotalInsert(none, a, [1]);
    TotalInsert(none[a := [1]], b, [1]);
    assert none[a := [1]][b := [1]] == map[a := [1], b := [1]];
  }

  lemma ThreeBrokers()
    ensures DistinctIds(THREE) && Ids(THREE) == {1, 2, 3} && Unlimited(CapacityLimits(THREE, 0))
  {
    assert THREE[0].id == 1 && THREE[1].id == 2 && THREE[2].id == 3;
    assert Ids(THREE) == {1, 2, 3};
    NoLimits(THREE);
  }

  lemma NoLimits(bs: seq<Broker>)
    requires DistinctIds(bs) && forall b :: b in bs ==> b.capacity == 0
    ensures Unlimited(CapacityLimits(bs, 0))
  {
    hide CapacityLimits, DistinctIds;
    forall id | id in CapacityLimits(bs, 0) ensures CapacityLimits(bs, 0)[id] <= 0 {
      var i :| 0 <= i < |bs| && bs[i].id == id;
      LimitOf(bs, 0, bs[i]);
    }
  }

  lemma RestoredBoth(topped: Placement, a: string, b: string)
    requires a != b && Restored(topped, BothOnOne(a, b), {1, 2, 3})
    ensures topped.load == map[1 := 2, 2 := 0, 3 := 0]
  {
    hide Restored, ExactLoad, Total;
    BothWellFormed(a, b);
    SoundRestored(topped, BothOnOne(a, b), {1, 2, 3});
    StillOne(topped, BothOnOne(a, b), {1, 2, 3}, a);
    StillOne(topped, BothOnOne(a, b), {1, 2, 3}, b);
    assert topped.partitions == map[a := [1], b := [1]];
    forall x | x in topped.load ensures topped.load[x] == if x == 1 then 2 else 0 {
      ExactAt(topped, x);
    }
  }

  lemma SoundRestored(topped: Placement, orig: Placement, ids: set<BrokerId>)
    requires Restored(topped, orig, ids)
    ensures ExactLoad(topped) && topped.load.Keys == ids && topped.partitions.Keys == orig.partitions.Keys
  {
  }

  lemma ExactAt(v: Placement, b: BrokerId)
    requires ExactLoad(v) && b in v.load
    ensures v.load[b] == Total(v.partitions)[b]
  {
  }

  lemma StillOne(topped: Placement, orig: Placement, ids: set<BrokerId>, k: string)
    requires Restored(topped, orig, ids) && k in orig.partitions && orig.partitions[k] == [1] && 1 in ids
    ensures k in topped.partitions && topped.partitions[k] == [1]
  {
    hide Sound;
    assert FilterReplicas([1], orig.load.Keys - ids) == [1];
  }

  lemma CannotBalance(limits: map<BrokerId, int>)
    ensures var load: map<BrokerId, int> := map[1 := 2, 2 := 0, 3 := 0];
            !Balanced(load, 1) && !CanBalance(load, limits, 0)
  {
    var load: map<BrokerId, int> := map[1 := 2, 2 := 0, 3 := 0];
    assert load[1] - load[2] == 2;
    ExcessZero(load, 0);
    assert load[1] > 1;
    NoRoomLeft(load, limits, 0);
  }

  /**
   * Two partitions on one broker, and two idle brokers: the target counts partitions and rounds down to
   * zero, so the rebalance succeeds and leaves the loads at two, zero and zero.
   */
  method StaysUnbalanced() returns (r: Result<Assignment, PlacementError>)
    ensures r.Ok? && !Balanced(LoadOver(r.value.View(), Ids(THREE)), 1)
  {
    hide Restored, Settled, Balanced, CanBalance, CapacityLimits, Rebalanced, WellFormed, Ids, DistinctIds, Unlimited, LoadOver,
      FilterExcluded;
    ghost var x, y := PartitionKey("t", 0), PartitionKey("t", 1);
    var current := BuildBoth();
    BothWellFormed(x, y);
    ThreeBrokers();
    ghost var topped;
    var c := Constraints(false, 0, map[], {});
    NoneExcluded(THREE);
    r, topped := Rebalance(current, THREE, c);
    RestoredBoth(topped, x, y);
    CannotBalance(CapacityLimits(THREE, 0));
    SettledBoth(r.value.View(), topped, x, y);
  }

  method BuildBoth() returns (current: Assignment)
    ensures PartitionKey("t", 0) != PartitionKey("t", 1)
    ensures fresh(current) && current.View() == BothOnOne(PartitionKey("t", 0), PartitionKey("t", 1))
  {
    hide PartitionKey;
    if PartitionKey("t", 0) == PartitionKey("t", 1) { KeyInjective("t", 0, "t", 1); }
    current := new Assignment();
    current.AddReplica("t", 0, [1]);
    current.AddReplica("t", 1, [1]);
  }

  lemma SettledBoth(v: Placement, topped: Placement, a: string, b: string)
    requires a != b && a != "" && b != ""
    requires Settled(v, topped, BothOnOne(a, b), THREE, CapacityLimits(THREE, 0))
    requires topped.load == map[1 := 2, 2 := 0, 3 := 0]
    ensures !Balanced(LoadOver(v, Ids(THREE)), 1)
  {
    hide Balanced, LoadOver, CanBalance, Settled, Ids, CapacityLimits;
    var orig := BothOnOne(a, b);
    assert orig.partitions.Keys == {a, b};
    assert |orig.partitions| == |orig.partitions.Keys| == 2;
    SettledOutcome(v, topped, orig, THREE, CapacityLimits(THREE, 0), 0);
    CannotBalance(CapacityLimits(THREE, 0));
  }

  lemma SettledOutcome(v: Placement, topped: Placement, orig: Placement, bs: seq<Broker>, limits: map<BrokerId, int>, t: int)
    requires bs != [] && Settled(v, topped, orig, bs, limits) && "" !in orig.partitions && t == |orig.partitions| / |bs|
    ensures Balanced(LoadOver(v, Ids(bs)), 1) <==> Balanced(topped.load, 1) || CanBalance(topped.load, limits, t)
  {
    hide Balanced, LoadOver, CanBalance, Displaced, Deficit;
  }

  // ---------------------------------------------------------------------
  // A leader that stays in its list and loses the lead
  // ---------------------------------------------------------------------

  const LEFT: seq<Broker> := [Broker(1, "", 0), Broker(2, "", 0), Broker(4, "", 0)]

  /** One partition on brokers 1, 2 and 3, led by the second. */
  ghost function LedBySecond(key: string): Placement {
    Placement(map[key := [1, 2, 3]], map[key := 2], map[1 := 1, 2 := 1, 3 := 1], 0)
  }

  lemma SecondWellFormed(key: string)
    ensures WellFormed(LedBySecond(key))
  {
    var none: map<string, seq<BrokerId>> := map[];
    TotalInsert(none, key, [1, 2, 3]);
    assert none[key := [1, 2, 3]] == map[key := [1, 2, 3]];
    assert Total(none) == multiset{};
    assert multiset([1, 2, 3]) == multiset{1, 2, 3};
    hide Total;
  }

  lemma BrokersLeft()
    ensures DistinctIds(LEFT) && Ids(LEFT) == {1, 2, 4} && Unlimited(CapacityLimits(LEFT, 0))
  {
    assert LEFT[0].id == 1 && LEFT[1].id == 2 && LEFT[2].id == 4;
    assert Ids(LEFT) == {1, 2, 4};
    NoLimits(LEFT);
  }

  /** With one partition no broker holds more than one replica. */
  lemma OneIsBalanced(v: Placement, key: string, ids: set<BrokerId>)
    requires Sound(v, ids) && v.partitions.Keys == {key}
    ensures Balanced(v.load, 1)
  {
    assert SoundList(v, key, ids);
    var none: map<string, seq<BrokerId>> := map[];
    TotalInsert(none, key, v.partitions[key]);
    assert none[key := v.partitions[key]] == v.partitions;
    assert Total(none) == multiset{};
    forall b | b in v.load ensures 0 <= v.load[b] <= 1 {
      assert Get(v.load, b) == Total(v.partitions)[b];
      DistinctCount(v.partitions[key], b);
    }
  }

  lemma SecondReplaced(v: Placement, topped: Placement, key: string, limits: map<BrokerId, int>)
    requires Restored(topped, LedBySecond(key), {1, 2, 4}) && Ids(LEFT) == {1, 2, 4}
    requires Settled(v, topped, LedBySecond(key), LEFT, limits) && Rebalanced(v, LedBySecond(key), {1, 2, 4}, limits)
    ensures key in v.partitions && 2 in v.partitions[key] && key in v.leaders && v.leaders[key] == v.partitions[key][0] != 2
  {
    hide Settled, Rebalanced, Restored, LedAsBefore, Displaced, Ids;
    var orig := LedBySecond(key);
    RestoredSound(topped, orig, {1, 2, 4});
    OneIsBalanced(topped, key, {1, 2, 4});
    NothingMoved(v, topped, orig, LEFT, limits);
    StillListedWhere(v, orig, {1, 2, 4}, key, 2);
    RebalancedLed(v, orig, {1, 2, 4}, limits, key);
    SecondLed(v, orig, key);
  }

  lemma RestoredSound(topped: Placement, orig: Placement, ids: set<BrokerId>)
    requires Restored(topped, orig, ids)
    ensures Sound(topped, ids) && topped.partitions.Keys == orig.partitions.Keys
  {
    hide Sound, FilterReplicas, RestoredLeader;
  }

  lemma NothingMoved(v: Placement, topped: Placement, orig: Placement, bs: seq<Broker>, limits: map<BrokerId, int>)
    requires bs != [] && Settled(v, topped, orig, bs, limits) && Balanced(topped.load, 1)
    ensures Displaced(v, orig, Ids(bs)) == {}
  {
    hide CanBalance, Deficit, LoadOver, Balanced, Displaced, Ids;
  }

  lemma StillListedWhere(v: Placement, orig: Placement, ids: set<BrokerId>, k: string, b: BrokerId)
    requires Displaced(v, orig, ids) == {} && k in orig.partitions && b in orig.partitions[k] && b in ids
    ensures k in v.partitions && b in v.partitions[k]
  {
    assert (k, b) !in Displaced(v, orig, ids);
  }

  lemma RebalancedLed(v: Placement, orig: Placement, ids: set<BrokerId>, limits: map<BrokerId, int>, k: string)
    requires Rebalanced(v, orig, ids, limits) && k in orig.partitions
    ensures LedAsBefore(v, orig, ids, k)
  {
    hide WellFormed, Capped, LedAsBefore, Elems;
  }

  lemma SecondLed(v: Placement, orig: Placement, key: string)
    requires orig == LedBySecond(key) && LedAsBefore(v, orig, {1, 2, 4}, key) && key in v.partitions && 2 in v.partitions[key]
    ensures key in v.leaders && v.leaders[key] == v.partitions[key][0] != 2
  {
    SecondKept();
    hide FilterReplicas;
    assert orig.load.Keys == {1, 2, 3};
  }

  lemma SecondKept()
    ensures FilterReplicas([1, 2, 3], {1, 2, 3} - {1, 2, 4}) == [1, 2]
  {
    FilterOne(1, {3});
    FilterOne(2, {3});
    FilterOne(3, {3});
    FilterSplits([1], [2], {3});
    FilterSplits([1] + [2], [3], {3});
    assert {1, 2, 3} - {1, 2, 4} == {3} && [1] + [2] + [3] == [1, 2, 3];
  }

  /** Broker 3 goes and broker 4 comes: broker 2 stays in the list and does not lead any more. */
  method LeaderReplaced() returns (r: Result<Assignment, PlacementError>, key: string)
    ensures r.Ok? && key in r.value.partitions && 2 in r.value.partitions[key] && key in r.value.leaders
    ensures r.value.leaders[key] == r.value.partitions[key][0] != 2
  {
    hide Restored, Settled, Balanced, CapacityLimits, Rebalanced, WellFormed, Ids, DistinctIds, Unlimited, FilterExcluded;
    key := PartitionKey("t", 0);
    var current := new Assignment();
    current.AddReplica("t", 0, [1, 2, 3]);
    current.leaders := map[key := 2];
    SecondBuilt(current.View(), key);
    SecondWellFormed(key);
    BrokersLeft();
    NoneExcluded(LEFT);
    ghost var topped;
    r, topped := Rebalance(current, LEFT, Constraints(false, 0, map[], {}));
    SecondReplaced(r.value.View(), topped, key, CapacityLimits(LEFT, 0));
  }

  lemma SecondBuilt(v: Placement, key: string)
    requires v == Added(EMPTY, key, [1, 2, 3]).(leaders := map[key := 2])
    ensures v == LedBySecond(key)
  {
    assert multiset([1, 2, 3]) == multiset{1, 2, 3};
    assert Tally(map[], [1, 2, 3]) == map[1 := 1, 2 := 1, 3 := 1];
  }

  lemma {:induction false} NoneExcluded(brokers: seq<Broker>)
    ensures FilterExcluded(brokers, {}) == brokers
  {
    if brokers != [] { NoneExcluded(brokers[1..]); }
  }
}

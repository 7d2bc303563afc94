/** Range placement (pkg/cluster/range.go). */
module RangeStrategy {
  import opened Common
  import opened Placements
  import opened Batches
  import opened Selection
  import opened Racks
  import opened RangeRacks

  // ---------------------------------------------------------------------
  // Choosing the replicas of one partition
  // ---------------------------------------------------------------------

  /** What the selection computes: the start of a full turn from the owner, or the rack-aware choice. */
  ghost function Selected(p: PartitionInfo, bs: seq<Broker>, owner: nat, rackAware: bool,
                          limits: map<BrokerId, int>, counts: map<BrokerId, int>): Result<seq<BrokerId>, PlacementError>
    requires bs != []
  {
    var want := Min(p.replicas, |bs|);
    if want == 0 then Err(ZeroReplicas)
    else
      var list := if rackAware then Spread(bs, want, limits, counts).Chosen(owner) else Turn(bs, owner, limits, counts);
      if |list| < want then Err(NotEnoughBrokers) else Ok(list[..want])
  }

  /** Selection fails exactly for zero replicas or too few brokers with room; otherwise it is a legal choice. */
  lemma SelectedIsChoice(p: PartitionInfo, bs: seq<Broker>, owner: nat, rackAware: bool, limits: map<BrokerId, int>, counts: map<BrokerId, int>)
    requires DistinctIds(bs) && bs != []
    ensures var r := Selected(p, bs, owner, rackAware, limits, counts);
            && (r.Ok? <==> 0 < Min(p.replicas, |bs|) <= |Capable(bs, limits, counts)|)
            && (r.Ok? ==> Choice(r.value, p.replicas, bs, limits, counts))
            && (r.Ok? && rackAware ==> |RacksOf(bs, r.value)| == Min(Min(p.replicas, |bs|), |RoomyRacks(bs, limits, counts)|))
  {
    var want := Min(p.replicas, |bs|);
    if want == 0 { return; }
    if rackAware {
      RackChoice(want, bs, owner, limits, counts);
    } else {
      TurnChoice(want, bs, owner, limits, counts);
    }
    hide Turn, RacksOf, RoomyRacks, Capable, DistinctIds;
  }

  lemma RackChoice(want: nat, bs: seq<Broker>, owner: nat, limits: map<BrokerId, int>, counts: map<BrokerId, int>)
    requires DistinctIds(bs) && 0 < want <= |bs|
    ensures var list := Spread(bs, want, limits, counts).Chosen(owner);
            && |list| <= want
            && (|list| == want <==> |Capable(bs, limits, counts)| >= want)
            && (|list| == want ==> list[..want] == list && Choice(list, want, bs, limits, counts)
                                   && |RacksOf(bs, list)| == Min(want, |RoomyRacks(bs, limits, counts)|))
  {
    var spread := Spread(bs, want, limits, counts);
    spread.ChosenLegal(owner);
    if |spread.Chosen(owner)| == want { spread.ChosenCovers(owner); }
    hide RacksOf, RoomyRacks;
  }

  lemma TurnChoice(want: nat, bs: seq<Broker>, owner: nat, limits: map<BrokerId, int>, counts: map<BrokerId, int>)
    requires DistinctIds(bs) && 0 < want <= |bs|
    ensures var turn := Turn(bs, owner, limits, counts);
            && |turn| == |Capable(bs, limits, counts)|
            && (|turn| >= want ==> Choice(turn[..want], want, bs, limits, counts))
  {
    hide RoomIds, Window;
    var turn := Turn(bs, owner, limits, counts);
    TurnMeetsAll(bs, owner, limits, counts);
    if |turn| >= want {
      var list := turn[..want];
      forall b | b in list ensures b in Ids(bs) && HasRoom(limits, counts, b) {
        assert b in Elems(turn);
      }
    }
  }

  /** Position of the first broker with room at or after start, or -1; d is how far it had to walk. */
  method NextBrokerWithCapacity(bs: seq<Broker>, start: nat, load: LoadTracker) returns (idx: int, ghost d: nat)
    requires DistinctIds(bs) && bs != []
    ensures idx >= 0 ==> idx == (start + d) % |bs| && d < |bs|
    ensures idx >= 0 ==> Scan(bs, start, d + 1, load.limits, load.counts) == [bs[idx].id]
    ensures idx < 0 ==> idx == -1 && Scan(bs, start, |bs|, load.limits, load.counts) == []
  {
    hide Scan, DistinctIds;
    ghost var limits, counts := load.limits, load.counts;
    var n := |bs|;
    ScanEmpty(bs, start, limits, counts);
    d := 0;
    for i := 0 to n
      invariant Scan(bs, start, i, limits, counts) == []
    {
      idx := (start + i) % n;
      ScanNext(bs, start, i, limits, counts);
      if load.HasCapacity(bs[idx].id) {
        d := i;
        return;
      }
    }
    idx := -1;
  }

  lemma ScanEmpty(bs: seq<Broker>, start: nat, limits: map<BrokerId, int>, counts: map<BrokerId, int>)
    requires bs != []
    ensures Scan(bs, start, 0, limits, counts) == []
  {
  }

  lemma ScanFull(bs: seq<Broker>, start: nat, k: nat, limits: map<BrokerId, int>, counts: map<BrokerId, int>)
    requires bs != []
    ensures k >= |bs| ==> Scan(bs, start, k, limits, counts) == Turn(bs, start, limits, counts)
    ensures Scan(bs, start, k, limits, counts) <= Turn(bs, start, limits, counts)
  {
    ScanIsPrefix(bs, start, Min(k, |bs|), limits, counts);
  }

  method SelectReplicas(p: PartitionInfo, bs: seq<Broker>, owner: nat, c: Constraints, load: LoadTracker)
    returns (r: Result<seq<BrokerId>, PlacementError>)
    requires DistinctIds(bs) && owner < |bs|
    ensures r == Selected(p, bs, owner, c.rackAware, load.limits, load.counts)
  {
    hide Turn, DistinctIds;
    var want := Min(p.replicas, |bs|);
    if want == 0 { return Err(ZeroReplicas); }
    var replicas;
    if c.rackAware {
      replicas := SelectRackAware(want, bs, owner, load);
      RackChoice(want, bs, owner, load.limits, load.counts);
    } else {
      replicas := SelectStandard(want, bs, owner, load);
    }
    if |replicas| < want { return Err(NotEnoughBrokers); }
    r := Ok(replicas);
  }

  /** The primary, then on around the ring; at most want brokers of the full turn. */
  method SelectStandard(want: nat, bs: seq<Broker>, owner: nat, load: LoadTracker) returns (replicas: seq<BrokerId>)
    requires DistinctIds(bs) && 0 < want <= |bs|
    ensures var turn := Turn(bs, owner, load.limits, load.counts);
            if |turn| < want then |replicas| < want else replicas == turn[..want]
  {
    hide Scan, Turn, DistinctIds, HasRoom;
    ghost var limits, counts := load.limits, load.counts;
    var n := |bs|;
    replicas := [];
    var primary, d := NextBrokerWithCapacity(bs, owner, load);
    if primary >= 0 { replicas := [bs[primary].id]; }
    ghost var start: nat := if primary >= 0 then d + 1 else n;
    var brokerIdx, attempts := primary + 1, 0;
    if primary < 0 { ScanFull(bs, owner, n, limits, counts); }
    while |replicas| < want && attempts < n * 2
      invariant 0 <= attempts <= n * 2 && brokerIdx == primary + 1 + attempts
      invariant |replicas| <= want
      invariant primary >= 0 ==> replicas == Scan(bs, owner, start + attempts, limits, counts)
      invariant primary < 0 ==> replicas == [] && Turn(bs, owner, limits, counts) == []
      decreases n * 2 - attempts
    {
      var broker := bs[brokerIdx % n];
      if primary >= 0 {
        SamePosition(owner, d, primary, 1 + attempts, n);
        ScanNext(bs, owner, start + attempts, limits, counts);
      } else {
        NobodyHasRoom(bs, owner, limits, counts, brokerIdx % n);
      }
      brokerIdx := brokerIdx + 1;
      attempts := attempts + 1;
      if broker.id !in replicas && load.HasCapacity(broker.id) {
        replicas := replicas + [broker.id];
      }
    }
    if primary >= 0 { ScanFull(bs, owner, start + attempts, limits, counts); }
  }

  lemma SamePosition(owner: nat, d: nat, primary: nat, k: nat, n: nat)
    requires n > 0 && primary == (owner + d) % n
    ensures (primary + k) % n == (owner + (d + k)) % n
  {
    ModWrap(owner + d, k, n);
    assert owner + d + k == owner + (d + k);
  }

  lemma NobodyHasRoom(bs: seq<Broker>, start: nat, limits: map<BrokerId, int>, counts: map<BrokerId, int>, i: nat)
    requires DistinctIds(bs) && i < |bs| && Turn(bs, start, limits, counts) == []
    ensures !HasRoom(limits, counts, bs[i].id)
  {
    hide Turn;
    TurnMeetsAll(bs, start, limits, counts);
    assert bs[i].id in Ids(bs);
    assert Capable(bs, limits, counts) == {};
    assert bs[i].id !in Capable(bs, limits, counts);
  }

  method SelectRackAware(want: nat, bs: seq<Broker>, owner: nat, load: LoadTracker) returns (replicas: seq<BrokerId>)
    requires DistinctIds(bs) && 0 < want <= |bs|
    ensures replicas == Spread(bs, want, load.limits, load.counts).Chosen(owner)
  {
    hide Spread.Visit, Spread.Fill, Turn, Scan, RacksOf, DistinctIds, RackName;
    var spread := Spread(bs, want, load.limits, load.counts);
    ghost var limits, counts := load.limits, load.counts;
    var idx, d := NextBrokerWithCapacity(bs, owner, load);
    var s := Picked([], {});
    if idx >= 0 {
      s := Picked([bs[idx].id], {RackName(bs[idx])});
      PrimaryFound(spread, owner, d, idx);
    } else {
      ScanFull(bs, owner, |bs|, limits, counts);
    }
    for j := 0 to |bs|
      invariant s == spread.Visited(spread.Primary(owner), j)
    {
      s := spread.Visit(s, bs[j]);
    }
    ghost var first := s;
    for j := 0 to |bs|
      invariant s == spread.Filled(first, j)
    {
      s := spread.Fill(s, bs[j]);
    }
    replicas := s.replicas;
  }

  lemma PrimaryFound(spread: Spread, owner: nat, d: nat, idx: nat)
    requires DistinctIds(spread.bs) && idx < |spread.bs|
    requires Scan(spread.bs, owner, d + 1, spread.limits, spread.counts) == [spread.bs[idx].id]
    ensures spread.Primary(owner) == Picked([spread.bs[idx].id], {RackName(spread.bs[idx])})
  {
    hide Scan, Turn, RacksOf, RackName, DistinctIds;
    RacksOfOne(spread.bs, idx);
    ScanFull(spread.bs, owner, d + 1, spread.limits, spread.counts);
  }

  lemma RacksOfOne(bs: seq<Broker>, i: nat)
    requires DistinctIds(bs) && i < |bs|
    ensures RacksOf(bs, [bs[i].id]) == {RackName(bs[i])}
  {
    RacksOfAppend(bs, [], bs[i]);
    assert RacksOf(bs, []) == {};
    assert [] + [bs[i].id] == [bs[i].id];
  }
}

/** Which brokers a partition of a batch gets in round-robin's turn (pkg/cluster/roundrobin.go). */
module Turns {
  import opened Common
  import opened Placements
  import opened Batches
  import opened Selection
  import opened Racks
  import opened RackPass

  /** What one partition met: where the turn stood, the counts, and the list it was given. */
  datatype Deal = Deal(idx: nat, counts: map<BrokerId, int>, list: seq<BrokerId>)

  /** The list of a turn and where the next one begins: the next rack, or the broker after the last one taken. */
  ghost predicate Takes(p: PartitionInfo, bs: seq<Broker>, rackAware: bool, limits: map<BrokerId, int>, t: Deal, next: nat)
    requires bs != []
  {
    var want := Min(p.replicas, |bs|);
    && 0 < want == |t.list|
    && if rackAware then
         && |RoomyRacks(bs, limits, t.counts)| >= Min(want, |RackNames(bs)|)
         && next == t.idx + 1 && t.list == Job(bs, RackList(bs), want, limits, t.counts).Chosen(t.idx)
       else
         && t.idx < next <= t.idx + |bs| && t.list == RoomIds(Window(bs, t.idx, next - t.idx), limits, t.counts)
         && t.list[want - 1] == Seat(bs, next - 1)
  }

  /** Going round the brokers. */
  function Seat(bs: seq<Broker>, i: nat): BrokerId
    requires bs != []
  {
    bs[i % |bs|].id
  }

  function SeatFrom(bs: seq<Broker>, at: nat, d: nat): BrokerId
    requires bs != []
  {
    Seat(bs, at + d)
  }

  /** The rack d places after a position, going round. */
  function RackFrom(racks: seq<string>, at: nat, d: nat): string
    requires racks != []
  {
    racks[(at + d) % |racks|]
  }

  function IdxAt(turns: seq<Deal>, j: nat, idx: nat): nat {
    if j < |turns| then turns[j].idx else idx
  }

  function CountsAt(turns: seq<Deal>, j: nat, counts: map<BrokerId, int>): map<BrokerId, int> {
    if j < |turns| then turns[j].counts else counts
  }

  /** The turns of the first partitions, each from where the one before it ended; idx and counts are where the last one ended. */
  ghost predicate Chain(turns: seq<Deal>, ps: seq<PartitionInfo>, bs: seq<Broker>, c: Constraints, idx: nat, counts: map<BrokerId, int>)
    requires bs != []
  {
    && |turns| <= |ps| && IdxAt(turns, 0, idx) == 0 && CountsAt(turns, 0, counts) == Seed(bs, c.existingLoad)
    && forall j :: 0 <= j < |turns| ==>
        && Takes(ps[j], bs, c.rackAware, CapacityLimits(bs, c.maxPerBroker), turns[j], IdxAt(turns, j + 1, idx))
        && CountsAt(turns, j + 1, counts) == Tally(turns[j].counts, turns[j].list)
  }

  /** Each partition has the list of its turn. */
  ghost predicate Dealt(v: Placement, ps: seq<PartitionInfo>, turns: seq<Deal>) {
    && |turns| <= |ps|
    && (DistinctKeys(ps[..|turns|]) ==> forall j :: 0 <= j < |turns| ==> HasList(v, ps[j].Key(), turns[j].list))
  }

  ghost predicate HasList(v: Placement, k: string, list: seq<BrokerId>) {
    k in v.partitions && v.partitions[k] == list
  }

  lemma ChainStart(ps: seq<PartitionInfo>, bs: seq<Broker>, c: Constraints)
    requires bs != []
    ensures Chain([], ps, bs, c, 0, Seed(bs, c.existingLoad)) && Dealt(EMPTY, ps, [])
  {
  }

  lemma ChainStep(turns: seq<Deal>, ps: seq<PartitionInfo>, bs: seq<Broker>, c: Constraints, idx: nat, counts: map<BrokerId, int>,
                  list: seq<BrokerId>, idx': nat)
    requires bs != [] && Chain(turns, ps, bs, c, idx, counts) && |turns| < |ps|
    requires Takes(ps[|turns|], bs, c.rackAware, CapacityLimits(bs, c.maxPerBroker), Deal(idx, counts, list), idx')
    ensures Chain(turns + [Deal(idx, counts, list)], ps, bs, c, idx', Tally(counts, list))
  {
    hide Takes, Tally, Seed, CapacityLimits;
    var n, more := |turns|, turns + [Deal(idx, counts, list)];
    forall j | 0 <= j < |more|
      ensures Takes(ps[j], bs, c.rackAware, CapacityLimits(bs, c.maxPerBroker), more[j], IdxAt(more, j + 1, idx'))
      ensures CountsAt(more, j + 1, Tally(counts, list)) == Tally(more[j].counts, more[j].list)
    {
      if j < n {
        assert more[j] == turns[j] && IdxAt(more, j + 1, idx') == IdxAt(turns, j + 1, idx);
        assert CountsAt(more, j + 1, Tally(counts, list)) == CountsAt(turns, j + 1, counts);
      }
    }
  }

  lemma DealtStep(v: Placement, ps: seq<PartitionInfo>, turns: seq<Deal>, t: Deal)
    requires Dealt(v, ps, turns) && |turns| < |ps|
    ensures Dealt(Added(v, ps[|turns|].Key(), t.list), ps, turns + [t])
  {
    hide Tally, PartitionInfo.Key;
    var n := |turns|;
    if DistinctKeys(ps[..n + 1]) {
      assert DistinctKeys(ps[..n]) by { assert forall i :: 0 <= i < n ==> ps[..n][i] == ps[..n + 1][i]; }
      forall j | 0 <= j < n ensures ps[j].Key() != ps[n].Key() {
        assert ps[..n + 1][j].Key() != ps[..n + 1][n].Key();
      }
    }
  }

  // ---------------------------------------------------------------------
  // Standard turns without limits
  // ---------------------------------------------------------------------

  /** Replicas asked for by the first k partitions on n brokers. */
  ghost function Slots(ps: seq<PartitionInfo>, n: nat, k: nat): nat
    requires k <= |ps|
  {
    if k == 0 then 0 else Slots(ps, n, k - 1) + Min(ps[k - 1].replicas, n)
  }

  lemma {:induction false} UnlimitedWindow(bs: seq<Broker>, idx: nat, k: nat, limits: map<BrokerId, int>, counts: map<BrokerId, int>)
    requires bs != [] && Unlimited(limits)
    ensures var w := RoomIds(Window(bs, idx, k), limits, counts);
            |w| == k && forall d :: 0 <= d < k ==> w[d] == Seat(bs, idx + d)
  {
    if k > 0 {
      UnlimitedWindow(bs, idx, k - 1, limits, counts);
      WindowAppend(bs, idx, k - 1, limits, counts);
      hide Window, RoomIds;
    }
  }

  /** A standard turn without limits: one broker after the other. */
  lemma StandardTurn(p: PartitionInfo, bs: seq<Broker>, limits: map<BrokerId, int>, t: Deal, next: nat)
    requires bs != [] && Unlimited(limits) && Takes(p, bs, false, limits, t, next)
    ensures |t.list| == Min(p.replicas, |bs|) && next == t.idx + |t.list|
    ensures forall d :: 0 <= d < |t.list| ==> t.list[d] == Seat(bs, t.idx + d)
  {
    hide Window, RoomIds, Unlimited, Seat;
    UnlimitedWindow(bs, t.idx, next - t.idx, limits, t.counts);
  }

  lemma TurnOf(turns: seq<Deal>, ps: seq<PartitionInfo>, bs: seq<Broker>, c: Constraints, idx: nat, counts: map<BrokerId, int>, j: nat)
    requires bs != [] && Chain(turns, ps, bs, c, idx, counts) && j < |turns|
    ensures Takes(ps[j], bs, c.rackAware, CapacityLimits(bs, c.maxPerBroker), turns[j], IdxAt(turns, j + 1, idx))
    ensures IdxAt(turns, j, idx) == turns[j].idx && IdxAt(turns, 0, idx) == 0
  {
    hide Takes, Tally, Seed, CapacityLimits;
  }

  lemma {:induction false} StandardIdx(turns: seq<Deal>, ps: seq<PartitionInfo>, bs: seq<Broker>, c: Constraints, idx: nat, counts: map<BrokerId, int>, j: nat)
    requires bs != [] && Chain(turns, ps, bs, c, idx, counts) && j <= |turns| <= |ps| && !c.rackAware
    requires Unlimited(CapacityLimits(bs, c.maxPerBroker))
    ensures IdxAt(turns, j, idx) == Slots(ps, |bs|, j)
  {
    hide CapacityLimits, Unlimited, Takes, Seat, IdxAt, Chain;
    if j == 0 {
      ChainBegins(turns, ps, bs, c, idx, counts);
    } else {
      StandardIdx(turns, ps, bs, c, idx, counts, j - 1);
      TurnOf(turns, ps, bs, c, idx, counts, j - 1);
      StandardTurn(ps[j - 1], bs, CapacityLimits(bs, c.maxPerBroker), turns[j - 1], IdxAt(turns, j, idx));
    }
  }

  lemma ChainBegins(turns: seq<Deal>, ps: seq<PartitionInfo>, bs: seq<Broker>, c: Constraints, idx: nat, counts: map<BrokerId, int>)
    requires bs != [] && Chain(turns, ps, bs, c, idx, counts)
    ensures IdxAt(turns, 0, idx) == 0 && |turns| <= |ps|
  {
    hide Takes, Tally, Seed, CapacityLimits;
  }

  /** The list of a partition goes round from a seat on, and its first broker leads. */
  ghost predicate GoesRound(v: Placement, p: PartitionInfo, bs: seq<Broker>, from: nat)
    requires bs != []
  {
    && FirstLeads(v, p.Key()) && |v.partitions[p.Key()]| == Min(p.replicas, |bs|)
    && forall d :: 0 <= d < Min(p.replicas, |bs|) ==> v.partitions[p.Key()][d] == Seat(bs, from + d)
  }

  /** The k-th partition gets the brokers after those of all partitions before it. */
  ghost predicate RoundSpread(v: Placement, ps: seq<PartitionInfo>, bs: seq<Broker>)
    requires bs != []
  {
    forall k :: 0 <= k < |ps| ==> GoesRound(v, ps[k], bs, Slots(ps, |bs|, k))
  }

  lemma DealtList(v: Placement, ps: seq<PartitionInfo>, turns: seq<Deal>, k: nat)
    requires |turns| == |ps| && DistinctKeys(ps) && Dealt(v, ps, turns) && AllFirst(v) && k < |ps|
    ensures FirstLeads(v, ps[k].Key()) && v.partitions[ps[k].Key()] == turns[k].list
  {
    hide DistinctKeys, FirstLeads;
    assert ps[..|ps|] == ps;
    assert HasList(v, ps[k].Key(), turns[k].list);
  }

  lemma SpreadRound(v: Placement, turns: seq<Deal>, ps: seq<PartitionInfo>, bs: seq<Broker>, c: Constraints, idx: nat, counts: map<BrokerId, int>)
    requires bs != [] && Chain(turns, ps, bs, c, idx, counts) && |turns| == |ps| && !c.rackAware
    requires Unlimited(CapacityLimits(bs, c.maxPerBroker)) && DistinctKeys(ps) && Dealt(v, ps, turns) && AllFirst(v)
    ensures RoundSpread(v, ps, bs)
  {
    hide CapacityLimits, Unlimited, DistinctKeys, Slots, FirstLeads, Chain, Takes, Seat, Dealt, AllFirst, IdxAt;
    forall k | 0 <= k < |ps| ensures GoesRound(v, ps[k], bs, Slots(ps, |bs|, k)) {
      DealtList(v, ps, turns, k);
      TurnOf(turns, ps, bs, c, idx, counts, k);
      StandardIdx(turns, ps, bs, c, idx, counts, k);
      StandardTurn(ps[k], bs, CapacityLimits(bs, c.maxPerBroker), turns[k], IdxAt(turns, k + 1, idx));
    }
  }

  // ---------------------------------------------------------------------
  // Rack-aware turns
  // ---------------------------------------------------------------------

  lemma {:induction false} RackIdx(turns: seq<Deal>, ps: seq<PartitionInfo>, bs: seq<Broker>, c: Constraints, idx: nat, counts: map<BrokerId, int>, j: nat)
    requires bs != [] && Chain(turns, ps, bs, c, idx, counts) && j <= |turns| && c.rackAware
    ensures IdxAt(turns, j, idx) == j
  {
    hide CapacityLimits, IdxAt, Chain, Takes;
    if j == 0 {
      ChainBegins(turns, ps, bs, c, idx, counts);
    } else {
      RackIdx(turns, ps, bs, c, idx, counts, j - 1);
      ChainBegins(turns, ps, bs, c, idx, counts);
      TurnOf(turns, ps, bs, c, idx, counts, j - 1);
      NextRack(ps[j - 1], bs, CapacityLimits(bs, c.maxPerBroker), turns[j - 1], IdxAt(turns, j, idx));
    }
  }

  lemma NextRack(p: PartitionInfo, bs: seq<Broker>, limits: map<BrokerId, int>, t: Deal, next: nat)
    requires bs != [] && Takes(p, bs, true, limits, t, next)
    ensures next == t.idx + 1
  {
    hide Job.Chosen;
  }

  lemma {:induction false} InRackById(bs: seq<Broker>, rack: string)
    requires ById(bs)
    ensures ById(InRack(bs, rack))
  {
    hide RackName;
    if bs != [] {
      InRackById(bs[1..], rack);
      var rest := InRack(bs[1..], rack);
      forall i | 0 <= i < |rest| ensures bs[0].id < rest[i].id { assert rest[i] in rest; }
    }
  }

  lemma {:induction false} FirstFreeLowest(list: seq<Broker>, limits: map<BrokerId, int>, counts: map<BrokerId, int>)
    requires ById(list) && FirstFree(list, [], limits, counts).Some?
    ensures var id := FirstFree(list, [], limits, counts).value.id;
            forall b :: b in list && HasRoom(limits, counts, b.id) ==> id <= b.id
  {
    hide HasRoom;
    if list[0].id in [] || !HasRoom(limits, counts, list[0].id) { FirstFreeLowest(list[1..], limits, counts); }
  }

  lemma HeadIsLowest(bs: seq<Broker>, rack: string, limits: map<BrokerId, int>, counts: map<BrokerId, int>)
    requires ById(bs) && FirstFree(InRack(bs, rack), [], limits, counts).Some?
    ensures Lowest(FirstFree(InRack(bs, rack), [], limits, counts).value.id, bs, rack, limits, counts)
  {
    hide HasRoom, RackName, FirstFree;
    InRackById(bs, rack);
    FirstFreeLowest(InRack(bs, rack), limits, counts);
  }

  /** The first replica is the lowest broker with room in the first rack with room at or after the turn's position. */
  ghost predicate FirstRoomyRack(id: BrokerId, bs: seq<Broker>, racks: seq<string>, at: nat, limits: map<BrokerId, int>, counts: map<BrokerId, int>)
    requires racks != []
  {
    exists d: nat ::
      && d < |racks| && Lowest(id, bs, RackFrom(racks, at, d), limits, counts)
      && forall e: nat :: e < d ==> RackFrom(racks, at, e) !in RoomyRacks(bs, limits, counts)
  }

  lemma {:induction false} FirstHead(job: Job, start: nat, n: nat)
    requires job.racks != [] && ById(job.bs) && n <= |job.racks|
    ensures job.Heads(start, n) == [] ==> forall e: nat :: e < n ==> RackFrom(job.racks, start, e) !in job.Roomy()
    ensures job.Heads(start, n) != [] ==> FirstRoomyRack(job.Heads(start, n)[0], job.bs, job.racks, start, job.limits, job.counts)
  {
    hide HasRoom, RoomyRacks, Lowest, InRack, FirstFree, ById, Job.RackAt, RackFrom;
    if n > 0 {
      FirstHead(job, start, n - 1);
      var rack := job.RackAt(start + n - 1);
      SameRack(job, start, n - 1);
      var head := FirstFree(InRack(job.bs, rack), [], job.limits, job.counts);
      if head.Some? {
        HeadIsLowest(job.bs, rack, job.limits, job.counts);
        if job.Heads(start, n - 1) == [] {
          assert job.Heads(start, n) == [head.value.id];
        }
      } else {
        NoHead(job, rack);
      }
    }
  }

  lemma SameRack(job: Job, start: nat, d: nat)
    requires job.racks != []
    ensures job.RackAt(start + d) == RackFrom(job.racks, start, d)
  {
  }

  lemma NoHead(job: Job, rack: string)
    requires FirstFree(InRack(job.bs, rack), [], job.limits, job.counts).None?
    ensures rack !in job.Roomy()
  {
    hide FirstFree, HasRoom;
    forall i | 0 <= i < |job.bs| && RackName(job.bs[i]) == rack ensures !HasRoom(job.limits, job.counts, job.bs[i].id) {
      assert job.bs[i] in InRack(job.bs, rack);
    }
  }

  lemma ChosenFirst(job: Job, start: nat)
    requires job.Valid() && ById(job.bs) && |job.Roomy()| >= Min(job.want, |job.racks|)
    ensures job.Chosen(start) != [] && FirstRoomyRack(job.Chosen(start)[0], job.bs, job.racks, start, job.limits, job.counts)
  {
    hide RoomyRacks, Job.Heads, Job.Rest, Distinct, DistinctIds, ById, FirstRoomyRack;
    FirstHead(job, start, |job.racks|);
    var heads := job.Heads(start, |job.racks|);
    if heads == [] { NoRoomyRack(job, start); }
  }

  lemma NoRoomyRack(job: Job, start: nat)
    requires job.Valid() && forall e: nat :: e < |job.racks| ==> RackFrom(job.racks, start, e) !in job.Roomy()
    ensures job.Roomy() == {}
  {
    hide Distinct, DistinctIds, RoomyRacks;
    forall rack | rack in RackNames(job.bs) ensures rack !in job.Roomy() {
      assert rack in Elems(job.racks);
      var i :| 0 <= i < |job.racks| && job.racks[i] == rack;
      var j := CyclicIndex(start, i, |job.racks|);
      assert RackFrom(job.racks, start, j) == rack;
    }
    RoomyKnown(job);
  }

  lemma RoomyKnown(job: Job)
    ensures job.Roomy() <= RackNames(job.bs)
  {
  }

  lemma {:induction false} HeadsUnlimited(job: Job, start: nat, n: nat)
    requires job.Valid() && ById(job.bs) && Unlimited(job.limits)
    ensures |job.Heads(start, n)| == n
    ensures forall d :: 0 <= d < n ==> Lowest(job.Heads(start, n)[d], job.bs, job.RackAt(start + d), job.limits, job.counts)
  {
    hide Lowest, InRack, FirstFree, ById, DistinctIds, Distinct, HasRoom;
    if n > 0 {
      HeadsUnlimited(job, start, n - 1);
      var rack := job.RackAt(start + n - 1);
      HasHead(job, rack);
      HeadIsLowest(job.bs, rack, job.limits, job.counts);
      assert start + n - 1 == start + (n - 1);
    }
  }

  lemma HasHead(job: Job, rack: string)
    requires job.Valid() && Unlimited(job.limits) && rack in job.racks
    ensures FirstFree(InRack(job.bs, rack), [], job.limits, job.counts).Some?
  {
    hide FirstFree, Distinct, DistinctIds;
    assert rack in Elems(job.racks);
    var i :| 0 <= i < |job.bs| && RackName(job.bs[i]) == rack;
    assert job.bs[i] in InRack(job.bs, rack) && HasRoom(job.limits, job.counts, job.bs[i].id);
  }

  /** From a rack on, one rack after the other gives its lowest broker, until enough or all have; the first leads. */
  ghost predicate GoesRoundRacks(v: Placement, p: PartitionInfo, bs: seq<Broker>, from: nat)
    requires bs != []
  {
    var racks := RackList(bs);
    && FirstLeads(v, p.Key()) && |v.partitions[p.Key()]| == Min(p.replicas, |bs|)
    && forall d :: 0 <= d < Min(Min(p.replicas, |bs|), |racks|) ==>
        Lowest(v.partitions[p.Key()][d], bs, RackFrom(racks, from, d), map[], map[])
  }

  /** The k-th partition begins at rack k. */
  ghost predicate RackSpread(v: Placement, ps: seq<PartitionInfo>, bs: seq<Broker>)
    requires bs != []
  {
    forall k :: 0 <= k < |ps| ==> GoesRoundRacks(v, ps[k], bs, k)
  }

  lemma LowestAnyway(id: BrokerId, bs: seq<Broker>, rack: string, limits: map<BrokerId, int>, counts: map<BrokerId, int>)
    requires Unlimited(limits) && Lowest(id, bs, rack, limits, counts)
    ensures Lowest(id, bs, rack, map[], map[])
  {
    assert forall b :: HasRoom(limits, counts, b);
  }

  lemma TurnUnlimited(p: PartitionInfo, bs: seq<Broker>, limits: map<BrokerId, int>, t: Deal, next: nat)
    requires bs != [] && DistinctIds(bs) && ById(bs) && Unlimited(limits) && Takes(p, bs, true, limits, t, next)
    ensures var racks := RackList(bs);
            forall d :: 0 <= d < Min(Min(p.replicas, |bs|), |racks|) ==> Lowest(t.list[d], bs, RackFrom(racks, t.idx, d), map[], map[])
  {
    hide Lowest, ById, DistinctIds, Job.Heads, Job.Rest;
    var job := Job(bs, RackList(bs), Min(p.replicas, |bs|), limits, t.counts);
    HeadsUnlimited(job, t.idx, |job.racks|);
    var heads := job.Heads(t.idx, |job.racks|);
    forall d | 0 <= d < Min(job.want, |job.racks|) ensures Lowest(t.list[d], bs, RackFrom(job.racks, t.idx, d), map[], map[]) {
      assert t.list[d] == heads[d];
      assert Lowest(heads[d], bs, job.RackAt(t.idx + d), limits, t.counts);
      LowestAnyway(heads[d], bs, job.RackAt(t.idx + d), limits, t.counts);
    }
  }

  lemma SpreadRacks(v: Placement, turns: seq<Deal>, ps: seq<PartitionInfo>, bs: seq<Broker>, c: Constraints, idx: nat, counts: map<BrokerId, int>)
    requires bs != [] && DistinctIds(bs) && ById(bs) && Chain(turns, ps, bs, c, idx, counts) && |turns| == |ps| && c.rackAware
    requires Unlimited(CapacityLimits(bs, c.maxPerBroker)) && DistinctKeys(ps) && Dealt(v, ps, turns) && AllFirst(v)
    ensures RackSpread(v, ps, bs)
  {
    hide CapacityLimits, Unlimited, DistinctKeys, FirstLeads, ById, DistinctIds, Lowest, Chain, Takes, Dealt, AllFirst, IdxAt, RackFrom;
    forall k | 0 <= k < |ps| ensures GoesRoundRacks(v, ps[k], bs, k) {
      var next := IdxAt(turns, k + 1, idx);
      DealtList(v, ps, turns, k);
      TurnOf(turns, ps, bs, c, idx, counts, k);
      TurnSized(ps[k], bs, c.rackAware, CapacityLimits(bs, c.maxPerBroker), turns[k], next);
      RackIdx(turns, ps, bs, c, idx, counts, k);
      TurnUnlimited(ps[k], bs, CapacityLimits(bs, c.maxPerBroker), turns[k], next);
    }
  }

  lemma TurnSized(p: PartitionInfo, bs: seq<Broker>, rackAware: bool, limits: map<BrokerId, int>, t: Deal, next: nat)
    requires bs != [] && Takes(p, bs, rackAware, limits, t, next)
    ensures |t.list| == Min(p.replicas, |bs|)
  {
  }

  /** With limits: the first replica of every partition is in the first rack with room from its own position on. */
  lemma LedFromOwnRack(turns: seq<Deal>, ps: seq<PartitionInfo>, bs: seq<Broker>, c: Constraints, idx: nat, counts: map<BrokerId, int>, k: nat)
    requires bs != [] && DistinctIds(bs) && ById(bs) && Chain(turns, ps, bs, c, idx, counts) && k < |turns| && c.rackAware
    ensures turns[k].list != []
    ensures FirstRoomyRack(turns[k].list[0], bs, RackList(bs), k, CapacityLimits(bs, c.maxPerBroker), turns[k].counts)
  {
    hide CapacityLimits, ById, DistinctIds, Lowest, Chain, IdxAt, RackFrom, RoomyRacks, FirstRoomyRack, Job.Chosen;
    ChainBegins(turns, ps, bs, c, idx, counts);
    TurnOf(turns, ps, bs, c, idx, counts, k);
    RackIdx(turns, ps, bs, c, idx, counts, k);
    var job := Job(bs, RackList(bs), Min(ps[k].replicas, |bs|), CapacityLimits(bs, c.maxPerBroker), turns[k].counts);
    DistinctCardinality(job.racks);
    ChosenFirst(job, k);
  }
}

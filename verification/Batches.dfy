/** What placing a batch of partitions one after another amounts to, for every strategy. */
module Batches {
  import opened Common
  import opened PartitionKeys
  import opened Placements

  ghost predicate DistinctKeys(ps: seq<PartitionInfo>) {
    forall i, j :: 0 <= i < j < |ps| ==> ps[i].Key() != ps[j].Key()
  }

  function Keys(ps: seq<PartitionInfo>): set<string> {
    set p | p in ps :: p.Key()
  }

  lemma KeysAppend(ps: seq<PartitionInfo>, p: PartitionInfo)
    ensures Keys(ps + [p]) == Keys(ps) + {p.Key()}
    ensures DistinctKeys(ps + [p]) <==> DistinctKeys(ps) && p.Key() !in Keys(ps)
  {
    var qs := ps + [p];
    forall k | k in Keys(qs) ensures k in Keys(ps) + {p.Key()} {
      var q :| q in qs && q.Key() == k;
    }
    forall k | k in Keys(ps) + {p.Key()} ensures k in Keys(qs) {
      if k in Keys(ps) {
        var q :| q in ps && q.Key() == k;
        assert q in qs;
      } else {
        assert p in qs;
      }
    }
    if DistinctKeys(qs) {
      DistinctFront(ps, p);
    }
    if DistinctKeys(ps) && p.Key() !in Keys(ps) {
      forall i, j | 0 <= i < j < |qs| ensures qs[i].Key() != qs[j].Key() {
        assert ps[i] in ps;
      }
    }
  }

  lemma DistinctFront(ps: seq<PartitionInfo>, p: PartitionInfo)
    requires DistinctKeys(ps + [p])
    ensures DistinctKeys(ps) && p.Key() !in Keys(ps)
  {
    var qs := ps + [p];
    forall i, j | 0 <= i < j < |ps| ensures ps[i].Key() != ps[j].Key() {
      assert qs[i].Key() != qs[j].Key();
    }
    forall q | q in ps ensures q.Key() != p.Key() {
      var i :| 0 <= i < |ps| && ps[i] == q;
      assert qs[i].Key() != qs[|ps|].Key();
    }
  }

  // ---------------------------------------------------------------------
  // Limits
  // ---------------------------------------------------------------------

  /** A replica list the selection may return: distinct brokers of bs with room for one more. */
  ghost predicate Choice(list: seq<BrokerId>, want: nat, bs: seq<Broker>,
                         limits: map<BrokerId, int>, counts: map<BrokerId, int>)
  {
    && |list| == Min(want, |bs|) && |list| > 0
    && Distinct(list)
    && forall b :: b in list ==> b in Ids(bs) && HasRoom(limits, counts, b)
  }

  /** Brokers that received something hold no more than their limit, what they held before included. */
  ghost predicate WithinLimits(added: multiset<BrokerId>, limits: map<BrokerId, int>, existing: map<BrokerId, int>) {
    forall b :: added[b] > 0 ==> Allows(Get(limits, b), Get(existing, b) + added[b])
  }

  ghost predicate Counted(counts: map<BrokerId, int>, existing: map<BrokerId, int>, placed: multiset<BrokerId>) {
    forall b :: Get(counts, b) == Get(existing, b) + placed[b]
  }

  /** Distinctness is what lets the counts be updated after the whole list was chosen. */
  lemma ChoiceKeepsLimits(placed: multiset<BrokerId>, list: seq<BrokerId>, want: nat, bs: seq<Broker>,
                          limits: map<BrokerId, int>, existing: map<BrokerId, int>, counts: map<BrokerId, int>)
    requires WithinLimits(placed, limits, existing) && Counted(counts, existing, placed)
    requires Choice(list, want, bs, limits, counts)
    ensures WithinLimits(placed + multiset(list), limits, existing)
    ensures Counted(Tally(counts, list), existing, placed + multiset(list))
  {
    forall b | (placed + multiset(list))[b] > 0
      ensures Allows(Get(limits, b), Get(existing, b) + (placed + multiset(list))[b])
    {
      DistinctCount(list, b);
      assert Get(counts, b) == Get(existing, b) + placed[b];
    }
    TallyCounted(counts, existing, placed, list);
  }

  lemma TallyCounted(counts: map<BrokerId, int>, existing: map<BrokerId, int>, placed: multiset<BrokerId>, list: seq<BrokerId>)
    requires Counted(counts, existing, placed)
    ensures Counted(Tally(counts, list), existing, placed + multiset(list))
  {
    forall b ensures Get(Tally(counts, list), b) == Get(existing, b) + (placed + multiset(list))[b] {
      assert Get(counts, b) == Get(existing, b) + placed[b];
    }
  }

  // ---------------------------------------------------------------------
  // The assignment after the first partitions of a batch
  // ---------------------------------------------------------------------

  ghost predicate GoodList(list: seq<BrokerId>, p: PartitionInfo, bs: seq<Broker>) {
    |list| == Min(p.replicas, |bs|) && |list| > 0 && Distinct(list) && Elems(list) <= Ids(bs)
  }

  ghost predicate ListFor(v: Placement, p: PartitionInfo, bs: seq<Broker>) {
    && p.Key() in v.partitions && p.Key() in v.leaders
    && GoodList(v.partitions[p.Key()], p, bs)
    && v.leaders[p.Key()] == v.partitions[p.Key()][0]
  }

  ghost predicate Led(v: Placement) {
    forall k :: k in v.partitions ==> k in v.leaders && v.leaders[k] in v.partitions[k]
  }

  lemma AddedLed(v: Placement, key: string, list: seq<BrokerId>)
    requires Led(v) && list != []
    ensures Led(Added(v, key, list))
  {
    var w := Added(v, key, list);
    forall k | k in w.partitions ensures k in w.leaders && w.leaders[k] in w.partitions[k] {
      if k == key { assert list[0] in list; }
    }
  }

  ghost predicate LoadsAre(load: map<BrokerId, int>, placed: multiset<BrokerId>) {
    && (forall b :: Get(load, b) == placed[b])
    && (forall b :: b in load ==> load[b] > 0)
  }

  /** No list was overwritten unless a key came twice. */
  ghost predicate Kept(v: Placement, ps: seq<PartitionInfo>, bs: seq<Broker>, placed: multiset<BrokerId>) {
    if DistinctKeys(ps) then Total(v.partitions) == placed && forall p :: p in ps ==> ListFor(v, p, bs)
    else |Total(v.partitions)| < |placed|
  }

  /** v holds exactly the partitions ps, and placed is every replica handed out for them. */
  ghost predicate Holds(v: Placement, ps: seq<PartitionInfo>, bs: seq<Broker>, placed: multiset<BrokerId>) {
    && v.partitions.Keys == v.leaders.Keys == Keys(ps) && v.version == 0
    && Led(v) && LoadsAre(v.load, placed) && Kept(v, ps, bs, placed)
  }

  lemma HoldsEmpty(bs: seq<Broker>)
    ensures Holds(EMPTY, [], bs, multiset{})
  {
  }

  lemma HoldsNext(v: Placement, ps: seq<PartitionInfo>, bs: seq<Broker>, placed: multiset<BrokerId>, p: PartitionInfo, list: seq<BrokerId>)
    requires Holds(v, ps, bs, placed) && GoodList(list, p, bs)
    ensures Holds(Added(v, p.Key(), list), ps + [p], bs, placed + multiset(list))
  {
    hide Kept, Led, LoadsAre, Tally;
    KeysAppend(ps, p);
    AddedLed(v, p.Key(), list);
    AddedLoad(v.load, list, placed);
    AddedKept(v, ps, bs, placed, p, list);
  }

  lemma AddedLoad(load: map<BrokerId, int>, list: seq<BrokerId>, placed: multiset<BrokerId>)
    requires LoadsAre(load, placed)
    ensures LoadsAre(Tally(load, list), placed + multiset(list))
  {
  }

  lemma AddedKept(v: Placement, ps: seq<PartitionInfo>, bs: seq<Broker>, placed: multiset<BrokerId>, p: PartitionInfo, list: seq<BrokerId>)
    requires v.partitions.Keys == Keys(ps) && Led(v) && Kept(v, ps, bs, placed) && GoodList(list, p, bs)
    ensures Kept(Added(v, p.Key(), list), ps + [p], bs, placed + multiset(list))
  {
    KeysAppend(ps, p);
    var k := p.Key();
    if k !in v.partitions {
      TotalInsert(v.partitions, k, list);
      if DistinctKeys(ps) { AddedLists(v, ps, bs, p, list); }
    } else {
      TotalUpdate(v.partitions, k, list);
      TotalRemove(v.partitions, k);
      assert v.leaders[k] in multiset(v.partitions[k]);
      assert |multiset(v.partitions[k])| > 0;
    }
  }

  lemma AddedLists(v: Placement, ps: seq<PartitionInfo>, bs: seq<Broker>, p: PartitionInfo, list: seq<BrokerId>)
    requires p.Key() !in Keys(ps) && GoodList(list, p, bs) && forall q :: q in ps ==> ListFor(v, q, bs)
    ensures forall q :: q in ps + [p] ==> ListFor(Added(v, p.Key(), list), q, bs)
  {
    forall q | q in ps + [p] ensures ListFor(Added(v, p.Key(), list), q, bs) {
      if q in ps { assert q.Key() in Keys(ps); }
    }
  }

  /** Validate accepts a batch exactly when no partition is named twice. */
  lemma ValidIffDistinct(v: Placement, ps: seq<PartitionInfo>, bs: seq<Broker>, placed: multiset<BrokerId>)
    requires Holds(v, ps, bs, placed)
    ensures Consistent(v) <==> DistinctKeys(ps)
  {
    assert forall b :: b in v.load ==> v.load[b] == Get(v.load, b);
    if Consistent(v) {
      forall b ensures placed[b] <= Total(v.partitions)[b] {
        assert Get(v.load, b) == placed[b];
      }
      assert placed <= Total(v.partitions);
      assert Total(v.partitions) == placed + (Total(v.partitions) - placed);
    }
  }

  // ---------------------------------------------------------------------
  // Complete placements
  // ---------------------------------------------------------------------

  /** A complete, limit-respecting placement of the batch on the brokers bs. */
  ghost predicate Places(v: Placement, ps: seq<PartitionInfo>, bs: seq<Broker>, limits: map<BrokerId, int>, existing: map<BrokerId, int>) {
    && DistinctKeys(ps)
    && v.partitions.Keys == v.leaders.Keys == Keys(ps)
    && (forall p :: p in ps ==> ListFor(v, p, bs))
    && ExactLoad(v)
    && (forall b :: b in v.load ==> v.load[b] > 0)
    && WithinLimits(Total(v.partitions), limits, existing)
    && v.version == 0
  }

  lemma DistinctKeysPermutation(a: seq<PartitionInfo>, b: seq<PartitionInfo>)
    requires multiset(a) == multiset(b) && DistinctKeys(a)
    ensures DistinctKeys(b) && Keys(a) == Keys(b) && forall p :: p in a <==> p in b
  {
    hide PartitionKey;
    SameElems(a, b);
    assert forall p :: p in a <==> p in Elems(a);
    assert forall p :: p in b <==> p in Elems(b);
    assert Distinct(a) by {
      assert forall i, j :: 0 <= i < j < |a| ==> a[i].Key() != a[j].Key();
    }
    DistinctPermutation(a, b);
    forall i, j | 0 <= i < j < |b| ensures b[i].Key() != b[j].Key() {
      assert b[i] in Elems(a) && b[j] in Elems(a);
      var k :| 0 <= k < |a| && a[k] == b[i];
      var l :| 0 <= l < |a| && a[l] == b[j];
      assert k < l || l < k;
    }
  }

  lemma PlacesAllFirst(v: Placement, ps: seq<PartitionInfo>, bs: seq<Broker>, limits: map<BrokerId, int>, existing: map<BrokerId, int>)
    requires Places(v, ps, bs, limits, existing)
    ensures AllFirst(v)
  {
    forall k | k in v.partitions ensures FirstLeads(v, k) {
      var p :| p in ps && p.Key() == k;
      assert ListFor(v, p, bs);
    }
  }

  lemma EmptyPlaces(bs: seq<Broker>, limits: map<BrokerId, int>, existing: map<BrokerId, int>)
    ensures Places(EMPTY, [], bs, limits, existing)
  {
  }

  /** What holds between two partitions of an assignment pass. */
  ghost predicate Progress(v: Placement, ps: seq<PartitionInfo>, bs: seq<Broker>, placed: multiset<BrokerId>,
                           limits: map<BrokerId, int>, existing: map<BrokerId, int>, counts: map<BrokerId, int>)
  {
    && Holds(v, ps, bs, placed)
    && (forall b :: placed[b] > 0 ==> b in Ids(bs))
    && WithinLimits(placed, limits, existing) && Counted(counts, existing, placed)
  }

  lemma ProgressStep(v: Placement, ps: seq<PartitionInfo>, bs: seq<Broker>, placed: multiset<BrokerId>,
                     limits: map<BrokerId, int>, existing: map<BrokerId, int>, counts: map<BrokerId, int>,
                     p: PartitionInfo, list: seq<BrokerId>)
    requires Progress(v, ps, bs, placed, limits, existing, counts)
    requires Choice(list, p.replicas, bs, limits, counts)
    ensures Progress(Added(v, p.Key(), list), ps + [p], bs, placed + multiset(list), limits, existing, Tally(counts, list))
  {
    ChoiceKeepsLimits(placed, list, p.replicas, bs, limits, existing, counts);
    HoldsNext(v, ps, bs, placed, p, list);
  }

  lemma ProgressDone(v: Placement, ps: seq<PartitionInfo>, bs: seq<Broker>, placed: multiset<BrokerId>,
                     limits: map<BrokerId, int>, existing: map<BrokerId, int>, counts: map<BrokerId, int>)
    requires Progress(v, ps, bs, placed, limits, Seed(bs, existing), counts)
    ensures Consistent(v) <==> DistinctKeys(ps)
    ensures DistinctKeys(ps) ==> Places(v, ps, bs, limits, existing)
  {
    ValidIffDistinct(v, ps, bs, placed);
  }

  lemma PlacesWellFormed(v: Placement, ps: seq<PartitionInfo>, bs: seq<Broker>, limits: map<BrokerId, int>, existing: map<BrokerId, int>)
    requires Places(v, ps, bs, limits, existing)
    ensures WellFormed(v)
  {
    forall k | k in v.partitions ensures Distinct(v.partitions[k]) && v.leaders[k] in v.partitions[k] {
      var p :| p in ps && p.Key() == k;
      assert ListFor(v, p, bs);
    }
  }
}

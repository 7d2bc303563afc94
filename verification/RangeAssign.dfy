/** Whole batches and rebalancing with the range strategy (pkg/cluster/range.go). */
module RangeAssign {
  import opened Common
  import opened PartitionKeys
  import opened Placements
  import opened Batches
  import opened Selection
  import Racks
  import opened Turns
  import opened RangeStrategy
  import opened RangeOrder
  import opened RangeTopics
  import opened Rebuilding

  predicate ByPartition(a: PartitionInfo, b: PartitionInfo) { a.partition < b.partition }

  function Topics(ps: seq<PartitionInfo>): set<string> { set p | p in ps :: p.topic }

  function OfTopic(ps: seq<PartitionInfo>, topic: string): seq<PartitionInfo> {
    if ps == [] then []
    else
      var n := |ps| - 1;
      var front := OfTopic(ps[..n], topic);
      if ps[n].topic == topic then front + [ps[n]] else front
  }

  lemma {:induction false} OfTopicCount(ps: seq<PartitionInfo>, topic: string, p: PartitionInfo)
    ensures multiset(OfTopic(ps, topic))[p] == if p.topic == topic then multiset(ps)[p] else 0
  {
    if ps != [] {
      var n := |ps| - 1;
      assert ps == ps[..n] + [ps[n]];
      OfTopicCount(ps[..n], topic, p);
    }
  }

  /** One topic's partitions in order of their number. */
  function Group(ps: seq<PartitionInfo>, topic: string): seq<PartitionInfo> {
    Sort(ByPartition, OfTopic(ps, topic))
  }

  /** Strictly by number. */
  ghost predicate ByNumber(list: seq<PartitionInfo>) {
    forall i, j :: 0 <= i < j < |list| ==> list[i].partition < list[j].partition
  }

  /** The groups as they stand after i partitions, still in arrival order. */
  ghost predicate Grouped(grouped: map<string, seq<PartitionInfo>>, ps: seq<PartitionInfo>, i: nat)
    requires i <= |ps|
  {
    grouped.Keys == Topics(ps[..i]) && forall t :: t in grouped ==> grouped[t] == OfTopic(ps[..i], t)
  }

  method GroupByTopic(ps: seq<PartitionInfo>) returns (groups: map<string, seq<PartitionInfo>>)
    ensures groups.Keys == Topics(ps)
    ensures forall t :: t in groups ==> groups[t] == Group(ps, t)
  {
    hide Grouped, Sort, OfTopic;
    var grouped: map<string, seq<PartitionInfo>> := map[];
    GroupedNone(ps);
    for i := 0 to |ps|
      invariant Grouped(grouped, ps, i)
    {
      GroupedNext(grouped, ps, i);
      var p := ps[i];
      grouped := grouped[p.topic := (if p.topic in grouped then grouped[p.topic] else []) + [p]];
    }
    GroupedAll(grouped, ps);
    groups := map t | t in grouped :: Sort(ByPartition, grouped[t]);
  }

  lemma GroupedNone(ps: seq<PartitionInfo>)
    ensures Grouped(map[], ps, 0)
  {
  }

  lemma GroupedAll(grouped: map<string, seq<PartitionInfo>>, ps: seq<PartitionInfo>)
    requires Grouped(grouped, ps, |ps|)
    ensures grouped.Keys == Topics(ps) && forall t :: t in grouped ==> grouped[t] == OfTopic(ps, t)
  {
    assert ps[..|ps|] == ps;
  }

  lemma GroupedNext(grouped: map<string, seq<PartitionInfo>>, ps: seq<PartitionInfo>, i: nat)
    requires i < |ps| && Grouped(grouped, ps, i)
    ensures var t := ps[i].topic;
            Grouped(grouped[t := (if t in grouped then grouped[t] else []) + [ps[i]]], ps, i + 1)
  {
    hide OfTopic, Topics;
    NextOfTopic(ps, i);
    if ps[i].topic !in grouped { NoneOfTopic(ps[..i], ps[i].topic); }
  }

  lemma NextOfTopic(ps: seq<PartitionInfo>, i: nat)
    requires i < |ps|
    ensures Topics(ps[..i + 1]) == Topics(ps[..i]) + {ps[i].topic}
    ensures forall t :: OfTopic(ps[..i + 1], t) == if t == ps[i].topic then OfTopic(ps[..i], t) + [ps[i]] else OfTopic(ps[..i], t)
  {
    var qs := ps[..i + 1];
    assert qs == ps[..i] + [ps[i]];
    assert qs[..|qs| - 1] == ps[..i];
  }

  lemma NoneOfTopic(ps: seq<PartitionInfo>, topic: string)
    requires topic !in Topics(ps)
    ensures OfTopic(ps, topic) == []
  {
    var r := OfTopic(ps, topic);
    forall p ensures multiset(r)[p] == 0 {
      OfTopicCount(ps, topic, p);
      assert p in ps ==> p.topic in Topics(ps);
    }
    assert multiset(r) == multiset{};
    assert |r| == |multiset(r)|;
  }

  // ---------------------------------------------------------------------
  // The run over all topics
  // ---------------------------------------------------------------------

  ghost predicate IsTopicList(topics: seq<string>, ps: seq<PartitionInfo>) {
    SortedList(topics, Topics(ps))
  }

  /** After the first i topics. */
  ghost function OverTopics(setup: Setup, ps: seq<PartitionInfo>, topics: seq<string>, i: nat, s: Run): Result<Run, PlacementError>
    requires setup.bs != [] && i <= |topics|
  {
    if i == 0 then Ok(s)
    else match OverTopics(setup, ps, topics, i - 1, s)
      case Err(e) => Err(e)
      case Ok(t) => setup.OverTopic(Group(ps, topics[i - 1]), |Group(ps, topics[i - 1])|, t)
  }

  ghost function SetupFor(brokers: seq<Broker>, c: Constraints): Setup {
    var bs := Available(brokers, c);
    Setup(bs, c.rackAware, CapacityLimits(bs, c.maxPerBroker))
  }

  /** What Assign computes, as a function of its inputs and the sorted topics. */
  ghost function Outcome(ps: seq<PartitionInfo>, topics: seq<string>, brokers: seq<Broker>, c: Constraints): Result<Placement, PlacementError> {
    if brokers == [] then Err(NoBrokers)
    else if ps == [] then Ok(EMPTY)
    else
      var setup := SetupFor(brokers, c);
      if setup.bs == [] then Err(NoAvailableBrokers)
      else match OverTopics(setup, ps, topics, |topics|, Run(EMPTY, Seed(setup.bs, c.existingLoad)))
        case Err(e) => Err(e)
        case Ok(s) => if Consistent(s.view) then Ok(s.view) else Err(InvalidAssignment)
  }

  lemma {:induction false} TopicErrorSticks(setup: Setup, ps: seq<PartitionInfo>, topics: seq<string>, i: nat, s: Run)
    requires setup.bs != [] && i <= |topics| && OverTopics(setup, ps, topics, i, s).Err?
    ensures OverTopics(setup, ps, topics, |topics|, s) == OverTopics(setup, ps, topics, i, s)
    decreases |topics| - i
  {
    hide Group, Setup.OverTopic;
    if i < |topics| { TopicErrorSticks(setup, ps, topics, i + 1, s); }
  }

  // ---------------------------------------------------------------------
  // The order of the inputs does not matter
  // ---------------------------------------------------------------------

  lemma TopicListUnique(a: seq<string>, ps: seq<PartitionInfo>, b: seq<string>, qs: seq<PartitionInfo>)
    requires IsTopicList(a, ps) && IsTopicList(b, qs) && multiset(ps) == multiset(qs)
    ensures a == b
  {
    SameElems(ps, qs);
    forall t ensures t in Topics(ps) <==> t in Topics(qs) {
      if t in Topics(ps) { var p :| p in ps && p.topic == t; assert p in Elems(qs); }
      if t in Topics(qs) { var p :| p in qs && p.topic == t; assert p in Elems(ps); }
    }
    assert Elems(a) == Elems(b);
    ListUnique(a, b, Topics(ps));
  }

  lemma PartitionsOrdered(ps: seq<PartitionInfo>, topic: string)
    requires DistinctKeys(ps)
    ensures Orders(ByPartition, Elems(OfTopic(ps, topic)))
  {
    var r := OfTopic(ps, topic);
    forall p, q | p in Elems(r) && q in Elems(r) && p != q ensures ByPartition(p, q) || ByPartition(q, p) {
      OfTopicCount(ps, topic, p);
      OfTopicCount(ps, topic, q);
      assert p in multiset(r) && q in multiset(r);
      assert p in multiset(ps) && q in multiset(ps);
      var i :| 0 <= i < |ps| && ps[i] == p;
      var j :| 0 <= j < |ps| && ps[j] == q;
      assert ps[i].Key() != ps[j].Key();
    }
  }

  lemma GroupPermutation(ps: seq<PartitionInfo>, qs: seq<PartitionInfo>, topic: string)
    requires multiset(ps) == multiset(qs) && DistinctKeys(ps)
    ensures Group(ps, topic) == Group(qs, topic)
  {
    PartitionsOrdered(ps, topic);
    forall p ensures multiset(OfTopic(ps, topic))[p] == multiset(OfTopic(qs, topic))[p] {
      OfTopicCount(ps, topic, p);
      OfTopicCount(qs, topic, p);
    }
    assert multiset(OfTopic(ps, topic)) == multiset(OfTopic(qs, topic));
    SortPermutation(ByPartition, OfTopic(ps, topic), OfTopic(qs, topic));
  }

  lemma {:induction false} SameRun(setup: Setup, ps: seq<PartitionInfo>, qs: seq<PartitionInfo>, topics: seq<string>, i: nat, s: Run)
    requires setup.bs != [] && i <= |topics| && multiset(ps) == multiset(qs) && DistinctKeys(ps)
    ensures OverTopics(setup, ps, topics, i, s) == OverTopics(setup, qs, topics, i, s)
  {
    hide Group, DistinctKeys, Setup.OverTopic;
    if i > 0 {
      SameRun(setup, ps, qs, topics, i - 1, s);
      GroupPermutation(ps, qs, topics[i - 1]);
    }
  }

  lemma {:induction false} FilterPermutation(a: seq<Broker>, excluded: set<BrokerId>, b: Broker)
    ensures multiset(FilterExcluded(a, excluded))[b] == if b.id in excluded then 0 else multiset(a)[b]
  {
    if a != [] {
      assert a == [a[0]] + a[1..];
      FilterPermutation(a[1..], excluded, b);
    }
  }

  lemma AvailablePermutation(a: seq<Broker>, b: seq<Broker>, c: Constraints)
    requires multiset(a) == multiset(b) && DistinctIds(a)
    ensures Available(a, c) == Available(b, c)
  {
    var f, g := FilterExcluded(a, c.excluded), FilterExcluded(b, c.excluded);
    forall x ensures multiset(f)[x] == multiset(g)[x] {
      FilterPermutation(a, c.excluded, x);
      FilterPermutation(b, c.excluded, x);
    }
    BrokersOrdered(f);
    SortPermutation(BrokerLess, f, g);
  }

  /** The same partitions and brokers in any order give the same outcome. */
  lemma OrderIndependent(ps: seq<PartitionInfo>, topics: seq<string>, brokers: seq<Broker>,
                         qs: seq<PartitionInfo>, topics': seq<string>, brokers': seq<Broker>, c: Constraints)
    requires multiset(ps) == multiset(qs) && DistinctKeys(ps) && IsTopicList(topics, ps) && IsTopicList(topics', qs)
    requires multiset(brokers) == multiset(brokers') && DistinctIds(brokers)
    ensures Outcome(ps, topics, brokers, c) == Outcome(qs, topics', brokers', c)
  {
    hide DistinctKeys, DistinctIds, IsTopicList, OverTopics, Available, Consistent;
    SameElems(brokers, brokers');
    SameElems(ps, qs);
    TopicListUnique(topics, ps, topics', qs);
    AvailablePermutation(brokers, brokers', c);
    var setup := SetupFor(brokers, c);
    if setup.bs != [] {
      SameRun(setup, ps, qs, topics, |topics|, Run(EMPTY, Seed(setup.bs, c.existingLoad)));
    }
  }

  // ---------------------------------------------------------------------
  // Completeness and limits
  // ---------------------------------------------------------------------

  lemma {:induction false} TopicProgress(setup: Setup, list: seq<PartitionInfo>, j: nat, s: Run, t: Run, done: seq<PartitionInfo>,
                                         placed: multiset<BrokerId>, seed: map<BrokerId, int>) returns (placed': multiset<BrokerId>)
    requires DistinctIds(setup.bs) && setup.bs != [] && j <= |list| && setup.OverTopic(list, j, s) == Ok(t)
    requires Progress(s.view, done, setup.bs, placed, setup.limits, seed, s.counts)
    ensures Progress(t.view, done + list[..j], setup.bs, placed', setup.limits, seed, t.counts)
  {
    hide Progress, DistinctIds, Selected, Choice, Added, Tally, Setup.OverTopic, Owner, Capable, Racks.RacksOf, Racks.RoomyRacks;
    if j == 0 {
      NothingRun(setup, list, s);
      assert done + list[..0] == done;
      placed' := placed;
    } else {
      var u, chosen := LastStep(setup, list, j, s, t);
      placed' := TopicProgress(setup, list, j - 1, s, u, done, placed, seed);
      var p, owner := list[j - 1], Owner(|list|, |setup.bs|, j - 1);
      SelectedIsChoice(p, setup.bs, owner, setup.rackAware, setup.limits, u.counts);
      ProgressStep(u.view, done + list[..j - 1], setup.bs, placed', setup.limits, seed, u.counts, p, chosen);
      assert done + list[..j] == done + list[..j - 1] + [p];
      placed' := placed' + multiset(chosen);
    }
  }

  lemma LastStep(setup: Setup, list: seq<PartitionInfo>, j: nat, s: Run, t: Run) returns (u: Run, chosen: seq<BrokerId>)
    requires setup.bs != [] && 0 < j <= |list| && setup.OverTopic(list, j, s) == Ok(t)
    ensures setup.OverTopic(list, j - 1, s) == Ok(u)
    ensures Selected(list[j - 1], setup.bs, Owner(|list|, |setup.bs|, j - 1), setup.rackAware, setup.limits, u.counts) == Ok(chosen)
    ensures t == Run(Added(u.view, list[j - 1].Key(), chosen), Tally(u.counts, chosen))
  {
    hide Selected, Added, Tally, Owner;
    u := setup.OverTopic(list, j - 1, s).value;
    chosen := Selected(list[j - 1], setup.bs, Owner(|list|, |setup.bs|, j - 1), setup.rackAware, setup.limits, u.counts).value;
  }

  /** The partitions in the order they are placed. */
  ghost function Flat(ps: seq<PartitionInfo>, topics: seq<string>, i: nat): seq<PartitionInfo>
    requires i <= |topics|
  {
    if i == 0 then [] else Flat(ps, topics, i - 1) + Group(ps, topics[i - 1])
  }

  lemma {:induction false} AllProgress(setup: Setup, ps: seq<PartitionInfo>, topics: seq<string>, i: nat, s: Run, seed: map<BrokerId, int>, t: Run)
    returns (placed: multiset<BrokerId>)
    requires DistinctIds(setup.bs) && setup.bs != [] && i <= |topics|
    requires s == Run(EMPTY, seed) && OverTopics(setup, ps, topics, i, s) == Ok(t)
    ensures Progress(t.view, Flat(ps, topics, i), setup.bs, placed, setup.limits, seed, t.counts)
  {
    hide Progress, DistinctIds, Group, Setup.OverTopic;
    if i == 0 {
      FirstProgress(setup, seed);
      placed := multiset{};
    } else {
      var u := OverTopics(setup, ps, topics, i - 1, s).value;
      placed := AllProgress(setup, ps, topics, i - 1, s, seed, u);
      var list := Group(ps, topics[i - 1]);
      placed := TopicProgress(setup, list, |list|, u, t, Flat(ps, topics, i - 1), placed, seed);
      assert list[..|list|] == list;
    }
  }

  lemma FirstProgress(setup: Setup, seed: map<BrokerId, int>)
    ensures Progress(EMPTY, [], setup.bs, multiset{}, setup.limits, seed, seed)
  {
    HoldsEmpty(setup.bs);
  }

  lemma GroupCount(ps: seq<PartitionInfo>, topic: string, p: PartitionInfo)
    ensures multiset(Group(ps, topic))[p] == if p.topic == topic then multiset(ps)[p] else 0
  {
    OfTopicCount(ps, topic, p);
  }

  lemma {:induction false} FlatCount(ps: seq<PartitionInfo>, topics: seq<string>, i: nat, p: PartitionInfo)
    requires i <= |topics| && Distinct(topics)
    ensures multiset(Flat(ps, topics, i))[p] == if p.topic in topics[..i] then multiset(ps)[p] else 0
  {
    hide Group;
    if i > 0 {
      FlatCount(ps, topics, i - 1, p);
      GroupCount(ps, topics[i - 1], p);
      assert topics[..i] == topics[..i - 1] + [topics[i - 1]];
      assert topics[i - 1] !in topics[..i - 1];
    }
  }

  /** Grouping loses nothing and invents nothing. */
  lemma FlatPermutation(ps: seq<PartitionInfo>, topics: seq<string>)
    requires IsTopicList(topics, ps)
    ensures multiset(Flat(ps, topics, |topics|)) == multiset(ps)
  {
    hide Flat, Sorted;
    var flat := Flat(ps, topics, |topics|);
    forall p ensures multiset(flat)[p] == multiset(ps)[p] {
      FlatCount(ps, topics, |topics|, p);
      assert topics[..|topics|] == topics;
      assert p in ps ==> p.topic in Topics(ps) && p.topic in Elems(topics);
    }
  }

  lemma PlacesPermutation(v: Placement, a: seq<PartitionInfo>, b: seq<PartitionInfo>, bs: seq<Broker>, limits: map<BrokerId, int>, existing: map<BrokerId, int>)
    requires multiset(a) == multiset(b) && Places(v, a, bs, limits, existing)
    ensures Places(v, b, bs, limits, existing)
  {
    hide DistinctKeys, Keys, ListFor, ExactLoad, WithinLimits;
    DistinctKeysPermutation(a, b);
  }

  // ---------------------------------------------------------------------
  // Contiguous leader ranges
  // ---------------------------------------------------------------------

  /** Led by the owner of its range; without racks the brokers after the owner follow in the list. */
  ghost predicate Owned(v: Placement, p: PartitionInfo, bs: seq<Broker>, owner: nat, rackAware: bool)
    requires bs != []
  {
    && owner < |bs| && FirstLeads(v, p.Key()) && v.leaders[p.Key()] == bs[owner].id
    && (!rackAware ==> GoesRound(v, p, bs, owner))
  }

  lemma AddedOwned(v: Placement, p: PartitionInfo, bs: seq<Broker>, owner: nat, rackAware: bool, limits: map<BrokerId, int>, counts: map<BrokerId, int>)
    requires DistinctIds(bs) && owner < |bs| && Unlimited(limits) && Selected(p, bs, owner, rackAware, limits, counts).Ok?
    ensures Owned(Added(v, p.Key(), Selected(p, bs, owner, rackAware, limits, counts).value), p, bs, owner, rackAware)
  {
    hide DistinctIds, Selected, Tally, Unlimited, PartitionKey, Seat;
    SelectedByOwner(p, bs, owner, rackAware, limits, counts);
  }

  /** The first j partitions of a topic belong to the owners of their ranges. */
  ghost predicate LedByOwners(v: Placement, list: seq<PartitionInfo>, j: nat, bs: seq<Broker>, rackAware: bool)
    requires j <= |list| && bs != []
  {
    forall i :: 0 <= i < j ==> Owned(v, list[i], bs, Owner(|list|, |bs|, i), rackAware)
  }

  /** Entries outside keys are as they were. */
  ghost predicate Elsewhere(v: Placement, w: Placement, keys: set<string>) {
    && (forall k :: k in v.partitions && k !in keys ==> k in w.partitions && w.partitions[k] == v.partitions[k])
    && (forall k :: k in v.leaders && k !in keys ==> k in w.leaders && w.leaders[k] == v.leaders[k])
  }

  lemma StillOwned(v: Placement, w: Placement, keys: set<string>, p: PartitionInfo, bs: seq<Broker>, owner: nat, rackAware: bool)
    requires bs != [] && Owned(v, p, bs, owner, rackAware) && Elsewhere(v, w, keys) && p.Key() !in keys
    ensures Owned(w, p, bs, owner, rackAware)
  {
    hide PartitionKey, Seat;
  }

  lemma {:induction false} TopicLeaders(setup: Setup, list: seq<PartitionInfo>, j: nat, s: Run, t: Run)
    requires DistinctIds(setup.bs) && setup.bs != [] && j <= |list| && setup.OverTopic(list, j, s) == Ok(t)
    requires Unlimited(setup.limits) && DistinctKeys(list)
    ensures LedByOwners(t.view, list, j, setup.bs, setup.rackAware)
    ensures Elsewhere(s.view, t.view, Keys(list))
  {
    hide DistinctIds, Selected, Tally, Owner, PartitionKey, Unlimited, Setup.OverTopic, Owned;
    NothingRun(setup, list, s);
    if j > 0 {
      var u, chosen := LastStep(setup, list, j, s, t);
      TopicLeaders(setup, list, j - 1, s, u);
      var p, owner := list[j - 1], Owner(|list|, |setup.bs|, j - 1);
      OwnerIndex(|list|, |setup.bs|, j - 1);
      AddedOwned(u.view, p, setup.bs, owner, setup.rackAware, setup.limits, u.counts);
      assert p.Key() in Keys(list);
      forall i | 0 <= i < j - 1 ensures Owned(t.view, list[i], setup.bs, Owner(|list|, |setup.bs|, i), setup.rackAware) {
        assert list[i].Key() != list[j - 1].Key();
        StillOwned(u.view, t.view, {p.Key()}, list[i], setup.bs, Owner(|list|, |setup.bs|, i), setup.rackAware);
      }
    }
  }

  lemma OwnerIndex(total: nat, n: nat, j: nat)
    requires n > 0
    ensures Owner(total, n, j) < n
  {
    OwnerBound(total, n, j, 0);
  }

  lemma {:induction false} AllLeaders(setup: Setup, ps: seq<PartitionInfo>, topics: seq<string>, i: nat, s: Run, t: Run)
    requires DistinctIds(setup.bs) && setup.bs != [] && i <= |topics| && Distinct(topics)
    requires OverTopics(setup, ps, topics, i, s) == Ok(t) && DistinctKeys(ps)
    requires Unlimited(setup.limits)
    ensures forall x :: 0 <= x < i ==> LedByOwners(t.view, Group(ps, topics[x]), |Group(ps, topics[x])|, setup.bs, setup.rackAware)
  {
    hide DistinctIds, Group, Setup.OverTopic, LedByOwners, Unlimited, DistinctKeys;
    if i > 0 {
      var u := OverTopics(setup, ps, topics, i - 1, s).value;
      AllLeaders(setup, ps, topics, i - 1, s, u);
      var list := Group(ps, topics[i - 1]);
      GroupDistinct(ps, topics[i - 1]);
      TopicLeaders(setup, list, |list|, u, t);
      forall x | 0 <= x < i - 1 ensures LedByOwners(t.view, Group(ps, topics[x]), |Group(ps, topics[x])|, setup.bs, setup.rackAware) {
        OtherTopicKept(ps, topics[x], topics[i - 1], u, t, setup.bs, setup.rackAware);
      }
    }
  }

  lemma GroupMember(ps: seq<PartitionInfo>, topic: string, p: PartitionInfo)
    requires p in Group(ps, topic)
    ensures p.topic == topic && p in ps
  {
    GroupCount(ps, topic, p);
    assert p in multiset(Group(ps, topic));
    assert p in multiset(ps);
  }

  lemma GroupDistinct(ps: seq<PartitionInfo>, topic: string)
    requires DistinctKeys(ps)
    ensures DistinctKeys(Group(ps, topic))
  {
    hide PartitionKey, Group;
    var g := Group(ps, topic);
    assert Distinct(ps) by {
      assert forall i, j :: 0 <= i < j < |ps| ==> ps[i].Key() != ps[j].Key();
    }
    forall i, j | 0 <= i < j < |g| ensures g[i].Key() != g[j].Key() {
      GroupMember(ps, topic, g[i]);
      GroupMember(ps, topic, g[j]);
      GroupAtMostOnce(ps, topic, i, j);
      var k :| 0 <= k < |ps| && ps[k] == g[i];
      var l :| 0 <= l < |ps| && ps[l] == g[j];
      assert k < l || l < k;
    }
  }

  /** Distinct partitions of a topic are in increasing order of number. */
  lemma GroupByNumber(ps: seq<PartitionInfo>, topic: string)
    requires DistinctKeys(ps)
    ensures ByNumber(Group(ps, topic))
  {
    GroupDistinct(ps, topic);
    var g, list := Group(ps, topic), OfTopic(ps, topic);
    SameElems(g, list);
    forall x, y | x in Elems(list) && y in Elems(list) && x != y ensures ByPartition(x, y) || ByPartition(y, x) {
      OtherNumber(ps, topic, x, y);
    }
    assert Orders(ByPartition, Elems(list));
    SortSorted(ByPartition, list);
    hide Group, OfTopic, Orders;
    forall i, j | 0 <= i < j < |g| ensures g[i].partition < g[j].partition {
      assert g[i].Key() != g[j].Key();
      GroupMember(ps, topic, g[i]);
      GroupMember(ps, topic, g[j]);
    }
  }

  lemma OtherNumber(ps: seq<PartitionInfo>, topic: string, x: PartitionInfo, y: PartitionInfo)
    requires DistinctKeys(ps) && x in Elems(Group(ps, topic)) && y in Elems(Group(ps, topic)) && x != y
    ensures x.partition != y.partition
  {
    hide Group, PartitionKey;
    GroupDistinct(ps, topic);
    GroupMember(ps, topic, x);
    GroupMember(ps, topic, y);
    var g := Group(ps, topic);
    var i :| 0 <= i < |g| && g[i] == x;
    var j :| 0 <= j < |g| && g[j] == y;
    assert g[i].Key() != g[j].Key();
  }

  lemma GroupAtMostOnce(ps: seq<PartitionInfo>, topic: string, i: nat, j: nat)
    requires Distinct(ps) && i < j < |Group(ps, topic)|
    ensures Group(ps, topic)[i] != Group(ps, topic)[j]
  {
    var g := Group(ps, topic);
    GroupCount(ps, topic, g[j]);
    DistinctCount(ps, g[j]);
    hide Group;
    assert g == g[..j] + [g[j]] + g[j + 1..];
    assert multiset(g)[g[j]] >= multiset(g[..j])[g[j]] + 1;
    assert g[i] == g[..j][i];
  }

  lemma OtherTopicKept(ps: seq<PartitionInfo>, topic: string, other: string, u: Run, t: Run, bs: seq<Broker>, rackAware: bool)
    requires topic != other && bs != [] && LedByOwners(u.view, Group(ps, topic), |Group(ps, topic)|, bs, rackAware)
    requires Elsewhere(u.view, t.view, Keys(Group(ps, other)))
    ensures LedByOwners(t.view, Group(ps, topic), |Group(ps, topic)|, bs, rackAware)
  {
    hide Group, PartitionKey, Owner, Owned, Elsewhere;
    var g := Group(ps, topic);
    forall i | 0 <= i < |g| ensures Owned(t.view, g[i], bs, Owner(|g|, |bs|, i), rackAware) {
      GroupMember(ps, topic, g[i]);
      forall q | q in Group(ps, other) ensures q.Key() != g[i].Key() {
        GroupMember(ps, other, q);
        if q.Key() == g[i].Key() { KeyInjective(q.topic, q.partition, g[i].topic, g[i].partition); }
      }
      StillOwned(u.view, t.view, Keys(Group(ps, other)), g[i], bs, Owner(|g|, |bs|, i), rackAware);
    }
  }

  // ---------------------------------------------------------------------
  // The methods
  // ---------------------------------------------------------------------

  /** Without limits every topic's leaders follow its ranges. */
  ghost predicate RangesLed(v: Placement, ps: seq<PartitionInfo>, topics: seq<string>, bs: seq<Broker>, rackAware: bool)
    requires bs != []
  {
    forall x :: 0 <= x < |topics| ==>
      ByNumber(Group(ps, topics[x])) && LedByOwners(v, Group(ps, topics[x]), |Group(ps, topics[x])|, bs, rackAware)
  }

  method Assign(ps: seq<PartitionInfo>, brokers: seq<Broker>, c: Constraints)
    returns (r: Result<Assignment, PlacementError>, ghost topics: seq<string>)
    requires DistinctIds(brokers)
    ensures IsTopicList(topics, ps)
    ensures match Outcome(ps, topics, brokers, c)
            case Ok(v) => r.Ok? && fresh(r.value) && r.value.View() == v
            case Err(e) => r == Err(e)
    ensures r != Err(Diverges)
    ensures r.Ok? ==>
      var bs := Available(brokers, c);
      && Places(r.value.View(), ps, bs, CapacityLimits(bs, c.maxPerBroker), c.existingLoad)
      && (ps != [] && Unlimited(CapacityLimits(bs, c.maxPerBroker)) ==>
            bs != [] && RangesLed(r.value.View(), ps, topics, bs, c.rackAware))
  {
    hide IsTopicList, Outcome, Places, RangesLed, Unlimited, DistinctIds, Available, CapacityLimits, OverTopics;
    var names := SortedStrings(Topics(ps));
    topics := names;
    TopicListFrom(topics, ps);
    OutcomeCases(ps, topics, brokers, c);
    if |brokers| == 0 { return Err(NoBrokers), topics; }
    var bs := Available(brokers, c);
    if |ps| == 0 {
      EmptyPlaces(bs, CapacityLimits(bs, c.maxPerBroker), c.existingLoad);
      var none := new Assignment();
      return Ok(none), topics;
    }
    if |bs| == 0 { return Err(NoAvailableBrokers), topics; }
    AvailableDistinct(brokers, c);
    var a, e := RunTopics(ps, names, bs, c);
    AlwaysReturns(Setup(bs, c.rackAware, CapacityLimits(bs, c.maxPerBroker)), ps, topics, |topics|, Run(EMPTY, Seed(bs, c.existingLoad)));
    if e.Some? { return Err(e.value), topics; }
    var ok := a.Validate();
    if !ok { return Err(InvalidAssignment), topics; }
    OutcomePlaces(ps, topics, brokers, c);
    r := Ok(a);
  }

  /** Range selection always terminates. */
  lemma {:induction false} AlwaysReturns(setup: Setup, ps: seq<PartitionInfo>, topics: seq<string>, i: nat, s: Run)
    requires setup.bs != [] && i <= |topics|
    ensures OverTopics(setup, ps, topics, i, s) != Err(Diverges)
  {
    hide Group, Setup.OverTopic;
    if i > 0 {
      AlwaysReturns(setup, ps, topics, i - 1, s);
      var r := OverTopics(setup, ps, topics, i - 1, s);
      if r.Ok? {
        var list := Group(ps, topics[i - 1]);
        TopicReturns(setup, list, |list|, r.value);
      }
    }
  }

  lemma {:induction false} TopicReturns(setup: Setup, list: seq<PartitionInfo>, j: nat, s: Run)
    requires setup.bs != [] && j <= |list|
    ensures setup.OverTopic(list, j, s) != Err(Diverges)
  {
    hide Turn, Added, Tally;
    if j > 0 { TopicReturns(setup, list, j - 1, s); }
  }

  lemma TopicListFrom(topics: seq<string>, ps: seq<PartitionInfo>)
    requires Elems(topics) == Topics(ps) && Distinct(topics) && Sorted(StringLess, topics)
    ensures IsTopicList(topics, ps)
  {
  }

  lemma OutcomeCases(ps: seq<PartitionInfo>, topics: seq<string>, brokers: seq<Broker>, c: Constraints)
    ensures brokers == [] ==> Outcome(ps, topics, brokers, c) == Err(NoBrokers)
    ensures brokers != [] && ps == [] ==> Outcome(ps, topics, brokers, c) == Ok(EMPTY)
    ensures var bs := Available(brokers, c);
            brokers != [] && ps != [] ==>
              if bs == [] then Outcome(ps, topics, brokers, c) == Err(NoAvailableBrokers)
              else Outcome(ps, topics, brokers, c) ==
                   match OverTopics(Setup(bs, c.rackAware, CapacityLimits(bs, c.maxPerBroker)), ps, topics, |topics|, Run(EMPTY, Seed(bs, c.existingLoad)))
                   case Err(e) => Err(e)
                   case Ok(s) => if Consistent(s.view) then Ok(s.view) else Err(InvalidAssignment)
  {
    hide Available, OverTopics, Consistent, CapacityLimits;
  }

  method RunTopics(ps: seq<PartitionInfo>, topics: seq<string>, bs: seq<Broker>, c: Constraints)
    returns (a: Assignment, e: Option<PlacementError>)
    requires DistinctIds(bs) && bs != [] && Elems(topics) == Topics(ps)
    ensures fresh(a)
    ensures match OverTopics(Setup(bs, c.rackAware, CapacityLimits(bs, c.maxPerBroker)), ps, topics, |topics|, Run(EMPTY, Seed(bs, c.existingLoad)))
            case Ok(s) => e == None && a.View() == s.view
            case Err(x) => e == Some(x)
  {
    hide DistinctIds, OverTopics, CapacityLimits, Seed, Setup.OverTopic, Group;
    var groups := GroupByTopic(ps);
    a := new Assignment();
    var load := new LoadTracker(bs, c);
    ghost var setup := Setup(bs, c.rackAware, CapacityLimits(bs, c.maxPerBroker));
    ghost var start := Run(EMPTY, Seed(bs, c.existingLoad));
    NoTopicRun(setup, ps, topics, start);
    for i := 0 to |topics|
      invariant fresh(a) && fresh(load) && load.limits == setup.limits
      invariant OverTopics(setup, ps, topics, i, start) == Ok(Run(a.View(), load.counts))
    {
      NextTopic(setup, ps, topics, i, start, Run(a.View(), load.counts));
      assert topics[i] in Elems(topics);
      e := AssignTopic(groups[topics[i]], bs, a, c, load);
      if e.Some? { return; }
    }
    e := None;
  }

  lemma NoTopicRun(setup: Setup, ps: seq<PartitionInfo>, topics: seq<string>, s: Run)
    requires setup.bs != []
    ensures OverTopics(setup, ps, topics, 0, s) == Ok(s)
  {
  }

  lemma NextTopic(setup: Setup, ps: seq<PartitionInfo>, topics: seq<string>, i: nat, s: Run, t: Run)
    requires setup.bs != [] && i < |topics| && OverTopics(setup, ps, topics, i, s) == Ok(t)
    ensures var list := Group(ps, topics[i]);
            && OverTopics(setup, ps, topics, i + 1, s) == setup.OverTopic(list, |list|, t)
            && (OverTopics(setup, ps, topics, i + 1, s).Err? ==> OverTopics(setup, ps, topics, |topics|, s) == OverTopics(setup, ps, topics, i + 1, s))
  {
    hide Group, Setup.OverTopic;
    if OverTopics(setup, ps, topics, i + 1, s).Err? { TopicErrorSticks(setup, ps, topics, i + 1, s); }
  }

  /** Whatever Assign returns places every partition, keeps every limit and, unlimited, follows the ranges. */
  lemma OutcomePlaces(ps: seq<PartitionInfo>, topics: seq<string>, brokers: seq<Broker>, c: Constraints)
    requires DistinctIds(brokers) && IsTopicList(topics, ps) && Outcome(ps, topics, brokers, c).Ok? && ps != []
    ensures var v, bs := Outcome(ps, topics, brokers, c).value, Available(brokers, c);
            var limits := CapacityLimits(bs, c.maxPerBroker);
            && bs != [] && Places(v, ps, bs, limits, c.existingLoad)
            && (Unlimited(limits) ==> RangesLed(v, ps, topics, bs, c.rackAware))
  {
    hide DistinctIds, Progress, Places, Group, Setup.OverTopic, LedByOwners, DistinctKeys, Consistent, Available, OverTopics, IsTopicList, Flat, CapacityLimits;
    var setup := SetupFor(brokers, c);
    AvailableDistinct(brokers, c);
    var seed := Seed(setup.bs, c.existingLoad);
    var t := OverTopics(setup, ps, topics, |topics|, Run(EMPTY, seed)).value;
    var flat := Flat(ps, topics, |topics|);
    var placed := AllProgress(setup, ps, topics, |topics|, Run(EMPTY, seed), seed, t);
    ProgressDone(t.view, flat, setup.bs, placed, setup.limits, c.existingLoad, t.counts);
    FlatPermutation(ps, topics);
    PlacesPermutation(t.view, flat, ps, setup.bs, setup.limits, c.existingLoad);
    if Unlimited(setup.limits) {
      DistinctKeysPermutation(flat, ps);
      TopicListDistinct(topics, ps);
      AllLeaders(setup, ps, topics, |topics|, Run(EMPTY, seed), t);
      forall x | 0 <= x < |topics| ensures ByNumber(Group(ps, topics[x])) { GroupByNumber(ps, topics[x]); }
    }
  }

  lemma TopicListDistinct(topics: seq<string>, ps: seq<PartitionInfo>)
    requires IsTopicList(topics, ps)
    ensures Distinct(topics)
  {
  }

  /** A balanced assignment comes back as it is; otherwise all is placed anew, topic by topic. */
  method Rebalance(current: Assignment, brokers: seq<Broker>, c: Constraints)
    returns (r: Result<Assignment, PlacementError>, ghost ps: seq<PartitionInfo>, ghost topics: seq<string>)
    requires DistinctIds(brokers) && WellFormed(current.View())
    ensures brokers == [] ==> r == Err(NoBrokers)
    ensures brokers != [] && Balanced(current.brokerLoad, 1) ==> r == Ok(current)
    ensures r.Ok? && !Balanced(current.brokerLoad, 1) ==>
      var bs := Available(brokers, c);
      && fresh(r.value)
      && Rebuilt(r.value.View(), current.View(), bs, CapacityLimits(bs, c.maxPerBroker), c.existingLoad)
      && AsksFor(ps, old(current.partitions)) && IsTopicList(topics, ps)
      && (ps != [] && Unlimited(CapacityLimits(bs, c.maxPerBroker)) ==>
            bs != [] && RangesLed(r.value.View(), ps, topics, bs, c.rackAware))
    ensures r != Err(Diverges)
  {
    hide Places, Rebuilt, AsksFor, RangesLed, Unlimited, WellFormed, Balanced, DistinctIds, Outcome, IsTopicList, Available, CapacityLimits;
    ps, topics := [], [];
    if |brokers| == 0 { return Err(NoBrokers), ps, topics; }
    LoadsOfWellFormed(current.View());
    var balanced := current.IsBalanced(1);
    if balanced { return Ok(current), ps, topics; }
    var extracted := ExtractPartitions(current.partitions);
    ps := extracted;
    r, topics := Assign(extracted, brokers, c);
    if r.Ok? {
      ghost var bs := Available(brokers, c);
      PlacesRebuilds(r.value.View(), current.View(), ps, bs, CapacityLimits(bs, c.maxPerBroker), c.existingLoad);
      VersionLed(r.value.View(), current.version + 1, ps, topics, bs, c.rackAware);
      r.value.version := current.version + 1;
    }
  }

  lemma VersionLed(v: Placement, n: int, ps: seq<PartitionInfo>, topics: seq<string>, bs: seq<Broker>, rackAware: bool)
    ensures bs != [] && RangesLed(v, ps, topics, bs, rackAware) ==> RangesLed(v.(version := n), ps, topics, bs, rackAware)
  {
    hide Group, Owner, Owned;
    var w := v.(version := n);
    if bs != [] && RangesLed(v, ps, topics, bs, rackAware) {
      forall x, i | 0 <= x < |topics| && 0 <= i < |Group(ps, topics[x])|
        ensures Owned(w, Group(ps, topics[x])[i], bs, Owner(|Group(ps, topics[x])|, |bs|, i), rackAware)
      {
        var g := Group(ps, topics[x]);
        assert LedByOwners(v, g, |g|, bs, rackAware);
        StillOwned(v, w, {}, g[i], bs, Owner(|g|, |bs|, i), rackAware);
      }
    }
  }
}

/** Topping up partitions that lost replicas (reassignPartitions in pkg/cluster/sticky.go). */
module Reassign {
  import opened Common
  import opened Placements
  import opened Selection
  import opened Sticky

  /** The brokers among the first j of s that may take a replica of a partition held by cur, in order. */
  ghost function Open(s: seq<Broker>, j: nat, cur: seq<BrokerId>, limits: map<BrokerId, int>, load: map<BrokerId, int>): seq<BrokerId>
    requires j <= |s|
  {
    if j == 0 then []
    else
      var front, id := Open(s, j - 1, cur, limits, load), s[j - 1].id;
      if id !in cur && WithinLimit(limits, id, Get(load, id)) then front + [id] else front
  }

  lemma {:induction false} OpenMembers(s: seq<Broker>, j: nat, cur: seq<BrokerId>, limits: map<BrokerId, int>, load: map<BrokerId, int>)
    requires j <= |s| && DistinctIds(s)
    ensures Distinct(Open(s, j, cur, limits, load))
    ensures forall id :: id in Open(s, j, cur, limits, load) ==>
      && (exists i :: 0 <= i < j && s[i].id == id)
      && id !in cur && WithinLimit(limits, id, Get(load, id))
  {
    if j > 0 {
      OpenMembers(s, j - 1, cur, limits, load);
      var front := Open(s, j - 1, cur, limits, load);
      assert s[j - 1].id !in front;
    }
  }

  lemma {:induction false} OpenPrefix(s: seq<Broker>, j: nat, cur: seq<BrokerId>, limits: map<BrokerId, int>, load: map<BrokerId, int>)
    requires j <= |s|
    ensures Open(s, j, cur, limits, load) <= Open(s, |s|, cur, limits, load)
    decreases |s| - j
  {
    if j < |s| { OpenPrefix(s, j + 1, cur, limits, load); }
  }

  /** Every broker a partition may be extended to, least loaded first and ties by id. */
  ghost function Candidates(bs: seq<Broker>, cur: seq<BrokerId>, limits: map<BrokerId, int>, load: map<BrokerId, int>): seq<BrokerId> {
    var s := SortByLoad(bs, load);
    Open(s, |s|, cur, limits, load)
  }

  lemma SortByLoadIds(bs: seq<Broker>, load: map<BrokerId, int>)
    requires DistinctIds(bs)
    ensures DistinctIds(SortByLoad(bs, load)) && Ids(SortByLoad(bs, load)) == Ids(bs)
  {
    var s := SortByLoad(bs, load);
    SameElems(bs, s);
    DistinctPermutation(bs, s);
    forall i, j | 0 <= i < j < |s| ensures s[i].id != s[j].id {
      assert s[i] in Elems(bs) && s[j] in Elems(bs);
    }
    forall id ensures id in Ids(s) <==> id in Ids(bs) {
      if id in Ids(s) {
        var i :| 0 <= i < |s| && s[i].id == id;
        assert s[i] in Elems(bs);
      }
      if id in Ids(bs) {
        var i :| 0 <= i < |bs| && bs[i].id == id;
        assert bs[i] in Elems(s);
      }
    }
  }

  /** Less loaded, or as loaded with a lower id. */
  predicate Lighter(load: map<BrokerId, int>, b: BrokerId, c: BrokerId) {
    Get(load, b) < Get(load, c) || (Get(load, b) == Get(load, c) && b < c)
  }

  /** The order really is least loaded first, ties by id. */
  lemma SortByLoadSorted(bs: seq<Broker>, load: map<BrokerId, int>)
    requires DistinctIds(bs)
    ensures var s := SortByLoad(bs, load);
            forall i, j :: 0 <= i < j < |s| ==> Lighter(load, s[i].id, s[j].id)
  {
    var less := (a, b) => LoadLess(load, a, b);
    assert Orders(less, Elems(bs));
    SortSorted(less, bs);
    assert SortByLoad(bs, load) == Sort(less, bs);
    SortByLoadIds(bs, load);
  }

  function ListOf(v: Placement, key: string): seq<BrokerId> {
    if key in v.partitions then v.partitions[key] else []
  }

  /** A partition extended by some brokers; its first replica leads. */
  ghost function Grown(v: Placement, key: string, added: seq<BrokerId>): Placement
    requires added != []
  {
    var list := ListOf(v, key) + added;
    v.(partitions := v.partitions[key := list], leaders := v.leaders[key := list[0]], load := Tally(v.load, added))
  }

  method ReassignOne(a: Assignment, key: string, target: nat, bs: seq<Broker>, limits: map<BrokerId, int>) returns (ok: bool)
    requires DistinctIds(bs) && target > |ListOf(a.View(), key)|
    modifies a
    ensures var v, need := old(a.View()), target - |ListOf(old(a.View()), key)|;
            var candidates := Candidates(bs, ListOf(v, key), limits, v.load);
            && (ok <==> |candidates| >= need)
            && (ok ==> a.View() == Grown(v, key, Taken(candidates, need)))
    ensures ok ==> ToppedUpTo(old(a.View()), a.View(), key, target, bs, limits)
  {
    hide Open, SortByLoad, DistinctIds, Tally, LeastLoaded, ToppedUpTo;
    ghost var v := a.View();
    var cur := ListOf(a.View(), key);
    var need := target - |cur|;
    SortByLoadIds(bs, v.load);
    var added, load := PickOpen(a.brokerLoad, cur, need, SortByLoad(bs, a.brokerLoad), limits);
    a.brokerLoad := load;
    if |added| < need { return false; }
    var replicas := cur + added;
    a.partitions := a.partitions[key := replicas];
    a.leaders := a.leaders[key := replicas[0]];
    TakenTopsUp(v, key, target, bs, limits);
    return true;
  }

  /** Open brokers, least loaded first, none of those passed over carrying less. */
  ghost predicate LeastLoaded(added: seq<BrokerId>, bs: seq<Broker>, cur: seq<BrokerId>, limits: map<BrokerId, int>, load: map<BrokerId, int>) {
    && Distinct(added)
    && (forall b :: b in added ==> b in Ids(bs) && b !in cur && WithinLimit(limits, b, Get(load, b)))
    && (forall i, j :: 0 <= i < j < |added| ==> Lighter(load, added[i], added[j]))
    && (forall b, c :: b in added && c in Ids(bs) && c !in cur && c !in added && WithinLimit(limits, c, Get(load, c)) ==> Lighter(load, b, c))
  }

  /** One partition reaches its target with the least loaded open brokers behind its old list, whose head leads; no other changes. */
  ghost predicate ToppedUpTo(v: Placement, w: Placement, key: string, target: nat, bs: seq<Broker>, limits: map<BrokerId, int>) {
    var cur := ListOf(v, key);
    && key in w.partitions && |w.partitions[key]| == target && cur <= w.partitions[key]
    && LeastLoaded(w.partitions[key][|cur|..], bs, cur, limits, v.load)
    && FirstLeads(w, key) && w.version == v.version
    && w.partitions - {key} == v.partitions - {key} && w.leaders - {key} == v.leaders - {key}
  }

  lemma TakenTopsUp(v: Placement, key: string, target: nat, bs: seq<Broker>, limits: map<BrokerId, int>)
    requires DistinctIds(bs) && |ListOf(v, key)| < target <= |ListOf(v, key)| + |Candidates(bs, ListOf(v, key), limits, v.load)|
    ensures var added := Taken(Candidates(bs, ListOf(v, key), limits, v.load), target - |ListOf(v, key)|);
            added != [] && ToppedUpTo(v, Grown(v, key, added), key, target, bs, limits)
  {
    hide Candidates, Tally, LeastLoaded, DistinctIds;
    var cur := ListOf(v, key);
    var added := Taken(Candidates(bs, cur, limits, v.load), target - |cur|);
    TakenLeastLoaded(bs, cur, limits, v.load, target - |cur|);
    GrownEntry(v, key, added);
    hide Grown;
  }

  lemma GrownEntry(v: Placement, key: string, added: seq<BrokerId>)
    requires added != []
    ensures var w, cur := Grown(v, key, added), ListOf(v, key);
            && key in w.partitions && w.partitions[key] == cur + added && w.partitions[key][|cur|..] == added
            && FirstLeads(w, key) && w.version == v.version
            && w.partitions - {key} == v.partitions - {key} && w.leaders - {key} == v.leaders - {key}
  {
    hide Tally;
    var w := Grown(v, key, added);
    assert w.partitions - {key} == v.partitions - {key} && w.leaders - {key} == v.leaders - {key};
  }

  lemma {:induction false} OpenOrdered(s: seq<Broker>, j: nat, cur: seq<BrokerId>, limits: map<BrokerId, int>, load: map<BrokerId, int>)
    requires j <= |s| && forall a, b :: 0 <= a < b < |s| ==> Lighter(load, s[a].id, s[b].id)
    ensures forall a, b :: 0 <= a < b < |Open(s, j, cur, limits, load)| ==>
      Lighter(load, Open(s, j, cur, limits, load)[a], Open(s, j, cur, limits, load)[b])
    ensures forall id :: id in Open(s, j, cur, limits, load) ==> exists i :: 0 <= i < j && s[i].id == id
  {
    hide WithinLimit;
    if j > 0 {
      OpenOrdered(s, j - 1, cur, limits, load);
      var front := Open(s, j - 1, cur, limits, load);
      forall a | 0 <= a < |front| ensures Lighter(load, front[a], s[j - 1].id) {
        assert front[a] in front;
        var i :| 0 <= i < j - 1 && s[i].id == front[a];
      }
    }
  }

  lemma TakenLeastLoaded(bs: seq<Broker>, cur: seq<BrokerId>, limits: map<BrokerId, int>, load: map<BrokerId, int>, need: nat)
    requires DistinctIds(bs)
    ensures LeastLoaded(Taken(Candidates(bs, cur, limits, load), need), bs, cur, limits, load)
  {
    hide SortByLoad, Open, WithinLimit, DistinctIds;
    var s := SortByLoad(bs, load);
    SortByLoadIds(bs, load);
    SortByLoadSorted(bs, load);
    OpenMembers(s, |s|, cur, limits, load);
    OpenOrdered(s, |s|, cur, limits, load);
    OpenAll(s, |s|, cur, limits, load);
    var open := Open(s, |s|, cur, limits, load);
    var added := Taken(open, need);
    forall b | b in added ensures b in Ids(bs) && b !in cur && WithinLimit(limits, b, Get(load, b)) {
      assert b in open;
      var i :| 0 <= i < |s| && s[i].id == b;
      assert b in Ids(s);
    }
    forall b, c | b in added && c in Ids(bs) && c !in cur && c !in added && WithinLimit(limits, c, Get(load, c))
      ensures Lighter(load, b, c)
    {
      var i :| 0 <= i < |added| && added[i] == b;
      var n :| 0 <= n < |s| && s[n].id == c;
      assert c in open;
      var j :| 0 <= j < |open| && open[j] == c;
      assert open[i] == b && i < j;
    }
  }

  /** Takes the first open brokers of a list, counting each as it is taken. */
  method PickOpen(before: map<BrokerId, int>, cur: seq<BrokerId>, need: nat, sorted: seq<Broker>, limits: map<BrokerId, int>)
    returns (added: seq<BrokerId>, load: map<BrokerId, int>)
    requires DistinctIds(sorted)
    ensures added == Taken(Open(sorted, |sorted|, cur, limits, before), need)
    ensures load == Tally(before, added)
  {
    hide Tally, Open, DistinctIds, WithinLimit;
    load, added := before, [];
    var j := 0;
    NothingPicked(sorted, cur, limits, before);
    while j < |sorted| && |added| < need
      invariant 0 <= j <= |sorted| && |added| <= need
      invariant added == Open(sorted, j, cur, limits, before)
      invariant load == Tally(before, added)
    {
      var id := sorted[j].id;
      OpenNext(sorted, j, cur, limits, before);
      TallyAppend(before, added, id);
      if id !in cur + added && WithinLimit(limits, id, Get(load, id)) {
        added := added + [id];
        load := load[id := Get(load, id) + 1];
      }
      j := j + 1;
    }
    OpenPrefix(sorted, j, cur, limits, before);
    TakenPrefix(added, Open(sorted, |sorted|, cur, limits, before), need);
  }

  lemma NothingPicked(s: seq<Broker>, cur: seq<BrokerId>, limits: map<BrokerId, int>, load: map<BrokerId, int>)
    ensures Open(s, 0, cur, limits, load) == [] && Tally(load, []) == load
  {
  }

  /** The test made in place, on the list and counters as they stand, is the test of Open. */
  lemma OpenNext(s: seq<Broker>, j: nat, cur: seq<BrokerId>, limits: map<BrokerId, int>, load: map<BrokerId, int>)
    requires j < |s| && DistinctIds(s)
    ensures var id, added := s[j].id, Open(s, j, cur, limits, load);
            Open(s, j + 1, cur, limits, load) ==
            if id !in cur + added && WithinLimit(limits, id, Get(Tally(load, added), id)) then added + [id] else added
  {
    OpenMembers(s, j, cur, limits, load);
    TallyElsewhere(load, Open(s, j, cur, limits, load), s[j].id);
    hide Tally, WithinLimit;
  }

  lemma TallyElsewhere(load: map<BrokerId, int>, s: seq<BrokerId>, b: BrokerId)
    requires b !in s
    ensures Get(Tally(load, s), b) == Get(load, b)
  {
  }

  // ---------------------------------------------------------------------
  // What topping up keeps
  // ---------------------------------------------------------------------

  /** Brokers a partition can be extended by without breaking anything. */
  ghost predicate Extends(v: Placement, key: string, added: seq<BrokerId>, ids: set<BrokerId>, limits: map<BrokerId, int>) {
    && added != [] && Distinct(added)
    && forall b :: b in added ==> b in ids && b !in ListOf(v, key) && WithinLimit(limits, b, Get(v.load, b))
  }

  lemma CandidatesExtend(v: Placement, key: string, need: nat, bs: seq<Broker>, limits: map<BrokerId, int>)
    requires DistinctIds(bs) && 0 < need <= |Candidates(bs, ListOf(v, key), limits, v.load)|
    ensures Extends(v, key, Taken(Candidates(bs, ListOf(v, key), limits, v.load), need), Ids(bs), limits)
  {
    hide SortByLoad, WithinLimit;
    var cur, s := ListOf(v, key), SortByLoad(bs, v.load);
    SortByLoadIds(bs, v.load);
    OpenMembers(s, |s|, cur, limits, v.load);
    var open := Candidates(bs, cur, limits, v.load);
    forall b | b in Taken(open, need) ensures b in Ids(bs) {
      assert b in open;
      var i :| 0 <= i < |s| && s[i].id == b;
      assert b in Ids(s);
    }
  }

  lemma GrownTotal(v: Placement, key: string, added: seq<BrokerId>)
    requires added != []
    ensures Total(Grown(v, key, added).partitions) == Total(v.partitions) + multiset(added)
  {
    var list := ListOf(v, key) + added;
    assert multiset(list) == multiset(ListOf(v, key)) + multiset(added);
    if key in v.partitions {
      TotalUpdate(v.partitions, key, list);
      TotalRemove(v.partitions, key);
    } else {
      TotalInsert(v.partitions, key, list);
    }
    hide Total;
  }

  lemma GrownLoad(v: Placement, key: string, added: seq<BrokerId>, ids: set<BrokerId>)
    requires added != [] && ExactLoad(v) && v.load.Keys == ids && forall b :: b in added ==> b in ids
    ensures ExactLoad(Grown(v, key, added)) && Grown(v, key, added).load.Keys == ids
  {
    hide Total;
    GrownTotal(v, key, added);
    var w := Grown(v, key, added);
    forall b ensures Get(w.load, b) == Total(w.partitions)[b] {
      assert Get(v.load, b) == Total(v.partitions)[b];
    }
  }

  lemma GrownCapped(v: Placement, key: string, added: seq<BrokerId>, ids: set<BrokerId>, limits: map<BrokerId, int>)
    requires Extends(v, key, added, ids, limits) && ExactLoad(v) && Capped(v, limits)
    ensures Capped(Grown(v, key, added), limits)
  {
    hide Total;
    GrownTotal(v, key, added);
    var total := Total(Grown(v, key, added).partitions);
    forall b ensures Allows(Get(limits, b), total[b]) {
      DistinctCount(added, b);
      assert Allows(Get(limits, b), Total(v.partitions)[b]);
      assert Get(v.load, b) == Total(v.partitions)[b];
    }
  }

  lemma GrownSound(v: Placement, key: string, added: seq<BrokerId>, ids: set<BrokerId>, limits: map<BrokerId, int>)
    requires Sound(v, ids) && Extends(v, key, added, ids, limits)
    ensures Sound(Grown(v, key, added), ids)
  {
    hide ExactLoad, Tally;
    GrownLoad(v, key, added, ids);
    var w := Grown(v, key, added);
    forall k | k in w.partitions ensures SoundList(w, k, ids) {
      if k == key {
        GrownList(v, key, added, ids);
      } else {
        assert SoundList(v, k, ids);
      }
    }
  }

  lemma GrownList(v: Placement, key: string, added: seq<BrokerId>, ids: set<BrokerId>)
    requires key in v.partitions ==> SoundList(v, key, ids)
    requires added != [] && Distinct(added) && forall b :: b in added ==> b in ids && b !in ListOf(v, key)
    ensures SoundList(Grown(v, key, added), key, ids)
  {
    hide Tally;
    var cur := ListOf(v, key);
    var list := cur + added;
    forall i, j | 0 <= i < j < |list| ensures list[i] != list[j] {
      if i < |cur| <= j { assert added[j - |cur|] in added; }
    }
    forall b | b in list ensures b in ids {
      if b in cur { assert b in Elems(v.partitions[key]); }
    }
    assert Elems(list) <= ids;
  }

  lemma GrownSized(v: Placement, orig: Placement, pending: map<string, nat>, key: string, added: seq<BrokerId>)
    requires Sized(v, orig, pending) && key in pending && added != []
    requires |ListOf(v, key)| + |added| == pending[key]
    ensures Sized(Grown(v, key, added), orig, pending - {key})
  {
    hide Tally;
  }

  /** Each list is the old one with brokers appended, and lists that lacked nothing are untouched. */
  ghost predicate OnlyGrew(v: Placement, was: Placement, pending: set<string>) {
    && v.version == was.version && was.partitions.Keys <= v.partitions.Keys
    && (forall k :: k in was.partitions ==> was.partitions[k] <= v.partitions[k])
    && (forall k :: k in was.partitions && k !in pending ==> v.partitions[k] == was.partitions[k] && EntryLeader(v, k) == EntryLeader(was, k))
  }

  function EntryLeader(v: Placement, k: string): Option<BrokerId> {
    if k in v.leaders then Some(v.leaders[k]) else None
  }

  lemma GrownOnlyGrew(v: Placement, was: Placement, pending: set<string>, key: string, added: seq<BrokerId>)
    requires OnlyGrew(v, was, pending) && key in pending && added != []
    ensures OnlyGrew(Grown(v, key, added), was, pending)
  {
    hide Tally;
    var w := Grown(v, key, added);
    assert forall k :: k in was.partitions && k != key ==> w.partitions[k] == v.partitions[k];
    if key in was.partitions {
      assert was.partitions[key] <= v.partitions[key] <= w.partitions[key];
    }
  }

  /** Everything topping up maintains, with pending still to be done. */
  ghost predicate Topping(v: Placement, was: Placement, orig: Placement, pending: map<string, nat>, all: set<string>,
                          ids: set<BrokerId>, limits: map<BrokerId, int>)
  {
    && Sound(v, ids) && Sized(v, orig, pending) && OnlyGrew(v, was, all)
    && (Capped(was, limits) ==> Capped(v, limits))
    && (forall k :: k in pending ==> pending[k] > |ListOf(v, k)|)
    && pending.Keys <= all
    && (forall k :: k in all && k !in pending ==> FirstLeads(v, k))
  }

  lemma ToppedUp(v: Placement, was: Placement, orig: Placement, pending: map<string, nat>, all: set<string>,
                 bs: seq<Broker>, limits: map<BrokerId, int>, key: string, need: nat)
    requires DistinctIds(bs) && Topping(v, was, orig, pending, all, Ids(bs), limits)
    requires key in pending && need == pending[key] - |ListOf(v, key)|
    requires |Candidates(bs, ListOf(v, key), limits, v.load)| >= need
    ensures Topping(Grown(v, key, Taken(Candidates(bs, ListOf(v, key), limits, v.load), need)), was, orig, pending - {key}, all, Ids(bs), limits)
  {
    hide SoundList, ExactLoad, Tally, Sized, OnlyGrew, Capped, Extends, Candidates, DistinctIds;
    var added := Taken(Candidates(bs, ListOf(v, key), limits, v.load), need);
    CandidatesExtend(v, key, need, bs, limits);
    ExtendsParts(v, key, added, Ids(bs), limits);
    GrownSound(v, key, added, Ids(bs), limits);
    if Capped(was, limits) { GrownCapped(v, key, added, Ids(bs), limits); }
    GrownSized(v, orig, pending, key, added);
    GrownOnlyGrew(v, was, all, key, added);
    GrownLeads(v, key, added);
  }

  /** The first replica leads a topped-up partition, and nothing changes who leads another. */
  lemma GrownLeads(v: Placement, key: string, added: seq<BrokerId>)
    requires added != []
    ensures FirstLeads(Grown(v, key, added), key)
    ensures forall k :: k != key && FirstLeads(v, k) ==> FirstLeads(Grown(v, key, added), k)
  {
    hide Tally;
  }

  lemma ExtendsParts(v: Placement, key: string, added: seq<BrokerId>, ids: set<BrokerId>, limits: map<BrokerId, int>)
    requires Extends(v, key, added, ids, limits)
    ensures added != []
  {
  }

  /** Where topping up ended early: the partition that found too few brokers, and the assignment it met. */
  datatype Shortage = Shortage(key: string, at: Placement)

  ghost predicate TooFew(short: Shortage, target: nat, bs: seq<Broker>, limits: map<BrokerId, int>) {
    var cur := ListOf(short.at, short.key);
    |cur| + |Candidates(bs, cur, limits, short.at.load)| < target
  }

  /** Fails exactly at a partition for which too few brokers are open; without limits, when it wants more than there are. */
  method ReassignPartitions(a: Assignment, pending: map<string, nat>, bs: seq<Broker>, limits: map<BrokerId, int>, ghost orig: Placement)
    returns (ok: bool, ghost short: Option<Shortage>)
    requires DistinctIds(bs) && Topping(a.View(), a.View(), orig, pending, pending.Keys, Ids(bs), limits)
    modifies a
    ensures ok ==> Topping(a.View(), old(a.View()), orig, map[], pending.Keys, Ids(bs), limits)
    ensures ok <==> short.None?
    ensures short.Some? ==>
      && short.value.key in pending && TooFew(short.value, pending[short.value.key], bs, limits)
      && exists todo :: Topping(short.value.at, old(a.View()), orig, todo, pending.Keys, Ids(bs), limits)
    ensures Unlimited(limits) ==> (ok <==> forall k :: k in pending ==> pending[k] <= |bs|)
  {
    hide Topping, Candidates, Grown, DistinctIds, Unlimited, ToppedUpTo, Sorted, ListOf, Distinct;
    ghost var was := a.View();
    var keys := SortedStrings(pending.Keys);
    ghost var todo := pending;
    for i := 0 to |keys|
      invariant todo.Keys == Elems(keys[i..]) && forall k :: k in todo ==> todo[k] == pending[k]
      invariant Topping(a.View(), was, orig, todo, pending.Keys, Ids(bs), limits)
      invariant Unlimited(limits) ==> forall k :: k in pending && k !in todo ==> pending[k] <= |bs|
    {
      var key := keys[i];
      NextKey(keys, i);
      StillShort(a.View(), was, orig, todo, pending.Keys, Ids(bs), limits, key);
      ghost var v := a.View();
      if Unlimited(limits) { EveryoneElse(v, was, orig, todo, pending.Keys, key, bs, limits); }
      var done := ReassignOne(a, key, pending[key], bs, limits);
      if !done { return false, Some(Shortage(key, v)); }
      ToppedUp(v, was, orig, todo, pending.Keys, bs, limits, key, todo[key] - |ListOf(v, key)|);
      todo := todo - {key};
    }
    assert todo == map[];
    return true, None;
  }

  lemma {:induction false} OpenAll(s: seq<Broker>, j: nat, cur: seq<BrokerId>, limits: map<BrokerId, int>, load: map<BrokerId, int>)
    requires j <= |s|
    ensures forall i :: 0 <= i < j && s[i].id !in cur && WithinLimit(limits, s[i].id, Get(load, s[i].id)) ==> s[i].id in Open(s, j, cur, limits, load)
  {
    if j > 0 { OpenAll(s, j - 1, cur, limits, load); }
  }

  /** Without limits every broker that does not hold the partition is open. */
  lemma OpenUnlimited(bs: seq<Broker>, cur: seq<BrokerId>, limits: map<BrokerId, int>, load: map<BrokerId, int>)
    requires DistinctIds(bs) && Unlimited(limits) && Distinct(cur) && Elems(cur) <= Ids(bs)
    ensures |Candidates(bs, cur, limits, load)| == |bs| - |cur|
  {
    hide SortByLoad, Open, DistinctIds, Distinct;
    var s := SortByLoad(bs, load);
    var open := Candidates(bs, cur, limits, load);
    SortByLoadIds(bs, load);
    OpenMembers(s, |s|, cur, limits, load);
    OpenAll(s, |s|, cur, limits, load);
    forall id ensures id in Elems(open) <==> id in Ids(bs) - Elems(cur) {
      if id in Ids(bs) - Elems(cur) {
        var i :| 0 <= i < |s| && s[i].id == id;
        assert s[i].id !in cur;
      }
    }
    assert Elems(open) == Ids(bs) - Elems(cur);
    DistinctCardinality(open);
    DistinctCardinality(cur);
    IdsCardinality(bs);
  }

  lemma EveryoneElse(v: Placement, was: Placement, orig: Placement, pending: map<string, nat>, all: set<string>, key: string,
                     bs: seq<Broker>, limits: map<BrokerId, int>)
    requires Topping(v, was, orig, pending, all, Ids(bs), limits) && DistinctIds(bs) && Unlimited(limits)
    ensures |Candidates(bs, ListOf(v, key), limits, v.load)| == |bs| - |ListOf(v, key)|
  {
    hide Candidates, DistinctIds, Unlimited;
    assert key in v.partitions ==> SoundList(v, key, Ids(bs));
    OpenUnlimited(bs, ListOf(v, key), limits, v.load);
  }

  lemma StillShort(v: Placement, was: Placement, orig: Placement, pending: map<string, nat>, all: set<string>,
                   ids: set<BrokerId>, limits: map<BrokerId, int>, key: string)
    requires Topping(v, was, orig, pending, all, ids, limits) && key in pending
    ensures pending[key] > |ListOf(v, key)|
  {
  }

  lemma NextKey(keys: seq<string>, i: nat)
    requires i < |keys| && Distinct(keys)
    ensures keys[i] in Elems(keys[i..]) && keys[i] in Elems(keys)
    ensures Elems(keys[i + 1..]) == Elems(keys[i..]) - {keys[i]}
  {
    assert keys[i..] == [keys[i]] + keys[i + 1..];
  }
}

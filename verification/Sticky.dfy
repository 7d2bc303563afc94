/** Sticky rebalancing (pkg/cluster/sticky.go). */
module Sticky {
  import opened Common
  import opened Placements

  // ---------------------------------------------------------------------
  // Invariants of an assignment under rebalancing
  // ---------------------------------------------------------------------

  ghost predicate SoundList(v: Placement, k: string, ids: set<BrokerId>)
    requires k in v.partitions
  {
    && v.partitions[k] != [] && Distinct(v.partitions[k]) && Elems(v.partitions[k]) <= ids
    && k in v.leaders && v.leaders[k] in v.partitions[k]
  }

  /** Every list lies on the brokers ids, leaders lead, and the counters are those of exactly these brokers. */
  ghost predicate Sound(v: Placement, ids: set<BrokerId>) {
    && v.leaders.Keys == v.partitions.Keys
    && (forall k :: k in v.partitions ==> SoundList(v, k, ids))
    && ExactLoad(v) && v.load.Keys == ids
  }

  /** Every partition of orig is still there with its replica count, except those pending. */
  ghost predicate Sized(v: Placement, orig: Placement, pending: map<string, nat>) {
    && v.partitions.Keys <= orig.partitions.Keys && pending.Keys <= orig.partitions.Keys
    && (forall k :: k in pending ==> pending[k] == |orig.partitions[k]|)
    && (forall k :: k in orig.partitions && k !in pending ==>
          k in v.partitions && |v.partitions[k]| == |orig.partitions[k]|)
  }

  /** No broker is over its limit. */
  ghost predicate Capped(v: Placement, limits: map<BrokerId, int>) {
    forall b :: Allows(Get(limits, b), Total(v.partitions)[b])
  }

  /** Replicas on the brokers ids that a partition had and has no more. */
  ghost function Displaced(v: Placement, was: Placement, ids: set<BrokerId>): set<(string, BrokerId)> {
    set k, b | k in was.partitions && b in was.partitions[k] && b in ids && (k !in v.partitions || b !in v.partitions[k]) :: (k, b)
  }

  // ---------------------------------------------------------------------
  // Dropping the replicas of removed brokers
  // ---------------------------------------------------------------------

  function FilterReplicas(replicas: seq<BrokerId>, removed: set<BrokerId>): (r: seq<BrokerId>)
    ensures |r| <= |replicas|
    ensures |r| == |replicas| ==> r == replicas
    ensures forall b :: b in r <==> b in replicas && b !in removed
    ensures Distinct(replicas) ==> Distinct(r)
  {
    if replicas == [] then []
    else
      var rest := FilterReplicas(replicas[1..], removed);
      if replicas[0] in removed then rest else [replicas[0]] + rest
  }

  /** Filtering looks at each replica on its own, and so keeps their order. */
  lemma {:induction false} FilterSplits(a: seq<BrokerId>, b: seq<BrokerId>, removed: set<BrokerId>)
    ensures FilterReplicas(a + b, removed) == FilterReplicas(a, removed) + FilterReplicas(b, removed)
  {
    if a == [] {
      assert a + b == b;
    } else {
      assert (a + b)[1..] == a[1..] + b;
      FilterSplits(a[1..], b, removed);
    }
  }

  lemma FilterOne(b: BrokerId, removed: set<BrokerId>)
    ensures FilterReplicas([b], removed) == if b in removed then [] else [b]
  {
  }

  /** What is left of a partition's entry once the removed brokers are gone. */
  ghost predicate EntryFiltered(v: Placement, was: Placement, k: string, removed: set<BrokerId>)
    requires k in was.partitions && k in was.leaders
  {
    var kept := FilterReplicas(was.partitions[k], removed);
    if kept == [] && was.partitions[k] != [] then k !in v.partitions && k !in v.leaders
    else
      && k in v.partitions && v.partitions[k] == kept
      && k in v.leaders && v.leaders[k] == if |kept| == |was.partitions[k]| then was.leaders[k] else kept[0]
  }

  ghost predicate Filtered(v: Placement, was: Placement, removed: set<BrokerId>, rest: set<string>)
    requires was.leaders.Keys == was.partitions.Keys
  {
    && v.partitions.Keys == v.leaders.Keys <= was.partitions.Keys
    && (forall k :: k in was.partitions && k !in rest ==> EntryFiltered(v, was, k, removed))
    && (forall k :: k in was.partitions && k in rest ==>
          k in v.partitions && v.partitions[k] == was.partitions[k] && v.leaders[k] == was.leaders[k])
  }

  /** Partitions outside rest that lose a replica, with the replica count they had. */
  ghost function Losers(was: Placement, removed: set<BrokerId>, rest: set<string>): map<string, nat> {
    map k | k in was.partitions && k !in rest && |FilterReplicas(was.partitions[k], removed)| != |was.partitions[k]| :: |was.partitions[k]|
  }

  /** One round of the filter loop. */
  ghost function FilterEntry(v: Placement, k: string, removed: set<BrokerId>): Placement
    requires k in v.partitions
  {
    var kept := FilterReplicas(v.partitions[k], removed);
    if |kept| == |v.partitions[k]| then v
    else if kept != [] then v.(partitions := v.partitions[k := kept], leaders := v.leaders[k := kept[0]])
    else v.(partitions := v.partitions - {k}, leaders := v.leaders - {k})
  }

  lemma FilterStep(v: Placement, was: Placement, k: string, removed: set<BrokerId>, rest: set<string>)
    requires was.leaders.Keys == was.partitions.Keys && Filtered(v, was, removed, rest)
    requires k in rest && k in was.partitions
    ensures Filtered(FilterEntry(v, k, removed), was, removed, rest - {k})
  {
    hide FilterReplicas;
    var w := FilterEntry(v, k, removed);
    assert EntryFiltered(w, was, k, removed);
    forall q | q in was.partitions && q !in rest - {k} ensures EntryFiltered(w, was, q, removed) {
      if q != k { assert EntryFiltered(v, was, q, removed); }
    }
  }

  lemma LosersStep(was: Placement, k: string, removed: set<BrokerId>, rest: set<string>)
    requires k in rest && k in was.partitions
    ensures Losers(was, removed, rest - {k}) ==
            if |FilterReplicas(was.partitions[k], removed)| == |was.partitions[k]| then Losers(was, removed, rest)
            else Losers(was, removed, rest)[k := |was.partitions[k]|]
  {
    hide FilterReplicas;
  }

  method FilterRemoved(a: Assignment, removed: set<BrokerId>) returns (pending: map<string, nat>)
    requires a.leaders.Keys == a.partitions.Keys
    modifies a`partitions, a`leaders
    ensures Filtered(a.View(), old(a.View()), removed, {})
    ensures pending == Losers(old(a.View()), removed, {})
  {
    ghost var was := a.View();
    var rest := a.partitions.Keys;
    pending := map[];
    StartFilter(was, removed);
    hide Filtered, Losers, FilterReplicas;
    while rest != {}
      invariant rest <= was.partitions.Keys
      invariant Filtered(a.View(), was, removed, rest)
      invariant pending == Losers(was, removed, rest)
      decreases rest
    {
      var k :| k in rest;
      StillThere(a.View(), was, k, removed, rest);
      FilterStep(a.View(), was, k, removed, rest);
      LosersStep(was, k, removed, rest);
      var replicas := a.partitions[k];
      var kept := FilterReplicas(replicas, removed);
      if |kept| != |replicas| {
        pending := pending[k := |replicas|];
        if |kept| > 0 {
          a.partitions := a.partitions[k := kept];
          a.leaders := a.leaders[k := kept[0]];
        } else {
          a.partitions := a.partitions - {k};
          a.leaders := a.leaders - {k};
        }
      }
      rest := rest - {k};
    }
  }

  lemma StartFilter(was: Placement, removed: set<BrokerId>)
    requires was.leaders.Keys == was.partitions.Keys
    ensures Filtered(was, was, removed, was.partitions.Keys)
    ensures Losers(was, removed, was.partitions.Keys) == map[]
  {
  }

  lemma StillThere(v: Placement, was: Placement, k: string, removed: set<BrokerId>, rest: set<string>)
    requires was.leaders.Keys == was.partitions.Keys && Filtered(v, was, removed, rest) && k in rest && k in was.partitions
    ensures k in v.partitions && v.partitions[k] == was.partitions[k]
  {
  }

  lemma {:induction false} TotalShrinks(p: map<string, seq<BrokerId>>, q: map<string, seq<BrokerId>>)
    requires q.Keys <= p.Keys && forall k :: k in q ==> multiset(q[k]) <= multiset(p[k])
    ensures Total(q) <= Total(p)
    decreases |p|
  {
    if p == map[] {
      assert q == map[];
    } else {
      var k :| k in p;
      TotalRemove(p, k);
      if k in q { TotalRemove(q, k); } else { assert q - {k} == q; }
      assert |p - {k}| == |p| - 1;
      TotalShrinks(p - {k}, q - {k});
      hide Total;
    }
  }

  lemma FilterShrinks(s: seq<BrokerId>, removed: set<BrokerId>)
    requires Distinct(s)
    ensures multiset(FilterReplicas(s, removed)) <= multiset(s)
  {
    forall b ensures multiset(FilterReplicas(s, removed))[b] <= multiset(s)[b] {
      DistinctCount(s, b);
      DistinctCount(FilterReplicas(s, removed), b);
    }
  }

  /** Counters for the brokers ids, zero where nothing is held. */
  method RecountOver(parts: map<string, seq<BrokerId>>, ids: set<BrokerId>) returns (load: map<BrokerId, int>)
    requires forall k :: k in parts ==> Elems(parts[k]) <= ids
    ensures load.Keys == ids && forall b :: Get(load, b) == Total(parts)[b]
  {
    var counted := CountReplicas(parts);
    forall b | b in counted ensures b in ids {
      var k := TotalMember(parts, b);
      assert b in Elems(parts[k]);
    }
    load := (map id | id in ids :: 0) + counted;
  }

  /** The counters play no part in filtering. */
  lemma FilteredLoadFree(v: Placement, was: Placement, removed: set<BrokerId>, load: map<BrokerId, int>)
    requires was.leaders.Keys == was.partitions.Keys && Filtered(v, was, removed, {})
    ensures Filtered(v.(load := load), was, removed, {})
  {
    hide FilterReplicas;
    forall k | k in was.partitions ensures EntryFiltered(v.(load := load), was, k, removed) {
      assert EntryFiltered(v, was, k, removed);
    }
  }

  lemma FilteredIsSound(v: Placement, orig: Placement, ids: set<BrokerId>)
    requires WellFormed(orig) && Filtered(v, orig, orig.load.Keys - ids, {})
    requires v.load.Keys == ids && ExactLoad(v)
    ensures Sound(v, ids)
  {
    forall k | k in v.partitions ensures SoundList(v, k, ids) {
      KeptList(v, orig, k, ids);
    }
    assert v.leaders.Keys == v.partitions.Keys;
    hide SoundList, Filtered, WellFormed, ExactLoad;
  }

  /** A partition that lost something but not everything is led by the first replica left; one that lost nothing keeps its leader. */
  lemma FilteredLeads(v: Placement, was: Placement, removed: set<BrokerId>, k: string)
    requires was.leaders.Keys == was.partitions.Keys && Filtered(v, was, removed, {}) && k in v.partitions
    ensures k in was.partitions && k in v.leaders
    ensures if v.partitions[k] == was.partitions[k] then v.leaders[k] == was.leaders[k] else FirstLeads(v, k)
  {
    hide FilterReplicas;
    assert EntryFiltered(v, was, k, removed);
  }

  lemma FilteredIsSized(v: Placement, orig: Placement, ids: set<BrokerId>)
    requires WellFormed(orig) && Filtered(v, orig, orig.load.Keys - ids, {})
    ensures Sized(v, orig, Losers(orig, orig.load.Keys - ids, {}))
  {
    var removed := orig.load.Keys - ids;
    hide FilterReplicas;
    forall k | k in orig.partitions && k !in Losers(orig, removed, {})
      ensures k in v.partitions && |v.partitions[k]| == |orig.partitions[k]|
    {
      assert EntryFiltered(v, orig, k, removed);
      assert orig.leaders[k] in orig.partitions[k];
    }
  }

  lemma FilteredIsCapped(v: Placement, orig: Placement, ids: set<BrokerId>, limits: map<BrokerId, int>)
    requires WellFormed(orig) && Filtered(v, orig, orig.load.Keys - ids, {}) && Capped(orig, limits)
    ensures Capped(v, limits)
  {
    forall k | k in v.partitions ensures multiset(v.partitions[k]) <= multiset(orig.partitions[k]) {
      KeptList(v, orig, k, ids);
      FilterShrinks(orig.partitions[k], orig.load.Keys - ids);
    }
    TotalShrinks(orig.partitions, v.partitions);
    hide Total, Filtered, WellFormed;
  }

  lemma KeptList(v: Placement, orig: Placement, k: string, ids: set<BrokerId>)
    requires WellFormed(orig) && k in v.partitions && Filtered(v, orig, orig.load.Keys - ids, {})
    ensures SoundList(v, k, ids)
    ensures k in orig.partitions && v.partitions[k] == FilterReplicas(orig.partitions[k], orig.load.Keys - ids)
  {
    var removed := orig.load.Keys - ids;
    assert EntryFiltered(v, orig, k, removed);
    assert orig.leaders[k] in orig.partitions[k];
    forall b | b in v.partitions[k] ensures b in ids {
      TotalContains(orig.partitions, k, b);
      assert Get(orig.load, b) > 0;
    }
  }
}

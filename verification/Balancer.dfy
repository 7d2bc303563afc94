/** Moving replicas off overloaded brokers (balanceLoad in pkg/cluster/sticky.go). */
module Balancer {
  import opened Common
  import opened Placements
  import opened Selection
  import opened Sums
  import opened LoadBalancing
  import opened Sticky

  /** The most loaded broker above the target, and the least loaded one below it that is not full. */
  method FindImbalanced(load: map<BrokerId, int>, target: int, limits: map<BrokerId, int>)
    returns (over: Option<BrokerId>, under: Option<BrokerId>)
    ensures over.Some? ==> over.value in load && load[over.value] > target && forall b :: b in load ==> load[b] <= load[over.value]
    ensures over.None? ==> forall b :: b in load ==> load[b] <= target
    ensures under.Some? ==> under.value in load && load[under.value] < target && WithinLimit(limits, under.value, load[under.value])
    ensures under.Some? ==> forall b :: b in load && WithinLimit(limits, b, load[b]) ==> load[under.value] <= load[b]
    ensures under.None? ==> forall b :: b in load && WithinLimit(limits, b, load[b]) ==> load[b] >= target
  {
    var maxLoad, minLoad := target, target;
    over, under := None, None;
    var rest := load.Keys;
    while rest != {}
      invariant rest <= load.Keys
      invariant if over.Some? then over.value in load && load[over.value] == maxLoad > target else maxLoad == target
      invariant forall b :: b in load.Keys - rest ==> load[b] <= maxLoad
      invariant if under.Some? then
          under.value in load && load[under.value] == minLoad < target && WithinLimit(limits, under.value, minLoad)
        else minLoad == target
      invariant forall b :: b in load.Keys - rest && WithinLimit(limits, b, load[b]) ==> minLoad <= load[b]
      decreases rest
    {
      hide WithinLimit;
      var b :| b in rest;
      if load[b] > maxLoad { maxLoad, over := load[b], Some(b); }
      if load[b] < minLoad && WithinLimit(limits, b, load[b]) { minLoad, under := load[b], Some(b); }
      rest := rest - {b};
    }
  }

  // ---------------------------------------------------------------------
  // One move
  // ---------------------------------------------------------------------

  ghost predicate Movable(v: Placement, k: string, from: BrokerId, to: BrokerId) {
    k in v.partitions && from in v.partitions[k] && to !in v.partitions[k]
  }

  function IndexOf(s: seq<BrokerId>, b: BrokerId): (i: nat)
    requires b in s
    ensures i < |s| && s[i] == b && b !in s[..i]
  {
    if s[0] == b then 0 else 1 + IndexOf(s[1..], b)
  }

  function Replaced(s: seq<BrokerId>, from: BrokerId, to: BrokerId): seq<BrokerId>
    requires from in s
  {
    s[IndexOf(s, from) := to]
  }

  /** The assignment after one replica of k moved; a moved leader hands over to the first replica. */
  ghost function Shifted(v: Placement, k: string, from: BrokerId, to: BrokerId): Placement
    requires Movable(v, k, from, to) && k in v.leaders && from in v.load && to in v.load && from != to
  {
    var list := Replaced(v.partitions[k], from, to);
    v.(partitions := v.partitions[k := list],
       leaders := if v.leaders[k] == from then v.leaders[k := list[0]] else v.leaders,
       load := Moved(v.load, from, to))
  }

  method MovePartition(a: Assignment, from: BrokerId, to: BrokerId, limits: map<BrokerId, int>) returns (moved: bool, ghost key: string)
    requires a.leaders.Keys == a.partitions.Keys
    requires from != to && from in a.brokerLoad && to in a.brokerLoad
    modifies a
    ensures moved ==> Movable(old(a.View()), key, from, to) && a.View() == Shifted(old(a.View()), key, from, to)
    ensures moved ==> WithinLimit(limits, to, old(a.brokerLoad)[to])
    ensures !moved ==> a.View() == old(a.View())
    ensures !moved && WithinLimit(limits, to, a.brokerLoad[to]) ==>
      forall k :: k != "" ==> !Movable(a.View(), k, from, to)
  {
    key := "";
    if !WithinLimit(limits, to, a.brokerLoad[to]) { return false, key; }
    var found := "";
    var rest := a.partitions.Keys;
    while rest != {} && found == ""
      invariant rest <= a.partitions.Keys
      invariant found != "" ==> Movable(a.View(), found, from, to)
      invariant found == "" ==> forall k :: k in a.partitions && k !in rest && k != "" ==> !Movable(a.View(), k, from, to)
      decreases rest
    {
      var k :| k in rest;
      if from in a.partitions[k] && to !in a.partitions[k] { found := k; }
      rest := rest - {k};
    }
    if found == "" { return false, key; }
    key := found;
    var replicas := Replaced(a.partitions[found], from, to);
    a.partitions := a.partitions[found := replicas];
    a.brokerLoad := a.brokerLoad[from := a.brokerLoad[from] - 1];
    a.brokerLoad := a.brokerLoad[to := a.brokerLoad[to] + 1];
    if a.leaders[found] == from {
      a.leaders := a.leaders[found := replicas[0]];
    }
    return true, key;
  }

  lemma ReplacedList(s: seq<BrokerId>, from: BrokerId, to: BrokerId)
    requires Distinct(s) && from in s && to !in s
    ensures Distinct(Replaced(s, from, to)) && |Replaced(s, from, to)| == |s|
    ensures multiset(Replaced(s, from, to)) == multiset(s) - multiset{from} + multiset{to}
    ensures forall b :: b in Replaced(s, from, to) <==> (b in s && b != from) || b == to
  {
    ReplacedMultiset(s, from, to);
    DistinctCount(s, from);
    hide IndexOf;
    var r := Replaced(s, from, to);
    forall b ensures b in r <==> (b in s && b != from) || b == to {
      assert b in r <==> b in multiset(r);
      assert b in s <==> b in multiset(s);
    }
  }

  lemma ReplacedMultiset(s: seq<BrokerId>, from: BrokerId, to: BrokerId)
    requires from in s
    ensures multiset(Replaced(s, from, to)) == multiset(s) - multiset{from} + multiset{to}
  {
    var i := IndexOf(s, from);
    hide IndexOf;
    assert s == s[..i] + [from] + s[i + 1..];
    assert Replaced(s, from, to) == s[..i] + [to] + s[i + 1..];
  }

  /** What every move keeps: soundness and each partition's replica count. */
  lemma ShiftedSound(v: Placement, k: string, from: BrokerId, to: BrokerId, ids: set<BrokerId>)
    requires Sound(v, ids) && Movable(v, k, from, to) && from != to && from in ids && to in ids
    ensures Sound(Shifted(v, k, from, to), ids)
    ensures Total(Shifted(v, k, from, to).partitions) == Total(v.partitions) - multiset{from} + multiset{to}
  {
    hide Replaced, Distinct;
    assert SoundList(v, k, ids);
    ShiftedTotal(v, k, from, to, ids);
    ShiftedLoad(v, k, from, to, ids);
    var w := Shifted(v, k, from, to);
    forall q | q in w.partitions ensures SoundList(w, q, ids) {
      if q == k {
        ShiftedList(v, k, from, to, ids);
      } else {
        assert SoundList(v, q, ids);
      }
    }
    hide SoundList, ExactLoad, Movable;
  }

  lemma ShiftedList(v: Placement, k: string, from: BrokerId, to: BrokerId, ids: set<BrokerId>)
    requires Movable(v, k, from, to) && SoundList(v, k, ids) && from in v.load && to in v.load && from != to && to in ids
    ensures SoundList(Shifted(v, k, from, to), k, ids)
    ensures |Shifted(v, k, from, to).partitions[k]| == |v.partitions[k]|
  {
    ReplacedList(v.partitions[k], from, to);
    hide Replaced, Distinct, Moved;
    var list := Replaced(v.partitions[k], from, to);
    assert list[0] in list;
    forall b | b in list ensures b in ids {
      if b != to { assert b in Elems(v.partitions[k]); }
    }
  }

  lemma ShiftedTotal(v: Placement, k: string, from: BrokerId, to: BrokerId, ids: set<BrokerId>)
    requires Movable(v, k, from, to) && SoundList(v, k, ids) && from in v.load && to in v.load && from != to
    ensures Total(Shifted(v, k, from, to).partitions) == Total(v.partitions) - multiset{from} + multiset{to}
    ensures Total(v.partitions)[from] > 0
  {
    var list := v.partitions[k];
    ReplacedList(list, from, to);
    TotalUpdate(v.partitions, k, Replaced(list, from, to));
    TotalRemove(v.partitions, k);
    assert from in multiset(list);
    hide Total, Replaced, Distinct, Moved;
  }

  lemma ShiftedLoad(v: Placement, k: string, from: BrokerId, to: BrokerId, ids: set<BrokerId>)
    requires ExactLoad(v) && v.load.Keys == ids && from in ids && to in ids && from != to
    requires Movable(v, k, from, to) && SoundList(v, k, ids)
    ensures ExactLoad(Shifted(v, k, from, to)) && Shifted(v, k, from, to).load.Keys == ids
  {
    hide Total, Replaced, Distinct;
    ShiftedTotal(v, k, from, to, ids);
    var w := Shifted(v, k, from, to);
    forall b ensures Get(w.load, b) == Total(w.partitions)[b] {
      assert Get(v.load, b) == Total(v.partitions)[b];
    }
  }

  lemma ShiftedCapped(v: Placement, k: string, from: BrokerId, to: BrokerId, ids: set<BrokerId>, limits: map<BrokerId, int>)
    requires Sound(v, ids) && Movable(v, k, from, to) && from != to && from in ids && to in ids
    requires Capped(v, limits) && WithinLimit(limits, to, v.load[to])
    ensures Capped(Shifted(v, k, from, to), limits)
  {
    hide Total, Replaced, SoundList, Shifted, Distinct;
    ShiftedSound(v, k, from, to, ids);
    var total := Total(Shifted(v, k, from, to).partitions);
    forall b ensures Allows(Get(limits, b), total[b]) {
      assert Allows(Get(limits, b), Total(v.partitions)[b]);
      assert Get(v.load, b) == Total(v.partitions)[b];
    }
  }

  /** If every partition on from is also on to, then to holds at least as much as from. */
  lemma {:induction false} Dominated(parts: map<string, seq<BrokerId>>, from: BrokerId, to: BrokerId)
    requires forall k :: k in parts ==> Distinct(parts[k])
    requires forall k :: k in parts ==> from in parts[k] ==> to in parts[k]
    ensures Total(parts)[from] <= Total(parts)[to]
    decreases |parts|
  {
    if parts == map[] { return; }
    var k :| k in parts;
    TotalRemove(parts, k);
    DistinctCount(parts[k], from);
    DistinctCount(parts[k], to);
    assert |parts - {k}| == |parts| - 1;
    Dominated(parts - {k}, from, to);
    hide Total;
  }

  /** So a heavier broker always has a partition to give to a lighter one. */
  lemma SomethingMovable(v: Placement, ids: set<BrokerId>, from: BrokerId, to: BrokerId) returns (k: string)
    requires Sound(v, ids) && from in ids && to in ids && v.load[from] > v.load[to]
    ensures Movable(v, k, from, to)
  {
    hide Total;
    assert Get(v.load, from) == Total(v.partitions)[from] && Get(v.load, to) == Total(v.partitions)[to];
    if forall k :: k in v.partitions ==> from in v.partitions[k] ==> to in v.partitions[k] {
      forall k | k in v.partitions ensures Distinct(v.partitions[k]) { assert SoundList(v, k, ids); }
      Dominated(v.partitions, from, to);
      assert false;
    }
    k :| k in v.partitions && from in v.partitions[k] && to !in v.partitions[k];
  }

  // ---------------------------------------------------------------------
  // The loop
  // ---------------------------------------------------------------------

  ghost predicate SameShape(v: Placement, was: Placement) {
    && v.partitions.Keys == was.partitions.Keys && v.version == was.version
    && forall k :: k in was.partitions ==> |v.partitions[k]| == |was.partitions[k]|
  }

  /** The state after some moves from was. */
  ghost predicate Balancing(v: Placement, was: Placement, ids: set<BrokerId>, limits: map<BrokerId, int>, t: int, moves: nat) {
    && Sound(v, ids) && SameShape(v, was) && (Capped(was, limits) ==> Capped(v, limits))
    && Reached(was.load, v.load, limits, t, moves)
    && |Displaced(v, was, ids)| <= moves
    && InPlace(v, was, t)
  }

  /**
   * A replica still listed stands where it stood, and one that left is on a broker at or above the target, which receives
   * nothing: so it never comes back. A leader still listed still leads; otherwise, or where it did before, the first replica leads.
   */
  ghost predicate ListInPlace(v: Placement, was: Placement, k: string, t: int)
    requires k in was.partitions
  {
    && k in v.partitions && |v.partitions[k]| == |was.partitions[k]| && k in was.leaders && k in v.leaders
    && (forall i :: 0 <= i < |was.partitions[k]| ==>
          v.partitions[k][i] == was.partitions[k][i] || (was.partitions[k][i] !in v.partitions[k] && Get(v.load, was.partitions[k][i]) >= t))
    && (if was.leaders[k] in v.partitions[k] then v.leaders[k] == was.leaders[k] else FirstLeads(v, k))
    && (FirstLeads(was, k) ==> FirstLeads(v, k))
  }

  ghost predicate InPlace(v: Placement, was: Placement, t: int) {
    forall k :: k in was.partitions ==> ListInPlace(v, was, k, t)
  }

  /** What the moves leave of each list, whatever the target was. */
  ghost predicate StayPut(v: Placement, was: Placement) {
    forall k :: k in was.partitions ==>
      && k in v.partitions && |v.partitions[k]| == |was.partitions[k]| && k in was.leaders && k in v.leaders
      && (forall i :: 0 <= i < |was.partitions[k]| && was.partitions[k][i] in v.partitions[k] ==> v.partitions[k][i] == was.partitions[k][i])
      && (if was.leaders[k] in v.partitions[k] then v.leaders[k] == was.leaders[k] else FirstLeads(v, k))
      && (FirstLeads(was, k) ==> FirstLeads(v, k))
  }

  lemma InPlaceStayPut(v: Placement, was: Placement, t: int)
    requires InPlace(v, was, t)
    ensures StayPut(v, was)
  {
    hide FirstLeads;
    forall k | k in was.partitions ensures ListInPlace(v, was, k, t) {}
  }

  lemma InPlaceAtFirst(v: Placement, ids: set<BrokerId>, t: int)
    requires Sound(v, ids)
    ensures InPlace(v, v, t)
  {
    forall k | k in v.partitions ensures ListInPlace(v, v, k, t) { assert SoundList(v, k, ids); }
  }

  lemma InPlaceStep(v: Placement, was: Placement, ids: set<BrokerId>, limits: map<BrokerId, int>, t: int, k: string, from: BrokerId, to: BrokerId)
    requires Sound(v, ids) && Sound(was, ids) && InPlace(v, was, t) && SameShape(v, was)
    requires Move(v.load, limits, t, from, to) && Movable(v, k, from, to) && from != to && k in v.leaders
    ensures InPlace(Shifted(v, k, from, to), was, t)
  {
    hide Replaced, SoundList, ExactLoad, Distinct, FirstLeads, WithinLimit;
    var w := Shifted(v, k, from, to);
    forall q | q in was.partitions ensures ListInPlace(w, was, q, t) {
      assert ListInPlace(v, was, q, t);
      if q == k {
        assert SoundList(v, k, ids) && SoundList(was, k, ids);
        MovedInPlace(v, was, ids, limits, t, k, from, to);
      } else {
        OtherInPlace(v, was, limits, t, q, k, from, to);
      }
    }
  }

  lemma OtherInPlace(v: Placement, was: Placement, limits: map<BrokerId, int>, t: int, q: string, k: string, from: BrokerId, to: BrokerId)
    requires q in was.partitions && ListInPlace(v, was, q, t) && q != k && Move(v.load, limits, t, from, to) && Movable(v, k, from, to)
    requires from != to && k in v.leaders
    ensures ListInPlace(Shifted(v, k, from, to), was, q, t)
  {
    hide Replaced, WithinLimit;
    var w := Shifted(v, k, from, to);
    assert w.partitions[q] == v.partitions[q] && w.leaders[q] == v.leaders[q];
    assert forall b :: Get(v.load, b) >= t ==> Get(w.load, b) >= t;
  }

  lemma MovedInPlace(v: Placement, was: Placement, ids: set<BrokerId>, limits: map<BrokerId, int>, t: int, k: string, from: BrokerId, to: BrokerId)
    requires k in was.partitions && ListInPlace(v, was, k, t) && Move(v.load, limits, t, from, to) && Movable(v, k, from, to)
    requires from != to && SoundList(v, k, ids) && SoundList(was, k, ids)
    ensures ListInPlace(Shifted(v, k, from, to), was, k, t)
  {
    hide WithinLimit, IndexOf, Distinct;
    var w := Shifted(v, k, from, to);
    var list, old_, j := v.partitions[k], was.partitions[k], IndexOf(v.partitions[k], from);
    ReplacedList(list, from, to);
    assert w.partitions[k] == list[j := to];
    assert forall b :: Get(v.load, b) >= t ==> Get(w.load, b) >= t && b != to;
    assert Get(v.load, to) < t && Get(w.load, from) >= t;
    forall i | 0 <= i < |old_| ensures w.partitions[k][i] == old_[i] || (old_[i] !in w.partitions[k] && Get(w.load, old_[i]) >= t) {
      if i == j && old_[i] == from { assert from !in w.partitions[k]; }
    }
    var lead := was.leaders[k];
    if lead in w.partitions[k] {
      var i :| 0 <= i < |old_| && old_[i] == lead;
      assert lead in list && lead != from;
    }
  }

  lemma DisplacedStep(v: Placement, was: Placement, ids: set<BrokerId>, k: string, from: BrokerId, to: BrokerId)
    requires SameShape(v, was) && Movable(v, k, from, to) && k in v.leaders && from in v.load && to in v.load && from != to
    ensures |Displaced(Shifted(v, k, from, to), was, ids)| <= |Displaced(v, was, ids)| + 1
  {
    var w := Shifted(v, k, from, to);
    forall x | x in Displaced(w, was, ids) ensures x in Displaced(v, was, ids) + {(k, from)} {
      if x.0 == k && x.1 != from { StillListed(v.partitions[k], from, to, x.1); }
    }
    SubsetCardinality(Displaced(w, was, ids), Displaced(v, was, ids) + {(k, from)});
  }

  lemma StillListed(s: seq<BrokerId>, from: BrokerId, to: BrokerId, b: BrokerId)
    requires from in s && b != from
    ensures b in s ==> b in Replaced(s, from, to)
  {
    hide IndexOf;
    if b in s {
      var j :| 0 <= j < |s| && s[j] == b;
      assert Replaced(s, from, to)[j] == b;
    }
  }

  lemma DivAtMost(p: nat, n: nat)
    requires n > 0
    ensures (p / n) * n <= p
  {
  }

  /** The target is low enough that there are replicas to bring every broker up to it. */
  lemma TargetReachable(v: Placement, bs: seq<Broker>)
    requires DistinctIds(bs) && bs != [] && Sound(v, Ids(bs))
    ensures Filled(v.load, |v.partitions| / |bs|)
    ensures (|v.partitions| / |bs|) * |v.load| <= |v.partitions|
  {
    hide Sum, Total;
    IdsCardinality(bs);
    assert |v.load.Keys| == |v.load|;
    DivAtMost(|v.partitions|, |bs|);
    forall b ensures b in v.load ==> v.load[b] == Total(v.partitions)[b] {
      assert Get(v.load, b) == Total(v.partitions)[b];
    }
    forall b | b in Total(v.partitions) ensures b in v.load {
      assert Get(v.load, b) == Total(v.partitions)[b];
    }
    SumIsSize(v.load, Total(v.partitions));
    forall k | k in v.partitions ensures v.partitions[k] != [] { assert SoundList(v, k, Ids(bs)); }
    TotalSize(v.partitions);
  }

  lemma StartBalancing(v: Placement, bs: seq<Broker>, limits: map<BrokerId, int>)
    requires DistinctIds(bs) && bs != [] && Sound(v, Ids(bs))
    ensures Balancing(v, v, Ids(bs), limits, |v.partitions| / |bs|, 0)
  {
    hide Sound, Capped, Deficit, Excess, Liftable;
    TargetReachable(v, bs);
    ExcessZero(v.load, |v.partitions| / |bs|);
    assert Displaced(v, v, Ids(bs)) == {};
    InPlaceAtFirst(v, Ids(bs), |v.partitions| / |bs|);
  }

  lemma BalancingStays(v: Placement, was: Placement, ids: set<BrokerId>, limits: map<BrokerId, int>, t: int, moves: nat)
    requires Balancing(v, was, ids, limits, t, moves)
    ensures StayPut(v, was)
  {
    hide InPlace, StayPut, Sound, SameShape, Reached, Displaced, Capped;
    InPlaceStayPut(v, was, t);
  }

  /** No more replicas are moved than there is room below the target, and that is at most one per partition. */
  lemma MovesBounded(v: Placement, was: Placement, bs: seq<Broker>, limits: map<BrokerId, int>, moves: nat)
    requires DistinctIds(bs) && bs != [] && Sound(was, Ids(bs))
    requires Balancing(v, was, Ids(bs), limits, |was.partitions| / |bs|, moves)
    ensures |Displaced(v, was, Ids(bs))| <= Deficit(was.load, limits, |was.partitions| / |bs|) <= |was.partitions|
  {
    hide InPlace, Sound, Deficit, Excess, Filled, Liftable, Capped, SameShape, DistinctIds, Displaced;
    var t := |was.partitions| / |bs|;
    TargetReachable(was, bs);
    LoadsSound(was, Ids(bs));
    DeficitBound(was.load, limits, t);
    NoRoomLeft(v.load, limits, t);
  }

  lemma BalancingStep(v: Placement, was: Placement, ids: set<BrokerId>, limits: map<BrokerId, int>, t: int, moves: nat, k: string, from: BrokerId, to: BrokerId)
    requires Sound(was, ids) && Balancing(v, was, ids, limits, t, moves)
    requires Move(v.load, limits, t, from, to) && Movable(v, k, from, to)
    ensures from != to && from in ids && to in ids
    ensures k in v.leaders && Balancing(Shifted(v, k, from, to), was, ids, limits, t, moves + 1)
    ensures Sum(Shifted(v, k, from, to).load, Square) < Sum(v.load, Square)
  {
    hide SoundList, ExactLoad, Reached, Sum, Replaced, Capped, Displaced, InPlace;
    ShiftedSound(v, k, from, to, ids);
    ShiftedSize(v, k, from, to);
    if Capped(was, limits) { ShiftedCapped(v, k, from, to, ids, limits); }
    ReachedStep(was.load, v.load, limits, t, moves, from, to);
    DisplacedStep(v, was, ids, k, from, to);
    InPlaceStep(v, was, ids, limits, t, k, from, to);
    MoveLowersSquares(v.load, from, to);
  }

  lemma ShiftedSize(v: Placement, k: string, from: BrokerId, to: BrokerId)
    requires Movable(v, k, from, to) && k in v.leaders && from in v.load && to in v.load && from != to
    ensures SameShape(Shifted(v, k, from, to), v)
  {
    hide IndexOf;
  }

  /** When nothing below the target can receive, no room is left. */
  lemma NoReceiver(v: Placement, was: Placement, ids: set<BrokerId>, limits: map<BrokerId, int>, t: int, moves: nat)
    requires Balancing(v, was, ids, limits, t, moves)
    requires (forall b :: b in v.load ==> v.load[b] <= t)
          || (forall b :: b in v.load && WithinLimit(limits, b, v.load[b]) ==> v.load[b] >= t)
          || Balanced(v.load, 1)
    ensures Deficit(v.load, limits, t) == 0
  {
    hide Sound, Deficit, Excess;
    NoRoomLeft(v.load, limits, t);
    if Balanced(v.load, 1) {
      BalancedMeansNoRoom(v.load, limits, t);
    } else {
      forall b | b in v.load ensures Room(limits, t, b, v.load[b]) == 0 {
        if v.load[b] < t && forall c :: c in v.load ==> v.load[c] <= t {
          var high := LowMeansHigh(v.load, t, b);
          assert false;
        }
      }
    }
  }

  /** The iteration cap is never what stops the loop short. */
  lemma CapIsEnough(v: Placement, was: Placement, bs: seq<Broker>, limits: map<BrokerId, int>, moves: nat)
    requires DistinctIds(bs) && bs != [] && Sound(was, Ids(bs))
    requires Balancing(v, was, Ids(bs), limits, |was.partitions| / |bs|, moves)
    requires moves >= |was.partitions| * 2
    ensures Deficit(v.load, limits, |was.partitions| / |bs|) == 0
  {
    hide Sound, Deficit, Excess, Filled, Liftable, Capped, SameShape, DistinctIds;
    var t := |was.partitions| / |bs|;
    TargetReachable(was, bs);
    LoadsSound(was, Ids(bs));
    DeficitBound(was.load, limits, t);
    NoRoomLeft(v.load, limits, t);
  }

  lemma Outcome(v: Placement, was: Placement, ids: set<BrokerId>, limits: map<BrokerId, int>, t: int, moves: nat)
    requires Balancing(v, was, ids, limits, t, moves) && !Balanced(was.load, 1)
    requires Deficit(v.load, limits, t) == 0
    ensures Balanced(v.load, 1) <==> CanBalance(was.load, limits, t)
  {
    hide Sound, Reached, Deficit, CanBalance;
    WhereItEnds(was.load, v.load, limits, t, moves);
  }

  /**
   * Moves replicas from overloaded to underloaded brokers. It ends balanced exactly when it started
   * so, or when the replicas above t + 1 fit into the room below t and no limit lies under t. The sum of
   * squared loads bounds the loop without its iteration cap.
   */
  method BalanceLoad(a: Assignment, bs: seq<Broker>, limits: map<BrokerId, int>)
    requires DistinctIds(bs) && bs != [] && Sound(a.View(), Ids(bs))
    modifies a
    ensures Sound(a.View(), Ids(bs)) && SameShape(a.View(), old(a.View()))
    ensures Capped(old(a.View()), limits) ==> Capped(a.View(), limits)
    ensures "" !in old(a.partitions) ==>
      (Balanced(a.brokerLoad, 1) <==>
       Balanced(old(a.brokerLoad), 1) || CanBalance(old(a.brokerLoad), limits, |old(a.partitions)| / |bs|))
    ensures Balanced(old(a.brokerLoad), 1) ==> a.View() == old(a.View())
    ensures StayPut(a.View(), old(a.View()))
    ensures |Displaced(a.View(), old(a.View()), Ids(bs))| <= Deficit(old(a.brokerLoad), limits, |old(a.partitions)| / |bs|) <= |old(a.partitions)|
  {
    hide Sound, SameShape, Capped, Balanced, Balancing, Deficit, CanBalance, Sum, Shifted, Movable, DistinctIds, Move, Displaced, InPlace, StayPut;
    ghost var was := a.View();
    LoadsSound(was, Ids(bs));
    StartBalancing(was, bs, limits);
    var balanced := a.IsBalanced(1);
    if balanced {
      MovesBounded(was, was, bs, limits, 0);
      BalancingStays(was, was, Ids(bs), limits, |was.partitions| / |bs|, 0);
      SameShapeReflexive(was);
      BalancedEmpty(a.brokerLoad, 1);
      return;
    }
    var totalPartitions := |a.partitions|;
    var targetLoad := totalPartitions / |bs|;
    var maxIterations, iteration := totalPartitions * 2, 0;
    while !balanced && iteration < maxIterations
      invariant 0 <= iteration
      invariant Balancing(a.View(), was, Ids(bs), limits, targetLoad, iteration)
      invariant balanced <==> a.brokerLoad == map[] || Balanced(a.brokerLoad, 1)
      decreases Sum(a.brokerLoad, Square)
    {
      BalancingSound(a.View(), was, Ids(bs), limits, targetLoad, iteration);
      var over, under := FindImbalanced(a.brokerLoad, targetLoad, limits);
      if over.None? || under.None? {
        NoReceiver(a.View(), was, Ids(bs), limits, targetLoad, iteration);
        break;
      }
      IsMove(a.brokerLoad, limits, targetLoad, over.value, under.value);
      ghost var v := a.View();
      ghost var k := SomethingMovable(v, Ids(bs), over.value, under.value);
      var moved, key := MovePartition(a, over.value, under.value, limits);
      if !moved {
        assert k == "";
        NoNamelessKey(v, was, Ids(bs), limits, targetLoad, iteration, over.value, under.value);
        break;
      }
      BalancingStep(v, was, Ids(bs), limits, targetLoad, iteration, key, over.value, under.value);
      SquaresPositive(v.load);
      iteration := iteration + 1;
      BalancingSound(a.View(), was, Ids(bs), limits, targetLoad, iteration);
      balanced := a.IsBalanced(1);
    }
    BalancedEmpty(a.brokerLoad, 1);
    if "" !in was.partitions {
      if balanced { NoReceiver(a.View(), was, Ids(bs), limits, targetLoad, iteration); }
      if iteration >= maxIterations { CapIsEnough(a.View(), was, bs, limits, iteration); }
      Outcome(a.View(), was, Ids(bs), limits, targetLoad, iteration);
    }
    BalancingSound(a.View(), was, Ids(bs), limits, targetLoad, iteration);
    MovesBounded(a.View(), was, bs, limits, iteration);
    BalancingStays(a.View(), was, Ids(bs), limits, targetLoad, iteration);
  }

  lemma LoadsSound(v: Placement, ids: set<BrokerId>)
    requires Sound(v, ids)
    ensures forall b :: b in v.load ==> v.load[b] >= 0
  {
    LoadsNonNegative(v);
  }

  lemma SameShapeReflexive(v: Placement)
    ensures SameShape(v, v)
  {
  }

  lemma BalancedEmpty(load: map<BrokerId, int>, d: int)
    ensures load == map[] ==> Balanced(load, d)
  {
  }

  lemma BalancingSound(v: Placement, was: Placement, ids: set<BrokerId>, limits: map<BrokerId, int>, t: int, moves: nat)
    requires Balancing(v, was, ids, limits, t, moves)
    ensures Sound(v, ids) && SameShape(v, was) && (Capped(was, limits) ==> Capped(v, limits))
    ensures v.load.Keys == ids && v.leaders.Keys == v.partitions.Keys
    ensures forall b :: b in v.load ==> v.load[b] >= 0
  {
    hide SoundList, SameShape, Capped, Reached;
    LoadsSound(v, ids);
  }

  lemma IsMove(load: map<BrokerId, int>, limits: map<BrokerId, int>, t: int, from: BrokerId, to: BrokerId)
    requires from in load && load[from] > t && forall b :: b in load ==> load[b] <= load[from]
    requires to in load && load[to] < t && WithinLimit(limits, to, load[to])
    ensures Move(load, limits, t, from, to)
  {
  }

  lemma NoNamelessKey(v: Placement, was: Placement, ids: set<BrokerId>, limits: map<BrokerId, int>, t: int, moves: nat, from: BrokerId, to: BrokerId)
    requires Balancing(v, was, ids, limits, t, moves) && Movable(v, "", from, to)
    ensures "" in was.partitions
  {
    hide Sound, Capped, Reached;
  }

  lemma SquaresPositive(load: map<BrokerId, int>)
    ensures Sum(load, Square) >= 0
  {
    SumPositive(load, Square);
  }
}

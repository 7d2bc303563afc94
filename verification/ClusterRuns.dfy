/** Runs of the cluster coordinator: assignments interleaved with two-step rebalances. */
module ClusterRuns {
  import opened Common
  import opened PartitionKeys
  import opened Placements
  import opened Batches
  import opened Rebuilding
  import opened Sticky
  import opened StickyStrategy

  datatype Strategy = UseRoundRobin | UseRange | UseSticky

  datatype Snapshot = Snapshot(taken: Placement, limit: int)

  /** current and limit are read and written under the lock; pending is what a rebalance in progress works on. */
  datatype State = State(current: Option<Placement>, limit: int, pending: Option<Snapshot>)

  const START := State(None, 0, None)

  datatype Event =
    | Assigned(ps: seq<PartitionInfo>, brokers: seq<Broker>, c: Constraints, added: Placement)
    | Began
    | Installed(brokers: seq<Broker>, v: Placement)
    | Failed

  ghost function LoadOf(current: Option<Placement>): map<BrokerId, int> {
    if current.Some? then current.value.load else map[]
  }

  /** What the coordinator tells the strategy is already placed. */
  ghost function Cumulative(current: Option<Placement>, caller: map<BrokerId, int>): map<BrokerId, int> {
    map b | b in LoadOf(current).Keys + caller.Keys :: Get(LoadOf(current), b) + Get(caller, b)
  }

  ghost function Merged(current: Option<Placement>, added: Placement): Placement {
    var base := if current.Some? then current.value else EMPTY;
    Placement(base.partitions + added.partitions, base.leaders + added.leaders,
              Recount(base.partitions + added.partitions), base.version + 1)
  }

  ghost predicate AssignResult(added: Placement, ps: seq<PartitionInfo>, brokers: seq<Broker>, c: Constraints) {
    var bs := Available(brokers, c);
    Places(added, ps, bs, CapacityLimits(bs, c.maxPerBroker), c.existingLoad)
  }

  function RebalanceConstraints(limit: int): Constraints { Constraints(true, limit, map[], {}) }

  ghost predicate RebalanceResult(strategy: Strategy, v: Placement, taken: Placement, brokers: seq<Broker>, limit: int) {
    if strategy.UseSticky? then Rebalanced(v, taken, Ids(brokers), CapacityLimits(brokers, limit))
    else if Balanced(taken.load, 1) then v == taken
    else
      var bs := Available(brokers, RebalanceConstraints(limit));
      Rebuilt(v, taken, bs, CapacityLimits(bs, limit), map[])
  }

  /** One atomic step under the lock. */
  ghost predicate Step(strategy: Strategy, s: State, e: Event, s': State) {
    match e
    case Assigned(ps, brokers, c, added) =>
      && DistinctIds(brokers)
      && AssignResult(added, ps, brokers, c.(existingLoad := Cumulative(s.current, c.existingLoad)))
      && s' == s.(current := Some(Merged(s.current, added)), limit := c.maxPerBroker)
    case Began =>
      s.pending.None? && s.current.Some? && s' == s.(pending := Some(Snapshot(s.current.value, s.limit)))
    case Installed(brokers, v) =>
      && DistinctIds(brokers) && s.pending.Some?
      && RebalanceResult(strategy, v, s.pending.value.taken, brokers, s.pending.value.limit)
      && s' == s.(current := Some(v), pending := None)
    case Failed => s' == s.(pending := None)
  }

  /** A run from the empty coordinator: states[i] to states[i + 1] by events[i]. */
  ghost predicate IsRun(strategy: Strategy, states: seq<State>, events: seq<Event>) {
    && |states| == |events| + 1 && states[0] == START
    && forall i :: 0 <= i < |events| ==> Step(strategy, states[i], events[i], states[i + 1])
  }

  // ---------------------------------------------------------------------
  // Limits hold in every reachable state
  // ---------------------------------------------------------------------

  /** The limits of the cluster, fixed for a run. */
  datatype Limits = Limits(maxPerBroker: int, capacity: map<BrokerId, int>) {
    function Of(b: BrokerId): int { TighterLimit(maxPerBroker, Get(capacity, b)) }
  }

  ghost predicate KnownBrokers(limits: Limits, brokers: seq<Broker>) {
    forall b :: b in brokers ==> b.capacity == Get(limits.capacity, b.id)
  }

  /** An event that respects the fixed limits and does not claim negative load. */
  ghost predicate Fixed(limits: Limits, e: Event) {
    match e
    case Assigned(ps, brokers, c, added) =>
      && KnownBrokers(limits, brokers) && c.maxPerBroker == limits.maxPerBroker
      && forall b :: Get(c.existingLoad, b) >= 0
    case Began => true
    case Installed(brokers, v) => KnownBrokers(limits, brokers)
    case Failed => true
  }

  ghost predicate Within(limits: Limits, v: Placement) {
    WellFormed(v) && forall b :: Allows(limits.Of(b), Total(v.partitions)[b])
  }

  ghost predicate AllWithin(limits: Limits, s: State) {
    && (s.current.Some? ==> Within(limits, s.current.value) && s.limit == limits.maxPerBroker)
    && (s.pending.Some? ==> s.current.Some? && Within(limits, s.pending.value.taken) && s.pending.value.limit == limits.maxPerBroker)
  }

  lemma {:induction false} TotalUnion(p: map<string, seq<BrokerId>>, q: map<string, seq<BrokerId>>)
    requires p.Keys !! q.Keys
    ensures Total(p + q) == Total(p) + Total(q)
    decreases |q|
  {
    hide Total;
    NoTotal();
    if q == map[] {
      assert p + q == p;
    } else {
      var k :| k in q;
      assert |q - {k}| == |q| - 1;
      TotalUnion(p, q - {k});
      TotalRemove(q, k);
      UnionRemove(p, q, k);
    }
  }

  lemma UnionRemove(p: map<string, seq<BrokerId>>, q: map<string, seq<BrokerId>>, k: string)
    requires p.Keys !! q.Keys && k in q
    ensures Total(p + q) == multiset(q[k]) + Total(p + (q - {k}))
  {
    hide Total;
    TotalRemove(p + q, k);
    assert p + q - {k} == p + (q - {k});
  }

  lemma NoTotal()
    ensures Total(map[]) == multiset{}
  {
  }

  /** Merging can replace lists but never counts a replica twice. */
  lemma MergeTotal(p: map<string, seq<BrokerId>>, q: map<string, seq<BrokerId>>)
    ensures Total(p + q) <= Total(p) + Total(q)
  {
    hide Total;
    var kept := p - q.Keys;
    assert p + q == kept + q;
    TotalUnion(kept, q);
    TotalShrinks(p, kept);
  }

  lemma LimitKnown(limits: Limits, bs: seq<Broker>, b: BrokerId)
    requires DistinctIds(bs) && KnownBrokers(limits, bs) && b in Ids(bs)
    ensures Get(CapacityLimits(bs, limits.maxPerBroker), b) == limits.Of(b)
  {
    var i :| 0 <= i < |bs| && bs[i].id == b;
    LimitOf(bs, limits.maxPerBroker, bs[i]);
  }

  lemma AvailableKnown(limits: Limits, brokers: seq<Broker>, c: Constraints)
    requires DistinctIds(brokers) && KnownBrokers(limits, brokers)
    ensures DistinctIds(Available(brokers, c)) && KnownBrokers(limits, Available(brokers, c))
  {
    hide Available;
    AvailableDistinct(brokers, c);
    var bs := Available(brokers, c);
    forall b | b in bs ensures b in brokers {
      assert b in Elems(bs);
      assert b in Elems(FilterExcluded(brokers, c.excluded));
    }
  }

  /** Only the brokers a batch was offered receive anything. */
  lemma PlacedWhereOffered(parts: map<string, seq<BrokerId>>, ids: set<BrokerId>, b: BrokerId)
    requires forall k :: k in parts ==> Elems(parts[k]) <= ids
    requires Total(parts)[b] > 0
    ensures b in ids
  {
    var k := TotalMember(parts, b);
    assert b in Elems(parts[k]);
  }

  lemma PlacesOnOffered(v: Placement, ps: seq<PartitionInfo>, bs: seq<Broker>, limits: map<BrokerId, int>, existing: map<BrokerId, int>)
    requires Places(v, ps, bs, limits, existing)
    ensures forall k :: k in v.partitions ==> Elems(v.partitions[k]) <= Ids(bs)
    ensures WithinLimits(Total(v.partitions), limits, existing) && WellFormed(v)
  {
    hide Total, PartitionKey;
    forall k | k in v.partitions ensures Elems(v.partitions[k]) <= Ids(bs) {
      var p :| p in ps && p.Key() == k;
      assert ListFor(v, p, bs);
    }
    PlacesWellFormed(v, ps, bs, limits, existing);
  }

  lemma MergedWithin(limits: Limits, current: Option<Placement>, added: Placement, ps: seq<PartitionInfo>, bs: seq<Broker>, caller: map<BrokerId, int>)
    requires current.Some? ==> Within(limits, current.value)
    requires DistinctIds(bs) && KnownBrokers(limits, bs) && forall b :: Get(caller, b) >= 0
    requires Places(added, ps, bs, CapacityLimits(bs, limits.maxPerBroker), Cumulative(current, caller))
    ensures Within(limits, Merged(current, added))
  {
    hide Total, Places, DistinctIds, KnownBrokers, Distinct, CapacityLimits, Limits.Of;
    var existing := Cumulative(current, caller);
    PlacesOnOffered(added, ps, bs, CapacityLimits(bs, limits.maxPerBroker), existing);
    var base := if current.Some? then current.value else EMPTY;
    var v := Merged(current, added);
    MergeTotal(base.partitions, added.partitions);
    forall b ensures Allows(limits.Of(b), Total(v.partitions)[b]) {
      CumulativeAtLeast(current, caller, b);
      BaseTotal(limits, current, b);
      if Total(added.partitions)[b] > 0 {
        PlacedWhereOffered(added.partitions, Ids(bs), b);
        LimitKnown(limits, bs, b);
      }
    }
    MergedWellFormed(current, added);
  }

  lemma CumulativeAtLeast(current: Option<Placement>, caller: map<BrokerId, int>, b: BrokerId)
    requires Get(caller, b) >= 0
    ensures Get(Cumulative(current, caller), b) >= Get(LoadOf(current), b)
  {
  }

  lemma BaseTotal(limits: Limits, current: Option<Placement>, b: BrokerId)
    requires current.Some? ==> Within(limits, current.value)
    ensures var base := if current.Some? then current.value else EMPTY;
            Get(LoadOf(current), b) == Total(base.partitions)[b] && Allows(limits.Of(b), Total(base.partitions)[b])
  {
  }

  lemma MergedWellFormed(current: Option<Placement>, added: Placement)
    requires WellFormed(added) && (current.Some? ==> WellFormed(current.value))
    ensures WellFormed(Merged(current, added))
  {
    hide Total, Distinct;
    EmptyWellFormed();
    var base := if current.Some? then current.value else EMPTY;
    var v := Merged(current, added);
    forall k | k in v.partitions ensures Distinct(v.partitions[k]) && k in v.leaders && v.leaders[k] in v.partitions[k] {
      if k in added.partitions {
        assert v.partitions[k] == added.partitions[k] && v.leaders[k] == added.leaders[k];
      } else {
        assert v.partitions[k] == base.partitions[k] && v.leaders[k] == base.leaders[k];
      }
    }
    assert forall b :: Get(v.load, b) == Total(v.partitions)[b];
  }

  lemma EmptyWellFormed()
    ensures WellFormed(EMPTY)
  {
  }

  lemma RebuiltWithin(limits: Limits, v: Placement, taken: Placement, bs: seq<Broker>)
    requires DistinctIds(bs) && KnownBrokers(limits, bs)
    requires Rebuilt(v, taken, bs, CapacityLimits(bs, limits.maxPerBroker), map[])
    ensures Within(limits, v)
  {
    hide Total, DistinctIds, KnownBrokers, WellFormed, Reparsed, Limits.Of;
    forall b ensures Allows(limits.Of(b), Total(v.partitions)[b]) {
      if Total(v.partitions)[b] > 0 {
        PlacedWhereOffered(v.partitions, Ids(bs), b);
        LimitKnown(limits, bs, b);
        assert Get(map[], b) == 0;
      }
    }
  }

  lemma RebalancedWithin(limits: Limits, v: Placement, taken: Placement, bs: seq<Broker>)
    requires DistinctIds(bs) && KnownBrokers(limits, bs) && Within(limits, taken)
    requires Rebalanced(v, taken, Ids(bs), CapacityLimits(bs, limits.maxPerBroker))
    ensures Within(limits, v)
  {
    hide Total, DistinctIds, KnownBrokers, WellFormed, Limits.Of;
    var caps := CapacityLimits(bs, limits.maxPerBroker);
    forall b ensures Allows(Get(caps, b), Total(taken.partitions)[b]) {
      if b in Ids(bs) { LimitKnown(limits, bs, b); }
    }
    assert Capped(taken, caps);
    forall b ensures Allows(limits.Of(b), Total(v.partitions)[b]) {
      assert Allows(Get(caps, b), Total(v.partitions)[b]);
      if Total(v.partitions)[b] > 0 {
        PlacedWhereOffered(v.partitions, Ids(bs), b);
        LimitKnown(limits, bs, b);
      }
    }
  }

  lemma StepWithin(strategy: Strategy, limits: Limits, s: State, e: Event, s': State)
    requires AllWithin(limits, s) && Step(strategy, s, e, s') && Fixed(limits, e)
    ensures AllWithin(limits, s')
  {
    hide Within, DistinctIds, KnownBrokers, Places, Rebuilt, Rebalanced, Balanced, Available, Cumulative, Merged, CapacityLimits;
    match e
    case Assigned(ps, brokers, c, added) =>
      AvailableKnown(limits, brokers, c.(existingLoad := Cumulative(s.current, c.existingLoad)));
      MergedWithin(limits, s.current, added, ps, Available(brokers, c.(existingLoad := Cumulative(s.current, c.existingLoad))), c.existingLoad);
    case Began =>
    case Installed(brokers, v) =>
      var p := s.pending.value;
      if strategy.UseSticky? {
        RebalancedWithin(limits, v, p.taken, brokers);
      } else if !Balanced(p.taken.load, 1) {
        AvailableKnown(limits, brokers, RebalanceConstraints(p.limit));
        RebuiltWithin(limits, v, p.taken, Available(brokers, RebalanceConstraints(p.limit)));
      }
    case Failed =>
  }

  /** In every state of every run each broker holds at most the tighter of the two limits. */
  lemma {:induction false} RunWithin(strategy: Strategy, limits: Limits, states: seq<State>, events: seq<Event>, i: nat)
    requires IsRun(strategy, states, events) && i < |states|
    requires forall j :: 0 <= j < |events| ==> Fixed(limits, events[j])
    ensures AllWithin(limits, states[i])
  {
    hide AllWithin, Step, Fixed;
    if i == 0 {
      StartWithin(limits);
    } else {
      RunWithin(strategy, limits, states, events, i - 1);
      assert Step(strategy, states[i - 1], events[i - 1], states[i - 1 + 1]);
      StepWithin(strategy, limits, states[i - 1], events[i - 1], states[i]);
    }
  }

  lemma StartWithin(limits: Limits)
    ensures AllWithin(limits, START)
  {
  }

  // ---------------------------------------------------------------------
  // Partitions are not lost
  // ---------------------------------------------------------------------

  ghost function KeysOf(s: State): set<string> {
    if s.current.Some? then s.current.value.partitions.Keys else {}
  }

  ghost predicate AllCanonical(keys: set<string>) { forall k :: k in keys ==> Canonical(k) }

  /** Round-robin and range need topics whose keys they can parse back. */
  ghost predicate Nameable(strategy: Strategy, e: Event) {
    !strategy.UseSticky? && e.Assigned? ==> forall p :: p in e.ps ==> ':' !in p.topic && IsInt64(p.partition)
  }

  ghost predicate CanonicalState(strategy: Strategy, s: State) {
    strategy.UseSticky?
    || (AllCanonical(KeysOf(s)) && (s.pending.Some? ==> AllCanonical(s.pending.value.taken.partitions.Keys)))
  }

  lemma InstallKeys(strategy: Strategy, s: State, e: Event, s': State)
    requires e.Installed? && Step(strategy, s, e, s') && CanonicalState(strategy, s)
    ensures KeysOf(s') == s.pending.value.taken.partitions.Keys
  {
    hide Balanced, Available, CapacityLimits, DistinctIds, WellFormed, Canonical, Capped, WithinLimits;
    if !strategy.UseSticky? {
      var p := s.pending.value;
      if !Balanced(p.taken.load, 1) {
        var bs := Available(e.brokers, RebalanceConstraints(p.limit));
        KeysKeptIffCanonical(e.v, p.taken, bs, CapacityLimits(bs, p.limit), map[]);
      }
    }
  }

  /** An install loses no partition exactly when everything current was in the snapshot. */
  lemma InstallKeepsIff(strategy: Strategy, s: State, e: Event, s': State)
    requires e.Installed? && Step(strategy, s, e, s') && CanonicalState(strategy, s)
    ensures KeysOf(s) <= KeysOf(s') <==> KeysOf(s) <= s.pending.value.taken.partitions.Keys
  {
    hide Step, CanonicalState;
    InstallKeys(strategy, s, e, s');
  }

  lemma AssignKeys(strategy: Strategy, s: State, e: Event, s': State)
    requires e.Assigned? && Step(strategy, s, e, s')
    ensures KeysOf(s') == KeysOf(s) + Keys(e.ps)
  {
    hide Available, CapacityLimits, DistinctIds, ListFor, ExactLoad, WithinLimits, DistinctKeys, Recount;
  }

  /** A partition first assigned between a snapshot and its install is gone after the install. */
  lemma AssignedInBetweenIsLost(strategy: Strategy, s: State, s1: State, a: Event, s2: State, e: Event, s3: State, key: string)
    requires Step(strategy, s, Began, s1) && a.Assigned? && Step(strategy, s1, a, s2) && e.Installed? && Step(strategy, s2, e, s3)
    requires CanonicalState(strategy, s2) && key in Keys(a.ps) && key !in KeysOf(s)
    ensures key in KeysOf(s2) && key !in KeysOf(s3)
  {
    AssignKeys(strategy, s1, a, s2);
    InstallKeys(strategy, s2, e, s3);
    hide CanonicalState, AssignResult, RebalanceResult;
  }

  /** No assignment falls between a snapshot and its install. */
  ghost predicate Quiet(s: State, e: Event) { e.Assigned? ==> s.pending.None? }

  ghost predicate SnapshotCurrent(s: State) {
    s.pending.Some? ==> KeysOf(s) == s.pending.value.taken.partitions.Keys
  }

  lemma StepKeysGrow(strategy: Strategy, s: State, e: Event, s': State)
    requires Step(strategy, s, e, s') && Quiet(s, e) && Nameable(strategy, e)
    requires CanonicalState(strategy, s) && SnapshotCurrent(s)
    ensures KeysOf(s) <= KeysOf(s') && CanonicalState(strategy, s') && SnapshotCurrent(s')
  {
    hide AssignResult, RebalanceResult, Canonical, Merged, DistinctIds;
    match e
    case Assigned(ps, _, _, _) =>
      AssignKeys(strategy, s, e, s');
      if !strategy.UseSticky? {
        forall k | k in Keys(ps) ensures Canonical(k) {
          var p :| p in ps && p.Key() == k;
          CanonicalIffColonFree(p.topic, p.partition);
        }
      }
    case Began =>
    case Installed(_, _) =>
      InstallKeys(strategy, s, e, s');
    case Failed =>
  }

  /** Over every quiet run the set of assigned partitions only grows. */
  lemma {:induction false} RunKeysGrow(strategy: Strategy, states: seq<State>, events: seq<Event>, i: nat, j: nat)
    requires IsRun(strategy, states, events) && i <= j < |states|
    requires forall k :: 0 <= k < |events| ==> Quiet(states[k], events[k]) && Nameable(strategy, events[k])
    ensures KeysOf(states[i]) <= KeysOf(states[j])
    ensures CanonicalState(strategy, states[j]) && SnapshotCurrent(states[j])
    decreases j
  {
    hide Step, Quiet, Nameable, CanonicalState, SnapshotCurrent, KeysOf;
    if j == 0 {
      StartCanonical(strategy);
    } else {
      RunKeysGrow(strategy, states, events, if i < j then i else j - 1, j - 1);
      assert Step(strategy, states[j - 1], events[j - 1], states[j - 1 + 1]);
      StepKeysGrow(strategy, states[j - 1], events[j - 1], states[j]);
    }
  }

  lemma StartCanonical(strategy: Strategy)
    ensures CanonicalState(strategy, START) && SnapshotCurrent(START)
  {
  }

  // ---------------------------------------------------------------------
  // The record holds what was assigned last
  // ---------------------------------------------------------------------

  datatype Entry = Entry(replicas: seq<BrokerId>, leader: Option<BrokerId>)

  function EntryOf(v: Option<Placement>, k: string): Option<Entry> {
    if v.None? || k !in v.value.partitions then None
    else Some(Entry(v.value.partitions[k], if k in v.value.leaders then Some(v.value.leaders[k]) else None))
  }

  /** What was just assigned is on record, everything else is as it was, the counters are exact and the version is one up. */
  ghost predicate Records(s: State, added: Placement, s': State) {
    && s'.current.Some? && s'.pending == s.pending
    && s'.current.value.version == 1 + (if s.current.Some? then s.current.value.version else 0)
    && (forall k :: EntryOf(s'.current, k) == if k in added.partitions then EntryOf(Some(added), k) else EntryOf(s.current, k))
    && ExactLoad(s'.current.value)
  }

  lemma MergedRecords(s: State, added: Placement, limit: int)
    requires added.leaders.Keys == added.partitions.Keys
    ensures Records(s, added, s.(current := Some(Merged(s.current, added)), limit := limit))
  {
    hide Total;
    var v := Merged(s.current, added);
    assert forall b :: Get(v.load, b) == Total(v.partitions)[b];
  }

  lemma AssignRecords(strategy: Strategy, s: State, e: Event, s': State)
    requires e.Assigned? && Step(strategy, s, e, s')
    ensures Records(s, e.added, s')
  {
    hide Records, Merged, Available, CapacityLimits, Cumulative, WithinLimits, ListFor, DistinctKeys, ExactLoad;
    MergedRecords(s, e.added, e.c.maxPerBroker);
  }

  /** What the first i events left as a partition's list and leader: the last assignment of it, or the last install. */
  ghost function Written(events: seq<Event>, i: nat, k: string): Option<Entry>
    requires i <= |events|
  {
    if i == 0 then None
    else match events[i - 1]
      case Assigned(_, _, _, added) => if k in added.partitions then EntryOf(Some(added), k) else Written(events, i - 1, k)
      case Installed(_, v) => EntryOf(Some(v), k)
      case _ => Written(events, i - 1, k)
  }

  /** In every state of every run the record of a partition is what was assigned or installed last. */
  lemma {:induction false} RunRecords(strategy: Strategy, states: seq<State>, events: seq<Event>, i: nat, k: string)
    requires IsRun(strategy, states, events) && i < |states|
    ensures EntryOf(states[i].current, k) == Written(events, i, k)
  {
    hide EntryOf, AssignResult, RebalanceResult, Merged, DistinctIds;
    if i == 0 {
      NothingOnRecord(k);
    } else {
      RunRecords(strategy, states, events, i - 1, k);
      assert Step(strategy, states[i - 1], events[i - 1], states[i - 1 + 1]);
      if events[i - 1].Assigned? { AssignRecords(strategy, states[i - 1], events[i - 1], states[i]); }
    }
  }

  lemma NothingOnRecord(k: string)
    ensures EntryOf(START.current, k) == None
  {
  }

  // ---------------------------------------------------------------------
  // The first replica leads
  // ---------------------------------------------------------------------

  ghost predicate FirstState(s: State) {
    && (s.current.Some? ==> AllFirst(s.current.value))
    && (s.pending.Some? ==> AllFirst(s.pending.value.taken))
  }

  lemma RecordsFirst(s: State, added: Placement, s': State)
    requires Records(s, added, s') && FirstState(s) && AllFirst(added)
    ensures FirstState(s')
  {
    var v := s'.current.value;
    forall k | k in v.partitions ensures FirstLeads(v, k) {
      if k in added.partitions {
        assert FirstLeads(added, k) && EntryOf(s'.current, k) == EntryOf(Some(added), k);
      } else {
        assert EntryOf(s'.current, k) == EntryOf(s.current, k);
        assert FirstLeads(s.current.value, k);
      }
    }
  }

  lemma StepFirst(strategy: Strategy, s: State, e: Event, s': State)
    requires Step(strategy, s, e, s') && FirstState(s)
    ensures FirstState(s')
  {
    hide Records, Merged, Available, CapacityLimits, Cumulative, WithinLimits, ListFor, DistinctKeys, ExactLoad, WellFormed, Balanced, FirstLeads;
    match e
    case Assigned(ps, brokers, c, added) =>
      AssignRecords(strategy, s, e, s');
      var d := c.(existingLoad := Cumulative(s.current, c.existingLoad));
      var bs := Available(brokers, d);
      PlacesAllFirst(added, ps, bs, CapacityLimits(bs, d.maxPerBroker), d.existingLoad);
      RecordsFirst(s, added, s');
    case Began =>
    case Installed(brokers, v) =>
      if strategy.UseSticky? {
        forall k | k in v.partitions ensures FirstLeads(v, k) {
          assert LedAsBefore(v, s.pending.value.taken, Ids(brokers), k);
        }
      }
    case Failed =>
  }

  /** In every state of every run, whatever the strategy, every partition is led by the first replica of its list. */
  lemma {:induction false} RunFirst(strategy: Strategy, states: seq<State>, events: seq<Event>, i: nat)
    requires IsRun(strategy, states, events) && i < |states|
    ensures FirstState(states[i])
  {
    hide FirstState, Step;
    if i == 0 {
      StartFirst();
    } else {
      RunFirst(strategy, states, events, i - 1);
      assert Step(strategy, states[i - 1], events[i - 1], states[i - 1 + 1]);
      StepFirst(strategy, states[i - 1], events[i - 1], states[i]);
    }
  }

  lemma StartFirst()
    ensures FirstState(START)
  {
  }

  // ---------------------------------------------------------------------
  // Two runs that go wrong, on a cluster of one broker
  // ---------------------------------------------------------------------

  const ONLY := Broker(1, "", 0)

  /** One partition of the given topic on the only broker. */
  ghost function Single(topic: string): Placement {
    var key := PartitionKey(topic, 0);
    Placement(map[key := [1]], map[key := 1], map[1 := 1], 0)
  }

  lemma OnlyAvailable(c: Constraints)
    requires c.excluded == {}
    ensures Available([ONLY], c) == [ONLY] && Ids([ONLY]) == {1} && DistinctIds([ONLY])
    ensures CapacityLimits([ONLY], c.maxPerBroker) == map[1 := TighterLimit(c.maxPerBroker, 0)]
  {
    assert [ONLY][1..] == [] && [ONLY][..0] == [];
    assert FilterExcluded([ONLY], {}) == [ONLY];
    assert CapacityLimits([ONLY], c.maxPerBroker) == CapacityLimits([], c.maxPerBroker)[1 := TighterLimit(c.maxPerBroker, 0)];
  }

  lemma SingleTotal(topic: string)
    ensures Total(Single(topic).partitions) == multiset{1}
  {
    var key := PartitionKey(topic, 0);
    NoTotal();
    var none: map<string, seq<BrokerId>> := map[];
    TotalInsert(none, key, [1]);
    assert none[key := [1]] == Single(topic).partitions;
  }

  lemma SinglePlaces(topic: string, c: Constraints)
    requires c.excluded == {} && Allows(TighterLimit(c.maxPerBroker, 0), Get(c.existingLoad, 1) + 1)
    ensures AssignResult(Single(topic), [PartitionInfo(topic, 0, 1)], [ONLY], c)
  {
    hide PartitionKey, Total, Available, CapacityLimits;
    var p := PartitionInfo(topic, 0, 1);
    OnlyAvailable(c);
    SingleTotal(topic);
    assert Keys([p]) == {p.Key()} by { assert p in [p]; }
  }

  /** The state after assigning one topic after another. */
  lemma SingleStep(strategy: Strategy, s: State, topic: string, c: Constraints) returns (e: Event, s': State)
    requires c.excluded == {} && Allows(TighterLimit(c.maxPerBroker, 0), Get(Cumulative(s.current, c.existingLoad), 1) + 1)
    ensures e == Assigned([PartitionInfo(topic, 0, 1)], [ONLY], c, Single(topic)) && Step(strategy, s, e, s')
    ensures s' == s.(current := Some(Merged(s.current, Single(topic))), limit := c.maxPerBroker)
  {
    hide Merged, Cumulative, AssignResult, Available;
    OnlyAvailable(c);
    SinglePlaces(topic, c.(existingLoad := Cumulative(s.current, c.existingLoad)));
    e := Assigned([PartitionInfo(topic, 0, 1)], [ONLY], c, Single(topic));
    s' := s.(current := Some(Merged(s.current, Single(topic))), limit := c.maxPerBroker);
  }

  /** A run that loses a partition: topic b is assigned while a rebalance of topic a is being computed. */
  lemma LosesAPartition() returns (states: seq<State>, events: seq<Event>)
    ensures |states| == 5 && IsRun(UseRoundRobin, states, events)
    ensures PartitionKey("b", 0) in KeysOf(states[3]) && PartitionKey("b", 0) !in KeysOf(states[4])
  {
    hide AssignResult, PartitionKey, Total, Available, CapacityLimits, Merged;
    var c := Constraints(false, 0, map[], {});
    var e1, s1 := SingleStep(UseRoundRobin, START, "a", c);
    var s2 := s1.(pending := Some(Snapshot(s1.current.value, s1.limit)));
    var e3, s3 := SingleStep(UseRoundRobin, s2, "b", c);
    MergedSingles();
    var e4 := Installed([ONLY], s1.current.value);
    OnlyAvailable(c);
    var s4 := s3.(current := Some(s1.current.value), pending := None);
    states, events := [START, s1, s2, s3, s4], [e1, Began, e3, e4];
  }

  lemma MergedSingles()
    ensures var a := Merged(None, Single("a"));
            && a.partitions.Keys == {PartitionKey("a", 0)} && Balanced(a.load, 1) && PartitionKey("a", 0) != PartitionKey("b", 0)
            && Merged(Some(a), Single("b")).partitions.Keys == {PartitionKey("a", 0), PartitionKey("b", 0)}
            && Get(a.load, 1) == 1 && Total(Merged(Some(a), Single("b")).partitions)[1] == 2
  {
    hide PartitionKey, Total;
    SingleTotal("a");
    SingleTotal("b");
    var a := Merged(None, Single("a"));
    assert a.partitions == Single("a").partitions;
    if PartitionKey("a", 0) == PartitionKey("b", 0) { KeyInjective("a", 0, "b", 0); }
    TotalUnion(a.partitions, Single("b").partitions);
  }

  /** A run over the limit of one: a caller that reports a negative load is believed. */
  lemma NegativeLoadExceeds() returns (states: seq<State>, events: seq<Event>)
    ensures |states| == 3 && |events| == 2 && events[1].Assigned? && IsRun(UseRoundRobin, states, events)
    ensures Fixed(Limits(1, map[]), events[0]) && events[1].c.existingLoad == map[1 := -1]
    ensures !AllWithin(Limits(1, map[]), states[2])
  {
    hide AssignResult, PartitionKey, Total, Available, CapacityLimits, Merged;
    var c, d := Constraints(false, 1, map[], {}), Constraints(false, 1, map[1 := -1], {});
    var e1, s1 := SingleStep(UseRoundRobin, START, "a", c);
    MergedSingles();
    var e2, s2 := SingleStep(UseRoundRobin, s1, "b", d);
    states, events := [START, s1, s2], [e1, e2];
  }
}

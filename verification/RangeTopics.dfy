/** How the range strategy cuts a topic into ranges and runs through the topics. */
module RangeTopics {
  import opened Common
  import opened Placements
  import opened RangeStrategy

  // ---------------------------------------------------------------------
  // Ranges
  // ---------------------------------------------------------------------

  /** First partition of broker k's range when total partitions meet n brokers. */
  function RangeStart(total: nat, n: nat, k: nat): nat
    requires n > 0
  {
    k * (total / n) + Min(k, total % n)
  }

  /** Ranges are consecutive, differ in size by at most one and use up every partition. */
  lemma RangesCover(total: nat, n: nat, k: nat)
    requires n > 0
    ensures RangeStart(total, n, 0) == 0 && RangeStart(total, n, n) == total
    ensures RangeStart(total, n, k + 1) == RangeStart(total, n, k) + total / n + if k < total % n then 1 else 0
  {
    assert n * (total / n) + total % n == total;
    Distribute(k, total / n);
  }

  lemma Distribute(k: nat, q: nat)
    ensures (k + 1) * q == k * q + q
  {
  }

  lemma {:induction false} RangesGrow(total: nat, n: nat, j: nat, k: nat)
    requires n > 0 && j <= k
    ensures RangeStart(total, n, j) <= RangeStart(total, n, k)
    decreases k - j
  {
    hide RangeStart;
    if j < k {
      RangesGrow(total, n, j, k - 1);
      RangesCover(total, n, k - 1);
    }
  }

  /** The broker whose range holds partition j, looked for from broker k on. */
  ghost function OwnerFrom(total: nat, n: nat, j: nat, k: nat): nat
    requires k < n
    decreases n - k
  {
    if k + 1 == n || j < RangeStart(total, n, k + 1) then k else OwnerFrom(total, n, j, k + 1)
  }

  ghost function Owner(total: nat, n: nat, j: nat): nat
    requires n > 0
  {
    OwnerFrom(total, n, j, 0)
  }

  lemma {:induction false} OwnerInRange(total: nat, n: nat, j: nat, from: nat, k: nat)
    requires from <= k < n && RangeStart(total, n, k) <= j < RangeStart(total, n, k + 1)
    ensures OwnerFrom(total, n, j, from) == k
    decreases k - from
  {
    hide RangeStart;
    if from < k {
      RangesGrow(total, n, from + 1, k);
      OwnerInRange(total, n, j, from + 1, k);
    }
  }

  lemma {:induction false} OwnerBound(total: nat, n: nat, j: nat, k: nat)
    requires k < n
    ensures OwnerFrom(total, n, j, k) < n
    decreases n - k
  {
    if !(k + 1 == n || j < RangeStart(total, n, k + 1)) { OwnerBound(total, n, j, k + 1); }
  }

  // ---------------------------------------------------------------------
  // The run over one topic
  // ---------------------------------------------------------------------

  /** Assignment and tracked counts between two partitions. */
  datatype Run = Run(view: Placement, counts: map<BrokerId, int>)

  /** The part of a problem that stays fixed. */
  datatype Setup = Setup(bs: seq<Broker>, rackAware: bool, limits: map<BrokerId, int>) {

    ghost function Step(s: Run, p: PartitionInfo, owner: nat): Result<Run, PlacementError>
      requires bs != []
    {
      match Selected(p, bs, owner, rackAware, limits, s.counts)
      case Err(e) => Err(e)
      case Ok(list) => Ok(Run(Added(s.view, p.Key(), list), Tally(s.counts, list)))
    }

    /** After the first j partitions of a topic. */
    ghost function OverTopic(list: seq<PartitionInfo>, j: nat, s: Run): Result<Run, PlacementError>
      requires bs != [] && j <= |list|
    {
      if j == 0 then Ok(s)
      else match OverTopic(list, j - 1, s)
        case Err(e) => Err(e)
        case Ok(t) => Step(t, list[j - 1], Owner(|list|, |bs|, j - 1))
    }

    lemma {:induction false} ErrorSticks(list: seq<PartitionInfo>, j: nat, s: Run)
      requires bs != [] && j <= |list| && OverTopic(list, j, s).Err?
      ensures OverTopic(list, |list|, s) == OverTopic(list, j, s)
      decreases |list| - j
    {
      hide Step, Owner;
      if j < |list| { ErrorSticks(list, j + 1, s); }
    }

    lemma NextPartition(list: seq<PartitionInfo>, j: nat, s: Run, t: Run, k: nat)
      requires bs != [] && j < |list| && OverTopic(list, j, s) == Ok(t) && k < |bs|
      requires RangeStart(|list|, |bs|, k) <= j < RangeStart(|list|, |bs|, k + 1)
      ensures OverTopic(list, j + 1, s) == Step(t, list[j], k)
      ensures OverTopic(list, j + 1, s).Err? ==> OverTopic(list, |list|, s) == OverTopic(list, j + 1, s)
    {
      hide Step, RangeStart;
      OwnerInRange(|list|, |bs|, j, 0, k);
      if OverTopic(list, j + 1, s).Err? { ErrorSticks(list, j + 1, s); }
    }
  }

  /** Nested loops over brokers and the partitions of their ranges. */
  method AssignTopic(list: seq<PartitionInfo>, bs: seq<Broker>, a: Assignment, c: Constraints, load: LoadTracker)
    returns (e: Option<PlacementError>)
    requires DistinctIds(bs) && bs != []
    modifies a, load`counts
    ensures match Setup(bs, c.rackAware, load.limits).OverTopic(list, |list|, Run(old(a.View()), old(load.counts)))
            case Ok(s) => e == None && a.View() == s.view && load.counts == s.counts
            case Err(x) => e == Some(x)
  {
    hide DistinctIds, RangeStart, Selected, Added, Tally, Setup.OverTopic;
    ghost var setup := Setup(bs, c.rackAware, load.limits);
    ghost var start := Run(a.View(), load.counts);
    NothingRun(setup, list, start);
    var total, n := |list|, |bs|;
    var perBroker, extra := total / n, total % n;
    var index, k := 0, 0;
    RangesCover(total, n, 0);
    while k < n && index < total
      invariant 0 <= k <= n && index == RangeStart(total, n, k) <= total
      invariant load.limits == setup.limits
      invariant setup.OverTopic(list, index, start) == Ok(Run(a.View(), load.counts))
      decreases n - k
    {
      RangesCover(total, n, k);
      RangesGrow(total, n, k + 1, n);
      var size := perBroker + if k < extra then 1 else 0;
      var i := 0;
      while i < size && index < total
        invariant 0 <= i <= size && index == RangeStart(total, n, k) + i <= total
        invariant load.limits == setup.limits
        invariant setup.OverTopic(list, index, start) == Ok(Run(a.View(), load.counts))
        decreases size - i
      {
        var p := list[index];
        var choice := SelectReplicas(p, bs, k, c, load);
        setup.NextPartition(list, index, start, Run(a.View(), load.counts), k);
        if choice.Err? { return Some(choice.error); }
        load.AddAll(choice.value);
        a.AddReplica(p.topic, p.partition, choice.value);
        index := index + 1;
        i := i + 1;
      }
      k := k + 1;
    }
    RangesCover(total, n, 0);
    e := None;
  }

  lemma NothingRun(setup: Setup, list: seq<PartitionInfo>, s: Run)
    requires setup.bs != []
    ensures setup.OverTopic(list, 0, s) == Ok(s)
  {
  }
}

/** The rack-aware selection of round-robin, whose first loop need not terminate. */
module RackPass {
  import opened Common
  import opened Placements
  import opened Batches
  import opened Selection
  import opened Racks

  /** Loop variables of the first pass. */
  datatype Pass = Pass(rackIndex: nat, replicas: seq<BrokerId>, racks: set<string>)

  function FirstFree(list: seq<Broker>, taken: seq<BrokerId>, limits: map<BrokerId, int>, counts: map<BrokerId, int>): (r: Option<Broker>)
    ensures r.Some? ==> r.value in list && r.value.id !in taken && HasRoom(limits, counts, r.value.id)
    ensures r.None? ==> forall b :: b in list ==> b.id in taken || !HasRoom(limits, counts, b.id)
  {
    if list == [] then None
    else if list[0].id !in taken && HasRoom(limits, counts, list[0].id) then Some(list[0])
    else FirstFree(list[1..], taken, limits, counts)
  }

  /** One selection problem: the sorted rack names, and what may be picked. */
  datatype Job = Job(bs: seq<Broker>, racks: seq<string>, want: nat, limits: map<BrokerId, int>, counts: map<BrokerId, int>) {

    ghost predicate Valid() {
      && DistinctIds(bs) && 0 < want <= |bs|
      && Elems(racks) == RackNames(bs) && Distinct(racks) && racks != []
    }

    function Roomy(): set<string> { RoomyRacks(bs, limits, counts) }

    function RackAt(i: nat): string
      requires racks != []
    {
      racks[i % |racks|]
    }

    /** The guard of the first loop. */
    predicate Running(s: Pass) { |s.replicas| < want && |s.racks| < |racks| }

    /** Its body: one rack is looked at, and gives at most one replica. */
    function Advance(s: Pass): Pass
      requires racks != []
    {
      var rack := RackAt(s.rackIndex);
      if rack in s.racks then s.(rackIndex := s.rackIndex + 1)
      else match FirstFree(InRack(bs, rack), s.replicas, limits, counts)
        case None => s.(rackIndex := s.rackIndex + 1)
        case Some(b) => Pass(s.rackIndex + 1, s.replicas + [b.id], s.racks + {rack})
    }

    /** The loop variables after n rounds, or where it stopped if that came first. */
    ghost function After(s: Pass, n: nat): Pass
      requires racks != []
    {
      if n == 0 then s
      else
        var t := After(s, n - 1);
        if Running(t) then Advance(t) else t
    }

    /** The first broker with room of each of the n racks from start on that has one. */
    ghost function Heads(start: nat, n: nat): seq<BrokerId>
      requires racks != []
    {
      if n == 0 then []
      else
        var front, head := Heads(start, n - 1), FirstFree(InRack(bs, RackAt(start + n - 1)), [], limits, counts);
        if head.Some? then front + [head.value.id] else front
    }

    /** The brokers with room of the first j racks that are not chosen yet, rack by rack. */
    ghost function Rest(chosen: seq<BrokerId>, j: nat): seq<BrokerId>
      requires j <= |racks|
    {
      if j == 0 then [] else Rest(chosen, j - 1) + OpenIn(InRack(bs, racks[j - 1]), chosen)
    }

    ghost function OpenIn(list: seq<Broker>, chosen: seq<BrokerId>): seq<BrokerId> {
      if list == [] then []
      else
        var last := list[|list| - 1];
        OpenIn(list[..|list| - 1], chosen) + if last.id !in chosen && HasRoom(limits, counts, last.id) then [last.id] else []
    }

    /** One replica per rack in the turn that begins at start, then whatever is left. */
    ghost function Chosen(start: nat): seq<BrokerId>
      requires racks != []
    {
      var first := Taken(Heads(start, |racks|), want);
      first + Taken(Rest(first, |racks|), want - |first|)
    }

    ghost predicate Halts(s: Pass)
      requires racks != []
    {
      exists n: nat :: !Running(After(s, n))
    }

    /** Racks used so far and replicas so far correspond one to one. */
    ghost predicate Inv(s: Pass) {
      && Distinct(s.replicas) && |s.replicas| == |s.racks| && |s.replicas| <= want
      && s.racks == RacksOf(bs, s.replicas) && s.racks <= Roomy()
      && forall b :: b in s.replicas ==> b in Capable(bs, limits, counts)
    }

    lemma AdvanceKeeps(s: Pass)
      requires Valid() && Inv(s) && Running(s)
      ensures Inv(Advance(s)) && s.racks <= Advance(s).racks && Advance(s).rackIndex == s.rackIndex + 1
      ensures RackAt(s.rackIndex) in Roomy() ==> RackAt(s.rackIndex) in Advance(s).racks
    {
      hide Distinct, RacksOf, RoomyRacks, InRack, Capable, RackNames;
      var rack := RackAt(s.rackIndex);
      if rack !in s.racks {
        var free := FirstFree(InRack(bs, rack), s.replicas, limits, counts);
        if free.Some? {
          Picked(rack, s, free.value);
        } else {
          NothingFree(rack, s);
        }
      }
    }

    lemma Picked(rack: string, s: Pass, b: Broker)
      requires Valid() && Inv(s) && Running(s) && rack !in s.racks
      requires b in bs && RackName(b) == rack && b.id !in s.replicas && HasRoom(limits, counts, b.id)
      ensures Inv(Pass(s.rackIndex + 1, s.replicas + [b.id], s.racks + {rack}))
    {
      hide RacksOf, RoomyRacks, Capable, RackNames, HasRoom;
      RacksOfAppend(bs, s.replicas, b);
      RoomyMember(bs, b, limits, counts);
    }

    lemma NothingFree(rack: string, s: Pass)
      requires s.racks == RacksOf(bs, s.replicas) && rack !in s.racks
      requires FirstFree(InRack(bs, rack), s.replicas, limits, counts) == None
      ensures rack !in Roomy()
    {
      forall i | 0 <= i < |bs| && RackName(bs[i]) == rack ensures !HasRoom(limits, counts, bs[i].id) {
        assert bs[i] in InRack(bs, rack);
        assert bs[i].id !in s.replicas;
      }
    }

    /** Every roomy rack among the first n looked at from start is in use. */
    ghost predicate Seen(start: nat, n: nat, used: set<string>)
      requires racks != []
    {
      forall i :: start <= i < start + n && RackAt(i) in Roomy() ==> RackAt(i) in used
    }

    lemma SeenStep(start: nat, n: nat, used: set<string>, used': set<string>)
      requires racks != [] && Seen(start, n, used) && used <= used'
      requires RackAt(start + n) in Roomy() ==> RackAt(start + n) in used'
      ensures Seen(start, n + 1, used')
    {
    }

    /** While the loop is still running, every roomy rack it has looked at is in use. */
    lemma {:induction false} AfterKeeps(start: nat, n: nat)
      requires Valid()
      ensures var t := After(Pass(start, [], {}), n);
              Inv(t) && (Running(t) ==> t.rackIndex == start + n && Seen(start, n, t.racks))
    {
      hide Inv, Running, Seen, Advance, RoomyRacks;
      if n == 0 {
        AtStart(start);
      } else {
        AfterKeeps(start, n - 1);
        var t := After(Pass(start, [], {}), n - 1);
        if Running(t) {
          AfterStep(start, n - 1, t);
        }
      }
    }

    lemma AtStart(start: nat)
      requires Valid()
      ensures Inv(Pass(start, [], {})) && Seen(start, 0, {})
    {
      assert RacksOf(bs, []) == {};
    }

    lemma AfterStep(start: nat, n: nat, t: Pass)
      requires Valid() && Inv(t) && Running(t) && t.rackIndex == start + n && Seen(start, n, t.racks)
      ensures var u := Advance(t); Inv(u) && u.rackIndex == start + n + 1 && Seen(start, n + 1, u.racks)
    {
      hide Inv, Seen, Advance, RoomyRacks, RackNames, DistinctIds, Distinct;
      AdvanceKeeps(t);
      SeenStep(start, n, t.racks, Advance(t).racks);
    }

    // -------------------------------------------------------------------
    // Which brokers they are
    // -------------------------------------------------------------------

    /** The n racks from start on are different ones, while n is at most the number of racks. */
    lemma RacksApart(i: nat, j: nat)
      requires Distinct(racks) && racks != [] && i < j < i + |racks|
      ensures RackAt(i) != RackAt(j)
    {
      CyclicApart(i, j, |racks|);
    }

    /** The racks in use are among those looked at. */
    ghost predicate LookedAt(start: nat, n: nat, used: set<string>)
      requires racks != []
    {
      forall r :: r in used ==> exists i :: start <= i < start + n && RackAt(i) == r
    }

    lemma NewRack(start: nat, n: nat, used: set<string>)
      requires Distinct(racks) && racks != [] && n < |racks| && LookedAt(start, n, used)
      ensures RackAt(start + n) !in used
    {
      if RackAt(start + n) in used {
        var i :| start <= i < start + n && RackAt(i) == RackAt(start + n);
        RacksApart(i, start + n);
      }
    }

    /** While it runs, the loop has taken the head of every roomy rack it looked at, in order. */
    lemma {:induction false} AfterIsHeads(start: nat, n: nat)
      requires Valid() && n <= |racks| && (n > 0 ==> Running(After(Pass(start, [], {}), n - 1)))
      ensures var t := After(Pass(start, [], {}), n);
              t.rackIndex == start + n && t.replicas == Heads(start, n) && LookedAt(start, n, t.racks)
    {
      hide Inv, Seen, RoomyRacks, Distinct, DistinctIds, RackNames, LookedAt, Advance;
      if n == 0 {
        NothingLookedAt(start);
      } else {
        AfterIsHeads(start, n - 1);
        AfterKeeps(start, n - 1);
        var t := After(Pass(start, [], {}), n - 1);
        InvRacks(t);
        HeadTaken(start, n - 1, t);
      }
    }

    lemma InvRacks(t: Pass)
      requires Inv(t)
      ensures t.racks == RacksOf(bs, t.replicas)
    {
    }

    lemma NothingLookedAt(start: nat)
      requires racks != []
      ensures LookedAt(start, 0, {})
    {
    }

    lemma HeadTaken(start: nat, n: nat, t: Pass)
      requires Distinct(racks) && n < |racks| && t.racks == RacksOf(bs, t.replicas)
      requires t.rackIndex == start + n && t.replicas == Heads(start, n) && LookedAt(start, n, t.racks)
      ensures var u := Advance(t);
              u.rackIndex == start + n + 1 && u.replicas == Heads(start, n + 1) && LookedAt(start, n + 1, u.racks)
    {
      hide Distinct, InRack, FirstFree, HasRoom, RackAt, RacksOf, LookedAt, RackName;
      var rack := RackAt(start + n);
      NewRack(start, n, t.racks);
      NoneTaken(InRack(bs, rack), rack, t);
      FreeAnyway(InRack(bs, rack), t.replicas);
      StillLookedAt(start, n, t.racks);
    }

    lemma StillLookedAt(start: nat, n: nat, used: set<string>)
      requires racks != [] && LookedAt(start, n, used)
      ensures LookedAt(start, n + 1, used) && LookedAt(start, n + 1, used + {RackAt(start + n)})
    {
      hide RackAt;
    }

    lemma NoneTaken(list: seq<Broker>, rack: string, t: Pass)
      requires t.racks == RacksOf(bs, t.replicas) && rack !in t.racks && forall b :: b in list ==> b in bs && RackName(b) == rack
      ensures forall b :: b in list ==> b.id !in t.replicas
    {
      forall b | b in list ensures b.id !in t.replicas {
        var i :| 0 <= i < |bs| && bs[i] == b;
      }
    }

    lemma {:induction false} FreeAnyway(list: seq<Broker>, taken: seq<BrokerId>)
      requires forall b :: b in list ==> b.id !in taken
      ensures FirstFree(list, taken, limits, counts) == FirstFree(list, [], limits, counts)
    {
      if list != [] { FreeAnyway(list[1..], taken); }
    }

    lemma {:induction false} HeadsGrow(start: nat, n: nat, m: nat)
      requires racks != [] && n <= m
      ensures Heads(start, n) <= Heads(start, m)
    {
      if n < m { HeadsGrow(start, n, m - 1); }
    }

    lemma {:induction false} HeadsBound(start: nat, n: nat)
      requires racks != []
      ensures |Heads(start, n)| <= n
    {
      if n > 0 { HeadsBound(start, n - 1); }
    }

    lemma {:induction false} HeadsTurn(start: nat, n: nat)
      requires racks != []
      ensures Heads(start % |racks|, n) == Heads(start, n)
    {
      if n > 0 {
        HeadsTurn(start, n - 1);
        ModWrap(start, n - 1, |racks|);
        hide FirstFree, InRack;
      }
    }

    lemma {:induction false} OpenInElsewhere(list: seq<Broker>, chosen: seq<BrokerId>, id: BrokerId)
      requires forall b :: b in list ==> b.id != id
      ensures id !in OpenIn(list, chosen)
    {
      if list != [] { OpenInElsewhere(list[..|list| - 1], chosen, id); }
    }

    /** Only the brokers of the list itself matter to what is open in it. */
    lemma {:induction false} OpenInSame(list: seq<Broker>, a: seq<BrokerId>, b: seq<BrokerId>)
      requires forall x :: x in list ==> (x.id in a <==> x.id in b)
      ensures OpenIn(list, a) == OpenIn(list, b)
    {
      hide HasRoom;
      if list != [] {
        assert list[|list| - 1] in list;
        OpenInSame(list[..|list| - 1], a, b);
      }
    }

    lemma {:induction false} RestElsewhere(chosen: seq<BrokerId>, j: nat, x: Broker)
      requires DistinctIds(bs) && j <= |racks| && x in bs && forall i :: 0 <= i < j ==> racks[i] != RackName(x)
      ensures x.id !in Rest(chosen, j)
    {
      hide OpenIn, RackName;
      if j > 0 {
        RestElsewhere(chosen, j - 1, x);
        var list := InRack(bs, racks[j - 1]);
        forall b | b in list ensures b.id != x.id {
          assert racks[j - 1] != RackName(x);
          SameBroker(bs, b, x);
        }
        OpenInElsewhere(list, chosen, x.id);
      }
    }

    /** What earlier racks gave does not matter to a later one. */
    lemma OpenLater(chosen: seq<BrokerId>, j: nat)
      requires Valid() && j < |racks|
      ensures OpenIn(InRack(bs, racks[j]), chosen + Rest(chosen, j)) == OpenIn(InRack(bs, racks[j]), chosen)
    {
      hide OpenIn, Rest, HasRoom, RackName, RackNames;
      var list, rest := InRack(bs, racks[j]), Rest(chosen, j);
      forall x | x in list ensures x.id in chosen + rest <==> x.id in chosen {
        RestElsewhere(chosen, j, x);
      }
      OpenInSame(list, chosen + rest, chosen);
    }

    /** With enough roomy racks one look at each rack is enough. */
    lemma RunningBound(start: nat, n: nat)
      requires Valid() && |Roomy()| >= Min(want, |racks|)
      requires Running(After(Pass(start, [], {}), n))
      ensures n < |racks|
    {
      var t := After(Pass(start, [], {}), n);
      AfterKeeps(start, n);
      if n >= |racks| {
        forall rack | rack in Roomy() ensures rack in t.racks {
          assert rack in Elems(racks);
          var i :| 0 <= i < |racks| && racks[i] == rack;
          var j := CyclicIndex(start, i, |racks|);
          assert RackAt(start + j) == rack;
        }
        SubsetCardinality(Roomy(), t.racks);
        assert false;
      }
    }

    /** The first pass terminates exactly when enough racks have room. */
    lemma HaltsIffEnoughRacks(start: nat)
      requires Valid()
      ensures Halts(Pass(start, [], {})) <==> |Roomy()| >= Min(want, |racks|)
    {
      var s := Pass(start, [], {});
      if |Roomy()| >= Min(want, |racks|) {
        if Running(After(s, |racks|)) { RunningBound(start, |racks|); }
        assert !Running(After(s, |racks|));
      } else {
        forall n: nat ensures Running(After(s, n)) {
          AfterKeeps(start, n);
          SubsetCardinality(After(s, n).racks, Roomy());
        }
      }
    }

    /** Where the first pass stops it has one replica in each of as many racks as it could want. */
    lemma StoppedPass(s: Pass)
      requires Valid() && Inv(s) && !Running(s)
      ensures |s.replicas| == |s.racks| == Min(want, |racks|)
    {
      RacksOfBounds(bs, s.replicas);
      DistinctCardinality(racks);
      SubsetCardinality(s.racks, RackNames(bs));
    }
  }

  /** Two racks of one broker each, the second broker full, and two replicas wanted: the loop over racks never ends. */
  lemma LoopsForever(start: nat)
    ensures var bs := [Broker(1, "a", 0), Broker(2, "b", 1)];
            var job := Job(bs, ["a", "b"], 2, map[1 := 0, 2 := 1], map[1 := 0, 2 := 1]);
            job.Valid() && !job.Halts(Pass(start, [], {}))
  {
    var bs := [Broker(1, "a", 0), Broker(2, "b", 1)];
    var job := Job(bs, ["a", "b"], 2, map[1 := 0, 2 := 1], map[1 := 0, 2 := 1]);
    assert RackName(bs[0]) == "a" && RackName(bs[1]) == "b";
    assert RackNames(bs) == {"a", "b"} == Elems(job.racks);
    assert HasRoom(job.limits, job.counts, bs[0].id) && !HasRoom(job.limits, job.counts, bs[1].id);
    assert job.Roomy() == {"a"};
    job.HaltsIffEnoughRacks(start);
  }

  /** One replica per rack, then whatever is left; Diverges when the first pass would loop forever. */
  method SelectRackAware(want: nat, bs: seq<Broker>, idx: nat, load: LoadTracker)
    returns (r: Result<seq<BrokerId>, PlacementError>, idx': nat)
    requires DistinctIds(bs) && 0 < want <= |bs|
    ensures idx' == idx + 1
    ensures r == Err(Diverges) <==>
            |RoomyRacks(bs, load.limits, load.counts)| < Min(want, |RackNames(bs)|)
    ensures r != Err(Diverges) ==> (r.Ok? <==> |Capable(bs, load.limits, load.counts)| >= want)
    ensures r.Ok? ==>
      && Choice(r.value, want, bs, load.limits, load.counts)
      && |RacksOf(bs, r.value)| == Min(want, |RackNames(bs)|)
      && r.value == Job(bs, RackList(bs), want, load.limits, load.counts).Chosen(idx)
    ensures r.Err? ==> r.error in {Diverges, NotEnoughBrokers}
  {
    hide Job.Heads, Job.Rest, Taken, RacksOf, Capable, RoomyRacks, Distinct, Sorted, Job.Inv, Job.Running, Choice, Elems, RackNames;
    idx' := idx + 1;
    var racks := SortedStrings(RackNames(bs));
    ListUnique(racks, RackList(bs), RackNames(bs));
    var job := Job(bs, racks, want, load.limits, load.counts);
    DistinctCardinality(racks);
    job.HaltsIffEnoughRacks(idx % |racks|);
    if |job.Roomy()| < Min(want, |racks|) {
      return Err(Diverges), idx';
    }
    var s := FirstPass(job, idx % |racks|);
    job.HeadsTurn(idx, |racks|);
    InvParts(job, s);
    var replicas := SecondPass(job, s.replicas);
    Covers(job, s, replicas);
    if |replicas| < want {
      return Err(NotEnoughBrokers), idx';
    }
    r := Ok(replicas);
  }

  lemma InvParts(job: Job, s: Pass)
    requires job.Inv(s)
    ensures Distinct(s.replicas) && |s.replicas| <= job.want && forall b :: b in s.replicas ==> b in Capable(job.bs, job.limits, job.counts)
  {
  }

  /** After both passes: as many racks as could be wanted, and short only when every broker with room is in use. */
  lemma Covers(job: Job, s: Pass, replicas: seq<BrokerId>)
    requires job.Valid() && job.Inv(s) && !job.Running(s)
    requires s.replicas <= replicas && Distinct(replicas) && |replicas| <= job.want
    requires forall b :: b in replicas ==> b in Capable(job.bs, job.limits, job.counts)
    requires |replicas| < job.want ==> Elems(replicas) == Capable(job.bs, job.limits, job.counts)
    ensures |replicas| == job.want <==> |Capable(job.bs, job.limits, job.counts)| >= job.want
    ensures |replicas| == job.want ==> Choice(replicas, job.want, job.bs, job.limits, job.counts)
    ensures |RacksOf(job.bs, replicas)| == Min(job.want, |RackNames(job.bs)|) || |replicas| < job.want
  {
    var bs := job.bs;
    job.StoppedPass(s);
    assert forall b :: b in Capable(bs, job.limits, job.counts) ==> b in Ids(bs) && HasRoom(job.limits, job.counts, b);
    hide RacksOf, Capable, RoomyRacks, Distinct, RackNames, DistinctIds, HasRoom, Ids;
    RacksOfBounds(bs, replicas);
    RacksGrow(bs, s.replicas, replicas);
    SubsetCardinality(RacksOf(bs, s.replicas), RacksOf(bs, replicas));
    SubsetCardinality(RacksOf(bs, replicas), RackNames(bs));
    DistinctCardinality(replicas);
    DistinctCardinality(job.racks);
    SubsetCardinality(Elems(replicas), Capable(bs, job.limits, job.counts));
  }

  method FirstPass(job: Job, start: nat) returns (s: Pass)
    requires job.Valid() && |job.Roomy()| >= Min(job.want, |job.racks|)
    ensures job.Inv(s) && !job.Running(s)
    ensures exists n: nat :: s == job.After(Pass(start, [], {}), n)
    ensures s.replicas == Taken(job.Heads(start, |job.racks|), job.want)
  {
    hide Job.Inv, Job.Advance, Job.Heads, Taken, RoomyRacks, Distinct, DistinctIds, RackNames, Elems;
    s := Pass(start, [], {});
    ghost var n: nat := 0;
    while |s.replicas| < job.want && |s.racks| < |job.racks|
      invariant s == job.After(Pass(start, [], {}), n)
      invariant n <= |job.racks| && (n > 0 ==> job.Running(job.After(Pass(start, [], {}), n - 1)))
      decreases |job.racks| - n
    {
      job.RunningBound(start, n);
      s := job.Advance(s);
      n := n + 1;
    }
    StoppedIsHeads(job, start, n);
  }

  lemma StoppedIsHeads(job: Job, start: nat, n: nat)
    requires job.Valid() && n <= |job.racks| && (n > 0 ==> job.Running(job.After(Pass(start, [], {}), n - 1)))
    requires !job.Running(job.After(Pass(start, [], {}), n))
    ensures var s := job.After(Pass(start, [], {}), n);
            job.Inv(s) && s.replicas == Taken(job.Heads(start, |job.racks|), job.want)
  {
    hide Job.Inv, Job.Advance, Job.Heads, Job.After, Taken, Job.Running, Distinct, DistinctIds, RackNames;
    var s := job.After(Pass(start, [], {}), n);
    job.AfterKeeps(start, n);
    job.AfterIsHeads(start, n);
    job.HeadsGrow(start, n, |job.racks|);
    job.HeadsBound(start, |job.racks|);
    job.StoppedPass(s);
    TakenPrefix(s.replicas, job.Heads(start, |job.racks|), job.want);
  }

  /** Fills up from any rack: stops short only when no broker with room is left. */
  method SecondPass(job: Job, chosen: seq<BrokerId>) returns (replicas: seq<BrokerId>)
    requires job.Valid() && Distinct(chosen) && |chosen| <= job.want
    requires forall b :: b in chosen ==> b in Capable(job.bs, job.limits, job.counts)
    ensures chosen <= replicas && Distinct(replicas) && |replicas| <= job.want
    ensures forall b :: b in replicas ==> b in Capable(job.bs, job.limits, job.counts)
    ensures |replicas| < job.want ==> Elems(replicas) == Capable(job.bs, job.limits, job.counts)
    ensures replicas == chosen + Taken(job.Rest(chosen, |job.racks|), job.want - |chosen|)
  {
    hide Job.Rest, Job.OpenIn, Taken, InRack;
    replicas := chosen;
    NothingLeft(job, chosen);
    for i := 0 to |job.racks|
      invariant replicas == chosen + Taken(job.Rest(chosen, i), job.want - |chosen|)
      invariant chosen <= replicas && Distinct(replicas) && |replicas| <= job.want
      invariant forall b :: b in replicas ==> b in Capable(job.bs, job.limits, job.counts)
      invariant |replicas| < job.want ==> forall j :: 0 <= j < i ==> Exhausted(job, InRack(job.bs, job.racks[j]), replicas)
    {
      ghost var before := replicas;
      InRackDistinct(job.bs, job.racks[i]);
      replicas := FillFrom(job, InRack(job.bs, job.racks[i]), replicas);
      FilledUp(job, chosen, i, before);
    }
    if |replicas| < job.want {
      forall b | b in Capable(job.bs, job.limits, job.counts) ensures b in Elems(replicas) {
        var k :| 0 <= k < |job.bs| && job.bs[k].id == b;
        assert RackName(job.bs[k]) in Elems(job.racks);
        var j :| 0 <= j < |job.racks| && job.racks[j] == RackName(job.bs[k]);
        assert Exhausted(job, InRack(job.bs, job.racks[j]), replicas);
        assert job.bs[k] in InRack(job.bs, job.racks[j]);
      }
      assert Elems(replicas) == Capable(job.bs, job.limits, job.counts);
    }
  }

  lemma NothingLeft(job: Job, chosen: seq<BrokerId>)
    requires |chosen| <= job.want
    ensures chosen + Taken(job.Rest(chosen, 0), job.want - |chosen|) == chosen
  {
  }

  /** One more rack. */
  lemma FilledUp(job: Job, chosen: seq<BrokerId>, i: nat, before: seq<BrokerId>)
    requires job.Valid() && i < |job.racks| && |chosen| <= job.want
    requires before == chosen + Taken(job.Rest(chosen, i), job.want - |chosen|)
    ensures |before| <= job.want
    ensures before + Taken(job.OpenIn(InRack(job.bs, job.racks[i]), before), job.want - |before|)
         == chosen + Taken(job.Rest(chosen, i + 1), job.want - |chosen|)
  {
    hide InRack, Job.OpenIn, Job.Valid, Taken, Job.Rest;
    var rest, list, n := job.Rest(chosen, i), InRack(job.bs, job.racks[i]), job.want - |chosen|;
    var more, open := job.OpenIn(list, chosen), job.OpenIn(list, before);
    job.OpenLater(chosen, i);
    RestNext(job, chosen, i);
    TakenTwice(rest, more, n);
    if |Taken(rest, n)| < n {
      TakenAll(rest, n);
    } else {
      TakenNone(open);
      TakenNone(more);
    }
    assert before + Taken(open, job.want - |before|) == chosen + (Taken(rest, n) + Taken(more, n - |Taken(rest, n)|));
  }

  lemma RestNext(job: Job, chosen: seq<BrokerId>, i: nat)
    requires i < |job.racks|
    ensures job.Rest(chosen, i + 1) == job.Rest(chosen, i) + job.OpenIn(InRack(job.bs, job.racks[i]), chosen)
  {
  }

  lemma TakenAll(s: seq<BrokerId>, n: nat)
    requires |Taken(s, n)| < n
    ensures Taken(s, n) == s
  {
  }

  lemma TakenNone(s: seq<BrokerId>)
    ensures Taken(s, 0) == []
  {
  }

  ghost predicate Exhausted(job: Job, list: seq<Broker>, replicas: seq<BrokerId>) {
    forall b :: b in list && HasRoom(job.limits, job.counts, b.id) ==> b.id in replicas
  }

  method FillFrom(job: Job, list: seq<Broker>, chosen: seq<BrokerId>) returns (replicas: seq<BrokerId>)
    requires Distinct(chosen) && |chosen| <= job.want
    requires forall b :: b in list ==> b in job.bs
    requires forall b :: b in chosen ==> b in Capable(job.bs, job.limits, job.counts)
    ensures chosen <= replicas && Distinct(replicas) && |replicas| <= job.want
    ensures forall b :: b in replicas ==> b in Capable(job.bs, job.limits, job.counts)
    ensures |replicas| < job.want ==> Exhausted(job, list, replicas)
    ensures DistinctIds(list) ==> replicas == chosen + Taken(job.OpenIn(list, chosen), job.want - |chosen|)
  {
    hide Job.OpenIn, Taken, DistinctIds, HasRoom;
    NothingOpen(job, chosen);
    assert list[..0] == [];
    replicas := chosen;
    var k := 0;
    while k < |list| && |replicas| < job.want
      invariant 0 <= k <= |list|
      invariant chosen <= replicas && Distinct(replicas) && |replicas| <= job.want
      invariant forall b :: b in replicas ==> b in Capable(job.bs, job.limits, job.counts)
      invariant Exhausted(job, list[..k], replicas)
      invariant DistinctIds(list) ==> replicas == chosen + job.OpenIn(list[..k], chosen)
    {
      var broker := list[k];
      OpenInNext(job, list, k, chosen);
      if DistinctIds(list) { NotYet(job, list, k, chosen); }
      if broker.id !in replicas && HasRoom(job.limits, job.counts, broker.id) {
        assert broker in job.bs;
        RoomyMember(job.bs, broker, job.limits, job.counts);
        replicas := replicas + [broker.id];
      }
      k := k + 1;
    }
    assert k == |list| ==> list[..k] == list;
    if DistinctIds(list) { FilledPrefix(job, list, k, chosen); }
  }

  lemma NothingOpen(job: Job, chosen: seq<BrokerId>)
    ensures job.OpenIn([], chosen) == []
  {
  }

  lemma OpenInNext(job: Job, list: seq<Broker>, k: nat, chosen: seq<BrokerId>)
    requires k < |list|
    ensures job.OpenIn(list[..k + 1], chosen) ==
            job.OpenIn(list[..k], chosen) + if list[k].id !in chosen && HasRoom(job.limits, job.counts, list[k].id) then [list[k].id] else []
  {
    assert list[..k + 1][..k] == list[..k];
  }

  lemma NotYet(job: Job, list: seq<Broker>, k: nat, chosen: seq<BrokerId>)
    requires DistinctIds(list) && k < |list|
    ensures list[k].id !in job.OpenIn(list[..k], chosen)
  {
    hide Job.OpenIn;
    forall b | b in list[..k] ensures b.id != list[k].id {
      var i :| 0 <= i < k && list[i] == b;
    }
    job.OpenInElsewhere(list[..k], chosen, list[k].id);
  }

  lemma {:induction false} OpenInGrows(job: Job, list: seq<Broker>, k: nat, chosen: seq<BrokerId>)
    requires k <= |list|
    ensures job.OpenIn(list[..k], chosen) <= job.OpenIn(list, chosen)
    decreases |list| - k
  {
    if k == |list| {
      assert list[..k] == list;
    } else {
      OpenInGrows(job, list, k + 1, chosen);
      assert list[..k + 1][..k] == list[..k];
    }
  }

  lemma FilledPrefix(job: Job, list: seq<Broker>, k: nat, chosen: seq<BrokerId>)
    requires k <= |list| && |chosen| + |job.OpenIn(list[..k], chosen)| <= job.want
    requires k == |list| || |chosen| + |job.OpenIn(list[..k], chosen)| == job.want
    ensures job.OpenIn(list[..k], chosen) == Taken(job.OpenIn(list, chosen), job.want - |chosen|)
  {
    hide Job.OpenIn;
    OpenInGrows(job, list, k, chosen);
    assert k == |list| ==> list[..k] == list;
    TakenPrefix(job.OpenIn(list[..k], chosen), job.OpenIn(list, chosen), job.want - |chosen|);
  }
}

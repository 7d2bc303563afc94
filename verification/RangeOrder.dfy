/** Which brokers the range strategy chooses, and in which order. */
module RangeOrder {
  import opened Common
  import opened Placements
  import opened Selection
  import opened Racks
  import opened Turns
  import opened RangeRacks
  import opened RangeStrategy

  /** The first broker with room, going round from a seat. */
  ghost predicate FirstFrom(id: BrokerId, bs: seq<Broker>, at: nat, limits: map<BrokerId, int>, counts: map<BrokerId, int>)
    requires bs != []
  {
    exists d: nat ::
      && d < |bs| && SeatFrom(bs, at, d) == id && HasRoom(limits, counts, id)
      && forall e: nat :: e < d ==> !HasRoom(limits, counts, SeatFrom(bs, at, e))
  }

  lemma {:induction false} WindowFirst(bs: seq<Broker>, at: nat, k: nat, limits: map<BrokerId, int>, counts: map<BrokerId, int>)
    requires bs != [] && k <= |bs|
    ensures var w := RoomIds(Window(bs, at, k), limits, counts);
            && (w == [] ==> forall e: nat :: e < k ==> !HasRoom(limits, counts, SeatFrom(bs, at, e)))
            && (w != [] ==> FirstFrom(w[0], bs, at, limits, counts))
  {
    hide Window, RoomIds, HasRoom;
    if k == 0 {
      NoSeats(bs, at, limits, counts);
    } else {
      WindowFirst(bs, at, k - 1, limits, counts);
      WindowAppend(bs, at, k - 1, limits, counts);
      assert SeatFrom(bs, at, k - 1) == bs[(at + (k - 1)) % |bs|].id;
    }
  }

  lemma NoSeats(bs: seq<Broker>, at: nat, limits: map<BrokerId, int>, counts: map<BrokerId, int>)
    requires bs != []
    ensures RoomIds(Window(bs, at, 0), limits, counts) == []
  {
  }

  lemma TurnFirst(bs: seq<Broker>, at: nat, limits: map<BrokerId, int>, counts: map<BrokerId, int>)
    requires bs != [] && Turn(bs, at, limits, counts) != []
    ensures FirstFrom(Turn(bs, at, limits, counts)[0], bs, at, limits, counts)
  {
    hide Window, RoomIds, FirstFrom;
    WindowFirst(bs, at, |bs|, limits, counts);
  }

  // ---------------------------------------------------------------------
  // The rack-aware passes in order
  // ---------------------------------------------------------------------

  lemma {:induction false} VisitedGrows(spread: Spread, s: Picked, j: nat)
    requires j <= |spread.bs|
    ensures s.replicas <= spread.Visited(s, j).replicas
  {
    if j > 0 { VisitedGrows(spread, s, j - 1); }
  }

  lemma {:induction false} FilledGrows(spread: Spread, s: Picked, j: nat)
    requires j <= |spread.bs|
    ensures s.replicas <= spread.Filled(s, j).replicas
  {
    if j > 0 { FilledGrows(spread, s, j - 1); }
  }

  /**
   * The replicas after the first, up to one per rack: each the lowest broker with room in its rack, in increasing order, and all of
   * them among the first j brokers.
   */
  ghost predicate Orderly(list: seq<BrokerId>, bs: seq<Broker>, m: nat, j: nat, limits: map<BrokerId, int>, counts: map<BrokerId, int>)
    requires m <= |list| && j <= |bs|
  {
    && (forall i :: 1 <= i < m ==> HeadOfRack(list[i], bs, j, limits, counts))
    && (forall i, k :: 1 <= i < k < m ==> list[i] < list[k])
  }

  ghost predicate HeadOfRack(id: BrokerId, bs: seq<Broker>, j: nat, limits: map<BrokerId, int>, counts: map<BrokerId, int>)
    requires j <= |bs|
  {
    exists x :: 0 <= x < j && bs[x].id == id && Lowest(id, bs, RackName(bs[x]), limits, counts)
  }

  /** A pass so far: the replicas that brought a new rack, in order. */
  ghost predicate Ranked(spread: Spread, s: Picked, j: nat)
    requires j <= |spread.bs|
  {
    |s.racks| <= |s.replicas| && Orderly(s.replicas, spread.bs, |s.racks|, j, spread.limits, spread.counts)
  }

  lemma VisitRanked(spread: Spread, s: Picked, j: nat)
    requires spread.Valid() && ById(spread.bs) && j < |spread.bs| && spread.Spreading(s, j) && Ranked(spread, s, j)
    ensures Ranked(spread, spread.Visit(s, spread.bs[j]), j + 1)
  {
    hide HasRoom, Lowest, RacksOf, RackNames, Spread.Legal, RackName;
    var bs, b := spread.bs, spread.bs[j];
    var t := spread.Visit(s, b);
    forall i | 1 <= i < |s.racks| ensures HeadOfRack(s.replicas[i], bs, j + 1, spread.limits, spread.counts) && s.replicas[i] < b.id {
      assert HeadOfRack(s.replicas[i], bs, j, spread.limits, spread.counts);
    }
    if t != s && RackName(b) !in s.racks {
      NewHead(spread, s, j);
      assert HeadOfRack(b.id, bs, j + 1, spread.limits, spread.counts);
      RacksLeft(spread, s, j);
    } else {
      assert t.racks == s.racks;
    }
  }

  lemma RacksLeft(spread: Spread, s: Picked, j: nat)
    requires spread.Valid() && j < |spread.bs| && spread.Spreading(s, j) && RackName(spread.bs[j]) !in s.racks
    ensures |s.racks| == |s.replicas|
  {
    hide RacksOf, Spread.Legal, RackName;
    RacksOfBounds(spread.bs, s.replicas);
    assert RackName(spread.bs[j]) in RackNames(spread.bs);
    ProperSubset(s.racks, RackNames(spread.bs), RackName(spread.bs[j]));
  }

  lemma ProperSubset(a: set<string>, b: set<string>, x: string)
    requires a <= b && x in b && x !in a
    ensures |a| < |b|
  {
    SubsetCardinality(a, b - {x});
  }

  lemma {:induction false} VisitedRanked(spread: Spread, owner: nat, j: nat)
    requires spread.Valid() && ById(spread.bs) && j <= |spread.bs|
    ensures Ranked(spread, spread.Visited(spread.Primary(owner), j), j)
  {
    hide Spread.Spreading, Spread.Primary, Spread.Visit, Ranked, ById;
    if j == 0 {
      PrimaryRanked(spread, owner);
    } else {
      VisitedRanked(spread, owner, j - 1);
      spread.VisitedSpreading(owner, j - 1);
      VisitRanked(spread, spread.Visited(spread.Primary(owner), j - 1), j - 1);
    }
  }

  lemma PrimaryRanked(spread: Spread, owner: nat)
    requires spread.Valid()
    ensures Ranked(spread, spread.Primary(owner), 0)
  {
    hide Turn, RacksOf;
    var s := spread.Primary(owner);
    spread.PrimarySpreading(owner);
    RacksOfBounds(spread.bs, s.replicas);
  }

  /** One of the first j brokers. */
  ghost predicate Met(bs: seq<Broker>, id: BrokerId, j: nat)
    requires j <= |bs|
  {
    exists x :: 0 <= x < j && bs[x].id == id
  }

  /** The second pass takes the lowest brokers still open, in increasing order. */
  ghost predicate Filling(spread: Spread, first: seq<BrokerId>, list: seq<BrokerId>, j: nat)
    requires j <= |spread.bs|
  {
    && first <= list
    && (forall i :: |first| <= i < |list| ==> Met(spread.bs, list[i], j))
    && (forall i, k :: |first| <= i < k < |list| ==> list[i] < list[k])
    && (forall x, i :: 0 <= x < j && |first| <= i < |list| && HasRoom(spread.limits, spread.counts, spread.bs[x].id) && spread.bs[x].id !in list ==>
          list[i] < spread.bs[x].id)
  }

  /** While there is still something to fill, no open broker was passed over. */
  ghost predicate NonePassed(spread: Spread, list: seq<BrokerId>, j: nat)
    requires j <= |spread.bs|
  {
    |list| < spread.want ==> forall x :: 0 <= x < j && HasRoom(spread.limits, spread.counts, spread.bs[x].id) ==> spread.bs[x].id in list
  }

  lemma {:induction false} FilledFilling(spread: Spread, s: Picked, j: nat)
    requires ById(spread.bs) && j <= |spread.bs|
    ensures Filling(spread, s.replicas, spread.Filled(s, j).replicas, j) && NonePassed(spread, spread.Filled(s, j).replicas, j)
  {
    hide Filling, NonePassed, ById, Spread.Fill;
    if j == 0 {
      NothingFilled(spread, s);
    } else {
      FilledFilling(spread, s, j - 1);
      FillStep(spread, s.replicas, spread.Filled(s, j - 1), j - 1);
    }
  }

  lemma NothingFilled(spread: Spread, s: Picked)
    ensures Filling(spread, s.replicas, s.replicas, 0) && NonePassed(spread, s.replicas, 0)
  {
  }

  lemma FillStep(spread: Spread, first: seq<BrokerId>, s: Picked, j: nat)
    requires ById(spread.bs) && j < |spread.bs| && Filling(spread, first, s.replicas, j) && NonePassed(spread, s.replicas, j)
    ensures var t := spread.Fill(s, spread.bs[j]);
            Filling(spread, first, t.replicas, j + 1) && NonePassed(spread, t.replicas, j + 1)
  {
    hide HasRoom;
    var b := spread.bs[j].id;
    forall i | |first| <= i < |s.replicas| ensures s.replicas[i] < b && Met(spread.bs, s.replicas[i], j + 1) {
      assert Met(spread.bs, s.replicas[i], j);
    }
    assert Met(spread.bs, b, j + 1);
  }

  /** The rack-aware choice: where it begins, which broker of each rack, and what fills it up. */
  lemma ChosenOrder(spread: Spread, owner: nat)
    requires spread.Valid() && ById(spread.bs) && spread.Chosen(owner) != []
    ensures var list := spread.Chosen(owner);
            var first := spread.Visited(spread.Primary(owner), |spread.bs|);
            && FirstFrom(list[0], spread.bs, owner, spread.limits, spread.counts)
            && |first.racks| <= |first.replicas| <= |list|
            && Orderly(list, spread.bs, |first.racks|, |spread.bs|, spread.limits, spread.counts)
            && Filling(spread, first.replicas, list, |spread.bs|)
  {
    hide Spread.Visited, Spread.Filled, Spread.Primary, FirstFrom, ById, HasRoom;
    var n := |spread.bs|;
    var first := spread.Visited(spread.Primary(owner), n);
    VisitedRanked(spread, owner, n);
    FilledFilling(spread, first, n);
    FirstStands(spread, owner);
    assert forall i :: 0 <= i < |first.replicas| ==> spread.Chosen(owner)[i] == first.replicas[i];
  }

  lemma FirstStands(spread: Spread, owner: nat)
    requires spread.Valid() && spread.Chosen(owner) != []
    ensures FirstFrom(spread.Chosen(owner)[0], spread.bs, owner, spread.limits, spread.counts)
  {
    hide Turn, FirstFrom, RacksOf, HasRoom;
    var n, primary := |spread.bs|, spread.Primary(owner);
    VisitedGrows(spread, primary, n);
    FilledGrows(spread, spread.Visited(primary, n), n);
    if primary.replicas == [] {
      NobodyChosen(spread, owner);
    } else {
      TurnFirst(spread.bs, owner, spread.limits, spread.counts);
    }
  }

  lemma NobodyChosen(spread: Spread, owner: nat)
    requires spread.Valid() && spread.Primary(owner).replicas == []
    ensures spread.Chosen(owner) == []
  {
    hide Turn, RacksOf, Spread.Visited, Spread.Filled, HasRoom;
    TurnMeetsAll(spread.bs, owner, spread.limits, spread.counts);
    assert Capable(spread.bs, spread.limits, spread.counts) == {};
    spread.ChosenLegal(owner);
    DistinctCardinality(spread.Chosen(owner));
    assert Elems(spread.Chosen(owner)) == {};
  }

  /** The first broker with room of a rack not seen before is the lowest of its rack. */
  lemma NewHead(spread: Spread, s: Picked, j: nat)
    requires spread.Valid() && ById(spread.bs) && j < |spread.bs| && spread.Spreading(s, j) && |s.replicas| < spread.want
    requires HasRoom(spread.limits, spread.counts, spread.bs[j].id) && RackName(spread.bs[j]) !in s.racks
    ensures Lowest(spread.bs[j].id, spread.bs, RackName(spread.bs[j]), spread.limits, spread.counts)
  {
    hide HasRoom, RacksOf, RackNames, Spread.Legal, RackName;
    var bs, b := spread.bs, spread.bs[j];
    forall c | c in bs && RackName(c) == RackName(b) && HasRoom(spread.limits, spread.counts, c.id) ensures b.id <= c.id {
      var x :| 0 <= x < |bs| && bs[x] == c;
    }
  }

  // ---------------------------------------------------------------------
  // Selection
  // ---------------------------------------------------------------------

  /** In both modes the first broker with room from the owner on leads. */
  lemma SelectedFirst(p: PartitionInfo, bs: seq<Broker>, owner: nat, rackAware: bool, limits: map<BrokerId, int>, counts: map<BrokerId, int>)
    requires DistinctIds(bs) && bs != [] && Selected(p, bs, owner, rackAware, limits, counts).Ok?
    ensures var list := Selected(p, bs, owner, rackAware, limits, counts).value;
            list != [] && FirstFrom(list[0], bs, owner, limits, counts)
  {
    hide Turn, Spread.Chosen, FirstFrom, DistinctIds;
    if rackAware {
      FirstStands(Spread(bs, Min(p.replicas, |bs|), limits, counts), owner);
    } else {
      TurnFirst(bs, owner, limits, counts);
    }
  }

  lemma UnlimitedFirst(id: BrokerId, bs: seq<Broker>, owner: nat, limits: map<BrokerId, int>, counts: map<BrokerId, int>)
    requires bs != [] && Unlimited(limits) && FirstFrom(id, bs, owner, limits, counts)
    ensures id == Seat(bs, owner)
  {
    hide Seat;
    assert forall b :: HasRoom(limits, counts, b);
    assert HasRoom(limits, counts, SeatFrom(bs, owner, 0));
  }

  /** Without limits, and without racks, one broker after the other from the owner on. */
  lemma SelectedRound(p: PartitionInfo, bs: seq<Broker>, owner: nat, limits: map<BrokerId, int>, counts: map<BrokerId, int>)
    requires DistinctIds(bs) && bs != [] && Unlimited(limits) && Selected(p, bs, owner, false, limits, counts).Ok?
    ensures var list := Selected(p, bs, owner, false, limits, counts).value;
            |list| == Min(p.replicas, |bs|) && forall d :: 0 <= d < |list| ==> list[d] == Seat(bs, owner + d)
  {
    hide Window, RoomIds, Seat, DistinctIds;
    UnlimitedWindow(bs, owner, |bs|, limits, counts);
  }

  /** Without limits the owner of the range leads, and without racks the brokers after it follow. */
  lemma SelectedByOwner(p: PartitionInfo, bs: seq<Broker>, owner: nat, rackAware: bool, limits: map<BrokerId, int>, counts: map<BrokerId, int>)
    requires DistinctIds(bs) && owner < |bs| && Unlimited(limits) && Selected(p, bs, owner, rackAware, limits, counts).Ok?
    ensures var list := Selected(p, bs, owner, rackAware, limits, counts).value;
            && list != [] && list[0] == bs[owner].id
            && (!rackAware ==> |list| == Min(p.replicas, |bs|) && forall d :: 0 <= d < |list| ==> list[d] == Seat(bs, owner + d))
  {
    hide Selected, FirstFrom, DistinctIds, Unlimited;
    UniqueRemainder(owner, |bs|, 0, owner);
    assert Seat(bs, owner) == bs[owner].id;
    hide Seat;
    SelectedFirst(p, bs, owner, rackAware, limits, counts);
    UnlimitedFirst(Selected(p, bs, owner, rackAware, limits, counts).value[0], bs, owner, limits, counts);
    if !rackAware { SelectedRound(p, bs, owner, limits, counts); }
  }
}

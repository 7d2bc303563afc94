/** The rack-aware selection of the range strategy (pkg/cluster/range.go). */
module RangeRacks {
  import opened Common
  import opened Placements
  import opened Selection
  import opened Racks

  datatype Picked = Picked(replicas: seq<BrokerId>, racks: set<string>)

  /** One selection problem and its two passes over the brokers in order. */
  datatype Spread = Spread(bs: seq<Broker>, want: nat, limits: map<BrokerId, int>, counts: map<BrokerId, int>) {

    ghost predicate Valid() { DistinctIds(bs) && 0 < want <= |bs| }

    predicate Free(s: Picked, b: Broker) {
      |s.replicas| < want && b.id !in s.replicas && HasRoom(limits, counts, b.id)
    }

    /** First pass: a new rack, or any once every rack is used. */
    function Visit(s: Picked, b: Broker): Picked {
      if Free(s, b) && (RackName(b) !in s.racks || |s.racks| == |RackNames(bs)|)
      then Picked(s.replicas + [b.id], s.racks + {RackName(b)}) else s
    }

    /** Second pass: any broker. */
    function Fill(s: Picked, b: Broker): Picked {
      if Free(s, b) then s.(replicas := s.replicas + [b.id]) else s
    }

    ghost function Visited(s: Picked, j: nat): Picked
      requires j <= |bs|
    {
      if j == 0 then s else Visit(Visited(s, j - 1), bs[j - 1])
    }

    ghost function Filled(s: Picked, j: nat): Picked
      requires j <= |bs|
    {
      if j == 0 then s else Fill(Filled(s, j - 1), bs[j - 1])
    }

    /** The primary replica: the first broker with room at or after the range's owner. */
    ghost function Primary(owner: nat): Picked
      requires bs != []
    {
      var turn := Turn(bs, owner, limits, counts);
      if turn == [] then Picked([], {}) else Picked([turn[0]], RacksOf(bs, [turn[0]]))
    }

    ghost function Chosen(owner: nat): seq<BrokerId>
      requires bs != []
    {
      Filled(Visited(Primary(owner), |bs|), |bs|).replicas
    }

    ghost predicate Legal(list: seq<BrokerId>) {
      && Distinct(list) && |list| <= want
      && forall b :: b in list ==> b in Capable(bs, limits, counts)
    }

    /** Between two visits: as many racks as replicas, or all of them; and no roomy rack passed over. */
    ghost predicate Spreading(s: Picked, j: nat)
      requires j <= |bs|
    {
      && Legal(s.replicas) && s.racks == RacksOf(bs, s.replicas)
      && (|s.racks| == |s.replicas| || |s.racks| == |RackNames(bs)|)
      && (|s.replicas| < want ==> forall i :: 0 <= i < j && HasRoom(limits, counts, bs[i].id) ==> RackName(bs[i]) in s.racks)
    }

    lemma AppendLegal(list: seq<BrokerId>, b: Broker)
      requires Legal(list) && |list| < want && b in bs && b.id !in list && HasRoom(limits, counts, b.id)
      ensures Legal(list + [b.id])
    {
      hide Capable, HasRoom;
      RoomyMember(bs, b, limits, counts);
    }

    lemma VisitKeeps(s: Picked, j: nat)
      requires Valid() && j < |bs| && Spreading(s, j)
      ensures Spreading(Visit(s, bs[j]), j + 1)
    {
      hide Distinct, RacksOf, Capable, HasRoom, Legal, RackNames;
      var b := bs[j];
      if Free(s, b) && (RackName(b) !in s.racks || |s.racks| == |RackNames(bs)|) {
        AppendLegal(s.replicas, b);
        RacksOfAppend(bs, s.replicas, b);
        RacksOfBounds(bs, s.replicas + [b.id]);
        SubsetCardinality(RacksOf(bs, s.replicas + [b.id]), RackNames(bs));
        SubsetCardinality(s.racks, s.racks + {RackName(b)});
      } else if b.id in s.replicas {
        MemberRack(s.replicas, j);
      }
    }

    lemma MemberRack(list: seq<BrokerId>, j: nat)
      requires j < |bs| && bs[j].id in list
      ensures RackName(bs[j]) in RacksOf(bs, list)
    {
    }

    lemma PrimarySpreading(owner: nat)
      requires Valid()
      ensures Spreading(Primary(owner), 0)
    {
      var turn := Turn(bs, owner, limits, counts);
      TurnMeetsAll(bs, owner, limits, counts);
      if turn == [] {
        assert RacksOf(bs, []) == {};
      } else {
        var b := turn[0];
        assert b in Elems(turn);
        var i :| 0 <= i < |bs| && bs[i].id == b;
        RacksOfAppend(bs, [], bs[i]);
        assert RacksOf(bs, []) == {} && [] + [b] == [b];
      }
      hide Turn;
    }

    lemma {:induction false} VisitedSpreading(owner: nat, j: nat)
      requires Valid() && j <= |bs|
      ensures Spreading(Visited(Primary(owner), j), j)
    {
      hide Spreading, Primary, Visit;
      if j == 0 {
        PrimarySpreading(owner);
      } else {
        VisitedSpreading(owner, j - 1);
        VisitKeeps(Visited(Primary(owner), j - 1), j - 1);
      }
    }

    /** The second pass only appends, and stops short only when no broker with room is left. */
    lemma {:induction false} FilledLegal(s: Picked, j: nat)
      requires Valid() && j <= |bs| && Legal(s.replicas)
      ensures Legal(Filled(s, j).replicas) && s.replicas <= Filled(s, j).replicas
      ensures |Filled(s, j).replicas| < want ==>
        forall i :: 0 <= i < j && HasRoom(limits, counts, bs[i].id) ==> bs[i].id in Filled(s, j).replicas
    {
      hide Legal, HasRoom;
      if j > 0 {
        FilledLegal(s, j - 1);
        var t := Filled(s, j - 1);
        if Free(t, bs[j - 1]) { AppendLegal(t.replicas, bs[j - 1]); }
      }
    }

    lemma ChosenLegal(owner: nat)
      requires Valid()
      ensures Legal(Chosen(owner))
      ensures |Chosen(owner)| == want <==> |Capable(bs, limits, counts)| >= want
    {
      hide Visited, Filled, Primary, Spreading;
      VisitedSpreading(owner, |bs|);
      var s := Visited(Primary(owner), |bs|);
      SpreadingLegal(s, |bs|);
      FilledLegal(s, |bs|);
      var list := Chosen(owner);
      DistinctCardinality(list);
      assert Elems(list) <= Capable(bs, limits, counts);
      SubsetCardinality(Elems(list), Capable(bs, limits, counts));
      if |list| < want {
        forall id | id in Capable(bs, limits, counts) ensures id in Elems(list) {
          var i :| 0 <= i < |bs| && bs[i].id == id;
        }
        assert Elems(list) == Capable(bs, limits, counts);
      }
    }

    lemma SpreadingLegal(s: Picked, j: nat)
      requires j <= |bs| && Spreading(s, j)
      ensures Legal(s.replicas)
    {
    }

    /** The list covers as many racks as it has replicas for, or every rack with room. */
    lemma ChosenCovers(owner: nat)
      requires Valid() && |Chosen(owner)| == want
      ensures |RacksOf(bs, Chosen(owner))| == Min(want, |RoomyRacks(bs, limits, counts)|)
    {
      hide Visited, Filled, Primary, Spreading, RacksOf, RoomyRacks, RackNames, Legal, Capable;
      var s, list := Visited(Primary(owner), |bs|), Chosen(owner);
      var roomy := RoomyRacks(bs, limits, counts);
      VisitedSpreading(owner, |bs|);
      SpreadingLegal(s, |bs|);
      FilledLegal(s, |bs|);
      ChosenLegal(owner);
      LegalRacks(s.replicas);
      LegalRacks(list);
      RacksGrow(bs, s.replicas, list);
      SubsetCardinality(RacksOf(bs, s.replicas), RacksOf(bs, list));
      SubsetCardinality(RacksOf(bs, list), roomy);
      SubsetCardinality(roomy, RackNames(bs));
      RacksOfBounds(bs, list);
      PassOneCovers(s, roomy);
      if |s.replicas| == want {
        assert list == s.replicas;
      } else {
        assert RacksOf(bs, list) == roomy;
      }
    }

    lemma PassOneCovers(s: Picked, roomy: set<string>)
      requires Spreading(s, |bs|) && roomy == RoomyRacks(bs, limits, counts)
      ensures |s.replicas| < want ==> roomy <= RacksOf(bs, s.replicas)
      ensures |RacksOf(bs, s.replicas)| == |s.replicas| || |RacksOf(bs, s.replicas)| == |RackNames(bs)|
      ensures |s.replicas| <= want
    {
      hide RacksOf, RackNames;
    }

    lemma LegalRacks(list: seq<BrokerId>)
      requires Legal(list)
      ensures RacksOf(bs, list) <= RoomyRacks(bs, limits, counts) <= RackNames(bs)
    {
      forall r | r in RacksOf(bs, list) ensures r in RoomyRacks(bs, limits, counts) {
        var i :| 0 <= i < |bs| && bs[i].id in list && RackName(bs[i]) == r;
        assert bs[i].id in Capable(bs, limits, counts);
      }
    }
  }
}

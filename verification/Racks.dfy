/** Brokers grouped by rack. */
module Racks {
  import opened Common
  import opened Placements
  import opened Selection

  function RackName(b: Broker): string {
    if b.rack == "" then "default" else b.rack
  }

  function RackNames(bs: seq<Broker>): set<string> {
    set i | 0 <= i < |bs| :: RackName(bs[i])
  }

  function InRack(bs: seq<Broker>, rack: string): (r: seq<Broker>)
    ensures forall b :: b in r <==> b in bs && RackName(b) == rack
  {
    if bs == [] then []
    else
      var rest := InRack(bs[1..], rack);
      if RackName(bs[0]) == rack then [bs[0]] + rest else rest
  }

  lemma {:induction false} InRackDistinct(bs: seq<Broker>, rack: string)
    requires DistinctIds(bs)
    ensures DistinctIds(InRack(bs, rack))
  {
    hide RackName;
    if bs != [] {
      InRackDistinct(bs[1..], rack);
      var rest := InRack(bs[1..], rack);
      forall i | 0 <= i < |rest| ensures rest[i].id != bs[0].id { assert rest[i] in rest; }
    }
  }

  lemma SameBroker(bs: seq<Broker>, a: Broker, b: Broker)
    requires DistinctIds(bs) && a in bs && b in bs && a != b
    ensures a.id != b.id
  {
    var i :| 0 <= i < |bs| && bs[i] == a;
    var j :| 0 <= j < |bs| && bs[j] == b;
  }

  /** The rack names in sorted order. */
  ghost function RackList(bs: seq<Broker>): (r: seq<string>)
    ensures SortedList(r, RackNames(bs))
    ensures bs != [] ==> r != []
  {
    var r := ListOfSet(RackNames(bs));
    assert bs != [] ==> RackName(bs[0]) in Elems(r);
    r
  }

  /** Racks in which some broker has room. */
  function RoomyRacks(bs: seq<Broker>, limits: map<BrokerId, int>, counts: map<BrokerId, int>): set<string> {
    set i | 0 <= i < |bs| && HasRoom(limits, counts, bs[i].id) :: RackName(bs[i])
  }

  /** Racks in which the list has a replica. */
  function RacksOf(bs: seq<Broker>, list: seq<BrokerId>): set<string> {
    set i | 0 <= i < |bs| && bs[i].id in list :: RackName(bs[i])
  }

  lemma RacksOfAppend(bs: seq<Broker>, list: seq<BrokerId>, b: Broker)
    requires b in bs && DistinctIds(bs)
    ensures RacksOf(bs, list + [b.id]) == RacksOf(bs, list) + {RackName(b)}
  {
    forall r | r in RacksOf(bs, list + [b.id]) ensures r in RacksOf(bs, list) + {RackName(b)} {
      var i :| 0 <= i < |bs| && bs[i].id in list + [b.id] && RackName(bs[i]) == r;
      var j :| 0 <= j < |bs| && bs[j] == b;
      assert bs[i].id in list || i == j;
    }
    forall r | r in RacksOf(bs, list) + {RackName(b)} ensures r in RacksOf(bs, list + [b.id]) {
      if r == RackName(b) {
        var j :| 0 <= j < |bs| && bs[j] == b;
        assert bs[j].id in list + [b.id];
      } else {
        var i :| 0 <= i < |bs| && bs[i].id in list && RackName(bs[i]) == r;
        assert bs[i].id in list + [b.id];
      }
    }
  }

  lemma RacksGrow(bs: seq<Broker>, a: seq<BrokerId>, b: seq<BrokerId>)
    requires a <= b
    ensures RacksOf(bs, a) <= RacksOf(bs, b)
  {
    forall r | r in RacksOf(bs, a) ensures r in RacksOf(bs, b) {
      var i :| 0 <= i < |bs| && bs[i].id in a && RackName(bs[i]) == r;
      assert bs[i].id in b;
    }
  }

  lemma RacksOfBounds(bs: seq<Broker>, list: seq<BrokerId>)
    requires DistinctIds(bs)
    ensures RacksOf(bs, list) <= RackNames(bs)
    ensures |RacksOf(bs, list)| <= |list|
  {
    RacksOfSize(bs, list);
  }

  lemma {:induction false} RacksOfSize(bs: seq<Broker>, list: seq<BrokerId>)
    requires DistinctIds(bs)
    ensures |RacksOf(bs, list)| <= |list|
  {
    if list == [] {
      assert RacksOf(bs, list) == {};
    } else {
      var n := |list| - 1;
      RacksOfSize(bs, list[..n]);
      assert list == list[..n] + [list[n]];
      if i :| 0 <= i < |bs| && bs[i].id == list[n] {
        RacksOfAppend(bs, list[..n], bs[i]);
      } else {
        assert RacksOf(bs, list) == RacksOf(bs, list[..n]) by {
          assert forall i :: 0 <= i < |bs| ==> (bs[i].id in list <==> bs[i].id in list[..n]);
        }
      }
    }
  }

  lemma RoomyMember(bs: seq<Broker>, b: Broker, limits: map<BrokerId, int>, counts: map<BrokerId, int>)
    requires b in bs && HasRoom(limits, counts, b.id)
    ensures b.id in Capable(bs, limits, counts) && RackName(b) in RoomyRacks(bs, limits, counts)
  {
    var i :| 0 <= i < |bs| && bs[i] == b;
    assert bs[i].id in Ids(bs);
  }

  ghost predicate ById(bs: seq<Broker>) { forall i, j :: 0 <= i < j < |bs| ==> bs[i].id < bs[j].id }

  /** id is the lowest of the rack's brokers that have room. */
  ghost predicate Lowest(id: BrokerId, bs: seq<Broker>, rack: string, limits: map<BrokerId, int>, counts: map<BrokerId, int>) {
    && (exists b :: b in bs && b.id == id && RackName(b) == rack && HasRoom(limits, counts, id))
    && (forall b :: b in bs && RackName(b) == rack && HasRoom(limits, counts, b.id) ==> id <= b.id)
  }
}

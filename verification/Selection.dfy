/** Cyclic scans over a broker list that skip full brokers. */
module Selection {
  import opened Common
  import opened Placements

  /** k consecutive brokers from position start, wrapping around. */
  ghost function Window(bs: seq<Broker>, start: nat, k: nat): seq<Broker>
    requires bs != []
  {
    seq(k, j requires 0 <= j < k => bs[(start + j) % |bs|])
  }

  /** Ids of the brokers with room, in list order. */
  ghost function RoomIds(s: seq<Broker>, limits: map<BrokerId, int>, counts: map<BrokerId, int>): seq<BrokerId> {
    if s == [] then []
    else
      var n := |s| - 1;
      var front := RoomIds(s[..n], limits, counts);
      if HasRoom(limits, counts, s[n].id) then front + [s[n].id] else front
  }

  /** The brokers that can take one more replica. */
  ghost function Capable(bs: seq<Broker>, limits: map<BrokerId, int>, counts: map<BrokerId, int>): set<BrokerId> {
    set id | id in Ids(bs) && HasRoom(limits, counts, id)
  }

  /** One full turn from start: every broker with room, in the order a cyclic walk meets them. */
  ghost function Turn(bs: seq<Broker>, start: nat, limits: map<BrokerId, int>, counts: map<BrokerId, int>): seq<BrokerId>
    requires bs != []
  {
    RoomIds(Window(bs, start, |bs|), limits, counts)
  }

  lemma ModDistinct(a: nat, j: nat, k: nat, n: nat)
    requires j < k < j + n
    ensures (a + j) % n != (a + k) % n
  {
    var q, r := (a + j) / n, (a + j) % n;
    var d := r + (k - j);
    if d < n {
      UniqueRemainder(a + k, n, q, d);
    } else {
      assert n * (q + 1) == n * q + n;
      UniqueRemainder(a + k, n, q + 1, d - n);
    }
  }

  lemma ModWrap(a: nat, k: nat, n: nat)
    requires n > 0
    ensures (a + k + n) % n == (a + k) % n
    ensures (a % n + k) % n == (a + k) % n
  {
    assert (a + k + n) % n == (a + k) % n by { AddMultiple(a + k, n, 1); }
    AddMultiple(a % n + k, n, a / n);
    assert a == a % n + n * (a / n);
  }

  lemma {:induction false} AddMultiple(x: nat, n: nat, q: nat)
    requires n > 0
    ensures (x + n * q) % n == x % n
    decreases q
  {
    if q > 0 {
      AddMultiple(x, n, q - 1);
      assert n * q == n * (q - 1) + n;
      AddOne(x + n * (q - 1), n);
    }
  }

  lemma AddOne(x: nat, n: nat)
    requires n > 0
    ensures (x + n) % n == x % n
  {
    var q, r := x / n, x % n;
    assert x + n == n * (q + 1) + r;
    UniqueRemainder(x + n, n, q + 1, r);
  }

  /** A full turn reaches every position. */
  lemma CyclicIndex(start: nat, i: nat, n: nat) returns (j: nat)
    requires i < n
    ensures j < n && (start + j) % n == i
  {
    var s := start % n;
    j := if i >= s then i - s else i + n - s;
    ModWrap(start, j, n);
    if i >= s {
      UniqueRemainder(i, n, 0, i);
    } else {
      ModWrap(i, 0, n);
      UniqueRemainder(i, n, 0, i);
    }
  }

  /** Positions less than a turn apart differ. */
  lemma CyclicApart(i: nat, j: nat, n: nat)
    requires i < j < i + n
    ensures i % n != j % n
  {
    var q, r := i / n, i % n;
    var d := j - i;
    if r + d < n {
      UniqueRemainder(j, n, q, r + d);
    } else {
      assert n * (q + 1) == n * q + n;
      UniqueRemainder(j, n, q + 1, r + d - n);
    }
  }

  lemma WindowAppend(bs: seq<Broker>, start: nat, k: nat, limits: map<BrokerId, int>, counts: map<BrokerId, int>)
    requires bs != []
    ensures var next := bs[(start + k) % |bs|];
            RoomIds(Window(bs, start, k + 1), limits, counts) ==
            RoomIds(Window(bs, start, k), limits, counts) + if HasRoom(limits, counts, next.id) then [next.id] else []
  {
    assert Window(bs, start, k + 1)[..k] == Window(bs, start, k);
  }

  lemma {:induction false} RoomIdsElems(s: seq<Broker>, limits: map<BrokerId, int>, counts: map<BrokerId, int>)
    ensures forall id :: id in RoomIds(s, limits, counts) <==> id in Capable(s, limits, counts)
    ensures DistinctIds(s) ==> Distinct(RoomIds(s, limits, counts))
  {
    if s != [] {
      var n := |s| - 1;
      RoomIdsElems(s[..n], limits, counts);
      IdsAppend(s);
      var front := RoomIds(s[..n], limits, counts);
      assert DistinctIds(s) ==> DistinctIds(s[..n]) && s[n].id !in front;
    }
  }

  lemma IdsAppend(s: seq<Broker>)
    requires s != []
    ensures Ids(s) == Ids(s[..|s| - 1]) + {s[|s| - 1].id}
    ensures DistinctIds(s) ==> s[|s| - 1].id !in Ids(s[..|s| - 1])
  {
    var n := |s| - 1;
    forall id | id in Ids(s) ensures id in Ids(s[..n]) || id == s[n].id {
      var i :| 0 <= i < |s| && s[i].id == id;
      assert i == n || s[..n][i].id == id;
    }
    forall id | id in Ids(s[..n]) ensures id in Ids(s) {
      var i :| 0 <= i < n && s[..n][i].id == id;
      assert s[i].id == id;
    }
  }

  lemma {:induction false} IdsCardinality(bs: seq<Broker>)
    requires DistinctIds(bs)
    ensures |Ids(bs)| == |bs|
  {
    if bs != [] {
      IdsCardinality(bs[..|bs| - 1]);
      IdsAppend(bs);
    }
  }

  lemma WindowDistinct(bs: seq<Broker>, start: nat, k: nat)
    requires bs != [] && DistinctIds(bs) && k <= |bs|
    ensures DistinctIds(Window(bs, start, k))
  {
    var w := Window(bs, start, k);
    forall i, j | 0 <= i < j < k ensures w[i].id != w[j].id {
      ModDistinct(start, i, j, |bs|);
      var x, y := (start + i) % |bs|, (start + j) % |bs|;
      assert bs[x].id != bs[y].id;
    }
  }

  lemma WindowCovers(bs: seq<Broker>, start: nat)
    requires bs != []
    ensures Ids(Window(bs, start, |bs|)) == Ids(bs)
  {
    var n := |bs|;
    var w := Window(bs, start, n);
    forall id | id in Ids(bs) ensures id in Ids(w) {
      var i :| 0 <= i < n && bs[i].id == id;
      var j := CyclicIndex(start, i, n);
      assert w[j].id == id;
    }
    forall id | id in Ids(w) ensures id in Ids(bs) {
      var j :| 0 <= j < n && w[j].id == id;
      assert bs[(start + j) % n].id == id;
    }
  }

  /** A full turn meets each broker with room exactly once. */
  lemma TurnMeetsAll(bs: seq<Broker>, start: nat, limits: map<BrokerId, int>, counts: map<BrokerId, int>)
    requires bs != [] && DistinctIds(bs)
    ensures Distinct(Turn(bs, start, limits, counts))
    ensures Elems(Turn(bs, start, limits, counts)) == Capable(bs, limits, counts)
    ensures |Turn(bs, start, limits, counts)| == |Capable(bs, limits, counts)|
  {
    var w := Window(bs, start, |bs|);
    WindowDistinct(bs, start, |bs|);
    WindowCovers(bs, start);
    RoomIdsElems(w, limits, counts);
    assert Elems(RoomIds(w, limits, counts)) == Capable(bs, limits, counts);
    DistinctCardinality(RoomIds(w, limits, counts));
  }

  /** Step k of a scan: before a full turn the broker is new, after one there is nothing left to find. */
  lemma ScanStep(bs: seq<Broker>, start: nat, k: nat, limits: map<BrokerId, int>, counts: map<BrokerId, int>)
    requires bs != [] && DistinctIds(bs)
    ensures var next := bs[(start + k) % |bs|].id;
            && (k < |bs| ==> next !in RoomIds(Window(bs, start, k), limits, counts))
            && (k >= |bs| && HasRoom(limits, counts, next) ==> next in Turn(bs, start, limits, counts))
  {
    hide Window, RoomIds, DistinctIds, Turn;
    if k < |bs| {
      ScanNew(bs, start, k, limits, counts);
    } else {
      TurnMeetsAll(bs, start, limits, counts);
      var next := bs[(start + k) % |bs|];
      assert next.id in Ids(bs);
      assert next.id in Elems(Turn(bs, start, limits, counts)) || !HasRoom(limits, counts, next.id);
    }
  }

  lemma ScanNew(bs: seq<Broker>, start: nat, k: nat, limits: map<BrokerId, int>, counts: map<BrokerId, int>)
    requires DistinctIds(bs) && k < |bs|
    ensures bs[(start + k) % |bs|].id !in RoomIds(Window(bs, start, k), limits, counts)
  {
    hide RoomIds, DistinctIds;
    var w := Window(bs, start, k + 1);
    WindowDistinct(bs, start, k + 1);
    assert w[k] == bs[(start + k) % |bs|] && w[..k] == Window(bs, start, k);
    IdsAppend(w);
    RoomIdsElems(Window(bs, start, k), limits, counts);
  }

  /** A shorter scan is a prefix of the full turn. */
  lemma {:induction false} ScanIsPrefix(bs: seq<Broker>, start: nat, k: nat, limits: map<BrokerId, int>, counts: map<BrokerId, int>)
    requires bs != [] && k <= |bs|
    ensures RoomIds(Window(bs, start, k), limits, counts) <= Turn(bs, start, limits, counts)
    decreases |bs| - k
  {
    if k < |bs| {
      ScanIsPrefix(bs, start, k + 1, limits, counts);
      WindowAppend(bs, start, k, limits, counts);
    }
  }

  /** What a scan of k attempts has collected. */
  ghost function Scan(bs: seq<Broker>, start: nat, k: nat, limits: map<BrokerId, int>, counts: map<BrokerId, int>): seq<BrokerId>
    requires bs != []
  {
    RoomIds(Window(bs, start, Min(k, |bs|)), limits, counts)
  }

  lemma ScanNext(bs: seq<Broker>, start: nat, k: nat, limits: map<BrokerId, int>, counts: map<BrokerId, int>)
    requires bs != [] && DistinctIds(bs)
    ensures var next, found := bs[(start + k) % |bs|].id, Scan(bs, start, k, limits, counts);
            Scan(bs, start, k + 1, limits, counts) ==
            if next !in found && HasRoom(limits, counts, next) then found + [next] else found
    ensures k >= |bs| ==> Scan(bs, start, k + 1, limits, counts) == Scan(bs, start, k, limits, counts)
  {
    ScanStep(bs, start, k, limits, counts);
    if k < |bs| {
      WindowAppend(bs, start, k, limits, counts);
    }
  }
}

/** Subscription and assignment blobs (pkg/protocol/coordination.go). */
module Assignments {
  import opened Common
  import opened Bytes
  import opened Schemas
  import opened WireLaws
  import opened Wire
  import opened Payloads

  const COORDINATION_VERSION := 1

  /** The map a decoder builds from keyed entries, the last one for a key winning. */
  function Collect<V>(es: seq<(Data, V)>, k: nat): map<Data, V>
    requires k <= |es|
  {
    if k == 0 then map[] else Collect(es, k - 1)[es[k - 1].0 := es[k - 1].1]
  }

  function Entries<V>(m: map<Data, V>, keys: seq<Data>): (r: seq<(Data, V)>)
    requires forall i :: 0 <= i < |keys| ==> keys[i] in m
    ensures |r| == |keys| && forall i :: 0 <= i < |keys| ==> r[i] == (keys[i], m[keys[i]])
  {
    seq(|keys|, i requires 0 <= i < |keys| && keys[i] in m => (keys[i], m[keys[i]]))
  }

  lemma {:induction false} CollectHas<V>(m: map<Data, V>, es: seq<(Data, V)>, k: nat)
    requires k <= |es| && forall i :: 0 <= i < |es| ==> es[i].0 in m && es[i].1 == m[es[i].0]
    ensures forall x :: x in Collect(es, k) <==> exists i :: 0 <= i < k && es[i].0 == x
    ensures forall x :: x in Collect(es, k) ==> x in m && Collect(es, k)[x] == m[x]
  {
    if k > 0 { CollectHas(m, es, k - 1); }
  }

  /** A listing of a map's keys, in any order. */
  ghost predicate Lists<V>(keys: seq<Data>, m: map<Data, V>) {
    && (forall i :: 0 <= i < |keys| ==> keys[i] in m)
    && (forall x :: x in m ==> x in keys)
    && Distinct(keys)
  }

  /** Collecting the entries of a map in any order gives the map. */
  lemma CollectEntries<V>(m: map<Data, V>, keys: seq<Data>)
    requires Lists(keys, m)
    ensures Collect(Entries(m, keys), |keys|) == m
  {
    var es := Entries(m, keys);
    CollectHas(m, es, |keys|);
    forall x | x in m ensures x in Collect(es, |keys|) {
      var i :| 0 <= i < |keys| && keys[i] == x;
      assert es[i].0 == x;
    }
  }

  // ---------------------------------------------------------------------
  // Subscriptions
  // ---------------------------------------------------------------------

  datatype Subscription = Subscription(topics: seq<Data>, userData: Option<Data>)

  const SUBSCRIPTION := Pair(I16, Pair(List(Text), Blob))

  function SubscriptionValue(s: Subscription): Value {
    PairV(I(COORDINATION_VERSION), PairV(ListV(Map(T, s.topics)), BlobV(s.userData)))
  }

  function ToSubscription(v: Value): Subscription {
    Subscription(Map(Txt, Items(Field(v, 1))), Opt(Rest(v, 2)))
  }

  lemma Pow2()
    ensures Pow(2) == 0x1_0000
  {
    assert Pow(1) == 256;
  }

  lemma SubscriptionFits(s: Subscription)
    ensures Fits(SUBSCRIPTION, SubscriptionValue(s))
  {
    Pow2();
    var v := ListV(Map(T, s.topics));
    assert Fits(List(Text), v);
    assert Fits(Pair(List(Text), Blob), PairV(v, BlobV(s.userData)));
  }

  ghost function EncodedSubscription(s: Subscription): Data {
    SubscriptionFits(s);
    Enc(SUBSCRIPTION, SubscriptionValue(s))
  }

  /** A subscription blob decodes to the subscription. */
  lemma SubscriptionRoundTrip(s: Subscription, trailing: Data)
    requires |EncodedSubscription(s)| <= MAX_MESSAGE_SIZE
    ensures var r := Parse(Checked, SUBSCRIPTION, EncodedSubscription(s) + trailing, 0);
            r.Got? && ToSubscription(r.value) == s
  {
    hide Parse, Enc, Fits, Map;
    SubscriptionFits(s);
    RoundTrip(Checked, SUBSCRIPTION, SubscriptionValue(s), trailing);
    MapBack(T, Txt, s.topics);
  }

  // ---------------------------------------------------------------------
  // Member assignments
  // ---------------------------------------------------------------------

  datatype MemberAssignment = MemberAssignment(partitions: map<Data, seq<int>>, userData: Option<Data>)

  const ASSIGNMENT := Pair(I16, Pair(List(Pair(Text, List(I32))), Blob))

  function FromEntry(e: (Data, seq<int>)): Value { PairV(T(e.0), ListV(Map(I, e.1))) }

  function ToEntry(v: Value): (Data, seq<int>) { (Txt(Field(v, 0)), Map(Num, Items(Rest(v, 1)))) }

  /** The assignment as written when its topics come in the order of keys. */
  function AssignmentValue(a: MemberAssignment, keys: seq<Data>): Value
    requires forall i :: 0 <= i < |keys| ==> keys[i] in a.partitions
  {
    PairV(I(COORDINATION_VERSION), PairV(ListV(Map(FromEntry, Entries(a.partitions, keys))), BlobV(a.userData)))
  }

  function ToAssignment(v: Value): MemberAssignment {
    var es := Map(ToEntry, Items(Field(v, 1)));
    MemberAssignment(Collect(es, |es|), Opt(Rest(v, 2)))
  }

  lemma EntryBack(e: (Data, seq<int>))
    ensures ToEntry(FromEntry(e)) == e
  {
    MapBack(I, Num, e.1);
  }

  lemma AssignmentBack(a: MemberAssignment, keys: seq<Data>)
    requires Lists(keys, a.partitions)
    ensures ToAssignment(AssignmentValue(a, keys)) == a
  {
    hide Map, Entries, Collect, ToEntry, FromEntry, Lists;
    KeysIn(keys, a.partitions);
    forall e { EntryBack(e); }
    MapBack(FromEntry, ToEntry, Entries(a.partitions, keys));
    CollectEntries(a.partitions, keys);
  }

  lemma KeysIn<V>(keys: seq<Data>, m: map<Data, V>)
    requires Lists(keys, m)
    ensures forall i :: 0 <= i < |keys| ==> keys[i] in m
  {
  }

  /** Whatever the order of topics, an assignment blob decodes to the assignment. */
  lemma AssignmentRoundTrip(a: MemberAssignment, keys: seq<Data>, trailing: Data)
    requires Lists(keys, a.partitions) && Fits(ASSIGNMENT, AssignmentValue(a, keys))
    requires |Enc(ASSIGNMENT, AssignmentValue(a, keys))| <= MAX_MESSAGE_SIZE
    ensures var r := Parse(Checked, ASSIGNMENT, Enc(ASSIGNMENT, AssignmentValue(a, keys)) + trailing, 0);
            r.Got? && ToAssignment(r.value) == a
  {
    hide Parse, Enc, Fits, Map, AssignmentValue, ToAssignment;
    RoundTrip(Checked, ASSIGNMENT, AssignmentValue(a, keys), trailing);
    AssignmentBack(a, keys);
  }

  ghost predicate InOrder(keys: seq<string>) { Sorted<string>(StringLess, keys) }

  /** Sorted, the order of topics is settled by the assignment alone, so equal assignments have equal bytes. */
  lemma SortedOrderUnique(a: MemberAssignment, keys: seq<Data>, keys': seq<Data>)
    requires Lists(keys, a.partitions) && InOrder(keys) && Lists(keys', a.partitions) && InOrder(keys')
    ensures keys == keys'
  {
    hide Sorted, StringLess, Orders;
    assert Elems<string>(keys) == a.partitions.Keys == Elems<string>(keys');
    ListUnique(keys, keys', a.partitions.Keys);
  }

  /** Encodes an assignment with its topics sorted; the bytes are the same for whatever order the map yields its keys in. */
  method EncodeMemberAssignment(a: MemberAssignment) returns (b: Data)
    requires forall t, i :: t in a.partitions && 0 <= i < |a.partitions[t]| ==> InRange(a.partitions[t][i], 4, true)
    ensures forall keys: seq<Data> :: Lists(keys, a.partitions) && InOrder(keys) ==>
              Fits(ASSIGNMENT, AssignmentValue(a, keys)) && b == Enc(ASSIGNMENT, AssignmentValue(a, keys))
  {
    hide Enc, Fits, Sorted, StringLess, Map, Elems, Distinct;
    var names := SortedStrings(a.partitions.Keys);
    var keys := AsData(names, a.partitions.Keys);
    ListsOf(names, keys, a);
    AssignmentFits(a, keys);
    var v := AssignmentValue(a, keys);
    var sizer := new PayloadWriter(null, 0);
    sizer.Write(ASSIGNMENT, v);
    var buf := new Byte[sizer.pos];
    var w := new PayloadWriter(buf, 0);
    w.Write(ASSIGNMENT, v);
    b := buf[..w.pos];
    assert b == [] + Enc(ASSIGNMENT, v) == Enc(ASSIGNMENT, v);
    forall other: seq<Data> | Lists(other, a.partitions) && InOrder(other) ensures other == keys {
      SortedOrderUnique(a, keys, other);
    }
  }

  function AsData(names: seq<string>, all: set<Data>): (r: seq<Data>)
    requires Elems(names) == all
    ensures r == names
  {
    assert forall i :: 0 <= i < |names| ==> names[i] in Elems(names);
    seq(|names|, i requires 0 <= i < |names| && names[i] in all => names[i])
  }

  lemma ListsOf(names: seq<string>, keys: seq<Data>, a: MemberAssignment)
    requires keys == names && Elems(names) == a.partitions.Keys && Distinct(names)
    ensures Lists(keys, a.partitions)
  {
    assert forall i :: 0 <= i < |keys| ==> keys[i] in Elems(names);
    assert forall x :: x in a.partitions ==> x in Elems(names);
  }

  lemma AssignmentFits(a: MemberAssignment, keys: seq<Data>)
    requires Lists(keys, a.partitions)
    requires forall t, i :: t in a.partitions && 0 <= i < |a.partitions[t]| ==> InRange(a.partitions[t][i], 4, true)
    ensures Fits(ASSIGNMENT, AssignmentValue(a, keys))
  {
    hide Pow;
    Pow2();
    var es := Entries(a.partitions, keys);
    var items := Map(FromEntry, es);
    forall i | 0 <= i < |items| ensures Fits(Pair(Text, List(I32)), items[i]) {
      var ns := Map(I, es[i].1);
      assert items[i] == PairV(T(es[i].0), ListV(ns));
      assert forall j :: 0 <= j < |ns| ==> Fits(I32, ns[j]);
      assert Fits(List(I32), ListV(ns));
    }
    assert Fits(List(Pair(Text, List(I32))), ListV(items));
    assert Fits(Pair(List(Pair(Text, List(I32))), Blob), PairV(ListV(items), BlobV(a.userData)));
  }
}

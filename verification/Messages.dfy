/** Messages on the wire (pkg/protocol/codec.go, types.go). */
module Messages {
  import opened Common
  import opened Bytes
  import opened Schemas
  import opened WireLaws
  import opened Payloads
  import opened Assignments

  /** A message; nil and empty keys, values and header maps are the same on the wire and here. */
  datatype Message = Message(offset: int, timestamp: int, key: Data, value: Data, headers: map<Data, Data>)

  const U32 := Int(4, false)
  const HEADERS := List(Pair(Text, Text))
  const MESSAGE := Pair(I64, Pair(I64, Pair(Text, Pair(Text, HEADERS))))

  function FromHeader(h: (Data, Data)): Value { PairV(T(h.0), T(h.1)) }

  function ToHeader(v: Value): (Data, Data) { (Txt(Field(v, 0)), Txt(Rest(v, 1))) }

  /** The message as written when its header map yields its keys in the given order. */
  function MessageValue(m: Message, order: seq<Data>): Value
    requires forall i :: 0 <= i < |order| ==> order[i] in m.headers
  {
    PairV(I(m.offset), PairV(I(m.timestamp), PairV(T(m.key), PairV(T(m.value), ListV(Map(FromHeader, Entries(m.headers, order)))))))
  }

  function ToMessage(v: Value): Message {
    var hs := Map(ToHeader, Items(Rest(v, 4)));
    Message(Num(Field(v, 0)), Num(Field(v, 1)), Txt(Field(v, 2)), Txt(Field(v, 3)), Collect(hs, |hs|))
  }

  lemma MessageBack(m: Message, order: seq<Data>)
    requires Lists(order, m.headers)
    ensures ToMessage(MessageValue(m, order)) == m
  {
    hide Map, Entries, Collect, Lists;
    KeysIn(order, m.headers);
    MapBack(FromHeader, ToHeader, Entries(m.headers, order));
    CollectEntries(m.headers, order);
  }

  ghost predicate InBounds(m: Message) { InRange(m.offset, 8, true) && InRange(m.timestamp, 8, true) }

  lemma HeadersFit(hs: map<Data, Data>, order: seq<Data>)
    requires forall i :: 0 <= i < |order| ==> order[i] in hs
    ensures Fits(HEADERS, ListV(Map(FromHeader, Entries(hs, order))))
  {
    var items := Map(FromHeader, Entries(hs, order));
    assert forall i :: 0 <= i < |items| ==> Fits(Pair(Text, Text), items[i]);
  }

  lemma MessageFits(m: Message, order: seq<Data>)
    requires InBounds(m) && forall i :: 0 <= i < |order| ==> order[i] in m.headers
    ensures Fits(MESSAGE, MessageValue(m, order))
  {
    hide Map, Entries, Pow;
    HeadersFit(m.headers, order);
    var hs := ListV(Map(FromHeader, Entries(m.headers, order)));
    assert Fits(Pair(Text, HEADERS), PairV(T(m.value), hs));
    assert Fits(Pair(Text, Pair(Text, HEADERS)), PairV(T(m.key), PairV(T(m.value), hs)));
  }

  // ---------------------------------------------------------------------
  // Size
  // ---------------------------------------------------------------------

  /** What the first k headers of a listing take. */
  ghost function HeaderTotal(hs: map<Data, Data>, order: seq<Data>, k: nat): nat
    requires k <= |order| && forall i :: 0 <= i < |order| ==> order[i] in hs
  {
    if k == 0 then 0 else HeaderTotal(hs, order, k - 1) + 8 + |order[k - 1]| + |hs[order[k - 1]]|
  }

  lemma {:induction false} HeaderTotalIs(hs: map<Data, Data>, order: seq<Data>, items: seq<Value>, k: nat)
    requires k <= |order| && (forall i :: 0 <= i < |order| ==> order[i] in hs) && items == Map(FromHeader, Entries(hs, order))
    requires forall i :: 0 <= i < |items| ==> Fits(Pair(Text, Text), items[i])
    ensures |EncItems(Pair(Text, Text), items, k)| == HeaderTotal(hs, order, k)
  {
    hide LengthBytes, Enc;
    if k > 0 {
      HeaderTotalIs(hs, order, items, k - 1);
      HeaderEnc(order[k - 1], hs[order[k - 1]]);
    }
  }

  lemma HeaderEnc(x: Data, y: Data)
    ensures Fits(Pair(Text, Text), PairV(T(x), T(y))) && |Enc(Pair(Text, Text), PairV(T(x), T(y)))| == 8 + |x| + |y|
  {
    hide LengthBytes;
  }

  /** Written in any header order a message takes as many bytes. */
  lemma MessageEnc(m: Message, order: seq<Data>)
    requires InBounds(m) && forall i :: 0 <= i < |order| ==> order[i] in m.headers
    ensures Fits(MESSAGE, MessageValue(m, order))
    ensures |Enc(MESSAGE, MessageValue(m, order))| == 28 + |m.key| + |m.value| + HeaderTotal(m.headers, order, |order|)
  {
    hide LengthBytes, IntBytes, EncItems, HeaderTotal, Map, Entries, Pow;
    MessageFits(m, order);
    HeadersFit(m.headers, order);
    var items := Map(FromHeader, Entries(m.headers, order));
    HeaderTotalIs(m.headers, order, items, |order|);
    MapLength(m.headers, order);
    EncOfList(Pair(Text, Text), items);
    var v1 := PairV(T(m.value), ListV(items));
    assert |Enc(Pair(Text, HEADERS), v1)| == 8 + |m.value| + HeaderTotal(m.headers, order, |order|);
    var v2 := PairV(T(m.key), v1);
    assert |Enc(Pair(Text, Pair(Text, HEADERS)), v2)| == 12 + |m.key| + |m.value| + HeaderTotal(m.headers, order, |order|);
  }

  lemma MapLength(hs: map<Data, Data>, order: seq<Data>)
    requires forall i :: 0 <= i < |order| ==> order[i] in hs
    ensures |Map(FromHeader, Entries(hs, order))| == |order|
  {
  }

  lemma {:induction false} TotalPermutes(hs: map<Data, Data>, a: seq<Data>, b: seq<Data>)
    requires (forall i :: 0 <= i < |a| ==> a[i] in hs) && (forall i :: 0 <= i < |b| ==> b[i] in hs) && multiset(a) == multiset(b)
    ensures HeaderTotal(hs, a, |a|) == HeaderTotal(hs, b, |b|)
    decreases |a|
  {
    hide HeaderTotal;
    SameElems(a, b);
    if a == [] {
      NoTotal(hs, a);
      NoTotal(hs, b);
    } else {
      var n := |a| - 1;
      assert a[n] in Elems(a) && a[n] in Elems(b);
      var j :| 0 <= j < |b| && b[j] == a[n];
      var rest := b[..j] + b[j + 1..];
      RestPermutes(a, b, j);
      TotalPermutes(hs, a[..n], rest);
      TotalPrefix(hs, a, n, n);
      NextTotal(hs, a, n);
      TotalWithout(hs, b, j, |b|);
    }
  }

  lemma Without<D>(b: seq<D>, j: nat)
    requires j < |b|
    ensures multiset(b[..j] + b[j + 1..]) + multiset{b[j]} == multiset(b)
  {
    var l, r := b[..j], b[j + 1..];
    assert b == (l + [b[j]]) + r;
  }

  lemma Cancel<D>(x: multiset<D>, y: multiset<D>, d: D)
    requires x + multiset{d} == y + multiset{d}
    ensures x == y
  {
    assert x == (x + multiset{d}) - multiset{d};
    assert y == (y + multiset{d}) - multiset{d};
  }

  lemma RestPermutes<D>(a: seq<D>, b: seq<D>, j: nat)
    requires multiset(a) == multiset(b) && a != [] && j < |b| && b[j] == a[|a| - 1]
    ensures multiset(a[..|a| - 1]) == multiset(b[..j] + b[j + 1..])
  {
    var n := |a| - 1;
    Without(a, n);
    Without(b, j);
    assert a[..n] + a[n + 1..] == a[..n];
    Cancel(multiset(a[..n]), multiset(b[..j] + b[j + 1..]), b[j]);
  }

  lemma {:induction false} TotalPrefix(hs: map<Data, Data>, a: seq<Data>, n: nat, k: nat)
    requires k <= n <= |a| && forall i :: 0 <= i < |a| ==> a[i] in hs
    ensures HeaderTotal(hs, a[..n], k) == HeaderTotal(hs, a, k)
  {
    if k > 0 { TotalPrefix(hs, a, n, k - 1); }
  }

  lemma {:induction false} TotalWithout(hs: map<Data, Data>, b: seq<Data>, j: nat, k: nat)
    requires j < k <= |b| && forall i :: 0 <= i < |b| ==> b[i] in hs
    ensures HeaderTotal(hs, b[..j] + b[j + 1..], k - 1) + 8 + |b[j]| + |hs[b[j]]| == HeaderTotal(hs, b, k)
  {
    var rest := b[..j] + b[j + 1..];
    if k == j + 1 {
      TotalPrefix(hs, b, j, j);
      TotalPrefix(hs, rest, j, j);
      assert rest[..j] == b[..j];
    } else {
      TotalWithout(hs, b, j, k - 1);
      assert rest[k - 2] == b[k - 1];
    }
  }

  lemma ListingsPermute(hs: map<Data, Data>, a: seq<Data>, b: seq<Data>)
    requires Lists(a, hs) && Lists(b, hs)
    ensures multiset(a) == multiset(b)
  {
    forall x ensures multiset(a)[x] == multiset(b)[x] {
      DistinctCount(a, x);
      DistinctCount(b, x);
      assert x in a <==> x in hs;
      assert x in b <==> x in hs;
    }
  }

  /** Computed over the header map in one order, the size is that of the message written in any order. */
  method MessageSize(m: Message) returns (size: nat)
    requires InBounds(m)
    ensures forall order :: Lists(order, m.headers) ==> Fits(MESSAGE, MessageValue(m, order)) && size == |Enc(MESSAGE, MessageValue(m, order))|
  {
    hide Enc, Fits, MessageValue, HeaderTotal, Distinct;
    var order := AnyOrder(m.headers);
    KeysIn(order, m.headers);
    size := 28 + |m.key| + |m.value|;
    NoTotal(m.headers, order);
    for i := 0 to |order|
      invariant size == 28 + |m.key| + |m.value| + HeaderTotal(m.headers, order, i)
    {
      size := size + 4 + |order[i]| + 4 + |m.headers[order[i]]|;
      NextTotal(m.headers, order, i);
    }
    forall other | Lists(other, m.headers)
      ensures Fits(MESSAGE, MessageValue(m, other)) && size == |Enc(MESSAGE, MessageValue(m, other))|
    {
      KeysIn(other, m.headers);
      MessageEnc(m, other);
      ListingsPermute(m.headers, order, other);
      TotalPermutes(m.headers, order, other);
    }
  }

  lemma NoTotal(hs: map<Data, Data>, order: seq<Data>)
    requires forall i :: 0 <= i < |order| ==> order[i] in hs
    ensures HeaderTotal(hs, order, 0) == 0
  {
  }

  lemma NextTotal(hs: map<Data, Data>, order: seq<Data>, k: nat)
    requires k < |order| && forall i :: 0 <= i < |order| ==> order[i] in hs
    ensures HeaderTotal(hs, order, k + 1) == HeaderTotal(hs, order, k) + 8 + |order[k]| + |hs[order[k]]|
  {
  }

  /** The keys of a map in whatever order it yields them. */
  method AnyOrder(hs: map<Data, Data>) returns (order: seq<Data>)
    ensures Lists(order, hs)
  {
    var rest := hs.Keys;
    order := [];
    while rest != {}
      invariant rest <= hs.Keys && Distinct(order)
      invariant forall i :: 0 <= i < |order| ==> order[i] in hs && order[i] !in rest
      invariant forall x :: x in hs ==> x in rest || x in order
      decreases rest
    {
      var x :| x in rest;
      order, rest := order + [x], rest - {x};
    }
  }
}

/** Sums of a quantity over all brokers of a load map. */
module Sums {
  import opened Placements

  ghost function Sum(load: map<BrokerId, int>, f: (BrokerId, int) -> int): int {
    if load == map[] then 0
    else
      var b :| b in load;
      f(b, load[b]) + Sum(load - {b}, f)
  }

  lemma {:induction false} SumRemove(load: map<BrokerId, int>, f: (BrokerId, int) -> int, b: BrokerId)
    requires b in load
    ensures Sum(load, f) == f(b, load[b]) + Sum(load - {b}, f)
    decreases |load|
  {
    var c :| c in load && Sum(load, f) == f(c, load[c]) + Sum(load - {c}, f);
    if c != b {
      SumRemove(load - {c}, f, b);
      SumRemove(load - {b}, f, c);
      assert load - {c} - {b} == load - {b} - {c};
    }
  }

  lemma SumUpdate(load: map<BrokerId, int>, f: (BrokerId, int) -> int, b: BrokerId, v: int)
    requires b in load
    ensures Sum(load[b := v], f) == Sum(load, f) - f(b, load[b]) + f(b, v)
  {
    SumRemove(load, f, b);
    SumRemove(load[b := v], f, b);
    assert load[b := v] - {b} == load - {b};
  }

  lemma {:induction false} SumAtMost(load: map<BrokerId, int>, f: (BrokerId, int) -> int, hi: int)
    requires forall b :: b in load ==> f(b, load[b]) <= hi
    ensures Sum(load, f) <= hi * |load|
    decreases |load|
  {
    if load == map[] { return; }
    var c :| c in load;
    SumRemove(load, f, c);
    hide Sum;
    assert |load - {c}| == |load| - 1;
    SumAtMost(load - {c}, f, hi);
    MulNext(hi, |load| - 1);
  }

  lemma MulNext(a: int, n: int)
    ensures a * (n + 1) == a * n + a
  {
  }

  /** A sum of non-negative terms is zero only when every term is. */
  lemma SumZero(load: map<BrokerId, int>, f: (BrokerId, int) -> int, b: BrokerId)
    requires b in load && forall c :: c in load ==> f(c, load[c]) >= 0
    ensures f(b, load[b]) <= Sum(load, f)
  {
    SumRemove(load, f, b);
    SumPositive(load - {b}, f);
  }

  lemma {:induction false} SumPositive(load: map<BrokerId, int>, f: (BrokerId, int) -> int)
    requires forall b :: b in load ==> f(b, load[b]) >= 0
    ensures Sum(load, f) >= 0
    decreases |load|
  {
    if load != map[] {
      var c :| c in load && Sum(load, f) == f(c, load[c]) + Sum(load - {c}, f);
      SumPositive(load - {c}, f);
    }
  }

  function Itself(b: BrokerId, x: int): int { x }

  /** Exact loads add up to the number of replicas. */
  lemma {:induction false} SumIsSize(load: map<BrokerId, int>, m: multiset<BrokerId>)
    requires forall b :: b in load ==> load[b] == m[b]
    requires forall b :: b in m ==> b in load
    ensures Sum(load, Itself) == |m|
    decreases |load|
  {
    if load == map[] {
      assert m == multiset{};
    } else {
      var c :| c in load && Sum(load, Itself) == Itself(c, load[c]) + Sum(load - {c}, Itself);
      SumIsSize(load - {c}, m[c := 0]);
      WithoutElement(m, c);
      assert Itself(c, load[c]) == m[c];
      assert Sum(load - {c}, Itself) == |m[c := 0]|;
    }
  }

  lemma {:induction false} WithoutElement(m: multiset<BrokerId>, c: BrokerId)
    ensures |m| == m[c] + |m[c := 0]|
    decreases m[c]
  {
    if m[c] == 0 {
      assert m[c := 0] == m;
    } else {
      var rest := m - multiset{c};
      WithoutElement(rest, c);
      assert rest[c := 0] == m[c := 0];
      assert m == rest + multiset{c};
    }
  }

  lemma {:induction false} TotalSize(parts: map<string, seq<BrokerId>>)
    requires forall k :: k in parts ==> parts[k] != []
    ensures |Total(parts)| >= |parts|
    decreases |parts|
  {
    if parts != map[] {
      var k :| k in parts;
      TotalRemove(parts, k);
      TotalSize(parts - {k});
      assert |multiset(parts[k])| == |parts[k]|;
      assert |parts - {k}| == |parts| - 1;
    }
  }
}

/** Rebuilding a whole assignment from its own keys, as round-robin and range rebalancing do. */
module Rebuilding {
  import opened Common
  import opened PartitionKeys
  import opened Placements
  import opened Batches

  /** The key a partition gets after its key was parsed and formatted again. */
  function Reparsed(key: string): string {
    PartitionKey(ParsePartitionKey(key).0, ParsePartitionKey(key).1)
  }

  predicate Canonical(key: string) { Reparsed(key) == key }

  /** Exactly the keys of colon-free topics survive parsing. */
  lemma CanonicalIffColonFree(topic: string, partition: int)
    requires IsInt64(partition)
    ensures Canonical(PartitionKey(topic, partition)) <==> ':' !in topic
  {
    ParseInvertsKey(topic, partition);
    var (t, p) := ParsePartitionKey(PartitionKey(topic, partition));
    if PartitionKey(t, p) == PartitionKey(topic, partition) {
      KeyInjective(t, p, topic, partition);
    }
  }

  function InfoOf(key: string, replicas: seq<BrokerId>): PartitionInfo {
    PartitionInfo(ParsePartitionKey(key).0, ParsePartitionKey(key).1, |replicas|)
  }

  /** What the keys ask for, in order. */
  function Infos(keys: seq<string>, parts: map<string, seq<BrokerId>>): (r: seq<PartitionInfo>)
    requires forall k :: k in keys ==> k in parts
    ensures |r| == |keys| && forall i :: 0 <= i < |keys| ==> r[i] == InfoOf(keys[i], parts[keys[i]])
  {
    seq(|keys|, i requires 0 <= i < |keys| => InfoOf(keys[i], parts[keys[i]]))
  }

  ghost predicate KeyOrder(keys: seq<string>, parts: map<string, seq<BrokerId>>) {
    Distinct(keys) && Elems(keys) == parts.Keys && forall k :: k in keys ==> k in parts
  }

  /** ps asks for every partition of parts again, once, with as many replicas as it has. */
  ghost predicate AsksFor(ps: seq<PartitionInfo>, parts: map<string, seq<BrokerId>>) {
    exists keys :: KeyOrder(keys, parts) && multiset(ps) == multiset(Infos(keys, parts))
  }

  method ExtractPartitions(parts: map<string, seq<BrokerId>>) returns (ps: seq<PartitionInfo>)
    ensures AsksFor(ps, parts)
  {
    ps := [];
    ghost var keys: seq<string> := [];
    var rest := parts.Keys;
    while rest != {}
      invariant rest <= parts.Keys && Elems(keys) == parts.Keys - rest
      invariant Distinct(keys) && (forall k :: k in keys ==> k in parts && k !in rest)
      invariant ps == Infos(keys, parts)
      decreases rest
    {
      var k :| k in rest;
      ps := ps + [InfoOf(k, parts[k])];
      assert Elems(keys + [k]) == Elems(keys) + {k};
      keys := keys + [k];
      rest := rest - {k};
    }
    assert KeyOrder(keys, parts);
  }

  lemma AskedFor(ps: seq<PartitionInfo>, parts: map<string, seq<BrokerId>>)
    requires AsksFor(ps, parts)
    ensures forall k :: k in parts ==> InfoOf(k, parts[k]) in ps
    ensures forall p :: p in ps ==> exists k :: k in parts && p == InfoOf(k, parts[k])
  {
    hide InfoOf, Infos, Distinct;
    var keys :| KeyOrder(keys, parts) && multiset(ps) == multiset(Infos(keys, parts));
    var infos := Infos(keys, parts);
    InfosListed(keys, parts);
    SameElems(ps, infos);
    assert forall p :: p in ps <==> p in Elems(ps);
    assert forall p :: p in infos <==> p in Elems(infos);
  }

  lemma InfosListed(keys: seq<string>, parts: map<string, seq<BrokerId>>)
    requires KeyOrder(keys, parts)
    ensures forall k :: k in parts ==> InfoOf(k, parts[k]) in Infos(keys, parts)
    ensures forall p :: p in Infos(keys, parts) ==> exists k :: k in parts && p == InfoOf(k, parts[k])
  {
    hide InfoOf, Infos, Distinct;
    var infos := Infos(keys, parts);
    forall k | k in parts ensures InfoOf(k, parts[k]) in infos {
      assert k in Elems(keys);
      var i :| 0 <= i < |keys| && keys[i] == k;
      assert infos[i] == InfoOf(k, parts[k]);
    }
    forall p | p in infos ensures exists k :: k in parts && p == InfoOf(k, parts[k]) {
      var i :| 0 <= i < |infos| && infos[i] == p;
      assert keys[i] in parts;
    }
  }

  /** No two keys parse to the same topic and partition. */
  ghost predicate Unambiguous(parts: map<string, seq<BrokerId>>) {
    forall k, q :: k in parts && q in parts && k != q ==> Reparsed(k) != Reparsed(q)
  }

  /** Parsing the keys repeats a partition exactly when two of them are ambiguous. */
  lemma AskedOnceIff(ps: seq<PartitionInfo>, parts: map<string, seq<BrokerId>>)
    requires AsksFor(ps, parts)
    ensures DistinctKeys(ps) <==> Unambiguous(parts)
  {
    hide Reparsed, InfoOf, PartitionInfo.Key;
    var keys :| KeyOrder(keys, parts) && multiset(ps) == multiset(Infos(keys, parts));
    var infos := Infos(keys, parts);
    forall i | 0 <= i < |keys| ensures infos[i].Key() == Reparsed(keys[i]) {
      KeyOfInfo(keys[i], parts[keys[i]]);
    }
    if DistinctKeys(ps) {
      DistinctKeysPermutation(ps, infos);
      forall k, q | k in parts && q in parts && k != q ensures Reparsed(k) != Reparsed(q) {
        assert k in Elems(keys) && q in Elems(keys);
        var i :| 0 <= i < |keys| && keys[i] == k;
        var j :| 0 <= j < |keys| && keys[j] == q;
        assert infos[i].Key() != infos[j].Key();
      }
    }
    if Unambiguous(parts) {
      assert DistinctKeys(infos);
      DistinctKeysPermutation(infos, ps);
    }
  }

  lemma KeyOfInfo(key: string, replicas: seq<BrokerId>)
    ensures InfoOf(key, replicas).Key() == Reparsed(key)
  {
  }

  /** What a rebuilt assignment owes to the one it replaces. */
  ghost predicate Rebuilt(v: Placement, old_: Placement, bs: seq<Broker>, limits: map<BrokerId, int>, existing: map<BrokerId, int>) {
    && WellFormed(v) && v.version == old_.version + 1
    && v.partitions.Keys == (set k | k in old_.partitions :: Reparsed(k))
    && (forall k :: k in old_.partitions ==> Reparsed(k) in v.partitions && |v.partitions[Reparsed(k)]| == Min(|old_.partitions[k]|, |bs|))
    && (forall k :: k in v.partitions ==> Elems(v.partitions[k]) <= Ids(bs))
    && AllFirst(v)
    && WithinLimits(Total(v.partitions), limits, existing)
  }

  lemma PlacesRebuilds(v: Placement, old_: Placement, ps: seq<PartitionInfo>, bs: seq<Broker>, limits: map<BrokerId, int>, existing: map<BrokerId, int>)
    requires Places(v, ps, bs, limits, existing) && AsksFor(ps, old_.partitions)
    ensures Rebuilt(v.(version := old_.version + 1), old_, bs, limits, existing)
  {
    PlacesWellFormed(v, ps, bs, limits, existing);
    KeysRebuilt(v, old_, ps, bs);
    VersionIsFree(v, old_.version + 1);
    PlacesAllFirst(v, ps, bs, limits, existing);
    VersionFirst(v, old_.version + 1);
    hide WellFormed, Reparsed, WithinLimits, Total, ListFor, ExactLoad, DistinctKeys, AllFirst;
  }

  lemma VersionFirst(v: Placement, n: int)
    requires AllFirst(v)
    ensures AllFirst(v.(version := n))
  {
    forall k | k in v.partitions ensures FirstLeads(v.(version := n), k) { assert FirstLeads(v, k); }
  }

  lemma KeysRebuilt(v: Placement, old_: Placement, ps: seq<PartitionInfo>, bs: seq<Broker>)
    requires v.partitions.Keys == Keys(ps) && AsksFor(ps, old_.partitions)
    requires forall p :: p in ps ==> ListFor(v, p, bs)
    ensures v.partitions.Keys == (set k | k in old_.partitions :: Reparsed(k))
    ensures forall k :: k in old_.partitions ==> Reparsed(k) in v.partitions && |v.partitions[Reparsed(k)]| == Min(|old_.partitions[k]|, |bs|)
    ensures forall k :: k in v.partitions ==> Elems(v.partitions[k]) <= Ids(bs)
  {
    hide PartitionKey, ParsePartitionKey, AsksFor;
    AskedFor(ps, old_.partitions);
    forall k | k in old_.partitions
      ensures Reparsed(k) in v.partitions && |v.partitions[Reparsed(k)]| == Min(|old_.partitions[k]|, |bs|)
    {
      assert ListFor(v, InfoOf(k, old_.partitions[k]), bs);
    }
    forall q | q in v.partitions ensures exists k :: k in old_.partitions && Reparsed(k) == q {
      var p :| p in ps && p.Key() == q;
      var k :| k in old_.partitions && p == InfoOf(k, old_.partitions[k]);
      assert Reparsed(k) == q;
    }
    forall q | q in v.partitions ensures Elems(v.partitions[q]) <= Ids(bs) {
      var p :| p in ps && p.Key() == q;
      assert ListFor(v, p, bs);
    }
  }

  lemma SortedAsksFor(less: (PartitionInfo, PartitionInfo) -> bool, ps: seq<PartitionInfo>, parts: map<string, seq<BrokerId>>)
    requires AsksFor(ps, parts)
    ensures AsksFor(Sort(less, ps), parts)
  {
  }

  lemma LoadsOfWellFormed(v: Placement)
    requires WellFormed(v)
    ensures forall b :: b in v.load ==> v.load[b] >= 0
    ensures v.load == map[] ==> Balanced(v.load, 1)
  {
    LoadsNonNegative(v);
  }

  lemma ReparsedIsCanonical(key: string)
    ensures Canonical(Reparsed(key))
  {
    hide PartitionKey;
    var (t, p) := ParsePartitionKey(key);
    assert ':' !in t && IsInt64(p);
    CanonicalIffColonFree(t, p);
  }

  /** A rebuild keeps every key exactly when every topic is free of colons. */
  lemma KeysKeptIffCanonical(v: Placement, old_: Placement, bs: seq<Broker>, limits: map<BrokerId, int>, existing: map<BrokerId, int>)
    requires Rebuilt(v, old_, bs, limits, existing)
    ensures old_.partitions.Keys <= v.partitions.Keys <==> forall k :: k in old_.partitions ==> Canonical(k)
    ensures (forall k :: k in old_.partitions ==> Canonical(k)) ==> v.partitions.Keys == old_.partitions.Keys
  {
    hide Reparsed, WellFormed;
    if old_.partitions.Keys <= v.partitions.Keys {
      forall k | k in old_.partitions ensures Canonical(k) {
        var q :| q in old_.partitions && Reparsed(q) == k;
        ReparsedIsCanonical(q);
      }
    }
    if forall k :: k in old_.partitions ==> Canonical(k) {
      assert forall k :: k in old_.partitions ==> Reparsed(k) == k;
    }
  }
}

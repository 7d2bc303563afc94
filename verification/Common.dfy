/** Sequences, counting maps and sorting shared by the component models. */
module Common {

  datatype Option<+T> = None | Some(value: T)

  datatype Result<+T, +E> = Ok(value: T) | Err(error: E)

  /** A Go map read: a missing key reads as zero. */
  function Get<K>(m: map<K, int>, k: K): int {
    if k in m then m[k] else 0
  }

  function Min(a: int, b: int): int { if a <= b then a else b }

  function Max(a: int, b: int): int { if a <= b then b else a }

  ghost predicate Distinct<T>(s: seq<T>) {
    forall i, j :: 0 <= i < j < |s| ==> s[i] != s[j]
  }

  function Elems<T>(s: seq<T>): set<T> {
    set x | x in s
  }

  lemma {:induction false} DistinctCardinality<T>(s: seq<T>)
    requires Distinct(s)
    ensures |Elems(s)| == |s|
  {
    if s != [] {
      var rest := s[1..];
      DistinctCardinality(rest);
      assert Elems(s) == Elems(rest) + {s[0]};
      assert s[0] !in Elems(rest);
    } else {
      assert Elems(s) == {};
    }
  }

  lemma {:induction false} DistinctCount<T>(s: seq<T>, x: T)
    requires Distinct(s)
    ensures multiset(s)[x] == if x in s then 1 else 0
  {
    if s != [] {
      assert s == [s[0]] + s[1..];
      DistinctCount(s[1..], x);
    }
  }

  lemma SubsetCardinality<T>(a: set<T>, b: set<T>)
    requires a <= b
    ensures |a| <= |b|
    ensures |a| == |b| ==> a == b
  {
    assert b == a + (b - a);
  }

  // ---------------------------------------------------------------------
  // Sorting, as the library sort leaves it: ordered and a permutation.
  // ---------------------------------------------------------------------

  /** less is a strict order in which ties only join equal elements of s. */
  ghost predicate Orders<T(!new)>(less: (T, T) -> bool, s: set<T>) {
    && (forall x :: !less(x, x))
    && (forall x, y, z :: less(x, y) && less(y, z) ==> less(x, z))
    && (forall x, y :: x in s && y in s && x != y ==> less(x, y) || less(y, x))
  }

  ghost predicate Sorted<T(!new)>(less: (T, T) -> bool, s: seq<T>) {
    forall i, j :: 0 <= i < j < |s| ==> !less(s[j], s[i])
  }

  function Insert<T>(less: (T, T) -> bool, x: T, s: seq<T>): (r: seq<T>)
    ensures multiset(r) == multiset(s) + multiset{x}
    ensures |r| == |s| + 1
  {
    if s == [] then [x]
    else if less(x, s[0]) then [x] + s
    else
      assert s == [s[0]] + s[1..];
      [s[0]] + Insert(less, x, s[1..])
  }

  function Sort<T>(less: (T, T) -> bool, s: seq<T>): (r: seq<T>)
    ensures multiset(r) == multiset(s)
    ensures |r| == |s|
  {
    if s == [] then []
    else
      assert s == [s[0]] + s[1..];
      Insert(less, s[0], Sort(less, s[1..]))
  }

  lemma {:induction false} InsertSorted<T(!new)>(less: (T, T) -> bool, x: T, s: seq<T>)
    requires Orders(less, Elems(s) + {x}) && Sorted(less, s)
    ensures Sorted(less, Insert(less, x, s))
  {
    if s != [] {
      if less(x, s[0]) {
        assert forall j :: 0 <= j < |s| && less(s[j], x) ==> less(s[j], s[0]);
        SortedCons(less, x, s);
      } else {
        var rest := s[1..];
        assert Elems(rest) + {x} <= Elems(s) + {x};
        InsertSorted(less, x, rest);
        hide Orders, Insert;
        var r := Insert(less, x, rest);
        forall j | 0 <= j < |r| ensures !less(r[j], s[0]) {
          assert r[j] in multiset(r);
          assert r[j] == x || r[j] in rest;
        }
        SortedCons(less, s[0], r);
      }
    }
  }

  lemma SortedCons<T(!new)>(less: (T, T) -> bool, x: T, s: seq<T>)
    requires Sorted(less, s) && forall j :: 0 <= j < |s| ==> !less(s[j], x)
    ensures Sorted(less, [x] + s)
  {
  }

  lemma {:induction false} SortSorted<T(!new)>(less: (T, T) -> bool, s: seq<T>)
    requires Orders(less, Elems(s))
    ensures Sorted(less, Sort(less, s))
  {
    if s != [] {
      var rest := s[1..];
      assert Elems(rest) <= Elems(s);
      SortSorted(less, rest);
      SameElems(Sort(less, rest), rest);
      assert Elems(Sort(less, rest)) + {s[0]} == Elems(s);
      InsertSorted(less, s[0], Sort(less, rest));
    }
  }

  lemma SameElems<T>(a: seq<T>, b: seq<T>)
    requires multiset(a) == multiset(b)
    ensures Elems(a) == Elems(b)
    ensures |a| == |b|
  {
    forall x ensures x in Elems(a) <==> x in Elems(b) {
      assert x in a <==> x in multiset(a);
      assert x in b <==> x in multiset(b);
    }
    assert |multiset(a)| == |a| && |multiset(b)| == |b|;
  }

  lemma DistinctPermutation<T>(a: seq<T>, b: seq<T>)
    requires multiset(a) == multiset(b) && Distinct(a)
    ensures Distinct(b)
  {
    forall i, j | 0 <= i < j < |b| ensures b[i] != b[j] {
      DistinctCount(a, b[j]);
      assert b == b[..j] + [b[j]] + b[j + 1..];
      assert multiset(b)[b[j]] >= multiset(b[..j])[b[j]] + 1;
      assert b[i] == b[..j][i];
    }
  }

  /** A sorted arrangement is unique: two sorted permutations are equal. */
  lemma {:induction false} SortedUnique<T(!new)>(less: (T, T) -> bool, a: seq<T>, b: seq<T>)
    requires Sorted(less, a) && Sorted(less, b) && multiset(a) == multiset(b)
    requires Orders(less, Elems(a))
    ensures a == b
    decreases |a|
  {
    hide Elems, Sorted, Orders;
    SameElems(a, b);
    if a != [] {
      SortedTails(less, a, b);
      SortedUnique(less, a[1..], b[1..]);
      assert a == [a[0]] + a[1..] && b == [b[0]] + b[1..];
    }
  }

  lemma SortedTails<T(!new)>(less: (T, T) -> bool, a: seq<T>, b: seq<T>)
    requires Sorted(less, a) && Sorted(less, b) && multiset(a) == multiset(b) && a != [] && b != []
    requires Orders(less, Elems(a))
    ensures a[0] == b[0] && multiset(a[1..]) == multiset(b[1..])
    ensures Sorted(less, a[1..]) && Sorted(less, b[1..]) && Orders(less, Elems(a[1..]))
  {
    hide Elems, Sorted, Orders;
    SameElems(a, b);
    SortedHead(less, a, b);
    SortedTail(less, a, Elems(a));
    SortedTail(less, b, Elems(a));
  }

  lemma SortedTail<T(!new)>(less: (T, T) -> bool, s: seq<T>, all: set<T>)
    requires s != [] && Sorted(less, s) && Orders(less, all) && Elems(s) <= all
    ensures Sorted(less, s[1..]) && Orders(less, Elems(s[1..]))
    ensures multiset(s[1..]) == multiset(s) - multiset{s[0]}
  {
    assert s == [s[0]] + s[1..];
    assert forall x :: x in Elems(s[1..]) ==> x in Elems(s);
  }

  lemma SortedHead<T(!new)>(less: (T, T) -> bool, a: seq<T>, b: seq<T>)
    requires Sorted(less, a) && Sorted(less, b) && a != [] && b != []
    requires Orders(less, Elems(a)) && Elems(a) == Elems(b)
    ensures a[0] == b[0]
  {
    assert a[0] in Elems(b) && b[0] in Elems(a);
    var i :| 0 <= i < |a| && a[i] == b[0];
    var j :| 0 <= j < |b| && b[j] == a[0];
    assert i == 0 || !less(a[i], a[0]);
    assert j == 0 || !less(b[j], b[0]);
  }

  /** So the order in which the elements arrive does not matter to a sort. */
  lemma SortPermutation<T(!new)>(less: (T, T) -> bool, a: seq<T>, b: seq<T>)
    requires multiset(a) == multiset(b) && Orders(less, Elems(a))
    ensures Sort(less, a) == Sort(less, b)
  {
    SameElems(a, b);
    SameElems(Sort(less, a), a);
    SortSorted(less, a);
    SortSorted(less, b);
    SortedUnique(less, Sort(less, a), Sort(less, b));
  }

  /** Byte-wise string comparison, the order of sort.Strings. */
  predicate StringLess(a: string, b: string) {
    if b == "" then false
    else if a == "" then true
    else if a[0] != b[0] then a[0] < b[0]
    else StringLess(a[1..], b[1..])
  }

  lemma StringLessIrreflexive(a: string)
    ensures !StringLess(a, a)
  {
  }

  lemma {:induction false} StringLessTransitive(a: string, b: string, c: string)
    requires StringLess(a, b) && StringLess(b, c)
    ensures StringLess(a, c)
  {
    if a != "" && a[0] == b[0] == c[0] {
      StringLessTransitive(a[1..], b[1..], c[1..]);
    }
  }

  lemma {:induction false} StringLessTotal(a: string, b: string)
    ensures a != b ==> StringLess(a, b) || StringLess(b, a)
  {
    if a != "" && b != "" && a[0] == b[0] {
      StringLessTotal(a[1..], b[1..]);
      assert a == [a[0]] + a[1..] && b == [b[0]] + b[1..];
    }
  }

  lemma StringsOrdered(s: set<string>)
    ensures Orders(StringLess, s)
  {
    forall x: string ensures !StringLess(x, x) { StringLessIrreflexive(x); }
    forall x, y, z | StringLess(x, y) && StringLess(y, z) ensures StringLess(x, z) {
      StringLessTransitive(x, y, z);
    }
    forall x, y | x in s && y in s && x != y ensures StringLess(x, y) || StringLess(y, x) {
      StringLessTotal(x, y);
    }
  }

  /** A set of strings as its sorted list of members. */
  method SortedStrings(s: set<string>) returns (r: seq<string>)
    ensures SortedList(r, s)
  {
    var rest, listed := s, [];
    while rest != {}
      invariant Elems(listed) + rest == s && Elems(listed) !! rest && Distinct(listed)
      decreases rest
    {
      var x :| x in rest;
      listed, rest := listed + [x], rest - {x};
    }
    r := Sort(StringLess, listed);
    SameElems(listed, r);
    DistinctPermutation(listed, r);
    StringsOrdered(Elems(listed));
    SortSorted(StringLess, listed);
  }

  /** What StringLess compares: a proper prefix, or the smaller character at the first difference. */
  lemma {:induction false} StringLessIff(a: string, b: string)
    ensures StringLess(a, b) <==> exists i :: SmallerAt(a, b, i)
  {
    hide SmallerAt;
    if b == "" {
      NoneSmaller(a);
    } else if a == "" || a[0] != b[0] {
      SmallerHere(a, b);
    } else {
      StringLessIff(a[1..], b[1..]);
      forall i ensures SmallerAt(a, b, i) <==> SmallerAt(a[1..], b[1..], i - 1) { SmallerLater(a, b, i); }
      if i :| SmallerAt(a[1..], b[1..], i) { assert SmallerAt(a, b, i + 1) by { SmallerLater(a, b, i + 1); } }
    }
  }

  lemma NoneSmaller(a: string)
    ensures forall i :: !SmallerAt(a, "", i)
  {
  }

  lemma SmallerHere(a: string, b: string)
    requires b != "" && (a == "" || a[0] != b[0])
    ensures (exists i :: SmallerAt(a, b, i)) <==> a == "" || a[0] < b[0]
  {
    forall i | SmallerAt(a, b, i) ensures i == 0 {
      if i > 0 { SameHead(a, b, i); }
    }
    assert a == "" || a[0] < b[0] ==> SmallerAt(a, b, 0);
  }

  lemma SmallerLater(a: string, b: string, i: int)
    requires a != "" && b != "" && a[0] == b[0]
    ensures SmallerAt(a, b, i) <==> SmallerAt(a[1..], b[1..], i - 1)
  {
    if 0 < i <= |a| && i < |b| {
      assert a[..i] == [a[0]] + a[1..][..i - 1] && b[..i] == [b[0]] + b[1..][..i - 1];
      if a[..i] == b[..i] { assert a[1..][..i - 1] == a[..i][1..] && b[1..][..i - 1] == b[..i][1..]; }
    }
  }

  lemma SameHead(a: string, b: string, i: nat)
    requires 0 < i <= |a| && i <= |b| && a[..i] == b[..i]
    ensures a[0] == b[0]
  {
    assert a[..i][0] == b[..i][0];
  }

  ghost predicate SmallerAt(a: string, b: string, i: int) {
    0 <= i <= |a| && i < |b| && a[..i] == b[..i] && (i == |a| || a[i] < b[i])
  }

  /** The sorted list of a set of strings. */
  ghost predicate SortedList(r: seq<string>, s: set<string>) {
    Elems(r) == s && Distinct(r) && Sorted(StringLess, r)
  }

  lemma ListUnique(a: seq<string>, b: seq<string>, s: set<string>)
    requires SortedList(a, s) && SortedList(b, s)
    ensures a == b
  {
    StringsOrdered(s);
    DistinctMultisets(a, b);
    hide Orders, Sorted, Distinct, StringLess;
    SortedUnique(StringLess, a, b);
  }

  lemma DistinctMultisets<T>(a: seq<T>, b: seq<T>)
    requires Distinct(a) && Distinct(b) && Elems(a) == Elems(b)
    ensures multiset(a) == multiset(b)
  {
    forall x ensures multiset(a)[x] == multiset(b)[x] {
      DistinctCount(a, x);
      DistinctCount(b, x);
      assert x in a <==> x in Elems(a);
      assert x in b <==> x in Elems(b);
    }
  }

  lemma ListExists(s: set<string>)
    ensures exists r :: SortedList(r, s)
  {
    var rest, listed := s, [];
    while rest != {}
      invariant Elems(listed) + rest == s && Elems(listed) !! rest && Distinct(listed)
      decreases rest
    {
      var x :| x in rest;
      listed, rest := listed + [x], rest - {x};
    }
    var r := Sort(StringLess, listed);
    SameElems(listed, r);
    DistinctPermutation(listed, r);
    StringsOrdered(Elems(listed));
    SortSorted(StringLess, listed);
    assert SortedList(r, s);
  }

  ghost function ListOfSet(s: set<string>): (r: seq<string>)
    ensures SortedList(r, s)
  {
    ListExists(s);
    var r :| SortedList(r, s);
    r
  }

  /** The first n elements, or all when there are fewer. */
  function Taken<T>(s: seq<T>, n: nat): seq<T> {
    if |s| <= n then s else s[..n]
  }

  lemma TakenPrefix<T>(part: seq<T>, whole: seq<T>, n: nat)
    requires part <= whole && |part| <= n && (|part| == n || part == whole)
    ensures part == Taken(whole, n)
  {
  }

  lemma TakenTwice<T>(a: seq<T>, b: seq<T>, n: nat)
    ensures |Taken(a, n)| <= n && Taken(a, n) + Taken(b, n - |Taken(a, n)|) == Taken(a + b, n)
  {
    TakenSum(a, b, n);
  }

  lemma TakenSum<T>(a: seq<T>, b: seq<T>, n: nat)
    ensures Taken(a + b, n) == if |a| >= n then Taken(a, n) else a + Taken(b, n - |a|)
  {
    if |a| >= n { assert |a + b| > n ==> (a + b)[..n] == a[..n]; }
  }

  lemma MulAtLeast(n: nat, d: int)
    requires d >= 1
    ensures n * d >= n
  {
  }

  lemma UniqueRemainder(x: nat, n: nat, q: nat, r: nat)
    requires n > 0 && r < n && x == n * q + r
    ensures x % n == r && x / n == q
  {
    var d := q - x / n;
    assert n * d == x % n - r;
    if d >= 1 {
      MulAtLeast(n, d);
      assert false;
    }
    if d <= -1 {
      assert n * -d == r - x % n;
      MulAtLeast(n, -d);
      assert false;
    }
  }
}

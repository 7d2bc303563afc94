/** Laws of the wire format: round trips, prefix freedom, and what reading any bytes can do. */
module WireLaws {
  import opened Common
  import opened Bytes
  import opened Schemas

  /** The data stands in b at pos. */
  ghost predicate At(b: Data, pos: nat, d: Data) {
    pos + |d| <= |b| && b[pos..pos + |d|] == d
  }

  lemma AtSplit(b: Data, pos: nat, x: Data, y: Data)
    requires At(b, pos, x + y)
    ensures At(b, pos, x) && At(b, pos + |x|, y)
  {
    var d := b[pos..pos + |x + y|];
    assert b[pos..pos + |x|] == d[..|x|] == x;
    assert b[pos + |x|..pos + |x| + |y|] == d[|x|..] == y;
  }

  /** The data stands in b at pos, before the spare bytes. */
  ghost predicate Before(m: Mode, b: Data, pos: nat, d: Data) {
    At(b, pos, d) && pos + |d| <= End(m, b)
  }

  lemma BeforeSplit(m: Mode, b: Data, pos: nat, x: Data, y: Data)
    requires Before(m, b, pos, x + y)
    ensures Before(m, b, pos, x) && Before(m, b, pos + |x|, y)
  {
    AtSplit(b, pos, x, y);
  }

  /** Nil cannot be told from a length without checks. */
  ghost predicate Readable(m: Mode, s: Schema) {
    m.Checked? || NoBlob(s)
  }

  ghost predicate NoBlob(s: Schema) {
    match s
    case Blob => false
    case List(e) => NoBlob(e)
    case Pair(s1, s2) => NoBlob(s1) && NoBlob(s2)
    case _ => true
  }

  lemma ReadIntAt(m: Mode, b: Data, pos: nat, v: int, w: nat, signed: bool)
    requires InRange(v, w, signed) && Before(m, b, pos, IntBytes(v, w, signed))
    ensures ReadInt(m, b, pos, w, signed) == Got(v, pos + w)
  {
    hide IntBytes, IntOf;
    IntRoundTrip(v, w, signed);
  }

  lemma SameBits(n: nat)
    requires n <= MAX_MESSAGE_SIZE
    ensures InRange(n, 4, true) && InRange(n, 4, false) && IntBytes(n, 4, true) == IntBytes(n, 4, false)
  {
    LengthInRange(n);
  }

  /** An unclamped length prefix reads back with or without checks. */
  lemma ReadLengthAt(m: Mode, b: Data, pos: nat, n: nat)
    requires n <= MAX_MESSAGE_SIZE && Before(m, b, pos, LengthBytes(n))
    ensures ReadInt(m, b, pos, 4, m.Checked?) == Got(n, pos + 4)
  {
    hide IntBytes, IntOf, Before;
    SameBits(n);
    ReadIntAt(m, b, pos, n, 4, m.Checked?);
  }

  lemma ReadDataAt(m: Mode, b: Data, pos: nat, d: Data, nullable: bool)
    requires |d| <= MAX_MESSAGE_SIZE && Before(m, b, pos, LengthBytes(|d|) + d)
    ensures ReadData(m, b, pos, nullable) == Got(Some(d), pos + 4 + |d|)
  {
    hide LengthBytes, ReadInt;
    BeforeSplit(m, b, pos, LengthBytes(|d|), d);
    ReadLengthAt(m, b, pos, |d|);
  }

  lemma ReadNilAt(m: Mode, b: Data, pos: nat)
    requires m.Checked? && Before(m, b, pos, NilLength())
    ensures ReadData(m, b, pos, true) == Got(None, pos + 4)
  {
    hide IntBytes, IntOf, ReadInt;
    LengthInRange(0);
    ReadIntAt(m, b, pos, -1, 4, true);
  }

  /** Reading a written value, wherever it stands and whatever follows, gives the value and ends at its end. */
  lemma {:induction false} ParseWritten(m: Mode, s: Schema, v: Value, b: Data, pos: nat)
    requires Fits(s, v) && Readable(m, s) && |Enc(s, v)| <= MAX_MESSAGE_SIZE && Before(m, b, pos, Enc(s, v))
    ensures pos <= |b| && Parse(m, s, b, pos) == Got(v, pos + |Enc(s, v)|)
    decreases s, 0, 0
  {
    hide Parse, ParseItems, Enc, EncItems, Before, LengthBytes, ReadCount;
    BeforeBounds(m, b, pos, Enc(s, v));
    match s
    case List(e) =>
      EncOfList(e, v.items);
      var items := EncItems(e, v.items, |v.items|);
      BeforeSplit(m, b, pos, LengthBytes(|v.items|), items);
      BeforeBounds(m, b, pos + 4, items);
      ItemsTakeSpace(e, v.items, |v.items|);
      ReadCountAt(m, b, pos, |v.items|, |items|);
      ParseItemsWritten(m, e, v.items, b, pos + 4, |v.items|);
      assert v.items[..|v.items|] == v.items;
      ParseOfList(m, e, b, pos, v.items, pos + 4 + |items|);
    case Pair(s1, s2) =>
      EncOfPair(s1, s2, v);
      BeforeSplit(m, b, pos, Enc(s1, v.a), Enc(s2, v.c));
      ParseWritten(m, s1, v.a, b, pos);
      ParseWritten(m, s2, v.c, b, pos + |Enc(s1, v.a)|);
      ParseOfPair(m, s1, s2, b, pos);
    case _ => ScalarWritten(m, s, v, b, pos);
  }

  lemma EncOfList(e: Schema, items: seq<Value>)
    requires Fits(List(e), ListV(items))
    ensures Enc(List(e), ListV(items)) == LengthBytes(|items|) + EncItems(e, items, |items|)
  {
    hide LengthBytes, EncItems;
  }

  lemma EncOfPair(s1: Schema, s2: Schema, v: Value)
    requires Fits(Pair(s1, s2), v)
    ensures Enc(Pair(s1, s2), v) == Enc(s1, v.a) + Enc(s2, v.c)
  {
  }

  lemma ParseOfList(m: Mode, e: Schema, b: Data, pos: nat, items: seq<Value>, next: nat)
    requires pos + 4 <= |b| && ReadCount(m, b, pos) == Got(|items|, pos + 4) && ParseItems(m, e, b, pos + 4, |items|) == Got(items, next)
    ensures Parse(m, List(e), b, pos) == Got(ListV(items), next)
  {
    hide ReadCount, ParseItems;
  }

  lemma ParseOfPair(m: Mode, s1: Schema, s2: Schema, b: Data, pos: nat)
    requires pos <= |b| && Parse(m, s1, b, pos).Got? && Parse(m, s2, b, Parse(m, s1, b, pos).next).Got?
    ensures var r1 := Parse(m, s1, b, pos);
            var r2 := Parse(m, s2, b, r1.next);
            Parse(m, Pair(s1, s2), b, pos) == Got(PairV(r1.value, r2.value), r2.next)
  {
  }

  lemma ScalarWritten(m: Mode, s: Schema, v: Value, b: Data, pos: nat)
    requires !s.List? && !s.Pair?
    requires Fits(s, v) && Readable(m, s) && |Enc(s, v)| <= MAX_MESSAGE_SIZE && pos <= |b| && Before(m, b, pos, Enc(s, v))
    ensures Parse(m, s, b, pos) == Got(v, pos + |Enc(s, v)|)
  {
    hide LengthBytes, ReadInt, ReadData, IntBytes, NilLength, Before;
    match s
    case Int(w, signed) => ReadIntAt(m, b, pos, v.i, w, signed);
    case Flag => FlagAt(m, b, pos, v.b);
    case Text => ReadDataAt(m, b, pos, v.text, false);
    case Blob => if v.blob.None? { ReadNilAt(m, b, pos); } else { ReadDataAt(m, b, pos, v.blob.value, true); }
  }

  lemma FlagAt(m: Mode, b: Data, pos: nat, f: bool)
    requires Before(m, b, pos, [if f then 1 as char else 0 as char])
    ensures Parse(m, Flag, b, pos) == Got(FlagV(f), pos + 1)
  {
  }

  /** The count is never rejected: there is at least a byte for every item. */
  lemma ReadCountAt(m: Mode, b: Data, pos: nat, n: nat, space: nat)
    requires Before(m, b, pos, LengthBytes(n)) && n <= space <= MAX_MESSAGE_SIZE && pos + 4 + space <= End(m, b)
    ensures ReadCount(m, b, pos) == Got(n, pos + 4)
  {
    hide LengthBytes, ReadInt;
    ReadLengthAt(m, b, pos, n);
  }

  lemma {:induction false} ParseItemsWritten(m: Mode, e: Schema, items: seq<Value>, b: Data, pos: nat, k: nat)
    requires k <= |items| && forall i :: 0 <= i < |items| ==> Fits(e, items[i])
    requires Readable(m, e) && |EncItems(e, items, k)| <= MAX_MESSAGE_SIZE && Before(m, b, pos, EncItems(e, items, k))
    ensures ParseItems(m, e, b, pos, k) == Got(items[..k], pos + |EncItems(e, items, k)|)
    decreases e, 1, k
  {
    hide Before, Parse, Enc;
    BeforeBounds(m, b, pos, EncItems(e, items, k));
    if k > 0 {
      BeforeSplit(m, b, pos, EncItems(e, items, k - 1), Enc(e, items[k - 1]));
      ParseItemsWritten(m, e, items, b, pos, k - 1);
      ParseWritten(m, e, items[k - 1], b, pos + |EncItems(e, items, k - 1)|);
      assert items[..k - 1] + [items[k - 1]] == items[..k];
    }
  }

  lemma BeforeBounds(m: Mode, b: Data, pos: nat, d: Data)
    requires Before(m, b, pos, d)
    ensures pos + |d| <= End(m, b) && pos + |d| <= |b|
  {
  }

  /** Round trip: a payload that fits a message, followed by anything, decodes to itself. */
  lemma RoundTrip(m: Mode, s: Schema, v: Value, trailing: Data)
    requires Fits(s, v) && Readable(m, s) && |Enc(s, v)| <= MAX_MESSAGE_SIZE && (m.Unchecked? ==> m.spare <= |trailing|)
    ensures Parse(m, s, Enc(s, v) + trailing, 0) == Got(v, |Enc(s, v)|)
  {
    hide Parse, Enc;
    var b := Enc(s, v) + trailing;
    assert b[0..|Enc(s, v)|] == Enc(s, v);
    ParseWritten(m, s, v, b, 0);
  }

  /** So no two payloads of a type share their bytes. */
  lemma EncInjective(s: Schema, v: Value, w: Value)
    requires Fits(s, v) && Fits(s, w) && |Enc(s, v)| <= MAX_MESSAGE_SIZE && Enc(s, v) == Enc(s, w)
    ensures v == w
  {
    hide Parse, Enc;
    RoundTrip(Checked, s, v, []);
    RoundTrip(Checked, s, w, []);
  }

  // ---------------------------------------------------------------------
  // Reading any bytes
  // ---------------------------------------------------------------------

  lemma TakeMore(b: Data, x: Data, pos: nat, n: int)
    requires pos <= |b| && Take(b, pos, n).Got?
    ensures Take(b + x, pos, n) == Take(b, pos, n)
  {
    assert (b + x)[pos..pos + n] == b[pos..pos + n];
  }

  lemma ReadIntMore(m: Mode, b: Data, x: Data, pos: nat, w: nat, signed: bool)
    requires pos <= |b| && ReadInt(m, b, pos, w, signed).Got?
    ensures ReadInt(m, b + x, pos, w, signed) == ReadInt(m, b, pos, w, signed)
  {
    TakeMore(b, x, pos, w);
  }

  lemma ReadDataMore(m: Mode, b: Data, x: Data, pos: nat, nullable: bool)
    requires pos <= |b| && ReadData(m, b, pos, nullable).Got?
    ensures ReadData(m, b + x, pos, nullable) == ReadData(m, b, pos, nullable)
  {
    hide ReadInt, Take;
    ReadIntMore(m, b, x, pos, 4, m.Checked?);
    var n := ReadInt(m, b, pos, 4, m.Checked?).value;
    if n >= 0 { TakeMore(b, x, pos + 4, n); }
  }

  /** What was read from some bytes is read from any longer ones. */
  lemma {:induction false} ParseMore(m: Mode, s: Schema, b: Data, x: Data, pos: nat)
    requires pos <= |b| && Parse(m, s, b, pos).Got?
    ensures Parse(m, s, b + x, pos) == Parse(m, s, b, pos)
    decreases s, 0, 0
  {
    hide ReadInt, ReadData;
    match s
    case Int(w, signed) => ReadIntMore(m, b, x, pos, w, signed);
    case Flag => TakeMore(b, x, pos, 1);
    case Text => ReadDataMore(m, b, x, pos, false);
    case Blob => ReadDataMore(m, b, x, pos, true);
    case List(e) =>
      ReadIntMore(m, b, x, pos, 4, m.Checked?);
      ParseItemsMore(m, e, b, x, pos + 4, ReadCount(m, b, pos).value);
    case Pair(s1, s2) =>
      ParseMore(m, s1, b, x, pos);
      ParseMore(m, s2, b, x, Parse(m, s1, b, pos).next);
  }

  lemma {:induction false} ParseItemsMore(m: Mode, e: Schema, b: Data, x: Data, pos: nat, n: nat)
    requires pos <= |b| && ParseItems(m, e, b, pos, n).Got?
    ensures ParseItems(m, e, b + x, pos, n) == ParseItems(m, e, b, pos, n)
    decreases e, 1, n
  {
    hide Parse;
    if n > 0 {
      ParseItemsMore(m, e, b, x, pos, n - 1);
      ParseMore(m, e, b, x, ParseItems(m, e, b, pos, n - 1).next);
    }
  }

  /** Every proper prefix of an encoding is rejected, unless there are spare bytes to run into. */
  lemma PrefixRejected(m: Mode, s: Schema, v: Value, k: nat)
    requires Fits(s, v) && Readable(m, s) && (m.Unchecked? ==> m.spare == 0) && k < |Enc(s, v)| <= MAX_MESSAGE_SIZE
    ensures Parse(m, s, Enc(s, v)[..k], 0).Bad?
  {
    hide Parse, Enc;
    var d := Enc(s, v);
    RoundTrip(m, s, v, []);
    assert d + [] == d && d[..k] + d[k..] == d;
    if Parse(m, s, d[..k], 0).Got? { ParseMore(m, s, d[..k], d[k..], 0); }
  }

  /** Whatever is accepted fits its schema, and the position of an error lies within the bytes. */
  lemma {:induction false} ParseSound(m: Mode, s: Schema, b: Data, pos: nat)
    requires pos <= |b| && WidthsPositive(s)
    ensures Parse(m, s, b, pos).Got? ==> Fits(s, Parse(m, s, b, pos).value)
    ensures Parse(m, s, b, pos).Bad? ==> pos <= Parse(m, s, b, pos).error.at <= |b|
    decreases s, 0, 0
  {
    match s
    case Int(_, _) =>
    case Flag =>
    case Text =>
    case Blob =>
    case List(e) =>
      if ReadCount(m, b, pos).Got? { ParseItemsSound(m, e, b, pos + 4, ReadCount(m, b, pos).value); }
    case Pair(s1, s2) =>
      ParseSound(m, s1, b, pos);
      if Parse(m, s1, b, pos).Got? { ParseSound(m, s2, b, Parse(m, s1, b, pos).next); }
  }

  ghost predicate WidthsPositive(s: Schema) {
    match s
    case Int(w, _) => w > 0
    case List(e) => WidthsPositive(e)
    case Pair(s1, s2) => WidthsPositive(s1) && WidthsPositive(s2)
    case _ => true
  }

  lemma {:induction false} ParseItemsSound(m: Mode, e: Schema, b: Data, pos: nat, n: nat)
    requires pos <= |b| && WidthsPositive(e)
    ensures var r := ParseItems(m, e, b, pos, n);
            && (r.Got? ==> forall i :: 0 <= i < |r.value| ==> Fits(e, r.value[i]))
            && (r.Bad? ==> pos <= r.error.at <= |b|)
    decreases e, 1, n
  {
    hide Parse;
    if n > 0 {
      ParseItemsSound(m, e, b, pos, n - 1);
      var r := ParseItems(m, e, b, pos, n - 1);
      if r.Got? { ParseSound(m, e, b, r.next); }
    }
  }

  ghost predicate NoFlag(s: Schema) {
    match s
    case Flag => false
    case List(e) => NoFlag(e)
    case Pair(s1, s2) => NoFlag(s1) && NoFlag(s2)
    case _ => true
  }

  lemma AtJoin(b: Data, pos: nat, x: Data, y: Data)
    requires At(b, pos, x) && At(b, pos + |x|, y)
    ensures At(b, pos, x + y)
  {
    assert b[pos..pos + |x + y|] == b[pos..pos + |x|] + b[pos + |x|..pos + |x| + |y|];
  }

  lemma IntConsumed(m: Mode, b: Data, pos: nat, w: nat, signed: bool)
    requires pos <= |b| && ReadInt(m, b, pos, w, signed).Got?
    ensures At(b, pos, IntBytes(ReadInt(m, b, pos, w, signed).value, w, signed))
  {
    hide IntBytes, IntOf;
    IntBytesOf(b[pos..pos + w], signed);
  }

  lemma LengthConsumed(m: Mode, b: Data, pos: nat)
    requires pos <= |b| && ReadInt(m, b, pos, 4, m.Checked?).Got? && 0 <= ReadInt(m, b, pos, 4, m.Checked?).value <= MAX_MESSAGE_SIZE
    ensures At(b, pos, LengthBytes(ReadInt(m, b, pos, 4, m.Checked?).value))
  {
    hide IntBytes, IntOf, At;
    IntConsumed(m, b, pos, 4, m.Checked?);
    SameBits(ReadInt(m, b, pos, 4, m.Checked?).value);
  }

  lemma DataConsumed(m: Mode, b: Data, pos: nat, nullable: bool)
    requires pos <= |b| <= MAX_MESSAGE_SIZE && (m.Checked? || !nullable) && ReadData(m, b, pos, nullable).Got?
    ensures var d := ReadData(m, b, pos, nullable).value;
            var w := if d.None? then NilLength() else LengthBytes(|d.value|) + d.value;
            At(b, pos, w) && ReadData(m, b, pos, nullable).next == pos + |w|
  {
    hide LengthBytes, IntBytes, IntOf, ReadInt;
    var d := ReadData(m, b, pos, nullable).value;
    if d.None? {
      IntConsumed(m, b, pos, 4, true);
    } else {
      LengthConsumed(m, b, pos);
      AtJoin(b, pos, LengthBytes(|d.value|), d.value);
    }
  }

  /** What is accepted takes as many bytes as writing it would; without booleans, those very bytes. */
  lemma {:induction false} ParseExact(m: Mode, s: Schema, b: Data, pos: nat)
    requires pos <= |b| <= MAX_MESSAGE_SIZE && WidthsPositive(s) && Readable(m, s) && Parse(m, s, b, pos).Got?
    ensures var v := Parse(m, s, b, pos).value;
            && Fits(s, v) && Parse(m, s, b, pos).next == pos + |Enc(s, v)|
            && (NoFlag(s) ==> At(b, pos, Enc(s, v)))
    decreases s, 0, 0
  {
    hide Parse, ParseItems, Enc, EncItems, At, LengthBytes, ReadCount, ReadInt;
    ParseSound(m, s, b, pos);
    match s
    case List(e) =>
      ListParsed(m, e, b, pos);
      var n := ReadCount(m, b, pos).value;
      ParseItemsExact(m, e, b, pos + 4, n);
      var items := ParseItems(m, e, b, pos + 4, n).value;
      EncOfList(e, items);
      ItemsTakeSpace(e, items, n);
      LengthConsumed(m, b, pos);
      if NoFlag(e) { AtJoin(b, pos, LengthBytes(n), EncItems(e, items, n)); }
    case Pair(s1, s2) =>
      PairParsed(m, s1, s2, b, pos);
      var r1 := Parse(m, s1, b, pos);
      var r2 := Parse(m, s2, b, r1.next);
      ParseExact(m, s1, b, pos);
      ParseExact(m, s2, b, r1.next);
      EncOfPair(s1, s2, PairV(r1.value, r2.value));
      if NoFlag(s) { AtJoin(b, pos, Enc(s1, r1.value), Enc(s2, r2.value)); }
    case _ => ScalarExact(m, s, b, pos);
  }

  lemma ListParsed(m: Mode, e: Schema, b: Data, pos: nat)
    requires pos <= |b| && Parse(m, List(e), b, pos).Got?
    ensures ReadCount(m, b, pos).Got? && ReadCount(m, b, pos).next == pos + 4
    ensures ReadInt(m, b, pos, 4, m.Checked?) == Got(ReadCount(m, b, pos).value, pos + 4)
    ensures var r := ParseItems(m, e, b, pos + 4, ReadCount(m, b, pos).value);
            r.Got? && Parse(m, List(e), b, pos) == Got(ListV(r.value), r.next)
  {
    hide ReadInt, ParseItems;
  }

  lemma PairParsed(m: Mode, s1: Schema, s2: Schema, b: Data, pos: nat)
    requires pos <= |b| && Parse(m, Pair(s1, s2), b, pos).Got?
    ensures Parse(m, s1, b, pos).Got? && Parse(m, s2, b, Parse(m, s1, b, pos).next).Got?
    ensures var r1 := Parse(m, s1, b, pos);
            var r2 := Parse(m, s2, b, r1.next);
            Parse(m, Pair(s1, s2), b, pos) == Got(PairV(r1.value, r2.value), r2.next)
  {
  }

  lemma ScalarExact(m: Mode, s: Schema, b: Data, pos: nat)
    requires !s.List? && !s.Pair?
    requires pos <= |b| <= MAX_MESSAGE_SIZE && WidthsPositive(s) && Readable(m, s) && Parse(m, s, b, pos).Got?
    requires Fits(s, Parse(m, s, b, pos).value)
    ensures var v := Parse(m, s, b, pos).value;
            && Parse(m, s, b, pos).next == pos + |Enc(s, v)|
            && (NoFlag(s) ==> At(b, pos, Enc(s, v)))
  {
    hide LengthBytes, ReadInt, ReadData, IntBytes, NilLength, At;
    match s
    case Int(w, signed) => IntConsumed(m, b, pos, w, signed);
    case Flag =>
    case Text => DataConsumed(m, b, pos, false);
    case Blob => DataConsumed(m, b, pos, true);
  }

  lemma {:induction false} ParseItemsExact(m: Mode, e: Schema, b: Data, pos: nat, n: nat)
    requires pos <= |b| <= MAX_MESSAGE_SIZE && WidthsPositive(e) && Readable(m, e)
    requires ParseItems(m, e, b, pos, n).Got?
    ensures var r := ParseItems(m, e, b, pos, n);
            && (forall i :: 0 <= i < |r.value| ==> Fits(e, r.value[i]))
            && r.next == pos + |EncItems(e, r.value, n)|
            && (NoFlag(e) ==> At(b, pos, EncItems(e, r.value, n)))
    decreases e, 1, n
  {
    hide Parse, Enc, At;
    ParseItemsSound(m, e, b, pos, n);
    var r := ParseItems(m, e, b, pos, n);
    if n == 0 {
      NothingAt(b, pos);
    } else {
      var t := ParseItems(m, e, b, pos, n - 1);
      assert r.value == t.value + [r.value[n - 1]];
      ParseItemsExact(m, e, b, pos, n - 1);
      EncItemsPrefix(e, t.value, r.value, n - 1);
      ParseExact(m, e, b, t.next);
      if NoFlag(e) { AtJoin(b, pos, EncItems(e, t.value, n - 1), Enc(e, r.value[n - 1])); }
    }
  }

  lemma NothingAt(b: Data, pos: nat)
    requires pos <= |b|
    ensures At(b, pos, [])
  {
  }

  lemma {:induction false} EncItemsPrefix(e: Schema, xs: seq<Value>, ys: seq<Value>, k: nat)
    requires k <= |xs| && xs <= ys
    requires forall i :: 0 <= i < |ys| ==> Fits(e, ys[i])
    ensures forall i :: 0 <= i < |xs| ==> Fits(e, xs[i])
    ensures EncItems(e, xs, k) == EncItems(e, ys, k)
  {
    assert forall i :: 0 <= i < |xs| ==> xs[i] == ys[i];
    if k > 0 { EncItemsPrefix(e, xs, ys, k - 1); }
  }

  // ---------------------------------------------------------------------
  // Spare bytes
  // ---------------------------------------------------------------------

  lemma TextWithSpare(b: Data, spare: Data, pos: nat)
    requires pos <= |b|
    ensures var r, t := ReadData(Unchecked(|spare|), b + spare, pos, false), ReadData(Unchecked(0), b, pos, false);
            (t.Got? ==> r == t) && (r.Got? && r.next <= |b| ==> t == r)
  {
    hide IntOf;
    if 4 <= |b| - pos {
      assert (b + spare)[pos..pos + 4] == b[pos..pos + 4];
      var n := IntOf(b[pos..pos + 4], false);
      if n <= |b| - pos - 4 { assert (b + spare)[pos + 4..pos + 4 + n] == b[pos + 4..pos + 4 + n]; }
    }
  }

  lemma IntWithSpare(b: Data, spare: Data, pos: nat, w: nat, signed: bool)
    requires pos <= |b|
    ensures ReadInt(Unchecked(|spare|), b + spare, pos, w, signed) == ReadInt(Unchecked(0), b, pos, w, signed)
  {
    hide IntOf;
    if w <= |b| - pos { assert (b + spare)[pos..pos + w] == b[pos..pos + w]; }
  }

  lemma FlagWithSpare(b: Data, spare: Data, pos: nat)
    requires pos <= |b|
    ensures Parse(Unchecked(|spare|), Flag, b + spare, pos) == Parse(Unchecked(0), Flag, b, pos)
  {
    if 1 <= |b| - pos { assert (b + spare)[pos..pos + 1] == b[pos..pos + 1]; }
  }

  lemma CountWithSpare(b: Data, spare: Data, pos: nat)
    requires pos <= |b|
    ensures ReadCount(Unchecked(|spare|), b + spare, pos) == ReadCount(Unchecked(0), b, pos)
  {
    hide ReadInt;
    IntWithSpare(b, spare, pos, 4, false);
  }

  /** Spare bytes change nothing that ends before them: what is read without them is read with them, and the other way round. */
  lemma {:induction false} SpareOnlyAtTheEnd(s: Schema, b: Data, spare: Data, pos: nat)
    requires pos <= |b| && NoBlob(s)
    ensures var r, t := Parse(Unchecked(|spare|), s, b + spare, pos), Parse(Unchecked(0), s, b, pos);
            (t.Got? ==> r == t) && (r.Got? && r.next <= |b| ==> t == r)
    decreases s, 0, 0
  {
    hide ReadInt, ReadData, TakeFixed, ReadCount, ParseItems;
    match s
    case Int(w, signed) => IntWithSpare(b, spare, pos, w, signed);
    case Flag => FlagWithSpare(b, spare, pos);
    case Text => TextWithSpare(b, spare, pos);
    case List(e) =>
      CountWithSpare(b, spare, pos);
      var n := ReadCount(Unchecked(0), b, pos);
      if n.Got? { SpareItems(e, b, spare, pos + 4, n.value); }
    case Pair(s1, s2) =>
      SpareOnlyAtTheEnd(s1, b, spare, pos);
      var r := Parse(Unchecked(|spare|), s1, b + spare, pos);
      if r.Got? && r.next <= |b| { SpareOnlyAtTheEnd(s2, b, spare, r.next); }
  }

  lemma {:induction false} SpareItems(e: Schema, b: Data, spare: Data, pos: nat, n: nat)
    requires pos <= |b| && NoBlob(e)
    ensures var r, t := ParseItems(Unchecked(|spare|), e, b + spare, pos, n), ParseItems(Unchecked(0), e, b, pos, n);
            (t.Got? ==> r == t) && (r.Got? && r.next <= |b| ==> t == r)
    decreases e, 1, n
  {
    hide Parse;
    if n > 0 {
      SpareItems(e, b, spare, pos, n - 1);
      var r := ParseItems(Unchecked(|spare|), e, b + spare, pos, n - 1);
      if r.Got? && r.next <= |b| { SpareOnlyAtTheEnd(e, b, spare, r.next); }
    }
  }

  /** Schemas whose last field is an integer. */
  ghost predicate EndsFixed(s: Schema) {
    match s
    case Int(_, _) => true
    case Flag => true
    case Pair(_, s2) => EndsFixed(s2)
    case _ => false
  }

  /** They never end in the spare bytes. */
  lemma {:induction false} FixedEndsBefore(m: Mode, s: Schema, b: Data, pos: nat)
    requires pos <= |b| && EndsFixed(s) && Parse(m, s, b, pos).Got?
    ensures Parse(m, s, b, pos).next <= End(m, b)
  {
    hide ReadInt, ReadData;
    if s.Pair? { FixedEndsBefore(m, s.second, b, Parse(m, s.first, b, pos).next); }
  }

  /** How much of a written value is the string it ends with. */
  ghost function LastText(s: Schema, v: Value): nat
    requires Fits(s, v)
    decreases s
  {
    match s
    case Text => |v.text|
    case List(e) => if v.items == [] then 0 else LastText(e, v.items[|v.items| - 1])
    case Pair(s1, s2) => LastText(s2, v.c)
    case _ => 0
  }

  lemma {:induction false} LastTextWithin(s: Schema, v: Value)
    requires Fits(s, v)
    ensures LastText(s, v) <= |Enc(s, v)|
    decreases s
  {
    hide EncItems, LengthBytes, IntBytes, NilLength;
    match s
    case List(e) => if v.items != [] { LastTextWithin(e, v.items[|v.items| - 1]); LastItem(e, v.items); }
    case Pair(s1, s2) => LastTextWithin(s2, v.c);
    case _ =>
  }

  lemma LastItem(e: Schema, items: seq<Value>)
    requires items != [] && forall i :: 0 <= i < |items| ==> Fits(e, items[i])
    ensures EncItems(e, items, |items|) == EncItems(e, items, |items| - 1) + Enc(e, items[|items| - 1])
  {
    hide Enc;
  }

  /** A written value may stand with the end of its last string in the spare bytes, and is still read back whole. */
  lemma {:induction false} ParseIntoSpare(m: Mode, s: Schema, v: Value, b: Data, pos: nat)
    requires Fits(s, v) && Readable(m, s) && |Enc(s, v)| <= MAX_MESSAGE_SIZE && At(b, pos, Enc(s, v))
    requires pos + |Enc(s, v)| <= End(m, b) + LastText(s, v)
    ensures pos <= |b| && Parse(m, s, b, pos) == Got(v, pos + |Enc(s, v)|)
    decreases s, 0
  {
    hide Parse, ParseItems, Enc, EncItems, At, LengthBytes, ReadCount;
    AtEnd(b, pos, Enc(s, v));
    match s
    case Text => TextIntoSpare(m, v, b, pos);
    case List(e) =>
      EncOfList(e, v.items);
      if v.items == [] {
        WholeBefore(m, s, v, b, pos);
      } else {
        ListIntoSpare(m, e, v.items, b, pos);
      }
    case Pair(s1, s2) =>
      EncOfPair(s1, s2, v);
      AtSplit(b, pos, Enc(s1, v.a), Enc(s2, v.c));
      LastTextWithin(s2, v.c);
      WholeBefore(m, s1, v.a, b, pos);
      ParseIntoSpare(m, s2, v.c, b, pos + |Enc(s1, v.a)|);
      ParseOfPair(m, s1, s2, b, pos);
    case _ => WholeBefore(m, s, v, b, pos);
  }

  lemma AtEnd(b: Data, pos: nat, d: Data)
    requires At(b, pos, d)
    ensures pos + |d| <= |b|
  {
  }

  lemma WholeBefore(m: Mode, s: Schema, v: Value, b: Data, pos: nat)
    requires Fits(s, v) && Readable(m, s) && |Enc(s, v)| <= MAX_MESSAGE_SIZE && At(b, pos, Enc(s, v))
    requires pos + |Enc(s, v)| <= End(m, b)
    ensures pos <= |b| && Parse(m, s, b, pos) == Got(v, pos + |Enc(s, v)|)
  {
    hide Parse, Enc, At;
    ParseWritten(m, s, v, b, pos);
  }

  lemma TextIntoSpare(m: Mode, v: Value, b: Data, pos: nat)
    requires v.TextV? && |Enc(Text, v)| <= MAX_MESSAGE_SIZE && At(b, pos, Enc(Text, v)) && pos + |Enc(Text, v)| <= End(m, b) + |v.text|
    ensures pos <= |b| && Parse(m, Text, b, pos) == Got(v, pos + |Enc(Text, v)|)
  {
    hide LengthBytes, ReadInt;
    AtSplit(b, pos, LengthBytes(|v.text|), v.text);
    ReadLengthAt(m, b, pos, |v.text|);
  }

  lemma ListIntoSpare(m: Mode, e: Schema, items: seq<Value>, b: Data, pos: nat)
    requires Fits(List(e), ListV(items)) && Readable(m, List(e)) && items != []
    requires |Enc(List(e), ListV(items))| <= MAX_MESSAGE_SIZE && At(b, pos, Enc(List(e), ListV(items)))
    requires pos + |Enc(List(e), ListV(items))| <= End(m, b) + LastText(e, items[|items| - 1])
    ensures pos <= |b| && Parse(m, List(e), b, pos) == Got(ListV(items), pos + |Enc(List(e), ListV(items))|)
    decreases e, 1
  {
    hide Parse, ParseItems, Enc, EncItems, At, LengthBytes, ReadCount;
    var n := |items| - 1;
    var all, front, last := EncItems(e, items, |items|), EncItems(e, items, n), Enc(e, items[n]);
    EncOfList(e, items);
    AtEnd(b, pos, Enc(List(e), ListV(items)));
    AtSplit(b, pos, LengthBytes(|items|), all);
    LastItem(e, items);
    AtSplit(b, pos + 4, front, last);
    LastTextWithin(e, items[n]);
    ItemsTakeSpace(e, items, |items|);
    CountIntoSpare(m, b, pos, |items|, |all|);
    FrontBefore(m, e, items, b, pos + 4, n);
    ParseIntoSpare(m, e, items[n], b, pos + 4 + |front|);
    ItemsJoin(m, e, items, b, pos + 4);
    ParseOfList(m, e, b, pos, items, pos + 4 + |all|);
  }

  lemma CountIntoSpare(m: Mode, b: Data, pos: nat, n: nat, space: nat)
    requires At(b, pos, LengthBytes(n)) && pos + 4 <= End(m, b) && n <= space <= MAX_MESSAGE_SIZE && pos + 4 + space <= |b|
    ensures ReadCount(m, b, pos) == Got(n, pos + 4)
  {
    hide LengthBytes, ReadInt;
    ReadLengthAt(m, b, pos, n);
  }

  lemma FrontBefore(m: Mode, e: Schema, items: seq<Value>, b: Data, pos: nat, k: nat)
    requires k <= |items| && forall i :: 0 <= i < |items| ==> Fits(e, items[i])
    requires Readable(m, e) && |EncItems(e, items, k)| <= MAX_MESSAGE_SIZE && At(b, pos, EncItems(e, items, k))
    requires pos + |EncItems(e, items, k)| <= End(m, b)
    ensures pos <= |b| && ParseItems(m, e, b, pos, k) == Got(items[..k], pos + |EncItems(e, items, k)|)
  {
    hide Parse, ParseItems, Enc, EncItems, At;
    AtEnd(b, pos, EncItems(e, items, k));
    ParseItemsWritten(m, e, items, b, pos, k);
  }

  lemma ItemsJoin(m: Mode, e: Schema, items: seq<Value>, b: Data, pos: nat)
    requires pos <= |b| && items != []
    requires ParseItems(m, e, b, pos, |items| - 1).Got? && ParseItems(m, e, b, pos, |items| - 1).value == items[..|items| - 1]
    requires var p := ParseItems(m, e, b, pos, |items| - 1).next;
             Parse(m, e, b, p).Got? && Parse(m, e, b, p).value == items[|items| - 1]
    ensures ParseItems(m, e, b, pos, |items|) == Got(items, Parse(m, e, b, ParseItems(m, e, b, pos, |items| - 1).next).next)
  {
    hide Parse, ParseItems;
    OneMoreItem(m, e, b, pos, |items| - 1);
    assert items[..|items| - 1] + [items[|items| - 1]] == items;
  }

  lemma OneMoreItem(m: Mode, e: Schema, b: Data, pos: nat, k: nat)
    requires pos <= |b| && ParseItems(m, e, b, pos, k).Got?
    requires Parse(m, e, b, ParseItems(m, e, b, pos, k).next).Got?
    ensures var r := ParseItems(m, e, b, pos, k);
            var one := Parse(m, e, b, r.next);
            ParseItems(m, e, b, pos, k + 1) == Got(r.value + [one.value], one.next)
  {
    hide Parse;
  }

  /** Any non-zero byte is true to the checked reader. */
  lemma CheckedFlag(b: Data, pos: nat)
    requires pos < |b|
    ensures Parse(Checked, Flag, b, pos) == Got(FlagV(b[pos] as int != 0), pos + 1)
  {
  }

  /** A list length is accepted exactly when it is not negative and not more than the bytes left. */
  lemma CheckedCount(b: Data, pos: nat)
    requires pos <= |b|
    ensures ReadCount(Checked, b, pos).Got? <==> pos + 4 <= |b| && 0 <= IntOf(b[pos..pos + 4], true) <= |b| - pos - 4
    ensures ReadCount(Checked, b, pos).Got? ==> ReadCount(Checked, b, pos) == Got(IntOf(b[pos..pos + 4], true), pos + 4)
  {
    hide IntOf;
  }

  /** Strings and byte slices are accepted under the same bound, and are the bytes after the length; only a byte slice may be nil. */
  lemma CheckedData(b: Data, pos: nat, nullable: bool)
    requires pos <= |b|
    ensures ReadData(Checked, b, pos, nullable) ==
            if pos + 4 > |b| then Bad(ReadError(pos, Short))
            else
              var n, left := IntOf(b[pos..pos + 4], true), |b| - pos - 4;
              if nullable && n == -1 then Got(None, pos + 4)
              else if n < 0 then Bad(ReadError(pos + 4, NegativeLength))
              else if n > left then Bad(ReadError(pos + 4, Short))
              else Got(Some(b[pos + 4..pos + 4 + n]), pos + 4 + n)
    ensures Parse(Checked, Text, b, pos).Got? <==> ReadData(Checked, b, pos, false).Got?
    ensures Parse(Checked, Blob, b, pos).Got? <==> ReadData(Checked, b, pos, true).Got?
  {
    hide IntOf;
  }
}

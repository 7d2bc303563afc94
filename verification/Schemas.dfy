/**
  * The wire format as a language of schemas: what the field writers of pkg/protocol/wire.go and wire_convert.go put on the wire
  * for a payload, and what the field readers make of any bytes.
  */
module Schemas {
  import opened Common
  import opened Bytes

  const MAX_MESSAGE_SIZE: nat := 1024 * 1024 * 10

  /** Fields of a payload: integers, booleans, strings, byte slices that may be nil, lists, and one field after another. */
  datatype Schema = Int(width: nat, signed: bool) | Flag | Text | Blob | List(item: Schema) | Pair(first: Schema, second: Schema)

  datatype Value = IntV(i: int) | FlagV(b: bool) | TextV(text: Data) | BlobV(blob: Option<Data>) | ListV(items: seq<Value>) | PairV(a: Value, c: Value)

  ghost predicate Fits(s: Schema, v: Value)
    decreases s
  {
    match (s, v)
    case (Int(w, signed), IntV(i)) => w > 0 && InRange(i, w, signed)
    case (Flag, FlagV(_)) => true
    case (Text, TextV(_)) => true
    case (Blob, BlobV(_)) => true
    case (List(e), ListV(items)) => forall i :: 0 <= i < |items| ==> Fits(e, items[i])
    case (Pair(s1, s2), PairV(v1, v2)) => Fits(s1, v1) && Fits(s2, v2)
    case _ => false
  }

  // ---------------------------------------------------------------------
  // Writing
  // ---------------------------------------------------------------------

  lemma Pow4()
    ensures Pow(4) == 0x1_0000_0000
  {
    assert Pow(1) == 256 && Pow(2) == 0x1_0000 && Pow(3) == 0x100_0000;
  }

  lemma LengthInRange(n: nat)
    requires n <= MAX_MESSAGE_SIZE
    ensures InRange(n, 4, true) && InRange(n, 4, false) && InRange(-1, 4, true)
  {
    Pow4();
  }

  /** A length prefix: a length beyond the limit is written as zero. */
  function LengthBytes(n: nat): (r: Data)
    ensures |r| == 4
  {
    var m := if n > MAX_MESSAGE_SIZE then 0 else n;
    LengthInRange(m);
    IntBytes(m, 4, true)
  }

  function NilLength(): (r: Data)
    ensures |r| == 4
  {
    LengthInRange(0);
    IntBytes(-1, 4, true)
  }

  /** The bytes the writers produce. */
  ghost function Enc(s: Schema, v: Value): Data
    requires Fits(s, v)
    decreases s, 0, 0
  {
    match s
    case Int(w, signed) => IntBytes(v.i, w, signed)
    case Flag => [if v.b then 1 as char else 0 as char]
    case Text => LengthBytes(|v.text|) + v.text
    case Blob => if v.blob.None? then NilLength() else LengthBytes(|v.blob.value|) + v.blob.value
    case List(e) => LengthBytes(|v.items|) + EncItems(e, v.items, |v.items|)
    case Pair(s1, s2) => Enc(s1, v.a) + Enc(s2, v.c)
  }

  ghost function EncItems(e: Schema, items: seq<Value>, k: nat): Data
    requires k <= |items| && forall i :: 0 <= i < |items| ==> Fits(e, items[i])
    decreases e, 1, k
  {
    if k == 0 then [] else EncItems(e, items, k - 1) + Enc(e, items[k - 1])
  }

  /** Every value takes at least one byte, so a list of n values takes at least n. */
  lemma {:induction false} NeverEmpty(s: Schema, v: Value)
    requires Fits(s, v)
    ensures |Enc(s, v)| >= 1
    decreases s, 0, 0
  {
    if s.Pair? { NeverEmpty(s.first, v.a); }
  }

  lemma {:induction false} ItemsTakeSpace(e: Schema, items: seq<Value>, k: nat)
    requires k <= |items| && forall i :: 0 <= i < |items| ==> Fits(e, items[i])
    ensures |EncItems(e, items, k)| >= k
    decreases e, 1, k
  {
    hide Enc, Fits;
    if k > 0 {
      ItemsTakeSpace(e, items, k - 1);
      NeverEmpty(e, items[k - 1]);
    }
  }

  // ---------------------------------------------------------------------
  // Reading
  // ---------------------------------------------------------------------

  /**
    * The self-describing payloads are read with checks. The core codec reads lengths as unsigned and without checks, and a read past
    * the end is a panic there. Its buffer is a slice whose capacity goes on after its length, here by the last spare bytes: strings
    * and byte slices are cut out of it up to the capacity, integers only up to the length.
    */
  datatype Mode = Checked | Unchecked(spare: nat)

  /** Where the integers end. */
  function End(m: Mode, b: Data): int { if m.Checked? then |b| else |b| - m.spare }

  datatype Reason = Short | NegativeLength | TooMany

  datatype ReadError = ReadError(at: nat, reason: Reason)

  datatype Parsed<T> = Got(value: T, next: nat) | Bad(error: ReadError)

  function Take(b: Data, pos: nat, n: int): (r: Parsed<Data>)
    requires pos <= |b|
    ensures r.Got? <==> 0 <= n <= |b| - pos
    ensures r.Got? ==> r.next == pos + n && r.value == b[pos..pos + n] && |r.value| == n
    ensures r.Bad? ==> r.error == ReadError(pos, Short)
  {
    if n < 0 || pos + n > |b| then Bad(ReadError(pos, Short)) else Got(b[pos..pos + n], pos + n)
  }

  /** Like Take, but not into the spare bytes. */
  function TakeFixed(m: Mode, b: Data, pos: nat, w: nat): (r: Parsed<Data>)
    requires pos <= |b|
    ensures r.Got? <==> w <= End(m, b) - pos
    ensures r.Got? ==> r.next == pos + w <= |b| && r.value == b[pos..pos + w] && |r.value| == w
    ensures r.Bad? ==> r.error == ReadError(pos, Short)
  {
    if w <= End(m, b) - pos then Take(b, pos, w) else Bad(ReadError(pos, Short))
  }

  function ReadInt(m: Mode, b: Data, pos: nat, w: nat, signed: bool): (r: Parsed<int>)
    requires pos <= |b|
    ensures r.Got? <==> w <= End(m, b) - pos
    ensures r.Got? ==> r.next == pos + w <= |b| && InRange(r.value, w, signed) && r.value == IntOf(b[pos..pos + w], signed)
  {
    match TakeFixed(m, b, pos, w)
    case Got(d, next) => Got(IntOf(d, signed), next)
    case Bad(e) => Bad(e)
  }

  /** A length prefix and that many bytes; -1 is no bytes at all where nil is allowed. */
  function ReadData(m: Mode, b: Data, pos: nat, nullable: bool): (r: Parsed<Option<Data>>)
    requires pos <= |b|
    ensures r.Got? ==> pos < r.next <= |b| && (r.value.None? ==> nullable)
  {
    match ReadInt(m, b, pos, 4, m.Checked?)
    case Bad(e) => Bad(e)
    case Got(n, p) =>
      if nullable && n == -1 then Got(None, p)
      else if n < 0 then Bad(ReadError(p, NegativeLength))
      else
        match Take(b, p, n)
        case Bad(e) => Bad(e)
        case Got(d, q) => Got(Some(d), q)
  }

  /** A list length: read with checks, it is never more than the bytes that are left. */
  function ReadCount(m: Mode, b: Data, pos: nat): (r: Parsed<nat>)
    requires pos <= |b|
    ensures r.Got? ==> r.next == pos + 4 <= |b| && (m.Checked? ==> r.value <= |b| - r.next)
  {
    match ReadInt(m, b, pos, 4, m.Checked?)
    case Bad(e) => Bad(e)
    case Got(n, p) =>
      if n < 0 then Bad(ReadError(p, NegativeLength))
      else if m.Checked? && n > |b| - p then Bad(ReadError(p, TooMany))
      else Got(n, p)
  }

  function Parse(m: Mode, s: Schema, b: Data, pos: nat): (r: Parsed<Value>)
    requires pos <= |b|
    ensures r.Got? ==> pos <= r.next <= |b|
    decreases s, 0, 0
  {
    match s
    case Int(w, signed) =>
      (match ReadInt(m, b, pos, w, signed)
       case Bad(e) => Bad(e)
       case Got(i, p) => Got(IntV(i), p))
    case Flag =>
      (match TakeFixed(m, b, pos, 1)
       case Bad(e) => Bad(e)
       case Got(d, p) => Got(FlagV(if m.Checked? then d[0] != 0 as char else d[0] == 1 as char), p))
    case Text =>
      (match ReadData(m, b, pos, false)
       case Bad(e) => Bad(e)
       case Got(d, p) => Got(TextV(d.value), p))
    case Blob =>
      (match ReadData(m, b, pos, true)
       case Bad(e) => Bad(e)
       case Got(d, p) => Got(BlobV(d), p))
    case List(e) =>
      (match ReadCount(m, b, pos)
       case Bad(e) => Bad(e)
       case Got(n, p) =>
         match ParseItems(m, e, b, p, n)
         case Bad(e) => Bad(e)
         case Got(items, q) => Got(ListV(items), q))
    case Pair(s1, s2) =>
      match Parse(m, s1, b, pos)
      case Bad(e) => Bad(e)
      case Got(v1, p) =>
        match Parse(m, s2, b, p)
        case Bad(e) => Bad(e)
        case Got(v2, q) => Got(PairV(v1, v2), q)
  }

  function ParseItems(m: Mode, e: Schema, b: Data, pos: nat, n: nat): (r: Parsed<seq<Value>>)
    requires pos <= |b|
    ensures r.Got? ==> pos <= r.next <= |b| && |r.value| == n
    decreases e, 1, n
  {
    if n == 0 then Got([], pos)
    else
      match ParseItems(m, e, b, pos, n - 1)
      case Bad(err) => Bad(err)
      case Got(items, p) =>
        match Parse(m, e, b, p)
        case Bad(err) => Bad(err)
        case Got(v, q) => Got(items + [v], q)
  }
}

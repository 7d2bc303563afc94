/** Bytes and big-endian integers. */
module Bytes {
  /** A Go string or byte slice is a sequence of these. */
  type Byte = c: char | c as int < 256 witness '\0'

  type Data = seq<Byte>

  function Pow(w: nat): (r: nat)
    ensures r > 0
  {
    if w == 0 then 1 else 256 * Pow(w - 1)
  }

  /** The w low bytes of x, most significant first. */
  function BigEndian(x: nat, w: nat): (r: Data)
    ensures |r| == w
  {
    if w == 0 then [] else BigEndian(x / 256, w - 1) + [(x % 256) as char]
  }

  function Number(d: Data): (r: nat) {
    if d == [] then 0 else 256 * Number(d[..|d| - 1]) + d[|d| - 1] as int
  }

  /** Reading w bytes back gives the number, when it has no more than w bytes. */
  lemma {:induction false} NumberOfBigEndian(x: nat, w: nat)
    requires x < Pow(w)
    ensures Number(BigEndian(x, w)) == x
  {
    if w > 0 {
      var d := BigEndian(x, w);
      assert d[..|d| - 1] == BigEndian(x / 256, w - 1);
      NumberOfBigEndian(x / 256, w - 1);
    }
  }

  /** And writing what was read gives the same bytes. */
  lemma {:induction false} BigEndianOfNumber(d: Data)
    ensures Number(d) < Pow(|d|) && BigEndian(Number(d), |d|) == d
  {
    if d != [] {
      var rest := d[..|d| - 1];
      BigEndianOfNumber(rest);
      assert Number(d) / 256 == Number(rest) && Number(d) % 256 == d[|d| - 1] as int;
      assert d == rest + [d[|d| - 1]];
    }
  }

  /** Two's complement: the integers of w bytes, and the number with the same bits. */
  predicate InRange(v: int, w: nat, signed: bool) {
    if signed then 0 <= 2 * v + Pow(w) && 2 * v < Pow(w) else 0 <= v < Pow(w)
  }

  function Bits(v: int, w: nat, signed: bool): (r: nat)
    requires InRange(v, w, signed)
    ensures r < Pow(w)
  {
    if v < 0 then v + Pow(w) else v
  }

  function FromBits(u: nat, w: nat, signed: bool): (r: int)
    requires u < Pow(w)
    ensures InRange(r, w, signed)
  {
    if signed && 2 * u >= Pow(w) then u - Pow(w) else u
  }

  lemma BitsRoundTrip(v: int, w: nat, signed: bool)
    requires InRange(v, w, signed)
    ensures FromBits(Bits(v, w, signed), w, signed) == v
  {
  }

  lemma FromBitsRoundTrip(u: nat, w: nat, signed: bool)
    requires u < Pow(w)
    ensures Bits(FromBits(u, w, signed), w, signed) == u
  {
  }

  function IntBytes(v: int, w: nat, signed: bool): (r: Data)
    requires InRange(v, w, signed)
    ensures |r| == w
  {
    BigEndian(Bits(v, w, signed), w)
  }

  function IntOf(d: Data, signed: bool): (r: int)
    ensures InRange(r, |d|, signed)
  {
    BigEndianOfNumber(d);
    FromBits(Number(d), |d|, signed)
  }

  lemma IntRoundTrip(v: int, w: nat, signed: bool)
    requires InRange(v, w, signed)
    ensures IntOf(IntBytes(v, w, signed), signed) == v
  {
    hide BigEndian, Number, Pow;
    NumberOfBigEndian(Bits(v, w, signed), w);
    BitsRoundTrip(v, w, signed);
  }

  lemma IntBytesOf(d: Data, signed: bool)
    ensures IntBytes(IntOf(d, signed), |d|, signed) == d
  {
    hide BigEndian, Number, Pow;
    BigEndianOfNumber(d);
    FromBitsRoundTrip(Number(d), |d|, signed);
  }
}

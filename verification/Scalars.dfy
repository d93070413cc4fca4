/** Typed scalars of go/ocxbp/multitag.go: which kinds there are, and their bytes. */
module Scalars {
  import opened Common

  type u64 = x: int | 0 <= x < 0x1_0000_0000_0000_0000
  type i8 = x: int | -0x80 <= x < 0x80
  type i16 = x: int | -0x8000 <= x < 0x8000
  type i32 = x: int | -0x8000_0000 <= x < 0x8000_0000
  type i64 = x: int | -0x8000_0000_0000_0000 <= x < 0x8000_0000_0000_0000

  datatype Kind =
    | KindNone | KindBool | KindSint | KindInt | KindDint | KindLint
    | KindUsint | KindUint | KindUdint | KindUlint | KindReal | KindLreal

  /** A Go value; floats are their bit patterns, and Other is any type no kind takes. */
  datatype Value =
    | Bool(b: bool)
    | Int8(i8: i8) | Int16(i16: i16) | Int32(i32: i32) | Int64(i64: i64)
    | Uint8(u8: byte) | Uint16(u16: u16) | Uint32(u32: u32) | Uint64(u64: u64)
    | Float32(bits32: u32) | Float64(bits64: u64)
    | Other

  /** Go's conversions between float32 and float64, on bit patterns. */
  datatype Floats = Floats(narrow: u64 -> u32, widen: u32 -> u64)

  // ---------------------------------------------------------------- scalars

  function KindForAtomic(dataType: u16, elemSize: u32): Kind {
    match (dataType % 0x2000, elemSize)
    case (0xC1, 1) => KindBool
    case (0xC2, 1) => KindSint
    case (0xC3, 2) => KindInt
    case (0xC4, 4) => KindDint
    case (0xC5, 8) => KindLint
    case (0xC6, 1) => KindUsint
    case (0xC7, 2) => KindUint
    case (0xC8, 4) => KindUdint
    case (0xC9, 8) => KindUlint
    case (0xCA, 4) => KindReal
    case (0xCB, 8) => KindLreal
    case _ => KindNone
  }

  function Width(k: Kind): nat {
    match k
    case KindNone => 0
    case KindBool | KindSint | KindUsint => 1
    case KindInt | KindUint => 2
    case KindDint | KindUdint | KindReal => 4
    case KindLint | KindUlint | KindLreal => 8
  }

  /** A kind is only given to symbols of its own width, so narrowing the size to 16 bits loses nothing. */
  lemma KindFitsSize(dataType: u16, elemSize: u32)
    ensures var k := KindForAtomic(dataType, elemSize);
      k != KindNone ==> elemSize == Width(k) && elemSize % 0x1_0000 == elemSize
  {
  }

  /** Two's complement: the bits of an unsigned number as a signed one, and back. */
  function Signed(x: nat, range: nat): int
    requires x < range
  {
    if 2 * x < range then x else x - range
  }

  function Unsigned(x: int, range: int): (u: nat)
    requires -range <= 2 * x < range
    ensures u < range && Signed(u, range) == x
  {
    if x < 0 then x + range else x
  }

  function Le64(v: u64): (b: seq<byte>)
    ensures |b| == 8
  {
    Le32(v % 0x1_0000_0000) + Le32(v / 0x1_0000_0000)
  }

  function LoadU64(b: seq<byte>): u64
    requires |b| >= 8
  {
    LoadU32(b, 0) as int + 0x1_0000_0000 * LoadU32(b, 4) as int
  }

  function DecodeScalar(k: Kind, b: seq<byte>): Option<Value>
    requires |b| >= Width(k)
  {
    match k
    case KindBool => Some(Bool(b[0] != 0))
    case KindSint => Some(Int8(Signed(b[0], 0x100)))
    case KindUsint => Some(Uint8(b[0]))
    case KindInt => Some(Int16(Signed(LoadU16(b, 0), 0x1_0000)))
    case KindUint => Some(Uint16(LoadU16(b, 0)))
    case KindDint => Some(Int32(Signed(LoadU32(b, 0), 0x1_0000_0000)))
    case KindUdint => Some(Uint32(LoadU32(b, 0)))
    case KindReal => Some(Float32(LoadU32(b, 0)))
    case KindLint => Some(Int64(Signed(LoadU64(b), 0x1_0000_0000_0000_0000)))
    case KindUlint => Some(Uint64(LoadU64(b)))
    case KindLreal => Some(Float64(LoadU64(b)))
    case KindNone => None
  }

  /** None when the Go type of the value is not one the kind takes. */
  function EncodeForKind(fl: Floats, k: Kind, v: Value): Option<seq<byte>> {
    match (k, v)
    case (KindBool, Bool(b)) => Some([if b then 1 else 0])
    case (KindSint, Int8(x)) => Some([Unsigned(x, 0x100)])
    case (KindUsint, Uint8(x)) => Some([x])
    case (KindInt, Int16(x)) => Some(Le16(Unsigned(x, 0x1_0000)))
    case (KindUint, Uint16(x)) => Some(Le16(x))
    case (KindDint, Int32(x)) => Some(Le32(Unsigned(x, 0x1_0000_0000)))
    case (KindUdint, Uint32(x)) => Some(Le32(x))
    case (KindReal, Float32(bits)) => Some(Le32(bits))
    case (KindReal, Float64(bits)) => Some(Le32(fl.narrow(bits)))
    case (KindLint, Int64(x)) => Some(Le64(Unsigned(x, 0x1_0000_0000_0000_0000)))
    case (KindUlint, Uint64(x)) => Some(Le64(x))
    case (KindLreal, Float64(bits)) => Some(Le64(bits))
    case (KindLreal, Float32(bits)) => Some(Le64(fl.widen(bits)))
    case _ => None
  }

  /** The value a tag holds after v was written to it: v itself, but for a float of the other width. */
  function Converted(fl: Floats, k: Kind, v: Value): Value {
    match (k, v)
    case (KindReal, Float64(bits)) => Float32(fl.narrow(bits))
    case (KindLreal, Float32(bits)) => Float64(fl.widen(bits))
    case _ => v
  }

  lemma Load64(v: u64)
    ensures LoadU64(Le64(v)) == v
  {
    LoadStore(v % 0x1_0000_0000);
    LoadStore(v / 0x1_0000_0000);
    var lo, hi := Le32(v % 0x1_0000_0000), Le32(v / 0x1_0000_0000);
    assert LoadU32(lo + hi, 0) == LoadU32(lo, 0) && LoadU32(lo + hi, 4) == LoadU32(hi, 0);
  }

  lemma Store32(b: seq<byte>)
    requires |b| == 4
    ensures Le32(LoadU32(b, 0)) == b
  {
    var low, mid, high := b[1] as int + 0x100 * b[2] as int + 0x1_0000 * b[3] as int,
                          b[2] as int + 0x100 * b[3] as int, b[3] as int;
    var v := LoadU32(b, 0);
    assert v == b[0] as int + 0x100 * low && low == b[1] as int + 0x100 * mid && mid == b[2] as int + 0x100 * high;
    assert v % 0x100 == b[0] && v / 0x100 == low;
    assert v / 0x1_0000 == mid && v / 0x100_0000 == high;
  }

  lemma Store64(b: seq<byte>)
    requires |b| == 8
    ensures Le64(LoadU64(b)) == b
  {
    Store32(b[..4]);
    Store32(b[4..]);
    assert LoadU32(b, 0) == LoadU32(b[..4], 0) && LoadU32(b, 4) == LoadU32(b[4..], 0);
    assert LoadU64(b) % 0x1_0000_0000 == LoadU32(b, 0) && LoadU64(b) / 0x1_0000_0000 == LoadU32(b, 4);
  }

  lemma NarrowDecodes(fl: Floats, k: Kind, v: Value)
    requires EncodeForKind(fl, k, v).Some? && Width(k) <= 2
    ensures var b := EncodeForKind(fl, k, v).value;
      |b| == Width(k) && DecodeScalar(k, b) == Some(v)
  {
    match v
    case Int16(x) =>
      LoadStore(Unsigned(x, 0x1_0000));
    case Uint16(x) => LoadStore(x);
    case _ =>
  }

  lemma WordDecodes(fl: Floats, k: Kind, v: Value)
    requires EncodeForKind(fl, k, v).Some? && Width(k) == 4
    ensures var b := EncodeForKind(fl, k, v).value;
      |b| == Width(k) && DecodeScalar(k, b) == Some(Converted(fl, k, v))
  {
    match v
    case Int32(x) =>
      LoadStore(Unsigned(x, 0x1_0000_0000));
    case Uint32(x) => LoadStore(x);
    case Float32(bits) => LoadStore(bits);
    case Float64(bits) => LoadStore(fl.narrow(bits));
  }

  lemma LongDecodes(fl: Floats, k: Kind, v: Value)
    requires EncodeForKind(fl, k, v).Some? && Width(k) == 8
    ensures var b := EncodeForKind(fl, k, v).value;
      |b| == Width(k) && DecodeScalar(k, b) == Some(Converted(fl, k, v))
  {
    match v
    case Int64(x) =>
      Load64(Unsigned(x, 0x1_0000_0000_0000_0000));
    case Uint64(x) => Load64(x);
    case Float32(bits) => Load64(fl.widen(bits));
    case Float64(bits) => Load64(bits);
  }

  /** Whatever a kind takes fills its tag exactly and is read back as the value that was written. */
  lemma EncodedDecodes(fl: Floats, k: Kind, v: Value)
    requires EncodeForKind(fl, k, v).Some?
    ensures var b := EncodeForKind(fl, k, v).value;
      |b| == Width(k) && DecodeScalar(k, b) == Some(Converted(fl, k, v))
  {
    match Width(k)
    case 4 => WordDecodes(fl, k, v);
    case 8 => LongDecodes(fl, k, v);
    case _ => NarrowDecodes(fl, k, v);
  }

  lemma ShortEncodes(fl: Floats, k: Kind, b: seq<byte>)
    requires k != KindNone && |b| == Width(k) <= 2
    ensures DecodeScalar(k, b).Some?
    ensures EncodeForKind(fl, k, DecodeScalar(k, b).value) ==
            Some(if k == KindBool && b[0] != 0 then [1] else b)
  {
    if |b| == 2 {
      assert b == Le16(LoadU16(b, 0));
    } else {
      assert b == [b[0]];
    }
  }

  /** Whatever a tag holds can be written back, and leaves the same bytes there, but that any true BOOL
      becomes 1. */
  lemma DecodedEncodes(fl: Floats, k: Kind, b: seq<byte>)
    requires k != KindNone && |b| == Width(k)
    ensures DecodeScalar(k, b).Some?
    ensures EncodeForKind(fl, k, DecodeScalar(k, b).value) ==
            Some(if k == KindBool && b[0] != 0 then [1] else b)
  {
    match Width(k)
    case 4 =>
      Store32(b);
    case 8 =>
      Store64(b);
    case _ => ShortEncodes(fl, k, b);
  }
}

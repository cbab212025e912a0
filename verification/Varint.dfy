/**
 Base 128 varints as the generated protobuf code reads and writes them, and the fixed-width
 integer conversions it relies on. Go's integers wrap around, so every conversion is explicit.
 */
module Varint {
  import opened Wrappers

  const TWO31 := 0x8000_0000
  const TWO32 := 0x1_0000_0000
  const TWO63 := 0x8000_0000_0000_0000
  const TWO64 := 0x1_0000_0000_0000_0000

  type int32 = x: int | -TWO31 <= x < TWO31
  type int64 = x: int | -TWO63 <= x < TWO63
  type uint64 = x: int | 0 <= x < TWO64

  /** A Go byte slice or string: its length always fits in a Go int. */
  type bytes = s: seq<byte> | |s| < TWO63

  /** The ways in which unmarshalling fails. */
  datatype DecodeError =
    | IntOverflow
    | UnexpectedEOF
    | InvalidLength
    | UnexpectedEndOfGroup
    | EndGroupForNonGroup
    | IllegalTag
    | WrongWireType
    | IllegalWireType

  datatype Result<+T> = Ok(value: T) | Err(error: DecodeError) {
    predicate IsFailure() { Err? }
    function PropagateFailure<U>(): Result<U>
      requires Err?
    {
      Err(error)
    }
    function Extract(): T
      requires Ok?
    {
      value
    }
  }

  // ---------------------------------------------------------------- conversions

  function ToUint64(x: int): uint64 { x % TWO64 }

  function ToInt64(x: int): int64 {
    var u := x % TWO64;
    if u < TWO63 then u else u - TWO64
  }

  function ToInt32(x: int): int32 {
    var u := x % TWO32;
    if u < TWO31 then u else u - TWO32
  }

  /** A conversion keeps the value modulo the width, and takes the number of its type that does. */
  lemma ConversionsWrap(x: int)
    ensures x == 0x1_0000_0000_0000_0000 * (x / 0x1_0000_0000_0000_0000) + ToUint64(x)
    ensures ToInt64(x) == ToUint64(x) || ToInt64(x) == ToUint64(x) - 0x1_0000_0000_0000_0000
    ensures x == 0x1_0000_0000 * (x / 0x1_0000_0000) + x % 0x1_0000_0000
    ensures ToInt32(x) == x % 0x1_0000_0000 || ToInt32(x) == x % 0x1_0000_0000 - 0x1_0000_0000
  {}

  /** Sign extension to 64 bits and truncation back is the identity. */
  lemma Int32RoundTrip(x: int32)
    ensures ToInt32(ToUint64(x)) == x
  {
    if x < 0 {
      assert ToUint64(x) == x + TWO64;
      assert x + TWO64 == (x + TWO32) + TWO32 * (TWO32 - 1);
    }
  }

  lemma ToInt64Small(x: nat)
    requires x < TWO63
    ensures ToInt64(x) == x
  {}

  lemma Int64RoundTrip(x: int64)
    ensures ToInt64(ToUint64(x)) == x
  {}

  // ---------------------------------------------------------------- sizes

  /** math/bits.Len64: the number of bits needed to write x. */
  function Len64(x: nat): (n: nat)
  {
    if x == 0 then 0 else 1 + Len64(x / 2)
  }

  /** x | 1 */
  function SetLowBit(x: nat): nat { if x % 2 == 0 then x + 1 else x }

  /** The generated code's closed form for the length of a varint. */
  function Sov(x: uint64): nat { (Len64(SetLowBit(x)) + 6) / 7 }

  // ---------------------------------------------------------------- encoding

  /** Little-endian groups of seven bits, all but the last with the high bit set. */
  function EncodeVarint(v: nat): (r: seq<byte>)
    ensures |r| > 0
  {
    if v < 128 then [v] else [v % 128 + 128] + EncodeVarint(v / 128)
  }

  function Pow2(k: nat): (p: nat)
    ensures p > 0
  {
    if k == 0 then 1 else 2 * Pow2(k - 1)
  }

  lemma Len64Halve(x: nat, half: nat)
    requires x > 0 && half == x / 2
    ensures Len64(x) == 1 + Len64(half)
  {}

  lemma Len64Step(x: nat)
    requires x >= 128
    ensures Len64(SetLowBit(x)) == 7 + Len64(SetLowBit(x / 128))
  {
    var y := SetLowBit(x);
    Len64Halve(y, y / 2);
    Len64Halve(y / 2, y / 4);
    Len64Halve(y / 4, y / 8);
    Len64Halve(y / 8, y / 16);
    Len64Halve(y / 16, y / 32);
    Len64Halve(y / 32, y / 64);
    Len64Halve(y / 64, y / 128);
    assert y / 128 == x / 128;
    Len64LowBit(x / 128);
  }

  /** For a positive number the low bit does not change the bit length. */
  lemma Len64LowBit(x: nat)
    requires x > 0
    ensures Len64(SetLowBit(x)) == Len64(x)
  {}

  lemma Len64Small(x: nat, k: nat)
    requires x < Pow2(k)
    ensures Len64(x) <= k
  {
    if x > 0 { Len64Small(x / 2, k - 1); }
  }

  /** The closed form is the number of bytes the encoder writes. */
  lemma {:induction false} SovIsLength(v: uint64)
    ensures Sov(v) == |EncodeVarint(v)|
    decreases v
  {
    if v < 128 {
      assert Pow2(7) == 128 by { assert Pow2(3) == 8; assert Pow2(5) == 32; }
      Len64Small(SetLowBit(v), 7);
    } else {
      Len64Step(v);
      SovIsLength(v / 128);
    }
  }

  function Pow128(k: nat): (p: nat)
    ensures p > 0
  {
    if k == 0 then 1 else 128 * Pow128(k - 1)
  }

  lemma {:induction false} EncodedLengthBound(v: nat, k: nat)
    requires 0 < k && v < Pow128(k)
    ensures |EncodeVarint(v)| <= k
    decreases k
  {
    if v >= 128 { EncodedLengthBound(v / 128, k - 1); }
  }

  /** No 64-bit varint takes more than ten bytes, the decoder's limit. */
  lemma VarintAtMostTen(v: uint64)
    ensures 1 <= |EncodeVarint(v)| <= 10
  {
    assert Pow128(10) == 1024 * TWO64 / 16;
    EncodedLengthBound(v, 10);
  }

  // ---------------------------------------------------------------- decoding

  /** What a varint loop has read: the bits before truncation, and the index it stopped at. */
  datatype Read = Read(raw: nat, next: nat)

  /**
   The decoding loop at index `i`, after `count` bytes of the varint: at most ten bytes are read,
   and running past ten is reported before running out of input.
   */
  function ReadVarintFrom(d: seq<byte>, i: nat, count: nat): (r: Result<Read>)
    requires i <= |d|
    ensures r.Ok? ==> i < r.value.next <= |d|
    decreases |d| - i
  {
    if count >= 10 then Err(IntOverflow)
    else if i >= |d| then Err(UnexpectedEOF)
    else if d[i] < 128 then Ok(Read(d[i], i + 1))
    else
      var rest :- ReadVarintFrom(d, i + 1, count + 1);
      Ok(Read((d[i] - 128) + 128 * rest.raw, rest.next))
  }

  function ReadVarint(d: seq<byte>, i: nat): (r: Result<Read>)
    requires i <= |d|
    ensures r.Ok? ==> i < r.value.next <= |d|
  {
    ReadVarintFrom(d, i, 0)
  }

  /** Two inputs hold the same bytes: those of `d` from `i` to `end`, `off` further on in `e`. */
  predicate SameBytes(d: seq<byte>, i: int, end: int, e: seq<byte>, off: int) {
    && 0 <= i && end <= |d|
    && 0 <= i + off && end + off <= |e|
    && forall j :: i <= j < end ==> d[j] == e[j + off]
  }

  lemma SameBytesBack(d: seq<byte>, i: int, end: int, e: seq<byte>, off: int)
    requires SameBytes(d, i, end, e, off)
    ensures SameBytes(e, i + off, end + off, d, -off)
  {
    forall j | i + off <= j < end + off
      ensures e[j] == d[j - off]
    {
      assert d[j - off] == e[(j - off) + off];
    }
  }

  /** A varint that was read completely is read the same from the same bytes elsewhere. */
  lemma {:induction false} ReadVarintMoved(d: seq<byte>, i: nat, count: nat, end: nat, e: seq<byte>, off: int)
    requires SameBytes(d, i, end, e, off) && i <= end
    requires ReadVarintFrom(d, i, count).Ok? && ReadVarintFrom(d, i, count).value.next <= end
    ensures ReadVarintFrom(e, i + off, count)
         == Ok(Read(ReadVarintFrom(d, i, count).value.raw, ReadVarintFrom(d, i, count).value.next + off))
    decreases |d| - i
  {
    assert d[i] == e[i + off];
    if d[i] >= 128 { ReadVarintMoved(d, i + 1, count + 1, end, e, off); }
  }

  function Nth(s: seq<byte>, k: nat): byte
    requires k < |s|
  {
    s[k]
  }

  /** `piece` stands in `d` at index `i`. */
  predicate At(d: seq<byte>, i: nat, piece: seq<byte>) {
    i + |piece| <= |d| && forall k {:trigger Nth(piece, k)} :: 0 <= k < |piece| ==> Nth(piece, k) == d[i + k]
  }

  lemma AtSelf(d: seq<byte>)
    ensures At(d, 0, d)
  {}

  lemma AtSplit(d: seq<byte>, i: nat, p: seq<byte>, q: seq<byte>)
    requires At(d, i, p + q)
    ensures At(d, i, p) && At(d, i + |p|, q)
  {
    forall k | 0 <= k < |p| ensures Nth(p, k) == d[i + k] { assert Nth(p + q, k) == d[i + k]; }
    forall k | 0 <= k < |q| ensures Nth(q, k) == d[i + |p| + k] { assert Nth(p + q, |p| + k) == d[i + (|p| + k)]; }
  }

  /** The bytes of d[lo:hi]. */
  function Copy(d: seq<byte>, lo: nat, hi: nat): (r: seq<byte>)
    requires lo <= hi <= |d|
    ensures |r| == hi - lo
    decreases hi - lo
  {
    if lo == hi then [] else [d[lo]] + Copy(d, lo + 1, hi)
  }

  lemma {:induction false} CopyIsSlice(d: seq<byte>, lo: nat, hi: nat)
    requires lo <= hi <= |d|
    ensures Copy(d, lo, hi) == d[lo..hi]
    decreases hi - lo
  {
    if lo < hi {
      CopyIsSlice(d, lo + 1, hi);
      assert d[lo..hi] == [d[lo]] + d[lo + 1..hi];
    }
  }

  lemma CopyAt(d: seq<byte>, i: nat, p: seq<byte>)
    requires At(d, i, p)
    ensures Copy(d, i, i + |p|) == p
  {
    CopyIsSlice(d, i, i + |p|);
    forall k | 0 <= k < |p| ensures d[i + k] == p[k] { assert Nth(p, k) == d[i + k]; }
  }

  lemma {:induction false} CopyMoved(d: seq<byte>, lo: nat, hi: nat, e: seq<byte>, off: int)
    requires lo <= hi && SameBytes(d, lo, hi, e, off)
    ensures Copy(e, lo + off, hi + off) == Copy(d, lo, hi)
    decreases hi - lo
  {
    if lo < hi { CopyMoved(d, lo + 1, hi, e, off); }
  }

  lemma {:induction false} ReadEncodedFrom(d: seq<byte>, i: nat, v: nat, count: nat)
    requires count + |EncodeVarint(v)| <= 10 && At(d, i, EncodeVarint(v))
    ensures ReadVarintFrom(d, i, count) == Ok(Read(v, i + |EncodeVarint(v)|))
    decreases v
  {
    var e := EncodeVarint(v);
    assert Nth(e, 0) == d[i];
    if v >= 128 {
      AtSplit(d, i, [v % 128 + 128], EncodeVarint(v / 128));
      ReadEncodedFrom(d, i + 1, v / 128, count + 1);
    }
  }

  /** Reading back an encoded 64-bit value gives the value, and stops exactly at its end. */
  lemma ReadEncoded(d: seq<byte>, i: nat, v: uint64)
    requires At(d, i, EncodeVarint(v))
    ensures ReadVarint(d, i) == Ok(Read(v, i + |EncodeVarint(v)|))
  {
    VarintAtMostTen(v);
    ReadEncodedFrom(d, i, v, 0);
  }

  // ---------------------------------------------------------------- what a varint stands for

  /** Every byte but the last has its high bit set. */
  predicate IsVarint(bs: seq<byte>) {
    |bs| > 0 && bs[|bs| - 1] < 128 && forall i :: 0 <= i < |bs| - 1 ==> bs[i] >= 128
  }

  /** The sum of the low seven bits of each byte, times 128 to the power of its index. */
  function Value(bs: seq<byte>): nat {
    if |bs| == 0 then 0 else Value(bs[..|bs| - 1]) + bs[|bs| - 1] % 128 * Pow128(|bs| - 1)
  }

  /** The same sum from the other end. */
  lemma {:induction false} ValueFront(bs: seq<byte>)
    requires |bs| > 0
    ensures Value(bs) == bs[0] % 128 + 128 * Value(bs[1..])
    decreases |bs|
  {
    var n := |bs| - 1;
    if n > 0 {
      ValueFront(bs[..n]);
      assert bs[..n][1..] == bs[1..][..n - 1] && bs[1..][n - 1] == bs[n];
      assert bs[n] % 128 * Pow128(n) == 128 * (bs[n] % 128 * Pow128(n - 1));
    } else {
      assert bs[..0] == [] && bs[1..] == [];
    }
  }

  /** What is written stands for the value, and has no superfluous last byte. */
  lemma {:induction false} EncodedValue(v: nat)
    ensures IsVarint(EncodeVarint(v)) && Value(EncodeVarint(v)) == v
    ensures |EncodeVarint(v)| > 1 ==> EncodeVarint(v)[|EncodeVarint(v)| - 1] != 0
    decreases v
  {
    var bs := EncodeVarint(v);
    ValueFront(bs);
    if v >= 128 {
      EncodedValue(v / 128);
      assert bs[1..] == EncodeVarint(v / 128);
    }
  }

  lemma {:induction false} ReadValueFrom(d: seq<byte>, i: nat, count: nat)
    requires i <= |d| && ReadVarintFrom(d, i, count).Ok?
    ensures var v := ReadVarintFrom(d, i, count).value;
      v.next <= i + (10 - count) && IsVarint(d[i..v.next]) && v.raw == Value(d[i..v.next])
    decreases |d| - i
  {
    var bs := d[i..ReadVarintFrom(d, i, count).value.next];
    if d[i] < 128 {
      assert bs == [d[i]];
      ValueFront(bs);
    } else {
      ReadValueFrom(d, i + 1, count + 1);
      assert bs[1..] == d[i + 1..ReadVarintFrom(d, i, count).value.next];
      VarintFront(bs);
    }
  }

  lemma VarintFront(bs: seq<byte>)
    requires |bs| > 1 && bs[0] >= 128 && IsVarint(bs[1..])
    ensures IsVarint(bs) && Value(bs) == bs[0] - 128 + 128 * Value(bs[1..])
  {
    ValueFront(bs);
    forall i | 0 <= i < |bs| - 1 ensures bs[i] >= 128 {
      if i > 0 { assert bs[1..][i - 1] == bs[i]; }
    }
    assert bs[1..][|bs| - 2] == bs[|bs| - 1];
  }

  /** All bytes from `i` to `end` have their high bit set. */
  predicate Continue(d: seq<byte>, i: nat, end: nat) {
    end <= |d| && forall j :: i <= j < end ==> d[j] >= 128
  }

  lemma {:induction false} ReadFailsFrom(d: seq<byte>, i: nat, count: nat)
    requires i <= |d| && count <= 10 && ReadVarintFrom(d, i, count).Err?
    ensures match ReadVarintFrom(d, i, count).error
      case IntOverflow => Continue(d, i, i + (10 - count))
      case e => e == UnexpectedEOF && |d| < i + (10 - count) && Continue(d, i, |d|)
    decreases |d| - i
  {
    if count < 10 && i < |d| { ReadFailsFrom(d, i + 1, count + 1); }
  }

  /**
   What is read: the value of the varint of at most ten bytes that stands there. Ten bytes with the high
   bit set are an overflow, and fewer than that up to the end of the input are too short.
   */
  lemma ReadValue(d: seq<byte>, i: nat)
    requires i <= |d|
    ensures match ReadVarint(d, i)
      case Ok(v) => v.next <= i + 10 && IsVarint(d[i..v.next]) && v.raw == Value(d[i..v.next])
      case Err(IntOverflow) => Continue(d, i, i + 10)
      case Err(e) => e == UnexpectedEOF && |d| < i + 10 && Continue(d, i, |d|)
  {
    if ReadVarint(d, i).Ok? { ReadValueFrom(d, i, 0); } else { ReadFailsFrom(d, i, 0); }
  }

  lemma {:induction false} ReadAnyFrom(d: seq<byte>, i: nat, count: nat, bs: seq<byte>)
    requires IsVarint(bs) && count + |bs| <= 10 && At(d, i, bs)
    ensures ReadVarintFrom(d, i, count) == Ok(Read(Value(bs), i + |bs|))
    decreases |bs|
  {
    assert Nth(bs, 0) == d[i];
    ValueFront(bs);
    if |bs| == 1 {
      assert bs[1..] == [];
    } else {
      assert bs == [bs[0]] + bs[1..];
      AtSplit(d, i, [bs[0]], bs[1..]);
      ReadAnyFrom(d, i + 1, count + 1, bs[1..]);
    }
  }

  /** So any varint of at most ten bytes is read as its value, with the index just past it. */
  lemma ReadAnyVarint(d: seq<byte>, i: nat, bs: seq<byte>)
    requires IsVarint(bs) && |bs| <= 10 && At(d, i, bs)
    ensures ReadVarint(d, i) == Ok(Read(Value(bs), i + |bs|))
  {
    ReadAnyFrom(d, i, 0, bs);
  }
}

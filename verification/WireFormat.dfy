/**
 Reading payloads off the wire: tags, length-delimited and packed payloads, and the skipping of
 unknown fields with nested groups. Indices are Go ints, so additions to them wrap at 64 bits.
 */
module WireFormat {
  import opened Wrappers
  import opened Varint

  /** The messages of pb/error.proto and pb/test.proto. */
  datatype Schema = NotLeaderMsg | ErrorMsg | RecordMsg

  datatype Kind = VarintField | BytesField | PackedField | MessageField(nested: Schema) | UnknownField

  /** What the switch of each generated Unmarshal expects of a field number. */
  function KindOf(schema: Schema, num: int32): Kind {
    match schema
    case NotLeaderMsg => if num == 1 || num == 2 then BytesField else UnknownField
    case ErrorMsg =>
      if num == 1 then VarintField
      else if num == 2 then BytesField
      else if num == 3 then MessageField(NotLeaderMsg)
      else UnknownField
    case RecordMsg =>
      if 1 <= num <= 5 then VarintField
      else if num == 6 then PackedField
      else if num == 7 then MessageField(ErrorMsg)
      else UnknownField
  }

  datatype Token =
    | VarintTok(num: int32, raw: nat)
    | BytesTok(num: int32, payload: bytes)
    | PackedTok(num: int32, raws: Raws)
    | MessageTok(num: int32, fields: Fields)
    | SkippedTok

  /** The elements of a packed field, before truncation. */
  datatype Raws = NoRaws | MoreRaws(raw: nat, rest: Raws)

  /** The fields of a message up to its end, or up to the first one that cannot be read. */
  datatype Fields = Done | Failed(error: DecodeError) | Next(token: Token, rest: Fields)

  /** A field, and the index just past it. */
  datatype Field = Field(token: Token, next: nat)

  // ---------------------------------------------------------------- tags

  /** int32(wire >> 3): the field number keeps only 32 of the 61 bits. */
  function FieldNumber(raw: nat): int32 { ToInt32(ToUint64(raw) / 8) }

  /** wire & 0x7 */
  function WireType(raw: nat): nat { ToUint64(raw) % 8 }

  // ---------------------------------------------------------------- skipping

  /**
   skipTest / skipError on the slice of `d` that starts at `start`: the length of the field there.
   `i` is the index reached, inside `depth` open groups. A fixed-width or length-delimited payload
   may end beyond the slice; that is the caller's to detect unless a group is still open.
   */
  function Skip(d: bytes, start: nat, i: nat, depth: nat): (r: Result<nat>)
    requires start <= i <= |d|
    ensures r.Ok? ==> i < start + r.value && r.value < TWO63
    decreases |d| - i
  {
    if i >= |d| then Err(UnexpectedEOF)
    else
      var hop :- SkipOne(d, i, depth);
      if hop.end - start >= TWO63 then Err(InvalidLength)
      else if hop.depth == 0 then Ok(hop.end - start)
      else if hop.end > |d| then Err(UnexpectedEOF)
      else Skip(d, start, hop.end, hop.depth)
  }

  /** Where one tag and its payload end, before any wrap-around, and the groups then open. */
  datatype Hop = Hop(end: nat, depth: nat)

  function SkipOne(d: seq<byte>, i: nat, depth: nat): (r: Result<Hop>)
    requires i <= |d|
    ensures r.Ok? ==> i < r.value.end
  {
    var tag :- ReadVarint(d, i);
    var wireType := WireType(tag.raw);
    var end :- SkipPayload(d, tag.next, wireType, depth);
    Ok(Hop(end, DepthAfter(wireType, depth)))
  }

  function DepthAfter(wireType: nat, depth: nat): nat {
    if wireType == 3 then depth + 1
    else if wireType == 4 && depth > 0 then depth - 1
    else depth
  }

  function SkipPayload(d: seq<byte>, i: nat, wireType: nat, depth: nat): (r: Result<nat>)
    requires i <= |d|
    ensures r.Ok? ==> i <= r.value
  {
    match wireType
    case 0 =>
      var v :- ReadVarint(d, i);
      Ok(v.next)
    case 1 => Ok(i + 8)
    case 2 =>
      var v :- ReadVarint(d, i);
      var length := ToInt64(v.raw);
      if length < 0 then Err(InvalidLength) else Ok(v.next + length)
    case 3 => Ok(i)
    case 4 => if depth == 0 then Err(UnexpectedEndOfGroup) else Ok(i)
    case 5 => Ok(i + 4)
    case _ => Err(IllegalWireType)
  }

  // ---------------------------------------------------------------- payloads

  /** The bounds of a length-delimited payload. */
  datatype Extent = Extent(start: nat, end: nat)

  /** A length prefix, checked for sign, for wrap-around of the index and for the end of the input. */
  function ReadExtent(d: seq<byte>, i: nat): (r: Result<Extent>)
    requires i <= |d|
    ensures r.Ok? ==> i < r.value.start <= r.value.end <= |d|
  {
    var v :- ReadVarint(d, i);
    var length := ToInt64(v.raw);
    if length < 0 || v.next + length >= TWO63 then Err(InvalidLength)
    else if v.next + length > |d| then Err(UnexpectedEOF)
    else Ok(Extent(v.next, v.next + length))
  }

  datatype PackedRead = PackedRead(raws: Raws, next: nat)

  /**
   The elements of a packed field: varints are read until the payload's end is reached. The last
   one is bounded by the end of the input, not of the payload, so it may run over.
   */
  function ReadPacked(d: seq<byte>, i: nat, end: nat): (r: Result<PackedRead>)
    requires i <= |d| && end <= |d|
    ensures r.Ok? ==> i <= r.value.next <= |d| && end <= r.value.next
    decreases |d| - i
  {
    if i >= end then Ok(PackedRead(NoRaws, i))
    else
      var v :- ReadVarint(d, i);
      var rest :- ReadPacked(d, v.next, end);
      Ok(PackedRead(MoreRaws(v.raw, rest.raws), rest.next))
  }

  // ---------------------------------------------------------------- fields

  function ReadVarintPayload(d: seq<byte>, num: int32, i: nat): (r: Result<Field>)
    requires i <= |d|
    ensures r.Ok? ==> i < r.value.next <= |d|
  {
    var v :- ReadVarint(d, i);
    Ok(Field(VarintTok(num, v.raw), v.next))
  }

  function ReadBytesPayload(d: bytes, num: int32, i: nat): (r: Result<Field>)
    requires i <= |d|
    ensures r.Ok? ==> i < r.value.next <= |d|
  {
    var p :- ReadExtent(d, i);
    Ok(Field(BytesTok(num, Copy(d, p.start, p.end)), p.end))
  }

  function ReadPackedPayload(d: bytes, num: int32, i: nat): (r: Result<Field>)
    requires i <= |d|
    ensures r.Ok? ==> i < r.value.next <= |d|
  {
    var p :- ReadExtent(d, i);
    var packed :- ReadPacked(d, p.start, p.end);
    Ok(Field(PackedTok(num, packed.raws), packed.next))
  }

  function ReadSkipped(d: bytes, i: nat): (r: Result<Field>)
    requires i <= |d|
    ensures r.Ok? ==> i < r.value.next <= |d|
  {
    var n :- Skip(d, i, i, 0);
    if i + n >= TWO63 then Err(InvalidLength)
    else if i + n > |d| then Err(UnexpectedEOF)
    else Ok(Field(SkippedTok, i + n))
  }

  // ---------------------------------------------------------------- reading the same bytes elsewhere

  lemma SkipPayloadMoved(d: seq<byte>, i: nat, wireType: nat, depth: nat, end: nat, e: seq<byte>, off: int)
    requires SameBytes(d, i, end, e, off) && i <= end
    requires SkipPayload(d, i, wireType, depth).Ok? && SkipPayload(d, i, wireType, depth).value <= end
    ensures SkipPayload(e, i + off, wireType, depth) == Ok(SkipPayload(d, i, wireType, depth).value + off)
  {
    if wireType == 0 || wireType == 2 { ReadVarintMoved(d, i, 0, end, e, off); }
  }

  lemma SkipOneMoved(d: seq<byte>, i: nat, depth: nat, end: nat, e: seq<byte>, off: int)
    requires SameBytes(d, i, end, e, off) && i <= end
    requires SkipOne(d, i, depth).Ok? && SkipOne(d, i, depth).value.end <= end
    ensures SkipOne(e, i + off, depth)
         == Ok(Hop(SkipOne(d, i, depth).value.end + off, SkipOne(d, i, depth).value.depth))
  {
    var tag := ReadVarint(d, i).value;
    ReadVarintMoved(d, i, 0, end, e, off);
    SkipPayloadMoved(d, tag.next, WireType(tag.raw), depth, end, e, off);
  }

  /** A field that ends inside the window is skipped the same wherever the window is. */
  lemma {:induction false} SkipMoved(
    d: bytes, start: nat, i: nat, depth: nat, end: nat, e: bytes, off: int)
    requires start <= i <= end && 0 <= start + off && SameBytes(d, i, end, e, off)
    requires Skip(d, start, i, depth).Ok? && start + Skip(d, start, i, depth).value <= end
    ensures Skip(e, start + off, i + off, depth) == Skip(d, start, i, depth)
    decreases |d| - i
  {
    SkipOneMoved(d, i, depth, end, e, off);
    var hop := SkipOne(d, i, depth).value;
    if hop.depth != 0 { SkipMoved(d, start, hop.end, hop.depth, end, e, off); }
  }

  lemma {:induction false} ReadPackedMoved(d: seq<byte>, i: nat, stop: nat, end: nat, e: seq<byte>, off: int)
    requires i <= end && stop <= end && 0 <= stop + off && SameBytes(d, i, end, e, off)
    requires ReadPacked(d, i, stop).Ok? && ReadPacked(d, i, stop).value.next <= end
    ensures ReadPacked(e, i + off, stop + off)
         == Ok(PackedRead(ReadPacked(d, i, stop).value.raws, ReadPacked(d, i, stop).value.next + off))
    decreases |d| - i
  {
    if i < stop {
      ReadVarintMoved(d, i, 0, end, e, off);
      ReadPackedMoved(d, ReadVarint(d, i).value.next, stop, end, e, off);
    }
  }

  lemma ReadExtentMoved(d: bytes, i: nat, end: nat, e: bytes, off: int)
    requires SameBytes(d, i, end, e, off) && i <= end
    requires ReadExtent(d, i).Ok? && ReadExtent(d, i).value.end <= end
    ensures ReadExtent(e, i + off)
         == Ok(Extent(ReadExtent(d, i).value.start + off, ReadExtent(d, i).value.end + off))
  {
    ReadVarintMoved(d, i, 0, end, e, off);
  }

  lemma ReadBytesPayloadMoved(d: bytes, num: int32, i: nat, end: nat, e: bytes, off: int)
    requires SameBytes(d, i, end, e, off) && i <= end
    requires ReadBytesPayload(d, num, i).Ok? && ReadBytesPayload(d, num, i).value.next <= end
    ensures ReadBytesPayload(e, num, i + off)
         == Ok(Field(ReadBytesPayload(d, num, i).value.token, ReadBytesPayload(d, num, i).value.next + off))
  {
    ReadExtentMoved(d, i, end, e, off);
    var p := ReadExtent(d, i).value;
    CopyMoved(d, p.start, p.end, e, off);
  }

  lemma ReadPackedPayloadMoved(d: bytes, num: int32, i: nat, end: nat, e: bytes, off: int)
    requires SameBytes(d, i, end, e, off) && i <= end
    requires ReadPackedPayload(d, num, i).Ok? && ReadPackedPayload(d, num, i).value.next <= end
    ensures ReadPackedPayload(e, num, i + off)
         == Ok(Field(ReadPackedPayload(d, num, i).value.token, ReadPackedPayload(d, num, i).value.next + off))
  {
    ReadExtentMoved(d, i, end, e, off);
    var p := ReadExtent(d, i).value;
    ReadPackedMoved(d, p.start, p.end, end, e, off);
  }

  // ---------------------------------------------------------------- reading what was written

  /** The one-byte tag of a field number below 16. */
  function Tag(num: nat, wireType: nat): (b: byte)
    requires 0 < num < 16 && wireType < 8
  {
    8 * num + wireType
  }

  /** A length-delimited field: tag, length, payload. */
  function Delimited(num: nat, payload: seq<byte>): seq<byte>
    requires 0 < num < 16
  {
    [Tag(num, 2)] + (EncodeVarint(|payload|) + payload)
  }

  lemma ReadTag(d: seq<byte>, i: nat, num: nat, wireType: nat)
    requires 0 < num < 16 && wireType < 8
    requires At(d, i, [Tag(num, wireType)])
    ensures ReadVarint(d, i) == Ok(Read(Tag(num, wireType), i + 1))
    ensures FieldNumber(Tag(num, wireType)) == num && WireType(Tag(num, wireType)) == wireType
  {
    assert Nth([Tag(num, wireType)], 0) == d[i];
  }

  lemma ReadWrittenExtent(d: bytes, i: nat, payload: seq<byte>)
    requires At(d, i, EncodeVarint(|payload|) + payload)
    ensures ReadExtent(d, i) == Ok(Extent(i + |EncodeVarint(|payload|)|, i + |EncodeVarint(|payload|)| + |payload|))
    ensures At(d, i + |EncodeVarint(|payload|)|, payload)
  {
    AtSplit(d, i, EncodeVarint(|payload|), payload);
    ReadEncoded(d, i, |payload|);
    ToInt64Small(|payload|);
  }

  /** The payload of a packed field: the concatenated varints. */
  function EncodePacked(ts: seq<int64>): (r: seq<byte>)
    ensures |ts| > 0 ==> |r| > 0
  {
    if |ts| == 0 then [] else EncodeVarint(ToUint64(ts[0])) + EncodePacked(ts[1..])
  }

  /** What the elements are read back as. */
  function RawsOf(ts: seq<int64>): Raws {
    if |ts| == 0 then NoRaws else MoreRaws(ToUint64(ts[0]), RawsOf(ts[1..]))
  }

  lemma {:induction false} ReadWrittenPacked(d: seq<byte>, i: nat, ts: seq<int64>)
    requires At(d, i, EncodePacked(ts))
    ensures ReadPacked(d, i, i + |EncodePacked(ts)|) == Ok(PackedRead(RawsOf(ts), i + |EncodePacked(ts)|))
    decreases |ts|
  {
    if |ts| > 0 {
      var e := EncodeVarint(ToUint64(ts[0]));
      AtSplit(d, i, e, EncodePacked(ts[1..]));
      ReadEncoded(d, i, ToUint64(ts[0]));
      ReadWrittenPacked(d, i + |e|, ts[1..]);
    }
  }

  lemma ReadWrittenPackedPayload(d: bytes, num: int32, i: nat, ts: seq<int64>)
    requires At(d, i, EncodeVarint(|EncodePacked(ts)|) + EncodePacked(ts))
    ensures var p := EncodePacked(ts);
      ReadPackedPayload(d, num, i) == Ok(Field(PackedTok(num, RawsOf(ts)), i + |EncodeVarint(|p|)| + |p|))
  {
    var p := EncodePacked(ts);
    ReadWrittenExtent(d, i, p);
    ReadWrittenPacked(d, i + |EncodeVarint(|p|)|, ts);
  }
}

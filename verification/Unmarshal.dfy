/**
 The generated unmarshalling code: loops over an index, a shift and an accumulator of fixed width.
 Each loop is shown to compute what the field-by-field reading of FieldScan says, to stay inside
 the input and to make progress on every byte string.
 */
module Unmarshal {
  import opened Wrappers
  import opened Varint
  import opened WireFormat
  import opened FieldScan
  import opened Messages

  // ---------------------------------------------------------------- varints

  /** Splitting off the bytes already read: `acc` of them, then `rest` shifted past them. */
  ghost predicate Continues(d: seq<byte>, start: nat, i: nat, count: nat, acc: nat)
    requires start <= i <= |d|
  {
    match (ReadVarintFrom(d, start, 0), ReadVarintFrom(d, i, count))
    case (Ok(whole), Ok(rest)) => whole.raw == acc + Pow128(count) * rest.raw && whole.next == rest.next
    case (Err(e), Err(e')) => e == e'
    case _ => false
  }

  /** The seven bits of a byte, shifted into their place. */
  function Group(b: byte, count: nat): nat { Pow128(count) * (b % 128) }

  lemma ContinuesStep(d: seq<byte>, start: nat, i: nat, count: nat, acc: nat)
    requires start <= i < |d| && count < 10 && d[i] >= 128 && Continues(d, start, i, count, acc)
    ensures Continues(d, start, i + 1, count + 1, acc + Group(d[i], count))
  {
    if ReadVarintFrom(d, i + 1, count + 1).Ok? {
      var r := ReadVarintFrom(d, i + 1, count + 1).value.raw;
      Distribute(Pow128(count), d[i] - 128, r);
    }
  }

  lemma Distribute(p: nat, b: nat, r: nat)
    ensures p * (b + 128 * r) == p * b + (128 * p) * r
  {}

  lemma ContinuesEnd(d: seq<byte>, start: nat, i: nat, count: nat, acc: nat)
    requires start <= i <= |d| && Continues(d, start, i, count, acc)
    ensures count >= 10 ==> ReadVarint(d, start) == Err(IntOverflow)
    ensures count < 10 && i == |d| ==> ReadVarint(d, start) == Err(UnexpectedEOF)
    ensures count < 10 && i < |d| && d[i] < 128 ==>
      ReadVarint(d, start) == Ok(Read(acc + Group(d[i], count), i + 1))
  {}

  /** The two accumulators of the generated code are 32 and 64 bits wide. */
  predicate Width(modulus: nat) { modulus == TWO32 || modulus == TWO64 }

  /** Adding below a modulus may be done on the residue. */
  lemma AddResidue(x: nat, y: nat, modulus: nat)
    requires Width(modulus)
    ensures (x % modulus + y) % modulus == (x + y) % modulus
  {
    if modulus == TWO32 {
      assert (x % TWO32 + y) % TWO32 == (x + y) % TWO32;
    } else {
      assert (x % TWO64 + y) % TWO64 == (x + y) % TWO64;
    }
  }

  /**
   A varint loop into an accumulator of 2^width values (width 32 or 64). The shifted groups do not
   overlap, so or-ing them in is adding them, and bits shifted out of the word are lost.
   */
  method VarintLoop(d: bytes, start: nat, modulus: nat) returns (r: Result<Read>)
    requires start <= |d| && Width(modulus)
    ensures r.Ok? == ReadVarint(d, start).Ok?
    ensures r.Err? ==> r == ReadVarint(d, start)
    ensures r.Ok? ==> r.value == Read(ReadVarint(d, start).value.raw % modulus, ReadVarint(d, start).value.next)
  {
    var acc, i, count := 0, start, 0;
    ghost var bits: nat := 0;
    while true
      invariant start <= i <= |d| && count <= 10
      invariant acc == bits % modulus && Continues(d, start, i, count, bits)
      decreases 10 - count
    {
      ContinuesEnd(d, start, i, count, bits);
      if count >= 10 { return Err(IntOverflow); }
      if i >= |d| { return Err(UnexpectedEOF); }
      var group := Group(d[i], count);
      AddResidue(bits, group, modulus);
      if d[i] < 128 {
        return Ok(Read((acc + group) % modulus, i + 1));
      }
      ContinuesStep(d, start, i, count, bits);
      acc := (acc + group) % modulus;
      bits := bits + group;
      i := i + 1;
      count := count + 1;
    }
  }

  /** Reducing to 64 bits first does not change what is kept of 64 or 32 of them. */
  lemma TruncateTwice(x: nat)
    ensures ToInt64(x % TWO64) == ToInt64(x) && ToUint64(x % TWO64) == ToUint64(x)
    ensures ToInt32(x % TWO32) == ToInt32(x)
  {}

  // ---------------------------------------------------------------- skipping

  /** An index of 64 bits turns negative exactly when it passes the largest one. */
  lemma IndexWraps(x: nat)
    requires x < TWO64
    ensures ToInt64(x) < 0 <==> x >= TWO63
    ensures x < TWO63 ==> ToInt64(x) == x
  {}

  /** skipTest / skipError on d[start:]. */
  method SkipLoop(d: bytes, start: nat) returns (r: Result<nat>)
    requires start <= |d|
    ensures r == Skip(d, start, start, 0)
  {
    var i, depth: nat := start, 0;
    while i < |d|
      invariant start <= i <= |d|
      invariant Skip(d, start, start, 0) == Skip(d, start, i, depth)
      decreases |d| - i
    {
      var hop := SkipOnce(d, i, depth);
      if hop.Err? { return Err(hop.error); }
      IndexWraps(hop.value.end - start);
      var index := ToInt64(hop.value.end - start);
      if index < 0 { return Err(InvalidLength); }
      depth := hop.value.depth;
      if depth == 0 { return Ok(index); }
      if start + index > |d| { return Err(UnexpectedEOF); }
      i := start + index;
    }
    return Err(UnexpectedEOF);
  }

  /** One round of the skip loop: a tag, its payload and the groups then open. */
  method SkipOnce(d: bytes, i: nat, depth: nat) returns (r: Result<Hop>)
    requires i < |d|
    ensures r == SkipOne(d, i, depth)
    ensures r.Ok? ==> r.value.end < TWO64
  {
    var tag := VarintLoop(d, i, TWO64);
    if tag.Err? { return Err(tag.error); }
    TruncateTwice(ReadVarint(d, i).value.raw);
    var wireType := tag.value.raw % 8;
    var end := PayloadEnd(d, tag.value.next, wireType, depth);
    if end.Err? { return Err(end.error); }
    if wireType == 3 { return Ok(Hop(end.value, depth + 1)); }
    if wireType == 4 { return Ok(Hop(end.value, depth - 1)); }
    return Ok(Hop(end.value, depth));
  }

  /** The switch of the skip loop: where the payload ends, before the index wraps around. */
  method PayloadEnd(d: bytes, i: nat, wireType: nat, depth: nat) returns (r: Result<nat>)
    requires i <= |d|
    ensures r == SkipPayload(d, i, wireType, depth)
    ensures r.Ok? ==> r.value < TWO64
  {
    match wireType
    case 0 =>
      var v := VarintLoop(d, i, TWO64);
      if v.Err? { return Err(v.error); }
      return Ok(v.value.next);
    case 1 => return Ok(i + 8);
    case 2 =>
      var v := VarintLoop(d, i, TWO64);
      if v.Err? { return Err(v.error); }
      TruncateTwice(ReadVarint(d, i).value.raw);
      var length := ToInt64(v.value.raw);
      if length < 0 { return Err(InvalidLength); }
      return Ok(v.value.next + length);
    case 3 => return Ok(i);
    case 4 =>
      if depth == 0 { return Err(UnexpectedEndOfGroup); }
      return Ok(i);
    case 5 => return Ok(i + 4);
    case _ => return Err(IllegalWireType);
  }

  // ---------------------------------------------------------------- payloads

  /** A length prefix and the three checks on it. */
  method ExtentOf(d: bytes, i: nat) returns (r: Result<Extent>)
    requires i <= |d|
    ensures r == ReadExtent(d, i)
  {
    var v := VarintLoop(d, i, TWO64);
    if v.Err? { return Err(v.error); }
    TruncateTwice(ReadVarint(d, i).value.raw);
    var length := ToInt64(v.value.raw);
    if length < 0 { return Err(InvalidLength); }
    IndexWraps(v.value.next + length);
    var post := ToInt64(v.value.next + length);
    if post < 0 { return Err(InvalidLength); }
    if post > |d| { return Err(UnexpectedEOF); }
    r := Ok(Extent(v.value.next, post));
  }

  /** The elements of a packed field, appended to `ts`, and the index behind the last one. */
  method PackedLoop(d: bytes, start: nat, end: nat, ts: seq<int64>) returns (r: Result<nat>, out: seq<int64>)
    requires start <= |d| && end <= |d|
    ensures r.Ok? == ReadPacked(d, start, end).Ok?
    ensures r.Err? ==> r.error == ReadPacked(d, start, end).error
    ensures r.Ok? ==>
      r.value == ReadPacked(d, start, end).value.next && out == ts + Int64s(ReadPacked(d, start, end).value.raws)
  {
    ghost var whole := ReadPacked(d, start, end);
    var i := start;
    out := ts;
    while i < end
      invariant start <= i <= |d|
      invariant ReadPacked(d, i, end).Ok? == whole.Ok?
      invariant whole.Err? ==> ReadPacked(d, i, end) == whole
      invariant whole.Ok? ==> whole.value.next == ReadPacked(d, i, end).value.next
      invariant whole.Ok? ==> out + Int64s(ReadPacked(d, i, end).value.raws) == ts + Int64s(whole.value.raws)
      decreases |d| - i
    {
      var v := VarintLoop(d, i, TWO64);
      if v.Err? { return Err(v.error), out; }
      TruncateTwice(ReadVarint(d, i).value.raw);
      assert whole.Ok? ==>
        out + Int64s(ReadPacked(d, i, end).value.raws)
        == (out + [ToInt64(v.value.raw)]) + Int64s(ReadPacked(d, v.value.next, end).value.raws);
      out := out + [ToInt64(v.value.raw)];
      i := v.value.next;
    }
    r := Ok(i);
  }

  // ---------------------------------------------------------------- messages

  datatype Step = Step(message: Message, next: nat)

  /** Reading the payload of one field and then giving it its effect. */
  function ApplyPayload(m: Message, d: bytes, i: nat, num: int32, wireType: nat, next: nat): (r: Result<Step>)
    requires i <= next <= |d|
  {
    var f :- ReadPayload(SchemaOf(m), d, i, num, wireType, next);
    var m' :- SetField(m, f.token);
    Ok(Step(m', f.next))
  }

  /** A scalar field: 32-bit accumulators, but 64 bits for an unpacked element of timeTracer. */
  method PutScalar(m: Message, d: bytes, i: nat, num: int32, next: nat) returns (r: Result<Step>)
    requires i <= next <= |d|
    requires KindOf(SchemaOf(m), num) == VarintField || KindOf(SchemaOf(m), num) == PackedField
    ensures r == ApplyPayload(m, d, i, num, 0, next)
  {
    var modulus := if KindOf(SchemaOf(m), num) == PackedField then TWO64 else TWO32;
    var v := VarintLoop(d, next, modulus);
    if v.Err? { return Err(v.error); }
    TruncateTwice(ReadVarint(d, next).value.raw);
    if m.OfError? {
      return Ok(Step(OfError(m.error.(code := ToInt32(v.value.raw))), v.value.next));
    }
    r := Ok(Step(OfRecord(SetScalar(m.record, num, v.value.raw)), v.value.next));
  }

  method PutPacked(m: Message, d: bytes, i: nat, num: int32, next: nat) returns (r: Result<Step>)
    requires i <= next <= |d| && KindOf(SchemaOf(m), num) == PackedField
    ensures r == ApplyPayload(m, d, i, num, 2, next)
  {
    var p := ExtentOf(d, next);
    if p.Err? { return Err(p.error); }
    var read, ts := PackedLoop(d, p.value.start, p.value.end, m.record.timeTracer);
    if read.Err? { return Err(read.error); }
    r := Ok(Step(OfRecord(m.record.(timeTracer := ts)), read.value));
  }

  method PutBytes(m: Message, d: bytes, i: nat, num: int32, next: nat) returns (r: Result<Step>)
    requires i <= next <= |d| && KindOf(SchemaOf(m), num) == BytesField
    ensures r == ApplyPayload(m, d, i, num, 2, next)
  {
    var p := ExtentOf(d, next);
    if p.Err? { return Err(p.error); }
    var text := Copy(d, p.value.start, p.value.end);
    if m.OfError? {
      return Ok(Step(OfError(m.error.(message := text)), p.value.end));
    }
    if num == 1 {
      return Ok(Step(OfNotLeader(m.notLeader.(request := text)), p.value.end));
    }
    r := Ok(Step(OfNotLeader(m.notLeader.(leader := text)), p.value.end));
  }

  /** The message a nested field is merged into: the one already there, or a new one. */
  function Inner(m: Message): Message
    requires !m.OfNotLeader?
  {
    if m.OfError? then OfNotLeader(OrZero(m.error.notLeader, ZERO_NOT_LEADER))
    else OfError(OrZero(m.record.err, ZERO_ERROR))
  }

  method PutMessage(m: Message, d: bytes, i: nat, num: int32, next: nat) returns (r: Result<Step>)
    requires i <= next <= |d| && KindOf(SchemaOf(m), num).MessageField?
    ensures r == ApplyPayload(m, d, i, num, 2, next)
    decreases Rank(SchemaOf(m)), 0
  {
    ghost var nested := KindOf(SchemaOf(m), num).nested;
    assert ReadPayload(SchemaOf(m), d, i, num, 2, next) == ReadMessagePayload(nested, d, num, next);
    var p := ExtentOf(d, next);
    if p.Err? { return Err(p.error); }
    var inner, _ := Unmarshal(Inner(m), Copy(d, p.value.start, p.value.end));
    if inner.Err? { return Err(inner.error); }
    if m.OfError? {
      return Ok(Step(OfError(m.error.(notLeader := Some(inner.value.notLeader))), p.value.end));
    }
    r := Ok(Step(OfRecord(m.record.(err := Some(inner.value.error))), p.value.end));
  }

  method PutUnknown(m: Message, d: bytes, i: nat, num: int32, wireType: nat, next: nat) returns (r: Result<Step>)
    requires i <= next <= |d| && KindOf(SchemaOf(m), num) == UnknownField
    ensures r == ApplyPayload(m, d, i, num, wireType, next)
  {
    var skip := SkipLoop(d, i);
    if skip.Err? { return Err(skip.error); }
    IndexWraps(i + skip.value);
    var after := ToInt64(i + skip.value);
    if after < 0 { return Err(InvalidLength); }
    if after > |d| { return Err(UnexpectedEOF); }
    r := Ok(Step(m, after));
  }

  method PutField(m: Message, d: bytes, i: nat, num: int32, wireType: nat, next: nat) returns (r: Result<Step>)
    requires i <= next <= |d|
    ensures r == ApplyPayload(m, d, i, num, wireType, next)
    decreases Rank(SchemaOf(m)), 1
  {
    var kind := KindOf(SchemaOf(m), num);
    if kind == UnknownField {
      r := PutUnknown(m, d, i, num, wireType, next);
    } else if wireType == 0 && (kind == VarintField || kind == PackedField) {
      r := PutScalar(m, d, i, num, next);
    } else if wireType == 2 && kind == PackedField {
      r := PutPacked(m, d, i, num, next);
    } else if wireType == 2 && kind == BytesField {
      r := PutBytes(m, d, i, num, next);
    } else if wireType == 2 && kind.MessageField? {
      r := PutMessage(m, d, i, num, next);
    } else {
      r := Err(WrongWireType);
    }
  }

  datatype FieldTag = FieldTag(num: int32, wireType: nat, next: nat)

  /** The tag of a field, as its number and wire type. */
  method TagAt(d: bytes, i: nat) returns (r: Result<FieldTag>)
    requires i <= |d|
    ensures r.Ok? == ReadVarint(d, i).Ok?
    ensures r.Err? ==> r.error == ReadVarint(d, i).error
    ensures r.Ok? ==>
      var tag := ReadVarint(d, i).value; r.value == FieldTag(FieldNumber(tag.raw), WireType(tag.raw), tag.next)
  {
    var tag := VarintLoop(d, i, TWO64);
    if tag.Err? { return Err(tag.error); }
    TruncateTwice(ReadVarint(d, i).value.raw);
    r := Ok(FieldTag(ToInt32(tag.value.raw / 8), tag.value.raw % 8, tag.value.next));
  }

  /** A tag that cannot be read or must not stand here ends the message. */
  lemma ScanTag(m: Message, d: bytes, i: nat)
    requires i < |d|
    ensures ReadVarint(d, i).Err? ==> DecodeFields(m, Scan(SchemaOf(m), d, i)) == Err(ReadVarint(d, i).error)
    ensures ReadVarint(d, i).Ok? ==>
      var raw := ReadVarint(d, i).value.raw;
      && (WireType(raw) == 4 ==> DecodeFields(m, Scan(SchemaOf(m), d, i)) == Err(EndGroupForNonGroup))
      && (WireType(raw) != 4 && FieldNumber(raw) <= 0 ==>
            DecodeFields(m, Scan(SchemaOf(m), d, i)) == Err(IllegalTag))
  {
    if ReadVarint(d, i).Ok? { ReadFieldDef(SchemaOf(m), d, i); }
  }

  lemma FieldEffect(m: Message, d: bytes, i: nat)
    requires i < |d| && ReadVarint(d, i).Ok?
    requires var raw := ReadVarint(d, i).value.raw; WireType(raw) != 4 && FieldNumber(raw) > 0
    ensures var tag := ReadVarint(d, i).value;
      var step := ApplyPayload(m, d, i, FieldNumber(tag.raw), WireType(tag.raw), tag.next);
      DecodeFields(m, Scan(SchemaOf(m), d, i))
      == if step.Err? then Err(step.error)
         else DecodeFields(step.value.message, Scan(SchemaOf(m), d, step.value.next))
  {
    ReadFieldDef(SchemaOf(m), d, i);
  }

  /**
   Unmarshal of all three messages, with the index it stops at. Success means that exactly the whole
   input was read: the index never passes its end, so the check for that after the loop never fires.
   */
  method Unmarshal(m0: Message, d: bytes) returns (r: Result<Message>, stop: nat)
    ensures r == Decode(m0, d)
    ensures if r.Ok? then stop == |d| else stop < |d|
    decreases Rank(SchemaOf(m0)), 2
  {
    var m, i := m0, 0;
    while i < |d|
      invariant i <= |d| && SchemaOf(m) == SchemaOf(m0)
      invariant Decode(m0, d) == DecodeFields(m, Scan(SchemaOf(m0), d, i))
    {
      var tag := TagAt(d, i);
      ScanTag(m, d, i);
      if tag.Err? { return Err(tag.error), i; }
      if tag.value.wireType == 4 { return Err(EndGroupForNonGroup), i; }
      if tag.value.num <= 0 { return Err(IllegalTag), i; }
      FieldEffect(m, d, i);
      var step := PutField(m, d, i, tag.value.num, tag.value.wireType, tag.value.next);
      if step.Err? { return Err(step.error), i; }
      m, i := step.value.message, step.value.next;
    }
    return Ok(m), i;
  }
}

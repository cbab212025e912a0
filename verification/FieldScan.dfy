/**
 Reading a whole message off the wire: one field after another, a nested message as the list of its
 own fields. What a field reads as depends on its own bytes only, so messages can be concatenated.
 */
module FieldScan {
  import opened Wrappers
  import opened Varint
  import opened WireFormat

  /** How deep messages of a schema nest. */
  function Rank(schema: Schema): nat {
    match schema
    case NotLeaderMsg => 0
    case ErrorMsg => 1
    case RecordMsg => 2
  }

  /** One iteration of a generated Unmarshal loop. */
  function ReadField(schema: Schema, d: bytes, i: nat): (r: Result<Field>)
    requires i < |d|
    ensures r.Ok? ==> i < r.value.next <= |d|
    decreases Rank(schema), |d| - i, 1
  {
    var tag :- ReadVarint(d, i);
    var num := FieldNumber(tag.raw);
    var wireType := WireType(tag.raw);
    if wireType == 4 then Err(EndGroupForNonGroup)
    else if num <= 0 then Err(IllegalTag)
    else ReadPayload(schema, d, i, num, wireType, tag.next)
  }

  /** The payload at `next` of the field whose tag started at `i`. */
  function ReadPayload(schema: Schema, d: bytes, i: nat, num: int32, wireType: nat, next: nat): (r: Result<Field>)
    requires i <= next <= |d|
    ensures r.Ok? ==> i < r.value.next <= |d|
    ensures r.Ok? && KindOf(schema, num) != UnknownField ==> next < r.value.next
    decreases Rank(schema), |d| - i, 0
  {
    match KindOf(schema, num)
    case VarintField =>
      if wireType != 0 then Err(WrongWireType) else ReadVarintPayload(d, num, next)
    case BytesField =>
      if wireType != 2 then Err(WrongWireType) else ReadBytesPayload(d, num, next)
    case PackedField =>
      if wireType == 0 then ReadVarintPayload(d, num, next)
      else if wireType == 2 then ReadPackedPayload(d, num, next)
      else Err(WrongWireType)
    case MessageField(nested) =>
      if wireType != 2 then Err(WrongWireType) else ReadMessagePayload(nested, d, num, next)
    case UnknownField => ReadSkipped(d, i)
  }

  function ReadMessagePayload(nested: Schema, d: bytes, num: int32, i: nat): (r: Result<Field>)
    requires i <= |d|
    ensures r.Ok? ==> i < r.value.next <= |d|
    decreases Rank(nested), |d|, 3
  {
    var p :- ReadExtent(d, i);
    Ok(Field(MessageTok(num, Scan(nested, Copy(d, p.start, p.end), 0)), p.end))
  }

  function Scan(schema: Schema, d: bytes, i: nat): Fields
    requires i <= |d|
    decreases Rank(schema), |d| - i, 2
  {
    if i >= |d| then Done
    else
      match ReadField(schema, d, i)
      case Err(e) => Failed(e)
      case Ok(f) => Next(f.token, Scan(schema, d, f.next))
  }

  /** A field of a number the message does not know, complete and with its groups closed. */
  predicate WellFormedUnknown(schema: Schema, u: bytes) {
    && |u| > 0
    && Skip(u, 0, 0, 0) == Ok(|u|)
    && var tag := ReadVarint(u, 0);
       tag.Ok? && FieldNumber(tag.value.raw) > 0 && WireType(tag.value.raw) != 4
       && KindOf(schema, FieldNumber(tag.value.raw)) == UnknownField
  }

  lemma ReadFieldDef(schema: Schema, d: bytes, i: nat)
    requires i < |d| && ReadVarint(d, i).Ok?
    ensures var tag := ReadVarint(d, i).value;
      ReadField(schema, d, i)
      == if WireType(tag.raw) == 4 then Err(EndGroupForNonGroup)
         else if FieldNumber(tag.raw) <= 0 then Err(IllegalTag)
         else ReadPayload(schema, d, i, FieldNumber(tag.raw), WireType(tag.raw), tag.next)
  {}

  // ---------------------------------------------------------------- reading the same bytes elsewhere

  lemma ReadMessagePayloadMoved(nested: Schema, d: bytes, num: int32, i: nat, end: nat, e: bytes, off: int)
    requires SameBytes(d, i, end, e, off) && i <= end
    requires ReadMessagePayload(nested, d, num, i).Ok? && ReadMessagePayload(nested, d, num, i).value.next <= end
    ensures var f := ReadMessagePayload(nested, d, num, i).value;
      ReadMessagePayload(nested, e, num, i + off) == Ok(Field(f.token, f.next + off))
  {
    ReadExtentMoved(d, i, end, e, off);
    var p := ReadExtent(d, i).value;
    CopyMoved(d, p.start, p.end, e, off);
  }

  lemma ReadSkippedMoved(d: bytes, i: nat, end: nat, e: bytes, off: int)
    requires SameBytes(d, i, end, e, off) && i <= end
    requires ReadSkipped(d, i).Ok? && ReadSkipped(d, i).value.next <= end
    ensures ReadSkipped(e, i + off) == Ok(Field(SkippedTok, ReadSkipped(d, i).value.next + off))
  {
    SkipMoved(d, i, i, 0, end, e, off);
  }

  lemma ReadVarintPayloadMoved(d: bytes, num: int32, i: nat, end: nat, e: bytes, off: int)
    requires SameBytes(d, i, end, e, off) && i <= end
    requires ReadVarintPayload(d, num, i).Ok? && ReadVarintPayload(d, num, i).value.next <= end
    ensures var f := ReadVarintPayload(d, num, i).value;
      ReadVarintPayload(e, num, i + off) == Ok(Field(f.token, f.next + off))
  {
    ReadVarintMoved(d, i, 0, end, e, off);
  }

  lemma ReadDelimitedMoved(
    schema: Schema, d: bytes, i: nat, num: int32, next: nat, end: nat, e: bytes, off: int)
    requires i <= next <= end && SameBytes(d, i, end, e, off) && KindOf(schema, num) != UnknownField
    requires ReadPayload(schema, d, i, num, 2, next).Ok? && ReadPayload(schema, d, i, num, 2, next).value.next <= end
    ensures var f := ReadPayload(schema, d, i, num, 2, next).value;
      ReadPayload(schema, e, i + off, num, 2, next + off) == Ok(Field(f.token, f.next + off))
  {
    match KindOf(schema, num)
    case BytesField => ReadBytesPayloadMoved(d, num, next, end, e, off);
    case PackedField => ReadPackedPayloadMoved(d, num, next, end, e, off);
    case MessageField(nested) => ReadMessagePayloadMoved(nested, d, num, next, end, e, off);
  }

  lemma ReadPayloadMoved(
    schema: Schema, d: bytes, i: nat, num: int32, wireType: nat, next: nat, end: nat, e: bytes, off: int)
    requires i <= next <= end && SameBytes(d, i, end, e, off)
    requires ReadPayload(schema, d, i, num, wireType, next).Ok?
    requires ReadPayload(schema, d, i, num, wireType, next).value.next <= end
    ensures var f := ReadPayload(schema, d, i, num, wireType, next).value;
      ReadPayload(schema, e, i + off, num, wireType, next + off) == Ok(Field(f.token, f.next + off))
  {
    if KindOf(schema, num) == UnknownField {
      ReadSkippedMoved(d, i, end, e, off);
    } else if wireType == 0 {
      ReadVarintPayloadMoved(d, num, next, end, e, off);
    } else {
      ReadDelimitedMoved(schema, d, i, num, next, end, e, off);
    }
  }

  /** A field contains its own tag. */
  lemma TagWithinField(schema: Schema, d: bytes, i: nat)
    requires i < |d| && ReadField(schema, d, i).Ok?
    ensures ReadVarint(d, i).Ok? && ReadVarint(d, i).value.next <= ReadField(schema, d, i).value.next
  {
    ReadFieldDef(schema, d, i);
    var tag := ReadVarint(d, i).value;
    if KindOf(schema, FieldNumber(tag.raw)) == UnknownField {
      assert ReadField(schema, d, i) == ReadSkipped(d, i);
      TagSkipped(d, i);
    }
  }

  lemma TagSkipped(d: bytes, i: nat)
    requires i < |d| && ReadSkipped(d, i).Ok?
    ensures ReadVarint(d, i).Ok? && ReadVarint(d, i).value.next <= ReadSkipped(d, i).value.next
  {
    assert Skip(d, i, i, 0).Ok?;
    assert SkipOne(d, i, 0).Ok?;
  }

  /** A complete field reads the same at any index and whatever surrounds it. */
  lemma ReadFieldMoved(schema: Schema, d: bytes, i: nat, end: nat, e: bytes, off: int)
    requires SameBytes(d, i, end, e, off) && i < end
    requires ReadField(schema, d, i).Ok? && ReadField(schema, d, i).value.next <= end
    ensures ReadField(schema, e, i + off)
         == Ok(Field(ReadField(schema, d, i).value.token, ReadField(schema, d, i).value.next + off))
  {
    TagWithinField(schema, d, i);
    ReadFieldDef(schema, d, i);
    var tag := ReadVarint(d, i).value;
    ReadVarintMoved(d, i, 0, end, e, off);
    ReadFieldDef(schema, e, i + off);
    ReadPayloadMoved(schema, d, i, FieldNumber(tag.raw), WireType(tag.raw), tag.next, end, e, off);
  }

  /** An unknown field, wherever it stands, is read as one skipped token of its whole length. */
  lemma ReadUnknown(schema: Schema, u: bytes, d: bytes, i: nat)
    requires WellFormedUnknown(schema, u) && SameBytes(u, 0, |u|, d, i)
    ensures ReadField(schema, d, i) == Ok(Field(SkippedTok, i + |u|))
  {
    ReadFieldDef(schema, u, 0);
    ReadFieldMoved(schema, u, 0, |u|, d, i);
  }

  // ---------------------------------------------------------------- whole messages

  predicate Complete(fs: Fields) {
    match fs
    case Done => true
    case Failed(_) => false
    case Next(_, rest) => Complete(rest)
  }

  function Append(fs: Fields, gs: Fields): Fields
    requires Complete(fs)
  {
    match fs
    case Done => gs
    case Next(t, rest) => Next(t, Append(rest, gs))
  }

  /** The same fields, ending or failing in the same place, whatever the kind of error. */
  predicate SameFields(fs: Fields, gs: Fields) {
    match (fs, gs)
    case (Next(t, rest), Next(u, rest')) => t == u && SameFields(rest, rest')
    case (Done, Done) => true
    case (Failed(_), Failed(_)) => true
    case _ => false
  }

  lemma TailBytes(a: bytes, b: bytes, i: nat)
    requires i <= |b|
    ensures SameBytes(b, i, |b|, a + b, |a|)
    ensures SameBytes(a + b, |a| + i, |a| + |b|, b, -|a|)
  {
    SameBytesBack(b, i, |b|, a + b, |a|);
  }

  /** A field reads the same at the end of a longer input. */
  lemma ReadFieldTail(schema: Schema, a: bytes, b: bytes, i: nat)
    requires |a + b| < TWO63 && i < |b| && ReadField(schema, b, i).Ok?
    ensures var f := ReadField(schema, b, i).value;
      ReadField(schema, a + b, |a| + i) == Ok(Field(f.token, |a| + f.next))
  {
    TailBytes(a, b, i);
    ReadFieldMoved(schema, b, i, |b|, a + b, |a|);
  }

  /** A field that cannot be read cannot be read at the end of a longer input either. */
  lemma ReadFieldTailFails(schema: Schema, a: bytes, b: bytes, i: nat)
    requires |a + b| < TWO63 && i < |b| && ReadField(schema, a + b, |a| + i).Ok?
    ensures ReadField(schema, b, i).Ok?
  {
    TailBytes(a, b, i);
    ReadFieldMoved(schema, a + b, |a| + i, |a + b|, b, -|a|);
  }

  lemma {:induction false} ScanTail(schema: Schema, a: bytes, b: bytes, i: nat)
    requires |a + b| < TWO63 && i <= |b|
    ensures SameFields(Scan(schema, a + b, |a| + i), Scan(schema, b, i))
    decreases |b| - i
  {
    if i < |b| {
      if ReadField(schema, b, i).Ok? {
        ReadFieldTail(schema, a, b, i);
        ScanTail(schema, a, b, ReadField(schema, b, i).value.next);
      } else if ReadField(schema, a + b, |a| + i).Ok? {
        ReadFieldTailFails(schema, a, b, i);
      }
    }
  }

  lemma {:induction false} ScanHead(schema: Schema, a: bytes, b: bytes, i: nat)
    requires |a + b| < TWO63 && i <= |a|
    requires Complete(Scan(schema, a, i))
    ensures Scan(schema, a + b, i) == Append(Scan(schema, a, i), Scan(schema, a + b, |a|))
    decreases |a| - i
  {
    if i < |a| {
      assert SameBytes(a, i, |a|, a + b, 0);
      ReadFieldMoved(schema, a, i, |a|, a + b, 0);
      ScanHead(schema, a, b, ReadField(schema, a, i).value.next);
    }
  }

  lemma {:induction false} AppendSame(fs: Fields, gs: Fields, gs': Fields)
    requires Complete(fs) && SameFields(gs, gs')
    ensures SameFields(Append(fs, gs), Append(fs, gs'))
  {
    if fs.Next? { AppendSame(fs.rest, gs, gs'); }
  }

  /** If `a` is a sequence of complete fields, the fields of `a + b` are those of `a`, then those of `b`. */
  lemma ScanConcat(schema: Schema, a: bytes, b: bytes)
    requires |a + b| < TWO63 && Complete(Scan(schema, a, 0))
    ensures SameFields(Scan(schema, a + b, 0), Append(Scan(schema, a, 0), Scan(schema, b, 0)))
  {
    ScanHead(schema, a, b, 0);
    ScanTail(schema, a, b, 0);
    AppendSame(Scan(schema, a, 0), Scan(schema, a + b, |a|), Scan(schema, b, 0));
  }

  lemma {:induction false} SameComplete(fs: Fields, gs: Fields)
    requires SameFields(fs, gs) && Complete(gs)
    ensures fs == gs
  {
    if fs.Next? { SameComplete(fs.rest, gs.rest); }
  }

  lemma {:induction false} AppendComplete(fs: Fields, gs: Fields)
    requires Complete(fs) && Complete(gs)
    ensures Complete(Append(fs, gs))
  {
    if fs.Next? { AppendComplete(fs.rest, gs); }
  }

  /** Two runs of complete fields, put one after the other. */
  lemma ScanJoin(schema: Schema, a: bytes, b: bytes)
    requires |a + b| < TWO63 && Complete(Scan(schema, a, 0)) && Complete(Scan(schema, b, 0))
    ensures Scan(schema, a + b, 0) == Append(Scan(schema, a, 0), Scan(schema, b, 0))
  {
    ScanConcat(schema, a, b);
    AppendComplete(Scan(schema, a, 0), Scan(schema, b, 0));
    SameComplete(Scan(schema, a + b, 0), Append(Scan(schema, a, 0), Scan(schema, b, 0)));
  }

  lemma ScanStep(schema: Schema, d: bytes, i: nat, f: Field)
    requires i < |d| && ReadField(schema, d, i) == Ok(f)
    ensures Scan(schema, d, i) == Next(f.token, Scan(schema, d, f.next))
  {}

  lemma ScanUnknown(schema: Schema, u: bytes)
    requires WellFormedUnknown(schema, u)
    ensures Scan(schema, u, 0) == Next(SkippedTok, Done)
  {
    assert SameBytes(u, 0, |u|, u, 0);
    ReadUnknown(schema, u, u, 0);
    ScanStep(schema, u, 0, Field(SkippedTok, |u|));
  }

  // ---------------------------------------------------------------- reading what was written

  lemma ReadVarintField(schema: Schema, d: bytes, i: nat, num: nat, v: uint64)
    requires 0 < num < 16
    requires KindOf(schema, num) == VarintField || KindOf(schema, num) == PackedField
    requires At(d, i, [Tag(num, 0)] + EncodeVarint(v))
    ensures ReadField(schema, d, i) == Ok(Field(VarintTok(num, v), i + 1 + |EncodeVarint(v)|))
  {
    AtSplit(d, i, [Tag(num, 0)], EncodeVarint(v));
    ReadTag(d, i, num, 0);
    ReadFieldDef(schema, d, i);
    ReadEncoded(d, i + 1, v);
  }

  lemma ReadBytesField(schema: Schema, d: bytes, i: nat, num: nat, payload: bytes)
    requires 0 < num < 16 && KindOf(schema, num) == BytesField
    requires At(d, i, Delimited(num, payload))
    ensures ReadField(schema, d, i) == Ok(Field(BytesTok(num, payload), i + |Delimited(num, payload)|))
  {
    AtSplit(d, i, [Tag(num, 2)], EncodeVarint(|payload|) + payload);
    ReadTag(d, i, num, 2);
    ReadFieldDef(schema, d, i);
    ReadWrittenExtent(d, i + 1, payload);
    CopyAt(d, i + 1 + |EncodeVarint(|payload|)|, payload);
  }

  /** A length-delimited field begins with its tag. */
  lemma DelimitedTag(schema: Schema, d: bytes, i: nat, num: nat, payload: bytes)
    requires 0 < num < 16 && At(d, i, Delimited(num, payload))
    ensures i + 1 <= |d| && ReadField(schema, d, i) == ReadPayload(schema, d, i, num, 2, i + 1)
    ensures At(d, i + 1, EncodeVarint(|payload|) + payload)
  {
    AtSplit(d, i, [Tag(num, 2)], EncodeVarint(|payload|) + payload);
    ReadTag(d, i, num, 2);
    ReadFieldDef(schema, d, i);
  }

  lemma ReadMessageField(schema: Schema, d: bytes, i: nat, num: nat, payload: bytes)
    requires 0 < num < 16 && KindOf(schema, num).MessageField?
    requires At(d, i, Delimited(num, payload))
    ensures ReadField(schema, d, i)
         == Ok(Field(MessageTok(num, Scan(KindOf(schema, num).nested, payload, 0)), i + |Delimited(num, payload)|))
  {
    DelimitedTag(schema, d, i, num, payload);
    ReadWrittenExtent(d, i + 1, payload);
    CopyAt(d, i + 1 + |EncodeVarint(|payload|)|, payload);
  }

  lemma ReadPackedField(schema: Schema, d: bytes, i: nat, num: nat, ts: seq<int64>)
    requires 0 < num < 16 && KindOf(schema, num) == PackedField
    requires At(d, i, Delimited(num, EncodePacked(ts)))
    ensures ReadField(schema, d, i) == Ok(Field(PackedTok(num, RawsOf(ts)), i + |Delimited(num, EncodePacked(ts))|))
  {
    DelimitedTag(schema, d, i, num, EncodePacked(ts));
    ReadWrittenPackedPayload(d, num, i + 1, ts);
  }
}

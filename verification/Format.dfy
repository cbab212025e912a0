/**
 The wire format in literal bytes: which byte announces which field of which message, what Marshal writes
 for a message, and which byte strings are skipped as unknown fields.
 */
module Format {
  import opened Wrappers
  import opened Varint
  import opened WireFormat
  import opened FieldScan
  import opened Messages

  /** A length-delimited field that begins with the byte `b`. */
  function Prefixed(b: byte, payload: seq<byte>): seq<byte> { [b] + (EncodeVarint(|payload|) + payload) }

  // ---------------------------------------------------------------- reading one field

  /** A message that is one field has the effect of that field. */
  lemma DecodeOne(m: Message, d: bytes, t: Token)
    requires |d| > 0 && ReadField(SchemaOf(m), d, 0) == Ok(Field(t, |d|))
    ensures Decode(m, d) == SetField(m, t)
  {
    ScanStep(SchemaOf(m), d, 0, Field(t, |d|));
    OneField(m, t);
  }

  lemma OneField(m: Message, t: Token)
    ensures DecodeFields(m, Next(t, Done)) == SetField(m, t)
  {
    var r := SetField(m, t);
    if r.Ok? { assert DecodeFields(r.value, Done) == r; }
  }

  /** Any varint of at most ten bytes behind its tag, not only the shortest one. */
  lemma DecodeVarint(m: Message, num: nat, bs: seq<byte>)
    requires 0 < num < 16 && IsVarint(bs) && |bs| <= 10
    requires KindOf(SchemaOf(m), num) == VarintField || KindOf(SchemaOf(m), num) == PackedField
    ensures Decode(m, [Tag(num, 0)] + bs) == SetField(m, VarintTok(num, Value(bs)))
  {
    var d: bytes := [Tag(num, 0)] + bs;
    AtSelf(d);
    AtSplit(d, 0, [Tag(num, 0)], bs);
    ReadTag(d, 0, num, 0);
    ReadFieldDef(SchemaOf(m), d, 0);
    ReadAnyVarint(d, 1, bs);
    DecodeOne(m, d, VarintTok(num, Value(bs)));
  }

  lemma DecodeBytes(m: Message, num: nat, p: bytes)
    requires 0 < num < 16 && KindOf(SchemaOf(m), num) == BytesField && |Delimited(num, p)| < TWO63
    ensures Decode(m, Delimited(num, p)) == SetField(m, BytesTok(num, p))
  {
    var d: bytes := Delimited(num, p);
    AtSelf(d);
    ReadBytesField(SchemaOf(m), d, 0, num, p);
    DecodeOne(m, d, BytesTok(num, p));
  }

  lemma DecodeNested(m: Message, num: nat, p: bytes)
    requires 0 < num < 16 && KindOf(SchemaOf(m), num).MessageField? && |Delimited(num, p)| < TWO63
    ensures Decode(m, Delimited(num, p)) == SetField(m, MessageTok(num, Scan(KindOf(SchemaOf(m), num).nested, p, 0)))
  {
    var d: bytes := Delimited(num, p);
    AtSelf(d);
    ReadMessageField(SchemaOf(m), d, 0, num, p);
    DecodeOne(m, d, MessageTok(num, Scan(KindOf(SchemaOf(m), num).nested, p, 0)));
  }

  lemma DecodePacked(rec: Record, ts: seq<int64>)
    requires |Delimited(6, EncodePacked(ts))| < TWO63
    ensures Decode(OfRecord(rec), Delimited(6, EncodePacked(ts))) == Ok(OfRecord(rec.(timeTracer := rec.timeTracer + ts)))
  {
    var d: bytes := Delimited(6, EncodePacked(ts));
    AtSelf(d);
    ReadPackedField(RecordMsg, d, 0, 6, ts);
    DecodeOne(OfRecord(rec), d, PackedTok(6, RawsOf(ts)));
    Int64sBack(ts);
  }

  // ---------------------------------------------------------------- what each byte announces

  /** A varint behind one of these bytes changes exactly the field of that byte, to its value in 32 or 64 bits. */
  lemma RecordScalars(rec: Record, bs: seq<byte>)
    requires IsVarint(bs) && |bs| <= 10
    ensures Decode(OfRecord(rec), [0x08] + bs) == Ok(OfRecord(rec.(tp := ToInt32(Value(bs)))))
    ensures Decode(OfRecord(rec), [0x10] + bs) == Ok(OfRecord(rec.(schemaVer := ToInt32(Value(bs)))))
    ensures Decode(OfRecord(rec), [0x18] + bs) == Ok(OfRecord(rec.(tid := ToInt32(Value(bs)))))
    ensures Decode(OfRecord(rec), [0x20] + bs) == Ok(OfRecord(rec.(gtid := ToInt32(Value(bs)))))
    ensures Decode(OfRecord(rec), [0x28] + bs) == Ok(OfRecord(rec.(pk := ToInt32(Value(bs)))))
    ensures Decode(OfRecord(rec), [0x30] + bs)
         == Ok(OfRecord(rec.(timeTracer := rec.timeTracer + [ToInt64(Value(bs))])))
  {
    var m := OfRecord(rec);
    DecodeVarint(m, 1, bs);
    DecodeVarint(m, 2, bs);
    DecodeVarint(m, 3, bs);
    DecodeVarint(m, 4, bs);
    DecodeVarint(m, 5, bs);
    DecodeVarint(m, 6, bs);
  }

  /** A packed list is appended. */
  lemma RecordTimes(rec: Record, ts: seq<int64>)
    requires |Prefixed(0x32, EncodePacked(ts))| < TWO63
    ensures Decode(OfRecord(rec), Prefixed(0x32, EncodePacked(ts)))
         == Ok(OfRecord(rec.(timeTracer := rec.timeTracer + ts)))
  {
    DecodePacked(rec, ts);
  }

  /** A nested error is merged into the one that is there. */
  lemma RecordError(rec: Record, p: bytes)
    requires |Prefixed(0x3a, p)| < TWO63
    ensures Decode(OfRecord(rec), Prefixed(0x3a, p))
         == match Decode(OfError(if rec.err.Some? then rec.err.value else ZERO_ERROR), p)
            case Ok(e) => Ok(OfRecord(rec.(err := Some(e.error))))
            case Err(e) => Err(e)
  {
    DecodeNested(OfRecord(rec), 7, p);
  }

  lemma ErrorBytes(err: Error, bs: seq<byte>, p: bytes)
    requires IsVarint(bs) && |bs| <= 10 && |Prefixed(0x12, p)| < TWO63
    ensures Decode(OfError(err), [0x08] + bs) == Ok(OfError(err.(code := ToInt32(Value(bs)))))
    ensures Decode(OfError(err), Prefixed(0x12, p)) == Ok(OfError(err.(message := p)))
    ensures Decode(OfError(err), Prefixed(0x1a, p))
         == match Decode(OfNotLeader(if err.notLeader.Some? then err.notLeader.value else ZERO_NOT_LEADER), p)
            case Ok(nl) => Ok(OfError(err.(notLeader := Some(nl.notLeader))))
            case Err(e) => Err(e)
  {
    DecodeVarint(OfError(err), 1, bs);
    DecodeBytes(OfError(err), 2, p);
    DecodeNested(OfError(err), 3, p);
  }

  lemma NotLeaderBytes(nl: NotLeader, p: bytes)
    requires |Prefixed(0x0a, p)| < TWO63
    ensures Decode(OfNotLeader(nl), Prefixed(0x0a, p)) == Ok(OfNotLeader(nl.(request := p)))
    ensures Decode(OfNotLeader(nl), Prefixed(0x12, p)) == Ok(OfNotLeader(nl.(leader := p)))
  {
    DecodeBytes(OfNotLeader(nl), 1, p);
    DecodeBytes(OfNotLeader(nl), 2, p);
  }

  // ---------------------------------------------------------------- what is written

  /** Nothing for zero; otherwise the byte and the two's complement of the number in 64 bits. */
  function Number(b: byte, v: int64): seq<byte> {
    if v == 0 then [] else [b] + EncodeVarint(if v < 0 then v + 0x1_0000_0000_0000_0000 else v)
  }

  function Text(b: byte, p: seq<byte>): seq<byte> {
    if p == [] then [] else Prefixed(b, p)
  }

  lemma NumberIs(num: nat, v: int64, rest: seq<byte>)
    requires 0 < num < 16
    ensures PrependVarint(num, v, rest) == Number(Tag(num, 0), v) + rest
  {
    ConversionsWrap(v);
    assert ToUint64(v) == if v < 0 then v + 0x1_0000_0000_0000_0000 else v;
  }

  lemma TextIs(num: nat, p: bytes, rest: seq<byte>)
    requires 0 < num < 16
    ensures PrependBytes(num, p, rest) == Text(Tag(num, 2), p) + rest
  {}

  lemma WritesNotLeader(nl: NotLeader)
    ensures EncodeNotLeader(nl) == Text(0x0a, nl.request) + Text(0x12, nl.leader)
  {
    TextIs(2, nl.leader, []);
    TextIs(1, nl.request, PrependBytes(2, nl.leader, []));
  }

  lemma WritesError(err: Error)
    ensures EncodeError(err) == Number(0x08, err.code) + Text(0x12, err.message)
      + if err.notLeader.None? then [] else Prefixed(0x1a, EncodeNotLeader(err.notLeader.value))
  {
    var q := PrependNotLeader(err.notLeader, []);
    TextIs(2, err.message, q);
    NumberIs(1, err.code, PrependBytes(2, err.message, q));
  }

  lemma WritesRecordTail(rec: Record)
    ensures EncodeFrom(rec, 6) == Text(0x32, EncodePacked(rec.timeTracer))
      + if rec.err.None? then [] else Prefixed(0x3a, EncodeError(rec.err.value))
  {}

  /** The fields in the order of their numbers. */
  lemma WritesRecord(rec: Record)
    ensures EncodeRecord(rec)
         == Number(0x08, rec.tp) + (Number(0x10, rec.schemaVer) + (Number(0x18, rec.tid) + (Number(0x20, rec.gtid)
          + (Number(0x28, rec.pk) + (Text(0x32, EncodePacked(rec.timeTracer))
          + if rec.err.None? then [] else Prefixed(0x3a, EncodeError(rec.err.value)))))))
  {
    WritesRecordTail(rec);
    NumberIs(5, rec.pk, EncodeFrom(rec, 6));
    NumberIs(4, rec.gtid, EncodeFrom(rec, 5));
    NumberIs(3, rec.tid, EncodeFrom(rec, 4));
    NumberIs(2, rec.schemaVer, EncodeFrom(rec, 3));
    NumberIs(1, rec.tp, EncodeFrom(rec, 2));
  }

  /** The elements of a packed list are written in order, each as its two's complement in 64 bits. */
  lemma {:induction false} WritesPacked(ts: seq<int64>, t: int64)
    ensures EncodePacked([]) == []
    ensures EncodePacked(ts + [t]) == EncodePacked(ts) + EncodeVarint(if t < 0 then t + 0x1_0000_0000_0000_0000 else t)
    decreases |ts|
  {
    ConversionsWrap(t);
    assert ToUint64(t) == if t < 0 then t + 0x1_0000_0000_0000_0000 else t;
    if |ts| == 0 {
      assert [] + [t] == [t] && [t][1..] == [];
    } else {
      WritesPacked(ts[1..], t);
      assert (ts + [t])[1..] == ts[1..] + [t];
    }
  }
}

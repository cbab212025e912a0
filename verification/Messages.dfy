/**
 The messages NotLeader, Error and Record: what Marshal writes, what Size predicts and what
 Unmarshal makes of any bytes, merged into the value it is called on.
 */
module Messages {
  import opened Wrappers
  import opened Varint
  import opened WireFormat
  import opened FieldScan

  datatype NotLeader = NotLeader(request: bytes, leader: bytes)

  datatype Error = Error(code: int32, message: bytes, notLeader: Option<NotLeader>)

  datatype Record = Record(
    tp: int32, schemaVer: int32, tid: int32, gtid: int32, pk: int32,
    timeTracer: seq<int64>, err: Option<Error>)

  datatype Message = OfNotLeader(notLeader: NotLeader) | OfError(error: Error) | OfRecord(record: Record)

  const ZERO_NOT_LEADER := NotLeader([], [])
  const ZERO_ERROR := Error(0, [], None)
  const ZERO_RECORD := Record(0, 0, 0, 0, 0, [], None)

  function SchemaOf(m: Message): Schema {
    match m
    case OfNotLeader(_) => NotLeaderMsg
    case OfError(_) => ErrorMsg
    case OfRecord(_) => RecordMsg
  }

  function Zero(schema: Schema): Message {
    match schema
    case NotLeaderMsg => OfNotLeader(ZERO_NOT_LEADER)
    case ErrorMsg => OfError(ZERO_ERROR)
    case RecordMsg => OfRecord(ZERO_RECORD)
  }

  // ---------------------------------------------------------------- unmarshalling

  /** Unmarshal on `m`: each field takes effect in turn until one cannot be read or applied. */
  function Decode(m: Message, d: bytes): (r: Result<Message>)
    ensures r.Ok? ==> SchemaOf(r.value) == SchemaOf(m)
  {
    DecodeFields(m, Scan(SchemaOf(m), d, 0))
  }

  function DecodeFields(m: Message, fs: Fields): (r: Result<Message>)
    ensures r.Ok? ==> SchemaOf(r.value) == SchemaOf(m)
    decreases fs
  {
    match fs
    case Done => Ok(m)
    case Failed(e) => Err(e)
    case Next(t, rest) =>
      var m' :- SetField(m, t);
      DecodeFields(m', rest)
  }

  /** The effect of one field: the last scalar wins, repeated fields grow, nested messages merge. */
  function SetField(m: Message, t: Token): (r: Result<Message>)
    ensures r.Ok? ==> SchemaOf(r.value) == SchemaOf(m)
    decreases t
  {
    match (m, t)
    case (OfNotLeader(nl), BytesTok(num, p)) =>
      if num == 1 then Ok(OfNotLeader(nl.(request := p))) else Ok(OfNotLeader(nl.(leader := p)))
    case (OfError(e), VarintTok(_, raw)) => Ok(OfError(e.(code := ToInt32(raw))))
    case (OfError(e), BytesTok(_, p)) => Ok(OfError(e.(message := p)))
    case (OfError(e), MessageTok(_, fs)) =>
      var nl :- DecodeFields(OfNotLeader(OrZero(e.notLeader, ZERO_NOT_LEADER)), fs);
      Ok(OfError(e.(notLeader := Some(nl.notLeader))))
    case (OfRecord(rec), VarintTok(num, raw)) => Ok(OfRecord(SetScalar(rec, num, raw)))
    case (OfRecord(rec), PackedTok(_, raws)) =>
      Ok(OfRecord(rec.(timeTracer := rec.timeTracer + Int64s(raws))))
    case (OfRecord(rec), MessageTok(_, fs)) =>
      var e :- DecodeFields(OfError(OrZero(rec.err, ZERO_ERROR)), fs);
      Ok(OfRecord(rec.(err := Some(e.error))))
    case _ => Ok(m)
  }

  function SetScalar(rec: Record, num: int32, raw: nat): Record {
    match num
    case 1 => rec.(tp := ToInt32(raw))
    case 2 => rec.(schemaVer := ToInt32(raw))
    case 3 => rec.(tid := ToInt32(raw))
    case 4 => rec.(gtid := ToInt32(raw))
    case 5 => rec.(pk := ToInt32(raw))
    case _ => rec.(timeTracer := rec.timeTracer + [ToInt64(raw)])
  }

  function OrZero<T>(o: Option<T>, zero: T): T {
    if o.Some? then o.value else zero
  }

  function Int64s(raws: Raws): seq<int64> {
    match raws
    case NoRaws => []
    case MoreRaws(raw, rest) => [ToInt64(raw)] + Int64s(rest)
  }

  /** Both fail, or both succeed with the same message. */
  predicate SameOutcome(r: Result<Message>, r': Result<Message>) {
    r.Ok? == r'.Ok? && (r.Ok? ==> r == r')
  }

  lemma DecodeNext(m: Message, t: Token, rest: Fields)
    requires SetField(m, t).Ok?
    ensures DecodeFields(m, Next(t, rest)) == DecodeFields(SetField(m, t).value, rest)
  {}

  // ---------------------------------------------------------------- composition

  lemma {:induction false} DecodeAppend(m: Message, fs: Fields, gs: Fields)
    requires Complete(fs)
    ensures DecodeFields(m, Append(fs, gs))
         == if DecodeFields(m, fs).Ok? then DecodeFields(DecodeFields(m, fs).value, gs) else DecodeFields(m, fs)
    decreases fs
  {
    if fs.Next? && SetField(m, fs.token).Ok? {
      DecodeAppend(SetField(m, fs.token).value, fs.rest, gs);
    }
  }

  lemma {:induction false} DecodeSame(m: Message, fs: Fields, gs: Fields)
    requires SameFields(fs, gs)
    ensures SameOutcome(DecodeFields(m, fs), DecodeFields(m, gs))
    decreases fs
  {
    if fs.Next? && SetField(m, fs.token).Ok? {
      DecodeSame(SetField(m, fs.token).value, fs.rest, gs.rest);
    }
  }

  lemma {:induction false} DecodedIsComplete(m: Message, fs: Fields)
    requires DecodeFields(m, fs).Ok?
    ensures Complete(fs)
    decreases fs
  {
    if fs.Next? { DecodedIsComplete(SetField(m, fs.token).value, fs.rest); }
  }

  /** If `a` decodes, decoding `a` followed by `b` is decoding `b` on top of the result of `a`. */
  lemma DecodeConcat(m: Message, a: bytes, b: bytes)
    requires |a + b| < TWO63
    requires Decode(m, a).Ok?
    ensures SameOutcome(Decode(m, a + b), Decode(Decode(m, a).value, b))
  {
    var fs, gs := Scan(SchemaOf(m), a, 0), Scan(SchemaOf(m), b, 0);
    DecodedIsComplete(m, fs);
    ScanConcat(SchemaOf(m), a, b);
    DecodeAppend(m, fs, gs);
    DecodeSame(m, Scan(SchemaOf(m), a + b, 0), Append(fs, gs));
  }

  /** A well-formed unknown field between two fields changes nothing. */
  lemma UnknownFieldIgnored(m: Message, a: bytes, u: bytes, b: bytes)
    requires |a + (u + b)| < TWO63
    requires Decode(m, a).Ok? && WellFormedUnknown(SchemaOf(m), u)
    ensures SameOutcome(Decode(m, a + (u + b)), Decode(m, a + b))
  {
    var m1 := Decode(m, a).value;
    DecodeConcat(m, a, u + b);
    DecodeConcat(m, a, b);
    ScanUnknown(SchemaOf(m), u);
    DecodeNext(m1, SkippedTok, Done);
    DecodeConcat(m1, u, b);
  }

  // ---------------------------------------------------------------- marshalling

  // The encoder works from the last field to the first, so each field is put in front of the rest.

  function VarintPiece(num: nat, v: int64): seq<byte>
    requires 0 < num < 16
  {
    [Tag(num, 0)] + EncodeVarint(ToUint64(v))
  }

  function PrependVarint(num: nat, v: int64, rest: seq<byte>): seq<byte>
    requires 0 < num < 16
  {
    if v == 0 then rest else VarintPiece(num, v) + rest
  }

  function PrependBytes(num: nat, p: bytes, rest: seq<byte>): seq<byte>
    requires 0 < num < 16
  {
    if |p| == 0 then rest else Delimited(num, p) + rest
  }

  function EncodeNotLeader(m: NotLeader): seq<byte> {
    PrependBytes(1, m.request, PrependBytes(2, m.leader, []))
  }

  function PrependNotLeader(o: Option<NotLeader>, rest: seq<byte>): seq<byte> {
    if o.None? then rest else Delimited(3, EncodeNotLeader(o.value)) + rest
  }

  function EncodeError(m: Error): seq<byte> {
    PrependVarint(1, m.code, PrependBytes(2, m.message, PrependNotLeader(m.notLeader, [])))
  }

  function PrependError(o: Option<Error>, rest: seq<byte>): seq<byte> {
    if o.None? then rest else Delimited(7, EncodeError(o.value)) + rest
  }

  function PrependPacked(ts: seq<int64>, rest: seq<byte>): seq<byte> {
    if |ts| == 0 then rest else Delimited(6, EncodePacked(ts)) + rest
  }

  /** The scalar fields of a Record by number. */
  function Scalar(m: Record, num: nat): int32
    requires 1 <= num <= 5
  {
    match num
    case 1 => m.tp
    case 2 => m.schemaVer
    case 3 => m.tid
    case 4 => m.gtid
    case _ => m.pk
  }

  /** The fields of a Record from number `num` on, in order. */
  function EncodeFrom(m: Record, num: nat): seq<byte>
    requires 1 <= num <= 6
    decreases 6 - num
  {
    if num == 6 then PrependPacked(m.timeTracer, PrependError(m.err, []))
    else PrependVarint(num, Scalar(m, num), EncodeFrom(m, num + 1))
  }

  function EncodeRecord(m: Record): seq<byte> {
    EncodeFrom(m, 1)
  }

  function Encode(m: Message): seq<byte> {
    match m
    case OfNotLeader(nl) => EncodeNotLeader(nl)
    case OfError(e) => EncodeError(e)
    case OfRecord(rec) => EncodeRecord(rec)
  }

  // ---------------------------------------------------------------- reading the pieces back

  /** The fields a piece is read back as, in front of the fields that follow it. */
  function VarintNext(num: nat, v: int64, rest: Fields): Fields
    requires 0 < num < 16
  {
    if v == 0 then rest else Next(VarintTok(num, ToUint64(v)), rest)
  }

  function BytesNext(num: nat, p: bytes, rest: Fields): Fields
    requires 0 < num < 16
  {
    if |p| == 0 then rest else Next(BytesTok(num, p), rest)
  }

  function NotLeaderFields(m: NotLeader): Fields {
    BytesNext(1, m.request, BytesNext(2, m.leader, Done))
  }

  function NotLeaderNext(o: Option<NotLeader>): Fields {
    if o.None? then Done else Next(MessageTok(3, NotLeaderFields(o.value)), Done)
  }

  function ErrorFields(m: Error): Fields {
    VarintNext(1, m.code, BytesNext(2, m.message, NotLeaderNext(m.notLeader)))
  }

  function ErrorNext(o: Option<Error>): Fields {
    if o.None? then Done else Next(MessageTok(7, ErrorFields(o.value)), Done)
  }

  function PackedNext(ts: seq<int64>, rest: Fields): Fields {
    if |ts| == 0 then rest else Next(PackedTok(6, RawsOf(ts)), rest)
  }

  function RecordFieldsFrom(m: Record, num: nat): (fs: Fields)
    requires 1 <= num <= 6
    ensures Complete(fs)
    decreases 6 - num
  {
    if num == 6 then PackedNext(m.timeTracer, ErrorNext(m.err))
    else VarintNext(num, Scalar(m, num), RecordFieldsFrom(m, num + 1))
  }

  /** A field on its own is one token; in front of other fields it is the first one. */
  lemma ScanFront(schema: Schema, piece: bytes, t: Token, q: bytes)
    requires |piece + q| < TWO63 && 0 < |piece|
    requires ReadField(schema, piece, 0) == Ok(Field(t, |piece|)) && Complete(Scan(schema, q, 0))
    ensures Scan(schema, piece + q, 0) == Next(t, Scan(schema, q, 0))
  {
    ScanStep(schema, piece, 0, Field(t, |piece|));
    ScanJoin(schema, piece, q);
  }

  lemma ScanVarint(schema: Schema, num: nat, v: int64, q: bytes)
    requires 0 < num < 16 && KindOf(schema, num) == VarintField
    requires |PrependVarint(num, v, q)| < TWO63 && Complete(Scan(schema, q, 0))
    ensures Scan(schema, PrependVarint(num, v, q), 0) == VarintNext(num, v, Scan(schema, q, 0))
  {
    if v != 0 {
      var piece: bytes := VarintPiece(num, v);
      AtSelf(piece);
      ReadVarintField(schema, piece, 0, num, ToUint64(v));
      ScanFront(schema, piece, VarintTok(num, ToUint64(v)), q);
    }
  }

  lemma ScanBytes(schema: Schema, num: nat, p: bytes, q: bytes)
    requires 0 < num < 16 && KindOf(schema, num) == BytesField
    requires |PrependBytes(num, p, q)| < TWO63 && Complete(Scan(schema, q, 0))
    ensures Scan(schema, PrependBytes(num, p, q), 0) == BytesNext(num, p, Scan(schema, q, 0))
  {
    if |p| > 0 {
      var piece: bytes := Delimited(num, p);
      AtSelf(piece);
      ReadBytesField(schema, piece, 0, num, p);
      ScanFront(schema, piece, BytesTok(num, p), q);
    }
  }

  lemma ScanMessage(schema: Schema, num: nat, p: bytes)
    requires 0 < num < 16 && KindOf(schema, num).MessageField? && |Delimited(num, p) + []| < TWO63
    ensures Scan(schema, Delimited(num, p) + [], 0)
         == Next(MessageTok(num, Scan(KindOf(schema, num).nested, p, 0)), Done)
  {
    var piece: bytes := Delimited(num, p);
    AtSelf(piece);
    ReadMessageField(schema, piece, 0, num, p);
    ScanFront(schema, piece, MessageTok(num, Scan(KindOf(schema, num).nested, p, 0)), []);
  }

  lemma ScanPacked(ts: seq<int64>, q: bytes)
    requires |PrependPacked(ts, q)| < TWO63 && Complete(Scan(RecordMsg, q, 0))
    ensures Scan(RecordMsg, PrependPacked(ts, q), 0) == PackedNext(ts, Scan(RecordMsg, q, 0))
  {
    if |ts| > 0 {
      var piece: bytes := Delimited(6, EncodePacked(ts));
      AtSelf(piece);
      ReadPackedField(RecordMsg, piece, 0, 6, ts);
      ScanFront(RecordMsg, piece, PackedTok(6, RawsOf(ts)), q);
    }
  }

  lemma ScanNotLeader(m: NotLeader)
    requires |EncodeNotLeader(m)| < TWO63
    ensures Scan(NotLeaderMsg, EncodeNotLeader(m), 0) == NotLeaderFields(m)
  {
    ScanBytes(NotLeaderMsg, 2, m.leader, []);
    ScanBytes(NotLeaderMsg, 1, m.request, PrependBytes(2, m.leader, []));
  }

  lemma ScanNotLeaderField(o: Option<NotLeader>)
    requires |PrependNotLeader(o, [])| < TWO63
    ensures Scan(ErrorMsg, PrependNotLeader(o, []), 0) == NotLeaderNext(o)
  {
    if o.Some? {
      ScanMessage(ErrorMsg, 3, EncodeNotLeader(o.value));
      ScanNotLeader(o.value);
    }
  }

  lemma ScanError(m: Error)
    requires |EncodeError(m)| < TWO63
    ensures Scan(ErrorMsg, EncodeError(m), 0) == ErrorFields(m)
  {
    var q := PrependNotLeader(m.notLeader, []);
    ScanNotLeaderField(m.notLeader);
    ScanBytes(ErrorMsg, 2, m.message, q);
    ScanVarint(ErrorMsg, 1, m.code, PrependBytes(2, m.message, q));
  }

  lemma ScanErrorField(o: Option<Error>)
    requires |PrependError(o, [])| < TWO63
    ensures Scan(RecordMsg, PrependError(o, []), 0) == ErrorNext(o)
  {
    if o.Some? {
      ScanMessage(RecordMsg, 7, EncodeError(o.value));
      ScanError(o.value);
    }
  }

  lemma {:induction false} ScanRecordFrom(m: Record, num: nat)
    requires 1 <= num <= 6 && |EncodeFrom(m, num)| < TWO63
    ensures Scan(RecordMsg, EncodeFrom(m, num), 0) == RecordFieldsFrom(m, num)
    decreases 6 - num
  {
    if num == 6 {
      ScanErrorField(m.err);
      ScanPacked(m.timeTracer, PrependError(m.err, []));
    } else {
      ScanRecordFrom(m, num + 1);
      ScanVarint(RecordMsg, num, Scalar(m, num), EncodeFrom(m, num + 1));
    }
  }

  // ---------------------------------------------------------------- round trip

  lemma NotLeaderBack(m: NotLeader)
    ensures DecodeFields(OfNotLeader(ZERO_NOT_LEADER), NotLeaderFields(m)) == Ok(OfNotLeader(m))
  {
    DecodeNext(OfNotLeader(ZERO_NOT_LEADER), BytesTok(1, m.request), BytesNext(2, m.leader, Done));
    DecodeNext(OfNotLeader(NotLeader(m.request, [])), BytesTok(2, m.leader), Done);
  }

  lemma ErrorBack(m: Error)
    ensures DecodeFields(OfError(ZERO_ERROR), ErrorFields(m)) == Ok(OfError(m))
  {
    Int32RoundTrip(m.code);
    var m1 := OfError(Error(m.code, [], None));
    var m2 := OfError(Error(m.code, m.message, None));
    var f2 := NotLeaderNext(m.notLeader);
    DecodeNext(OfError(ZERO_ERROR), VarintTok(1, ToUint64(m.code)), BytesNext(2, m.message, f2));
    DecodeNext(m1, BytesTok(2, m.message), f2);
    if m.notLeader.Some? {
      NotLeaderBack(m.notLeader.value);
      DecodeNext(m2, f2.token, Done);
    }
  }

  lemma {:induction false} Int64sBack(ts: seq<int64>)
    ensures Int64s(RawsOf(ts)) == ts
  {
    if |ts| > 0 {
      Int64RoundTrip(ts[0]);
      Int64sBack(ts[1..]);
    }
  }

  lemma RecordTailBack(m: Record)
    ensures DecodeFields(OfRecord(m.(timeTracer := [], err := None)), PackedNext(m.timeTracer, ErrorNext(m.err)))
         == Ok(OfRecord(m))
  {
    var m5 := OfRecord(m.(timeTracer := [], err := None));
    var m6 := OfRecord(m.(err := None));
    if |m.timeTracer| > 0 {
      Int64sBack(m.timeTracer);
      assert [] + m.timeTracer == m.timeTracer;
      DecodeNext(m5, PackedTok(6, RawsOf(m.timeTracer)), ErrorNext(m.err));
    }
    if m.err.Some? {
      ErrorBack(m.err.value);
      DecodeNext(m6, ErrorNext(m.err).token, Done);
    }
  }

  /** The record when the fields before number `num` have been read back. */
  function Partial(m: Record, num: nat): Record
    requires 1 <= num <= 6
  {
    Record(
      if num > 1 then m.tp else 0, if num > 2 then m.schemaVer else 0, if num > 3 then m.tid else 0,
      if num > 4 then m.gtid else 0, if num > 5 then m.pk else 0, [], None)
  }

  lemma {:induction false} RecordBack(m: Record, num: nat)
    requires 1 <= num <= 6
    ensures DecodeFields(OfRecord(Partial(m, num)), RecordFieldsFrom(m, num)) == Ok(OfRecord(m))
    decreases 6 - num
  {
    if num == 6 {
      RecordTailBack(m);
    } else {
      var v := Scalar(m, num);
      if v != 0 {
        Int32RoundTrip(v);
        DecodeNext(OfRecord(Partial(m, num)), VarintTok(num, ToUint64(v)), RecordFieldsFrom(m, num + 1));
      }
      RecordBack(m, num + 1);
    }
  }

  /** Unmarshalling what Marshal wrote, into a zero value, gives the message back. */
  lemma RoundTrip(m: Message)
    requires |Encode(m)| < TWO63
    ensures Decode(Zero(SchemaOf(m)), Encode(m)) == Ok(m)
  {
    match m
    case OfNotLeader(nl) =>
      ScanNotLeader(nl);
      NotLeaderBack(nl);
    case OfError(e) =>
      ScanError(e);
      ErrorBack(e);
    case OfRecord(rec) =>
      ScanRecordFrom(rec, 1);
      RecordBack(rec, 1);
  }

  /** Two different messages of a kind never marshal to the same bytes. */
  lemma EncodeInjective(m: Message, m': Message)
    requires SchemaOf(m) == SchemaOf(m') && |Encode(m)| < TWO63
    requires Encode(m) == Encode(m')
    ensures m == m'
  {
    RoundTrip(m);
    RoundTrip(m');
  }

  // ---------------------------------------------------------------- sizes

  function SizeBytes(l: nat): nat {
    if l > 0 then 1 + l + Sov(ToUint64(l)) else 0
  }

  function SizeVarint(v: int64): nat {
    if v != 0 then 1 + Sov(ToUint64(v)) else 0
  }

  function SizeNotLeader(m: NotLeader): nat {
    SizeBytes(|m.request|) + SizeBytes(|m.leader|)
  }

  function SizeError(m: Error): nat {
    SizeVarint(m.code) + SizeBytes(|m.message|)
    + if m.notLeader.None? then 0
      else var l := SizeNotLeader(m.notLeader.value); 1 + l + Sov(ToUint64(l))
  }

  function SizePacked(ts: seq<int64>): nat {
    if |ts| == 0 then 0 else Sov(ToUint64(ts[0])) + SizePacked(ts[1..])
  }

  function SizeRecord(m: Record): nat {
    SizeVarint(m.tp) + SizeVarint(m.schemaVer) + SizeVarint(m.tid) + SizeVarint(m.gtid) + SizeVarint(m.pk)
    + (if |m.timeTracer| > 0 then var l := SizePacked(m.timeTracer); 1 + Sov(ToUint64(l)) + l else 0)
    + if m.err.None? then 0
      else var l := SizeError(m.err.value); 1 + l + Sov(ToUint64(l))
  }

  function Size(m: Message): nat {
    match m
    case OfNotLeader(nl) => SizeNotLeader(nl)
    case OfError(e) => SizeError(e)
    case OfRecord(rec) => SizeRecord(rec)
  }

  lemma VarintSize(num: nat, v: int64, rest: seq<byte>)
    requires 0 < num < 16
    ensures |PrependVarint(num, v, rest)| == SizeVarint(v) + |rest|
  {
    SovIsLength(ToUint64(v));
  }

  lemma DelimitedSize(num: nat, p: seq<byte>)
    requires 0 < num < 16 && |p| < TWO63
    ensures |Delimited(num, p)| == 1 + |p| + Sov(ToUint64(|p|))
  {
    SovIsLength(|p|);
  }

  lemma BytesSize(num: nat, p: bytes, rest: seq<byte>)
    requires 0 < num < 16
    ensures |PrependBytes(num, p, rest)| == SizeBytes(|p|) + |rest|
  {
    DelimitedSize(num, p);
  }

  lemma {:induction false} PackedSize(ts: seq<int64>)
    ensures |EncodePacked(ts)| == SizePacked(ts)
  {
    if |ts| > 0 {
      SovIsLength(ToUint64(ts[0]));
      PackedSize(ts[1..]);
    }
  }

  lemma NotLeaderSize(m: NotLeader)
    ensures SizeNotLeader(m) == |EncodeNotLeader(m)|
  {
    BytesSize(2, m.leader, []);
    BytesSize(1, m.request, PrependBytes(2, m.leader, []));
  }

  lemma ErrorSize(m: Error)
    requires |EncodeError(m)| < TWO63
    ensures SizeError(m) == |EncodeError(m)|
  {
    var q := PrependNotLeader(m.notLeader, []);
    VarintSize(1, m.code, PrependBytes(2, m.message, q));
    BytesSize(2, m.message, q);
    if m.notLeader.Some? {
      NotLeaderSize(m.notLeader.value);
      DelimitedSize(3, EncodeNotLeader(m.notLeader.value));
    }
  }

  lemma ScalarsSize(m: Record)
    ensures |EncodeRecord(m)| == SizeVarint(m.tp) + SizeVarint(m.schemaVer) + SizeVarint(m.tid)
      + SizeVarint(m.gtid) + SizeVarint(m.pk) + |EncodeFrom(m, 6)|
  {
    VarintSize(5, m.pk, EncodeFrom(m, 6));
    VarintSize(4, m.gtid, EncodeFrom(m, 5));
    VarintSize(3, m.tid, EncodeFrom(m, 4));
    VarintSize(2, m.schemaVer, EncodeFrom(m, 3));
    VarintSize(1, m.tp, EncodeFrom(m, 2));
  }

  lemma RecordSize(m: Record)
    requires |EncodeRecord(m)| < TWO63
    ensures SizeRecord(m) == |EncodeRecord(m)|
  {
    ScalarsSize(m);
    if |m.timeTracer| > 0 {
      PackedSize(m.timeTracer);
      DelimitedSize(6, EncodePacked(m.timeTracer));
    }
    if m.err.Some? {
      ErrorSize(m.err.value);
      DelimitedSize(7, EncodeError(m.err.value));
    }
  }

  /** Size predicts exactly how many bytes Marshal writes. */
  lemma SizeExact(m: Message)
    requires |Encode(m)| < TWO63
    ensures Size(m) == |Encode(m)|
  {
    match m
    case OfNotLeader(nl) => NotLeaderSize(nl);
    case OfError(e) => ErrorSize(e);
    case OfRecord(rec) => RecordSize(rec);
  }
}

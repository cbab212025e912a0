/**
 The fields a message does not know, by the grammar of the wire format: every field of that grammar, with
 groups nested to any depth, is skipped as a whole.
 */
module UnknownFields {
  import opened Wrappers
  import opened Varint
  import opened WireFormat
  import opened FieldScan

  /** A field by its wire type; the number at the end of a group is not compared with the one at its start. */
  datatype Unknown =
    | AsVarint(num: nat, bs: seq<byte>)
    | AsFixed64(num: nat, p: seq<byte>)
    | AsBytes(num: nat, p: seq<byte>)
    | AsGroup(num: nat, fields: Unknowns, end: nat)
    | AsFixed32(num: nat, p: seq<byte>)

  datatype Unknowns = NoMore | More(field: Unknown, rest: Unknowns)

  predicate IsNumber(num: nat) { 0 < num < 0x2000_0000 }

  predicate InGrammar(u: Unknown) {
    IsNumber(u.num)
    && match u
       case AsVarint(_, bs) => IsVarint(bs) && |bs| <= 10
       case AsFixed64(_, p) => |p| == 8
       case AsBytes(_, p) => |p| < TWO63
       case AsGroup(_, fields, end) => AllInGrammar(fields) && IsNumber(end)
       case AsFixed32(_, p) => |p| == 4
  }

  predicate AllInGrammar(us: Unknowns) {
    us.More? ==> InGrammar(us.field) && AllInGrammar(us.rest)
  }

  /** The tag: number and wire type in one varint. */
  function Key(num: nat, wireType: nat): seq<byte> { EncodeVarint(8 * num + wireType) }

  function Written(u: Unknown): seq<byte> {
    match u
    case AsVarint(num, bs) => Key(num, 0) + bs
    case AsFixed64(num, p) => Key(num, 1) + p
    case AsBytes(num, p) => Key(num, 2) + (EncodeVarint(|p|) + p)
    case AsGroup(num, fields, end) => Key(num, 3) + (AllWritten(fields) + Key(end, 4))
    case AsFixed32(num, p) => Key(num, 5) + p
  }

  function AllWritten(us: Unknowns): seq<byte> {
    if us.NoMore? then [] else Written(us.field) + AllWritten(us.rest)
  }

  lemma ReadKey(d: seq<byte>, i: nat, num: nat, wireType: nat)
    requires IsNumber(num) && wireType < 8 && At(d, i, Key(num, wireType))
    ensures ReadVarint(d, i) == Ok(Read(8 * num + wireType, i + |Key(num, wireType)|))
    ensures WireType(8 * num + wireType) == wireType && FieldNumber(8 * num + wireType) == num
  {
    ReadEncoded(d, i, 8 * num + wireType);
  }

  /** A field that is not a group is one hop, at any depth. */
  lemma HopsOver(d: bytes, i: nat, u: Unknown, depth: nat)
    requires InGrammar(u) && !u.AsGroup? && At(d, i, Written(u))
    ensures SkipOne(d, i, depth) == Ok(Hop(i + |Written(u)|, depth))
  {
    match u
    case AsVarint(num, bs) =>
      AtSplit(d, i, Key(num, 0), bs);
      ReadKey(d, i, num, 0);
      ReadAnyVarint(d, i + |Key(num, 0)|, bs);
    case AsFixed64(num, p) =>
      AtSplit(d, i, Key(num, 1), p);
      ReadKey(d, i, num, 1);
    case AsBytes(num, p) =>
      AtSplit(d, i, Key(num, 2), EncodeVarint(|p|) + p);
      ReadKey(d, i, num, 2);
      AtSplit(d, i + |Key(num, 2)|, EncodeVarint(|p|), p);
      ReadEncoded(d, i + |Key(num, 2)|, |p|);
      ToInt64Small(|p|);
    case AsFixed32(num, p) =>
      AtSplit(d, i, Key(num, 5), p);
      ReadKey(d, i, num, 5);
  }

  /** Past a hop, the skipping is over at depth 0 and goes on otherwise. */
  ghost predicate GoesPast(d: bytes, start: nat, i: nat, depth: nat, end: nat, after: nat) {
    && start <= i < end <= |d|
    && Skip(d, start, i, depth) == if after == 0 then Ok(end - start) else Skip(d, start, end, after)
  }

  lemma HopGoesPast(d: bytes, start: nat, i: nat, depth: nat, hop: Hop)
    requires start <= i < |d| && SkipOne(d, i, depth) == Ok(hop) && hop.end <= |d|
    ensures GoesPast(d, start, i, depth, hop.end, hop.depth)
  {}

  lemma {:induction false} SkipsField(d: bytes, start: nat, i: nat, u: Unknown, depth: nat)
    requires start <= i && InGrammar(u) && At(d, i, Written(u))
    ensures GoesPast(d, start, i, depth, i + |Written(u)|, depth)
    decreases u
  {
    if u.AsGroup? {
      SkipsGroup(d, start, i, u, depth);
    } else {
      HopsOver(d, i, u, depth);
      HopGoesPast(d, start, i, depth, Hop(i + |Written(u)|, depth));
    }
  }

  lemma OpensGroup(d: bytes, i: nat, u: Unknown, depth: nat)
    requires InGrammar(u) && u.AsGroup? && At(d, i, Written(u))
    ensures SkipOne(d, i, depth) == Ok(Hop(i + |Key(u.num, 3)|, depth + 1))
    ensures At(d, i + |Key(u.num, 3)|, AllWritten(u.fields))
  {
    AtSplit(d, i, Key(u.num, 3), AllWritten(u.fields) + Key(u.end, 4));
    AtSplit(d, i + |Key(u.num, 3)|, AllWritten(u.fields), Key(u.end, 4));
    ReadKey(d, i, u.num, 3);
  }

  lemma ClosesGroup(d: bytes, i: nat, u: Unknown, depth: nat)
    requires InGrammar(u) && u.AsGroup? && At(d, i, Written(u))
    ensures var j := i + |Key(u.num, 3)| + |AllWritten(u.fields)|;
      && i < j < |d| && i + |Written(u)| == j + |Key(u.end, 4)| <= |d|
      && SkipOne(d, j, depth + 1) == Ok(Hop(i + |Written(u)|, depth))
  {
    AtSplit(d, i, Key(u.num, 3), AllWritten(u.fields) + Key(u.end, 4));
    AtSplit(d, i + |Key(u.num, 3)|, AllWritten(u.fields), Key(u.end, 4));
    ReadKey(d, i + |Key(u.num, 3)| + |AllWritten(u.fields)|, u.end, 4);
  }

  lemma GroupAt(d: bytes, i: nat, u: Unknown, depth: nat) returns (inside: nat, closing: nat, end: nat)
    requires InGrammar(u) && u.AsGroup? && At(d, i, Written(u))
    ensures i < inside <= closing < end <= |d| && end == i + |Written(u)|
    ensures At(d, inside, AllWritten(u.fields)) && closing == inside + |AllWritten(u.fields)|
    ensures SkipOne(d, i, depth) == Ok(Hop(inside, depth + 1))
    ensures SkipOne(d, closing, depth + 1) == Ok(Hop(end, depth))
  {
    inside := i + |Key(u.num, 3)|;
    closing, end := inside + |AllWritten(u.fields)|, i + |Written(u)|;
    OpensGroup(d, i, u, depth);
    ClosesGroup(d, i, u, depth);
  }

  lemma {:induction false} SkipsGroup(d: bytes, start: nat, i: nat, u: Unknown, depth: nat)
    requires start <= i && InGrammar(u) && u.AsGroup? && At(d, i, Written(u))
    ensures GoesPast(d, start, i, depth, i + |Written(u)|, depth)
    decreases u, 0
  {
    var inside, closing, end := GroupAt(d, i, u, depth);
    SkipsFields(d, start, inside, closing, u.fields, depth + 1);
    Through(d, start, i, depth, inside, closing, end);
  }

  /** From the start of a group to its first field, to its end, and past it. */
  lemma Through(d: bytes, start: nat, i: nat, depth: nat, inside: nat, closing: nat, end: nat)
    requires start <= i < inside <= closing < end <= |d|
    requires SkipOne(d, i, depth) == Ok(Hop(inside, depth + 1))
    requires SkipOne(d, closing, depth + 1) == Ok(Hop(end, depth))
    requires Skip(d, start, inside, depth + 1) == Skip(d, start, closing, depth + 1)
    ensures GoesPast(d, start, i, depth, end, depth)
  {
    HopGoesPast(d, start, i, depth, Hop(inside, depth + 1));
    HopGoesPast(d, start, closing, depth + 1, Hop(end, depth));
  }

  lemma {:induction false} SkipsFields(d: bytes, start: nat, i: nat, end: nat, us: Unknowns, depth: nat)
    requires start <= i && AllInGrammar(us) && At(d, i, AllWritten(us)) && depth > 0 && end == i + |AllWritten(us)|
    ensures end <= |d| && Skip(d, start, i, depth) == Skip(d, start, end, depth)
    decreases us
  {
    if us.More? {
      var mid := FieldsAt(d, i, us);
      SkipsFields(d, start, mid, end, us.rest, depth);
      SkipsField(d, start, i, us.field, depth);
    }
  }

  lemma FieldsAt(d: bytes, i: nat, us: Unknowns) returns (mid: nat)
    requires us.More? && At(d, i, AllWritten(us))
    ensures At(d, i, Written(us.field)) && At(d, mid, AllWritten(us.rest))
    ensures mid == i + |Written(us.field)| && mid + |AllWritten(us.rest)| == i + |AllWritten(us)| <= |d|
  {
    AtSplit(d, i, Written(us.field), AllWritten(us.rest));
    mid := i + |Written(us.field)|;
  }

  /** The numbers each message knows. */
  predicate Knows(schema: Schema, num: nat) {
    match schema
    case NotLeaderMsg => num == 1 || num == 2
    case ErrorMsg => num == 1 || num == 2 || num == 3
    case RecordMsg => 1 <= num <= 7
  }

  /** Every field of the grammar whose number the message does not know is an unknown field that it ignores. */
  lemma UnknownIffNotKnown(schema: Schema, u: Unknown)
    requires InGrammar(u) && |Written(u)| < TWO63
    ensures |Written(u)| > 0 && Skip(Written(u), 0, 0, 0) == Ok(|Written(u)|)
    ensures WellFormedUnknown(schema, Written(u)) <==> !Knows(schema, u.num)
  {
    var d: bytes := Written(u);
    AtSelf(d);
    SkipsField(d, 0, 0, u, 0);
    BeginsWithKey(d, u);
  }

  lemma BeginsWithKey(d: bytes, u: Unknown)
    requires InGrammar(u) && d == Written(u)
    ensures |d| > 0 && ReadVarint(d, 0).Ok?
    ensures var raw := ReadVarint(d, 0).value.raw; FieldNumber(raw) == u.num && WireType(raw) != 4
  {
    AtSelf(d);
    var wireType := match u
      case AsVarint(_, _) => 0
      case AsFixed64(_, _) => 1
      case AsBytes(_, _) => 2
      case AsGroup(_, _, _) => 3
      case AsFixed32(_, _) => 5;
    AtSplit(d, 0, Key(u.num, wireType), d[|Key(u.num, wireType)|..]);
    ReadKey(d, 0, u.num, wireType);
  }
}

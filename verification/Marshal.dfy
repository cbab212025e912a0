/**
 The generated marshalling code: a buffer filled from its end towards its start, so that every
 length prefix is known when it is written.
 */
module Marshal {
  import opened Wrappers
  import opened Varint
  import opened WireFormat
  import opened Messages

  /** `now` is `before` with `piece` written from `lo` to `hi` and nothing else changed. */
  predicate Filled(before: seq<byte>, now: seq<byte>, lo: int, hi: int, piece: seq<byte>) {
    && 0 <= lo <= hi <= |before| && |piece| == hi - lo
    && now == before[..lo] + piece + before[hi..]
  }

  lemma FilledNothing(s: seq<byte>, at: int)
    requires 0 <= at <= |s|
    ensures Filled(s, s, at, at, [])
  {}

  /** `q` was written, then `p` right in front of it. */
  lemma FilledJoin(s0: seq<byte>, s1: seq<byte>, s2: seq<byte>, lo: int, mid: int, hi: int, p: seq<byte>, q: seq<byte>)
    requires Filled(s0, s1, mid, hi, q) && Filled(s1, s2, lo, mid, p)
    ensures Filled(s0, s2, lo, hi, p + q)
  {
    assert s1[..lo] == s0[..lo];
    assert s1[mid..] == q + s0[hi..];
    assert s2 == s0[..lo] + (p + q) + s0[hi..];
  }

  /** `p` was written, then `q` right behind it. */
  lemma FilledAppend(s0: seq<byte>, s1: seq<byte>, s2: seq<byte>, lo: int, mid: int, hi: int, p: seq<byte>, q: seq<byte>)
    requires hi <= |s0| && Filled(s0, s1, lo, mid, p) && Filled(s1, s2, mid, hi, q)
    ensures Filled(s0, s2, lo, hi, p + q)
  {
    assert s1[..mid] == s0[..lo] + p;
    assert s1[hi..] == s0[hi..];
    assert s2 == s0[..lo] + (p + q) + s0[hi..];
  }

  /** encodeVarintTest / encodeVarintError: forward, into the space just before `offset`. */
  method PutVarint(buf: array<byte>, offset: nat, v: uint64) returns (base: nat)
    requires |EncodeVarint(v)| <= offset <= buf.Length
    modifies buf
    ensures base == offset - |EncodeVarint(v)|
    ensures Filled(old(buf[..]), buf[..], base, offset, EncodeVarint(v))
  {
    SovIsLength(v);
    base := offset - Sov(v);
    var at, rest := base, v;
    ghost var s0 := buf[..];
    ghost var done: seq<byte> := [];
    FilledNothing(s0, base);
    while rest >= 128
      invariant base <= at < offset
      invariant done + EncodeVarint(rest) == EncodeVarint(v) && |done| == at - base
      invariant Filled(s0, buf[..], base, at, done)
      decreases rest
    {
      ghost var s1 := buf[..];
      PutByte(buf, at, rest % 128 + 128);
      assert done + EncodeVarint(rest) == (done + [rest % 128 + 128]) + EncodeVarint(rest / 128);
      FilledAppend(s0, s1, buf[..], base, at, at + 1, done, [rest % 128 + 128]);
      done := done + [rest % 128 + 128];
      rest := rest / 128;
      at := at + 1;
    }
    ghost var s1 := buf[..];
    PutByte(buf, at, rest);
    FilledAppend(s0, s1, buf[..], base, at, at + 1, done, [rest]);
  }

  /** copy(dAtA[i:], p) */
  method PutBytes(buf: array<byte>, i: nat, p: seq<byte>)
    requires i + |p| <= buf.Length
    modifies buf
    ensures Filled(old(buf[..]), buf[..], i, i + |p|, p)
  {
    var k := 0;
    ghost var s0 := buf[..];
    FilledNothing(s0, i);
    while k < |p|
      invariant 0 <= k <= |p|
      invariant Filled(s0, buf[..], i, i + k, p[..k])
    {
      ghost var s1 := buf[..];
      PutByte(buf, i + k, p[k]);
      FilledAppend(s0, s1, buf[..], i, i + k, i + k + 1, p[..k], [p[k]]);
      assert p[..k + 1] == p[..k] + [p[k]];
      k := k + 1;
    }
    assert p[..k] == p;
  }

  method PutByte(buf: array<byte>, i: nat, b: byte)
    requires i < buf.Length
    modifies buf
    ensures Filled(old(buf[..]), buf[..], i, i + 1, [b])
  {
    buf[i] := b;
  }

  // Every method below is given what stands from `end` to `top` and puts a field in front of it;
  // `before` is the buffer as it was when the whole message was begun.

  /** A scalar field, written only when it is not zero. */
  method PutVarintField(
    buf: array<byte>, end: nat, num: nat, v: int64, ghost before: seq<byte>, ghost top: nat, ghost rest: seq<byte>)
    returns (i: nat)
    requires 0 < num < 16 && Filled(before, buf[..], end, top, rest) && |PrependVarint(num, v, rest)| <= top
    modifies buf
    ensures i == top - |PrependVarint(num, v, rest)|
    ensures Filled(before, buf[..], i, top, PrependVarint(num, v, rest))
  {
    i := end;
    if v != 0 {
      ghost var s0 := buf[..];
      i := PutVarint(buf, i, ToUint64(v));
      ghost var s1 := buf[..];
      i := i - 1;
      PutByte(buf, i, Tag(num, 0));
      FilledJoin(s0, s1, buf[..], i, i + 1, end, [Tag(num, 0)], EncodeVarint(ToUint64(v)));
      FilledJoin(before, s0, buf[..], i, end, top, VarintPiece(num, v), rest);
    }
  }

  /** Length and tag in front of a payload of `n` bytes that already stands before `end`. */
  method PutHeader(
    buf: array<byte>, end: nat, num: nat, n: nat, ghost p: seq<byte>,
    ghost s0: seq<byte>, ghost before: seq<byte>, ghost top: nat, ghost rest: seq<byte>)
    returns (i: nat)
    requires 0 < num < 16 && Filled(before, s0, end, top, rest) && |Delimited(num, p) + rest| <= top
    requires |p| == n < TWO63 && Filled(s0, buf[..], end - n, end, p)
    modifies buf
    ensures i == top - |Delimited(num, p) + rest|
    ensures Filled(before, buf[..], i, top, Delimited(num, p) + rest)
  {
    ghost var s1 := buf[..];
    i := PutVarint(buf, end - n, n);
    ghost var s2 := buf[..];
    FilledJoin(s0, s1, s2, i, end - n, end, EncodeVarint(n), p);
    i := i - 1;
    PutByte(buf, i, Tag(num, 2));
    FilledJoin(s0, s2, buf[..], i, i + 1, end, [Tag(num, 2)], EncodeVarint(n) + p);
    FilledJoin(before, s0, buf[..], i, end, top, Delimited(num, p), rest);
  }

  /** A string field, written only when it is not empty. */
  method PutBytesField(
    buf: array<byte>, end: nat, num: nat, p: bytes, ghost before: seq<byte>, ghost top: nat, ghost rest: seq<byte>)
    returns (i: nat)
    requires 0 < num < 16 && Filled(before, buf[..], end, top, rest) && |PrependBytes(num, p, rest)| <= top
    modifies buf
    ensures i == top - |PrependBytes(num, p, rest)|
    ensures Filled(before, buf[..], i, top, PrependBytes(num, p, rest))
  {
    i := end;
    if |p| > 0 { i := PutPayload(buf, end, num, p, before, top, rest); }
  }

  /** A payload, and then its length and tag in front of it. */
  method PutPayload(
    buf: array<byte>, end: nat, num: nat, p: bytes, ghost before: seq<byte>, ghost top: nat, ghost rest: seq<byte>)
    returns (i: nat)
    requires 0 < num < 16 && Filled(before, buf[..], end, top, rest) && |Delimited(num, p) + rest| <= top
    modifies buf
    ensures i == top - |Delimited(num, p) + rest|
    ensures Filled(before, buf[..], i, top, Delimited(num, p) + rest)
  {
    ghost var s0 := buf[..];
    PutBytes(buf, end - |p|, p);
    i := PutHeader(buf, end, num, |p|, p, s0, before, top, rest);
  }

  /** (*NotLeader).MarshalToSizedBuffer on dAtA[:end], last field first. */
  method MarshalNotLeader(m: NotLeader, buf: array<byte>, end: nat) returns (n: nat)
    requires |EncodeNotLeader(m)| <= end <= buf.Length
    modifies buf
    ensures n == |EncodeNotLeader(m)|
    ensures Filled(old(buf[..]), buf[..], end - n, end, EncodeNotLeader(m))
  {
    ghost var s0 := buf[..];
    FilledNothing(s0, end);
    var i2 := PutBytesField(buf, end, 2, m.leader, s0, end, []);
    var i1 := PutBytesField(buf, i2, 1, m.request, s0, end, PrependBytes(2, m.leader, []));
    n := end - i1;
  }

  method PutNotLeaderField(o: Option<NotLeader>, buf: array<byte>, end: nat) returns (i: nat)
    requires |PrependNotLeader(o, [])| <= end <= buf.Length && |PrependNotLeader(o, [])| < TWO63
    modifies buf
    ensures i == end - |PrependNotLeader(o, [])|
    ensures Filled(old(buf[..]), buf[..], i, end, PrependNotLeader(o, []))
  {
    i := end;
    FilledNothing(buf[..], end);
    if o.Some? {
      ghost var s0 := buf[..];
      var size := MarshalNotLeader(o.value, buf, end);
      i := PutHeader(buf, end, 3, size, EncodeNotLeader(o.value), s0, s0, end, []);
    }
  }

  /** (*Error).MarshalToSizedBuffer */
  method MarshalError(m: Error, buf: array<byte>, end: nat) returns (n: nat)
    requires |EncodeError(m)| <= end <= buf.Length && |EncodeError(m)| < TWO63
    modifies buf
    ensures n == |EncodeError(m)|
    ensures Filled(old(buf[..]), buf[..], end - n, end, EncodeError(m))
  {
    ghost var s0 := buf[..];
    ghost var q := PrependNotLeader(m.notLeader, []);
    var i3 := PutNotLeaderField(m.notLeader, buf, end);
    var i2 := PutBytesField(buf, i3, 2, m.message, s0, end, q);
    var i1 := PutVarintField(buf, i2, 1, m.code, s0, end, PrependBytes(2, m.message, q));
    n := end - i1;
  }

  /** The scratch buffer of a packed field: each element forward, ten bytes of room apiece. */
  method PackElements(ts: seq<int64>) returns (tmp: array<byte>, len: nat)
    ensures fresh(tmp) && len <= tmp.Length && tmp[..len] == EncodePacked(ts)
  {
    tmp := new byte[10 * |ts|];
    len := 0;
    var k := 0;
    while k < |ts|
      invariant 0 <= k <= |ts| && len <= 10 * k
      invariant tmp[..len] == EncodePacked(ts[..k])
    {
      var e := ToUint64(ts[k]);
      VarintAtMostTen(e);
      SovIsLength(e);
      ghost var s1 := tmp[..];
      assert s1[..len] == tmp[..len];
      var base := PutVarint(tmp, len + Sov(e), e);
      assert tmp[..len + Sov(e)] == s1[..len] + EncodeVarint(e);
      EncodePackedPrefix(ts, k);
      len := len + Sov(e);
      k := k + 1;
    }
    assert ts[..|ts|] == ts;
  }

  lemma {:induction false} EncodePackedPrefix(ts: seq<int64>, k: nat)
    requires k < |ts|
    ensures EncodePacked(ts[..k + 1]) == EncodePacked(ts[..k]) + EncodeVarint(ToUint64(ts[k]))
    decreases k
  {
    if k == 0 {
      assert ts[..1][1..] == [];
    } else {
      assert ts[1..][..k - 1] == ts[..k][1..];
      assert ts[1..][..k] == ts[..k + 1][1..];
      EncodePackedPrefix(ts[1..], k - 1);
    }
  }

  method PutErrorField(o: Option<Error>, buf: array<byte>, end: nat) returns (i: nat)
    requires |PrependError(o, [])| <= end <= buf.Length && |PrependError(o, [])| < TWO63
    modifies buf
    ensures i == end - |PrependError(o, [])|
    ensures Filled(old(buf[..]), buf[..], i, end, PrependError(o, []))
  {
    i := end;
    FilledNothing(buf[..], end);
    if o.Some? {
      ghost var s0 := buf[..];
      var size := MarshalError(o.value, buf, end);
      i := PutHeader(buf, end, 7, size, EncodeError(o.value), s0, s0, end, []);
    }
  }

  method PutPackedField(
    ts: seq<int64>, buf: array<byte>, end: nat, ghost before: seq<byte>, ghost top: nat, ghost rest: seq<byte>)
    returns (i: nat)
    requires Filled(before, buf[..], end, top, rest) && |PrependPacked(ts, rest)| <= top
    requires |PrependPacked(ts, rest)| < TWO63
    modifies buf
    ensures i == top - |PrependPacked(ts, rest)|
    ensures Filled(before, buf[..], i, top, PrependPacked(ts, rest))
  {
    i := end;
    if |ts| > 0 {
      ghost var s0 := buf[..];
      var tmp, len := PackElements(ts);
      var packed := tmp[..len];
      PutBytes(buf, end - len, packed);
      i := PutHeader(buf, end, 6, len, packed, s0, before, top, rest);
    }
  }

  /** The scalar fields of a Record from the last to the first. */
  method PutScalars(m: Record, buf: array<byte>, end: nat, ghost before: seq<byte>, ghost top: nat)
    returns (i: nat)
    requires |EncodeRecord(m)| <= top && Filled(before, buf[..], end, top, EncodeFrom(m, 6))
    modifies buf
    ensures i == top - |EncodeRecord(m)|
    ensures Filled(before, buf[..], i, top, EncodeRecord(m))
  {
    i := end;
    var num := 6;
    while num > 1
      invariant 1 <= num <= 6 && i == top - |EncodeFrom(m, num)|
      invariant Filled(before, buf[..], i, top, EncodeFrom(m, num))
    {
      num := num - 1;
      EncodeFromShrinks(m, num);
      i := PutVarintField(buf, i, num, Scalar(m, num), before, top, EncodeFrom(m, num + 1));
    }
  }

  lemma {:induction false} EncodeFromShrinks(m: Record, num: nat)
    requires 1 <= num <= 6
    ensures |EncodeFrom(m, num)| <= |EncodeRecord(m)|
    decreases num
  {
    if num > 1 { EncodeFromShrinks(m, num - 1); }
  }

  /** (*Record).MarshalToSizedBuffer: exactly the encoding of the record, just before `end`. */
  method MarshalRecord(m: Record, buf: array<byte>, end: nat) returns (n: nat)
    requires |EncodeRecord(m)| <= end <= buf.Length && |EncodeRecord(m)| < TWO63
    modifies buf
    ensures n == |EncodeRecord(m)|
    ensures Filled(old(buf[..]), buf[..], end - n, end, EncodeRecord(m))
  {
    ghost var s0 := buf[..];
    EncodeFromShrinks(m, 6);
    var i7 := PutErrorField(m.err, buf, end);
    var i6 := PutPackedField(m.timeTracer, buf, i7, s0, end, PrependError(m.err, []));
    var i1 := PutScalars(m, buf, i6, s0, end);
    n := end - i1;
  }

  /** (*Record).Marshal: a buffer of exactly Size() bytes, filled completely, that reads back as `m`. */
  method MarshalNew(m: Record) returns (d: array<byte>)
    requires |EncodeRecord(m)| < TWO63
    ensures fresh(d) && d.Length == SizeRecord(m) < TWO63
    ensures Decode(OfRecord(ZERO_RECORD), d[..]) == Ok(OfRecord(m))
  {
    RecordSize(m);
    d := new byte[SizeRecord(m)];
    ghost var s0 := d[..];
    var n := MarshalRecord(m, d, d.Length);
    assert d[..] == EncodeRecord(m);
    RoundTrip(OfRecord(m));
  }
}

/** Keys of the metastore: a path prefix followed by hex-encoded components. */
module KeyAdapter {
  import opened Wrappers

  /** A component before encoding: any string of bytes. */
  type Key = seq<byte>

  // ---------------------------------------------------------------- hex

  function HexDigit(n: int): char
    requires 0 <= n < 16
  {
    if n < 10 then '0' + (n as char) else 'a' + ((n - 10) as char)
  }

  /** Upper-case digits are accepted too. */
  function DigitValue(c: char): (v: Option<int>)
    ensures v.Some? ==> 0 <= v.value < 16
  {
    if '0' <= c <= '9' then Some(c as int - '0' as int)
    else if 'a' <= c <= 'f' then Some(c as int - 'a' as int + 10)
    else if 'A' <= c <= 'F' then Some(c as int - 'A' as int + 10)
    else None
  }

  function HexEncode(k: Key): string {
    if |k| == 0 then "" else [HexDigit(k[0] / 16), HexDigit(k[0] % 16)] + HexEncode(k[1..])
  }

  /** Fails on an odd length or a character that is no digit. */
  function HexDecode(s: string): Option<Key> {
    if |s| == 0 then Some([])
    else if |s| == 1 then None
    else
      var high, low, rest := DigitValue(s[0]), DigitValue(s[1]), HexDecode(s[2..]);
      if high.Some? && low.Some? && rest.Some? then Some([16 * high.value + low.value] + rest.value) else None
  }

  lemma HexDigitValue(n: int)
    requires 0 <= n < 16
    ensures DigitValue(HexDigit(n)) == Some(n) && HexDigit(n) != '/'
  {}

  const HEX_DIGITS := "0123456789abcdef"

  /** A byte is written as its two base-16 digits, the high one first, and bytes one after the other. */
  lemma {:induction false} HexDigitsOf(k: Key, i: nat)
    requires i < |k|
    ensures |HexEncode(k)| == 2 * |k|
    ensures HexEncode(k)[2 * i] == HEX_DIGITS[k[i] / 16] && HexEncode(k)[2 * i + 1] == HEX_DIGITS[k[i] % 16]
    decreases |k|
  {
    HexByte(k[0]);
    if i > 0 {
      HexDigitsOf(k[1..], i - 1);
    } else if |k| > 1 {
      HexDigitsOf(k[1..], 0);
    }
  }

  lemma HexByte(b: byte)
    ensures HexDigit(b / 16) == HEX_DIGITS[b / 16] && HexDigit(b % 16) == HEX_DIGITS[b % 16]
  {}

  lemma {:induction false} HexRoundTrip(k: Key)
    ensures HexDecode(HexEncode(k)) == Some(k)
    decreases |k|
  {
    if |k| > 0 {
      HexDigitValue(k[0] / 16);
      HexDigitValue(k[0] % 16);
      HexRoundTrip(k[1..]);
      var s := HexEncode(k);
      assert s[0] == HexDigit(k[0] / 16) && s[1] == HexDigit(k[0] % 16) && s[2..] == HexEncode(k[1..]);
      assert k == [k[0]] + k[1..];
    }
  }

  lemma {:induction false} HexHasNoSlash(k: Key)
    ensures '/' !in HexEncode(k) && (HexEncode(k) == "" <==> k == [])
    decreases |k|
  {
    if |k| > 0 {
      HexDigitValue(k[0] / 16);
      HexDigitValue(k[0] % 16);
      HexHasNoSlash(k[1..]);
    }
  }

  // ---------------------------------------------------------------- paths

  /** The component behind the slash at `i` is not empty, "." or "..". */
  predicate CleanAt(s: string, i: nat)
    requires i + 1 < |s|
  {
    && s[i + 1] != '/'
    && !(s[i + 1] == '.' && i + 2 < |s| && s[i + 2] == '/')
    && !(s[i + 1] == '.' && i + 3 < |s| && s[i + 2] == '.' && s[i + 3] == '/')
  }

  /**
   An adapter's path: it starts and ends with a slash, and no component between two slashes is one that
   path.Clean rewrites, so that path.Clean takes away only the last slash.
   */
  predicate IsPrefix(s: string) {
    && |s| > 1 && s[0] == '/' && s[|s| - 1] == '/'
    && forall i: nat :: i + 1 < |s| && s[i] == '/' ==> CleanAt(s, i)
  }

  /** The last component of a path is not empty. */
  lemma PrefixEnd(s: string)
    requires IsPrefix(s)
    ensures |s| > 2 && s[|s| - 2] != '/'
  {}

  /** The components behind the prefix: path.Join drops those that are empty. */
  function Tail(keys: seq<Key>): string {
    if |keys| == 0 then ""
    else (if keys[0] == [] then "" else "/" + HexEncode(keys[0])) + Tail(keys[1..])
  }

  function Encode(prefix: string, keys: seq<Key>): string
    requires IsPrefix(prefix)
  {
    prefix[..|prefix| - 1] + Tail(keys)
  }

  /** strings.Split at slashes. */
  function Split(s: string): (parts: seq<string>)
    ensures |parts| > 0
  {
    if |s| == 0 then [""]
    else
      var parts := Split(s[1..]);
      if s[0] == '/' then [""] + parts else [[s[0]] + parts[0]] + parts[1..]
  }

  function DecodeAll(parts: seq<string>): Option<seq<Key>> {
    if |parts| == 0 then Some([])
    else
      var first, rest := HexDecode(parts[0]), DecodeAll(parts[1..]);
      if first.Some? && rest.Some? then Some([first.value] + rest.value) else None
  }

  function TrimPrefix(s: string, prefix: string): string {
    if prefix <= s then s[|prefix|..] else s
  }

  /** The empty key has no last character to look at; the source does not accept it. */
  function Decode(prefix: string, key: string): Option<seq<Key>>
    requires |key| > 0
  {
    var k := if key[|key| - 1] == '/' then key[..|key| - 1] else key;
    DecodeAll(Split(TrimPrefix(k, prefix)))
  }

  function Curry(prefix: string, keys: seq<Key>): string
    requires IsPrefix(prefix)
  {
    Encode(prefix, keys) + "/"
  }

  // ---------------------------------------------------------------- lists of keys

  function NonEmpty(keys: seq<Key>): seq<Key> {
    if |keys| == 0 then []
    else (if keys[0] == [] then [] else [keys[0]]) + NonEmpty(keys[1..])
  }

  lemma {:induction false} NonEmptyHasNone(keys: seq<Key>)
    ensures [] !in NonEmpty(keys)
    ensures NonEmpty(keys) == keys <==> [] !in keys
    ensures |NonEmpty(keys)| <= |keys|
    decreases |keys|
  {
    if |keys| > 0 {
      NonEmptyHasNone(keys[1..]);
      assert keys == [keys[0]] + keys[1..];
      if keys[0] == [] {
        assert |NonEmpty(keys)| < |keys|;
      } else if NonEmpty(keys) == keys {
        assert NonEmpty(keys[1..]) == NonEmpty(keys)[1..] == keys[1..];
      }
    }
  }

  /** Empty components leave no trace. */
  lemma {:induction false} TailIgnoresEmpty(keys: seq<Key>)
    ensures Tail(keys) == Tail(NonEmpty(keys))
    decreases |keys|
  {
    if |keys| > 0 {
      TailIgnoresEmpty(keys[1..]);
      if keys[0] != [] {
        assert NonEmpty(keys)[0] == keys[0] && NonEmpty(keys)[1..] == NonEmpty(keys[1..]);
      } else {
        assert NonEmpty(keys) == NonEmpty(keys[1..]);
      }
    }
  }

  lemma {:induction false} TailAppend(a: seq<Key>, b: seq<Key>)
    ensures Tail(a + b) == Tail(a) + Tail(b)
    decreases |a|
  {
    if |a| == 0 {
      assert a + b == b;
    } else {
      assert (a + b)[0] == a[0] && (a + b)[1..] == a[1..] + b;
      TailAppend(a[1..], b);
    }
  }

  // ---------------------------------------------------------------- round trip

  lemma {:induction false} SplitPiece(s: string, rest: string)
    requires '/' !in s
    ensures Split(s + "/" + rest) == [s] + Split(rest)
    ensures Split(s) == [s]
    decreases |s|
  {
    if |s| == 0 {
      assert s + "/" + rest == "/" + rest;
    } else {
      assert (s + "/" + rest)[1..] == s[1..] + "/" + rest;
      SplitPiece(s[1..], rest);
      assert s == [s[0]] + s[1..];
    }
  }

  lemma DecodeCons(part: string, parts: seq<string>, key: Key, keys: seq<Key>)
    requires HexDecode(part) == Some(key) && DecodeAll(parts) == Some(keys)
    ensures DecodeAll([part] + parts) == Some([key] + keys)
  {
    var all := [part] + parts;
    assert all[0] == part && all[1..] == parts;
  }

  lemma AfterSlash(hex: string, rest: string)
    ensures var s := "/" + hex + rest; |s| == 1 + |hex| + |rest| && s[0] == '/' && s[1..] == hex + rest
  {}

  lemma AtSlash(hex: string, rest: string)
    requires |rest| > 0 && rest[0] == '/'
    ensures hex + "/" + rest[1..] == hex + rest
  {}

  /** The first component of a tail. */
  lemma TailFront(keys: seq<Key>)
    requires |keys| > 0 && keys[0] != []
    ensures var hex, rest := HexEncode(keys[0]), Tail(keys[1..]);
      && '/' !in hex && |hex| > 0 && HexDecode(hex) == Some(keys[0])
      && |Tail(keys)| == 1 + |hex| + |rest| && Tail(keys)[0] == '/' && Tail(keys)[1..] == hex + rest
  {
    HexHasNoSlash(keys[0]);
    HexRoundTrip(keys[0]);
    AfterSlash(HexEncode(keys[0]), Tail(keys[1..]));
  }

  lemma OneDecodes(hex: string, key: Key)
    requires '/' !in hex && HexDecode(hex) == Some(key)
    ensures DecodeAll(Split(hex)) == Some([key])
  {
    SplitPiece(hex, "");
    DecodeCons(hex, [], key, []);
    assert [hex] + [] == [hex] && [key] + [] == [key];
  }

  lemma MoreDecode(hex: string, key: Key, rest: string, keys: seq<Key>)
    requires '/' !in hex && HexDecode(hex) == Some(key)
    requires |rest| > 0 && rest[0] == '/' && DecodeAll(Split(rest[1..])) == Some(keys)
    ensures DecodeAll(Split(hex + rest)) == Some([key] + keys)
  {
    var tail := rest[1..];
    AtSlash(hex, rest);
    SplitPiece(hex, tail);
    DecodeCons(hex, Split(tail), key, keys);
  }

  /** The tail without its first slash splits into the components it was made of. */
  lemma {:induction false} TailDecodes(keys: seq<Key>)
    requires |keys| > 0 && [] !in keys
    ensures |Tail(keys)| > 1 && Tail(keys)[0] == '/' && Tail(keys)[|Tail(keys)| - 1] != '/'
    ensures DecodeAll(Split(Tail(keys)[1..])) == Some(keys)
    decreases |keys|
  {
    var hex, rest := HexEncode(keys[0]), Tail(keys[1..]);
    TailFront(keys);
    assert keys == [keys[0]] + keys[1..];
    if |keys| == 1 {
      OneDecodes(hex, keys[0]);
      assert hex + rest == hex && Tail(keys)[|Tail(keys)| - 1] == hex[|hex| - 1];
    } else {
      TailDecodes(keys[1..]);
      MoreDecode(hex, keys[0], rest, keys[1..]);
      assert Tail(keys)[|Tail(keys)| - 1] == (hex + rest)[|hex + rest| - 1] == rest[|rest| - 1];
    }
  }

  lemma TrimBack(prefix: string, tail: string)
    requires IsPrefix(prefix) && |tail| > 1 && tail[0] == '/'
    ensures TrimPrefix(prefix[..|prefix| - 1] + tail, prefix) == tail[1..]
  {
    var s := prefix[..|prefix| - 1] + tail;
    assert s == prefix + tail[1..];
  }

  /** What comes back is the list without its empty components, as long as one is left. */
  lemma DecodeEncode(prefix: string, keys: seq<Key>)
    requires IsPrefix(prefix) && NonEmpty(keys) != []
    ensures |Encode(prefix, keys)| > 0 && Decode(prefix, Encode(prefix, keys)) == Some(NonEmpty(keys))
  {
    TailIgnoresEmpty(keys);
    NonEmptyHasNone(keys);
    TailDecodes(NonEmpty(keys));
    TrimBack(prefix, Tail(keys));
  }

  lemma {:induction false} LastPart(s: string)
    requires |s| > 0 && s[|s| - 1] != '/'
    ensures Split(s)[|Split(s)| - 1] != ""
    decreases |s|
  {
    if |s| > 1 { LastPart(s[1..]); }
  }

  lemma {:induction false} LastDecoded(parts: seq<string>)
    requires |parts| > 0 && parts[|parts| - 1] != "" && DecodeAll(parts).Some?
    ensures var keys := DecodeAll(parts).value; |keys| > 0 && keys[|keys| - 1] != []
    decreases |parts|
  {
    if |parts| > 1 { LastDecoded(parts[1..]); }
  }

  /** Without any component, what comes back if anything ends in the name of the adapter. */
  lemma NothingToDecode(prefix: string, keys: seq<Key>)
    requires IsPrefix(prefix) && NonEmpty(keys) == []
    ensures |Encode(prefix, keys)| > 0 && Decode(prefix, Encode(prefix, keys)) != Some(keys)
  {
    TailIgnoresEmpty(keys);
    PrefixEnd(prefix);
    var s := prefix[..|prefix| - 1];
    assert Encode(prefix, keys) == s;
    NameDecodes(s);
    assert Decode(prefix, s) == DecodeAll(Split(s)) by { assert !(prefix <= s); }
    if keys != [] { LastIsEmpty(keys); }
  }

  lemma NameDecodes(s: string)
    requires |s| > 0 && s[|s| - 1] != '/'
    ensures DecodeAll(Split(s)).Some? ==>
      var keys := DecodeAll(Split(s)).value; |keys| > 0 && keys[|keys| - 1] != []
  {
    LastPart(s);
    if DecodeAll(Split(s)).Some? { LastDecoded(Split(s)); }
  }

  lemma {:induction false} LastIsEmpty(keys: seq<Key>)
    requires NonEmpty(keys) == [] && |keys| > 0
    ensures keys[|keys| - 1] == []
    decreases |keys|
  {
    if |keys| > 1 {
      assert NonEmpty(keys[1..]) == [];
      LastIsEmpty(keys[1..]);
    }
  }

  /** Decoding undoes encoding exactly for non-empty lists of non-empty components. */
  lemma RoundTripIff(prefix: string, keys: seq<Key>)
    requires IsPrefix(prefix)
    ensures |Encode(prefix, keys)| > 0
    ensures Decode(prefix, Encode(prefix, keys)) == Some(keys) <==> keys != [] && [] !in keys
  {
    NonEmptyHasNone(keys);
    if NonEmpty(keys) == [] {
      NothingToDecode(prefix, keys);
    } else {
      DecodeEncode(prefix, keys);
    }
  }

  /** Two lists have the same key exactly if they differ in empty components only. */
  lemma EncodeInjective(prefix: string, a: seq<Key>, b: seq<Key>)
    requires IsPrefix(prefix)
    ensures Encode(prefix, a) == Encode(prefix, b) <==> NonEmpty(a) == NonEmpty(b)
  {
    TailIgnoresEmpty(a);
    TailIgnoresEmpty(b);
    if Encode(prefix, a) == Encode(prefix, b) {
      assert Tail(a) == Encode(prefix, a)[|prefix| - 1..] == Tail(b);
      TailTellsEmpty(a);
      TailTellsEmpty(b);
      if NonEmpty(a) != [] {
        DecodeEncode(prefix, a);
        DecodeEncode(prefix, b);
      }
    }
  }

  lemma TailTellsEmpty(keys: seq<Key>)
    ensures Tail(keys) == "" <==> NonEmpty(keys) == []
  {
    TailIgnoresEmpty(keys);
    NonEmptyHasNone(keys);
    if NonEmpty(keys) != [] { TailDecodes(NonEmpty(keys)); }
  }

  /** A tail has no dots, and something behind every slash. */
  predicate TailClean(t: string) {
    forall i: nat :: i < |t| ==> TailCleanAt(t, i)
  }

  predicate TailCleanAt(t: string, i: nat)
    requires i < |t|
  {
    t[i] != '.' && (t[i] == '/' ==> i + 1 < |t| && t[i + 1] != '/')
  }

  lemma {:induction false} HexHasNoDot(k: Key)
    ensures '.' !in HexEncode(k)
    decreases |k|
  {
    if |k| > 0 { HexHasNoDot(k[1..]); }
  }

  lemma JoinClean(hex: string, rest: string)
    requires |hex| > 0 && '/' !in hex && '.' !in hex && TailClean(rest)
    ensures TailClean("/" + hex + rest)
  {
    var t := "/" + hex + rest;
    forall i: nat | i < |t| ensures TailCleanAt(t, i) {
      assert t[i] == if i == 0 then '/' else if i <= |hex| then hex[i - 1] else rest[i - 1 - |hex|];
      if i + 1 < |t| { assert t[i + 1] == if i < |hex| then hex[i] else rest[i - |hex|]; }
      if |hex| < i { assert TailCleanAt(rest, i - 1 - |hex|); }
    }
  }

  lemma {:induction false} TailIsClean(keys: seq<Key>)
    ensures TailClean(Tail(keys)) && (Tail(keys) != "" ==> Tail(keys)[0] == '/')
    decreases |keys|
  {
    if |keys| > 0 {
      TailIsClean(keys[1..]);
      if keys[0] != [] {
        HexHasNoSlash(keys[0]);
        HexHasNoDot(keys[0]);
        JoinClean(HexEncode(keys[0]), Tail(keys[1..]));
      } else {
        assert Tail(keys) == Tail(keys[1..]);
      }
    }
  }

  lemma ExtendedPrefix(prefix: string, t: string)
    requires IsPrefix(prefix) && TailClean(t) && (t != "" ==> t[0] == '/')
    ensures IsPrefix(prefix[..|prefix| - 1] + t + "/")
  {
    var n := |prefix| - 1;
    var s := prefix[..n] + t + "/";
    forall i: nat | i < |s| ensures s[i] == if i <= n then prefix[i] else if i < n + |t| then t[i - n] else '/' {}
    forall i: nat | i + 1 < |s| && s[i] == '/' ensures CleanAt(s, i) {
      if i < n { assert CleanAt(prefix, i); } else { assert TailCleanAt(t, i - n); }
      if n <= i + 2 < n + |t| { assert TailCleanAt(t, i + 2 - n); }
      if n <= i + 1 < n + |t| { assert TailCleanAt(t, i + 1 - n); }
    }
  }

  /** Currying some components and encoding the others is encoding them all. */
  lemma CurryEncode(prefix: string, a: seq<Key>, b: seq<Key>)
    requires IsPrefix(prefix)
    ensures IsPrefix(Curry(prefix, a)) && Encode(Curry(prefix, a), b) == Encode(prefix, a + b)
  {
    TailIsClean(a);
    ExtendedPrefix(prefix, Tail(a));
    TailAppend(a, b);
    DropSlash(Encode(prefix, a));
    Regroup(prefix[..|prefix| - 1], Tail(a), Tail(b));
  }

  lemma DropSlash(s: string)
    ensures (s + "/")[..|s + "/"| - 1] == s
  {}

  lemma Regroup(p: string, q: string, r: string)
    ensures (p + q) + r == p + (q + r)
  {}

  // ---------------------------------------------------------------- the adapters of the source

  const ADAPTERS: seq<string> := [
    "/data-flow/master/leader/", "/data-flow/master/info/", "/data-flow/master/meta/", "/data-flow/node/info/",
    "/data-flow/job/", "/data-flow/task/", "/data-flow/worker/", "/data-flow/user/", "/data-flow/resources/",
    "/data-flow/dm/job/"]

  /** Two prefixes that differ where both have a character keep their keys apart. */
  lemma DifferentPrefixes(p: string, q: string, at: nat, a: seq<Key>, b: seq<Key>)
    requires IsPrefix(p) && IsPrefix(q) && at < |p| - 1 && at < |q| - 1 && p[at] != q[at]
    ensures Encode(p, a) != Encode(q, b)
  {
    assert Encode(p, a)[at] == p[at] && Encode(q, b)[at] == q[at];
  }

  lemma AdapterIsPrefix(i: nat)
    requires i < |ADAPTERS|
    ensures IsPrefix(ADAPTERS[i])
  {}

  /** The adapters differ at the character behind /data-flow/, or behind /data-flow/master/. */
  lemma AdaptersDiffer(i: nat, j: nat)
    requires i < |ADAPTERS| && j < |ADAPTERS| && i != j
    ensures |ADAPTERS[i]| > 12 && |ADAPTERS[j]| > 12
    ensures ADAPTERS[i][11] != ADAPTERS[j][11]
      || (|ADAPTERS[i]| > 19 && |ADAPTERS[j]| > 19 && ADAPTERS[i][18] != ADAPTERS[j][18])
  {}

  /** Keys of two different adapters never collide. */
  lemma NoCollision(i: nat, j: nat, a: seq<Key>, b: seq<Key>)
    requires i < |ADAPTERS| && j < |ADAPTERS| && i != j
    ensures IsPrefix(ADAPTERS[i]) && IsPrefix(ADAPTERS[j])
    ensures Encode(ADAPTERS[i], a) != Encode(ADAPTERS[j], b)
  {
    AdapterIsPrefix(i);
    AdapterIsPrefix(j);
    AdaptersDiffer(i, j);
    var p, q := ADAPTERS[i], ADAPTERS[j];
    DifferentPrefixes(p, q, if p[11] != q[11] then 11 else 18, a, b);
  }
}

/**
  The length-prefixed encoding (`internal/crypto/sm4gcm.go`) and the message of the entry HMAC
  (`internal/crypto/hmacsm3.go`).
 */
module LengthPrefix {
  import opened Base

  type Bytes = seq<byte>

  /** One past the longest field that is encoded; the source drops a longer one without a word. */
  const LIMIT := 0x1_0000_0000

  // ---- big-endian numbers ----

  function Power(width: nat): nat {
    if width == 0 then 1 else 256 * Power(width - 1)
  }

  function BigEndian(n: nat, width: nat): Bytes {
    if width == 0 then [] else BigEndian(n / 256, width - 1) + [(n % 256) as byte]
  }

  function Value(b: Bytes): nat {
    if b == [] then 0 else 256 * Value(b[..|b| - 1]) + b[|b| - 1] as int
  }

  lemma {:induction false} ValueOfBigEndian(n: nat, width: nat)
    requires n < Power(width)
    ensures |BigEndian(n, width)| == width && Value(BigEndian(n, width)) == n
  {
    if width > 0 {
      ValueOfBigEndian(n / 256, width - 1);
      assert BigEndian(n, width)[..width - 1] == BigEndian(n / 256, width - 1);
    }
  }

  lemma {:induction false} BigEndianOfValue(b: Bytes)
    ensures Value(b) < Power(|b|) && BigEndian(Value(b), |b|) == b
  {
    if b != [] {
      BigEndianOfValue(b[..|b| - 1]);
      var low := b[|b| - 1] as int;
      assert Value(b) / 256 == Value(b[..|b| - 1]) && Value(b) % 256 == low;
    }
  }

  /** The most significant byte comes first. */
  lemma FourBytes(n: nat)
    requires n < LIMIT
    ensures BigEndian(n, 4) == [(n / 0x100_0000) as byte, (n / 0x1_0000 % 256) as byte, (n / 256 % 256) as byte, (n % 256) as byte]
  {
    assert n / 256 / 256 == n / 0x1_0000 && n / 0x1_0000 / 256 == n / 0x100_0000;
    assert BigEndian(n, 4) == BigEndian(n / 256, 3) + [(n % 256) as byte];
    assert BigEndian(n / 256, 3) == BigEndian(n / 0x1_0000, 2) + [(n / 256 % 256) as byte];
    assert BigEndian(n / 0x1_0000, 2) == BigEndian(n / 0x100_0000, 1) + [(n / 0x1_0000 % 256) as byte];
    assert BigEndian(n / 0x100_0000, 0) == [] && BigEndian(n / 0x100_0000, 1) == [(n / 0x100_0000) as byte];
  }

  lemma Power4()
    ensures Power(4) == LIMIT
  {
    assert Power(2) == 65536;
  }

  // ---- the encoding ----

  function Append(dst: Bytes, field: Bytes): Bytes {
    if |field| >= LIMIT then dst else dst + BigEndian(|field|, 4) + field
  }

  function Encode(fields: seq<Bytes>): Bytes {
    if fields == [] then [] else Append(Encode(fields[..|fields| - 1]), fields[|fields| - 1])
  }

  method LpAppend(dst: Bytes, field: Bytes) returns (out: Bytes)
    ensures out == Append(dst, field)
  {
    if |field| > 0xFFFF_FFFF { return dst; }
    out := dst + BigEndian(|field|, 4);
    out := out + field;
  }

  method LengthPrefixed(fields: seq<Bytes>) returns (out: Bytes)
    ensures out == Encode(fields)
    ensures Decode(out) == Some(Short(fields))
  {
    out := [];
    var i := 0;
    while i < |fields|
      invariant 0 <= i <= |fields|
      invariant out == Encode(fields[..i])
    {
      assert fields[..i + 1][..i] == fields[..i];
      out := LpAppend(out, fields[i]);
      i := i + 1;
    }
    TakeAll(fields, i);
    DecodeEncode(fields);
  }

  // ---- the decoder ----

  function Decode(b: Bytes): Option<seq<Bytes>> {
    if b == [] then Some([])
    else if |b| < 4 then None
    else
      var n := Value(b[..4]);
      if |b| < 4 + n then None
      else
        var rest := Decode(b[4 + n..]);
        if rest.None? then None else Some([b[4..4 + n]] + rest.value)
  }

  /** The fields that fit. */
  function Short(fields: seq<Bytes>): seq<Bytes> {
    if fields == [] then []
    else if |fields[0]| >= LIMIT then Short(fields[1..])
    else [fields[0]] + Short(fields[1..])
  }

  lemma {:induction false} EncodeFront(fields: seq<Bytes>)
    requires fields != []
    ensures Encode(fields) == Append([], fields[0]) + Encode(fields[1..])
  {
    if |fields| == 1 {
      assert fields[..0] == [] && fields[1..] == [];
      assert Encode(fields[..0]) == [];
    } else {
      var n := |fields| - 1;
      EncodeFront(fields[..n]);
      assert fields[..n][1..] == fields[1..][..n - 1];
      AppendMoves(Append([], fields[0]), Encode(fields[1..][..n - 1]), fields[n]);
    }
  }

  lemma AppendMoves(a: Bytes, b: Bytes, field: Bytes)
    ensures Append(a + b, field) == a + Append(b, field)
  {
    assert a + b + BigEndian(|field|, 4) + field == a + (b + BigEndian(|field|, 4) + field);
  }

  lemma {:induction false} DecodeEncode(fields: seq<Bytes>)
    ensures Decode(Encode(fields)) == Some(Short(fields))
  {
    if fields != [] {
      EncodeFront(fields);
      DecodeEncode(fields[1..]);
      if |fields[0]| < LIMIT {
        DecodeHead(fields[0], Encode(fields[1..]));
      } else {
        assert [] + Encode(fields[1..]) == Encode(fields[1..]);
      }
    }
  }

  lemma DecodeHead(field: Bytes, rest: Bytes)
    requires |field| < LIMIT && Decode(rest).Some?
    ensures Decode(Append([], field) + rest) == Some([field] + Decode(rest).value)
  {
    Power4();
    ValueOfBigEndian(|field|, 4);
    var b := Append([], field) + rest;
    assert b[..4] == BigEndian(|field|, 4);
    assert b[4..4 + |field|] == field && b[4 + |field|..] == rest;
  }

  lemma HeadOf(b: Bytes, n: nat)
    requires |b| >= 4 + n && n == Value(b[..4])
    ensures n < LIMIT && Append([], b[4..4 + n]) + b[4 + n..] == b
  {
    BigEndianOfValue(b[..4]);
    Power4();
    assert b == b[..4] + b[4..4 + n] + b[4 + n..];
  }

  lemma ConsDecoded(field: Bytes, rest: seq<Bytes>)
    requires |field| < LIMIT && Short(rest) == rest
    ensures Encode([field] + rest) == Append([], field) + Encode(rest) && Short([field] + rest) == [field] + rest
  {
    EncodeFront([field] + rest);
    assert ([field] + rest)[1..] == rest;
  }

  /** The decoder accepts nothing but encodings. */
  lemma {:induction false} EncodeDecode(b: Bytes)
    requires Decode(b).Some?
    ensures Encode(Decode(b).value) == b && Short(Decode(b).value) == Decode(b).value
    decreases |b|
  {
    if b != [] {
      var n := Value(b[..4]);
      var rest := b[4 + n..];
      EncodeDecode(rest);
      HeadOf(b, n);
      ConsDecoded(b[4..4 + n], Decode(rest).value);
    }
  }

  lemma {:induction false} ShortIsEnough(fields: seq<Bytes>)
    ensures Encode(Short(fields)) == Encode(fields)
  {
    if fields != [] {
      ShortIsEnough(fields[1..]);
      EncodeFront(fields);
      if |fields[0]| < LIMIT {
        EncodeFront(Short(fields));
        assert Short(fields)[1..] == Short(fields[1..]);
      } else {
        assert [] + Encode(fields[1..]) == Encode(fields[1..]);
      }
    }
  }

  /** Two lists have one encoding exactly when they agree after dropping the fields that do not fit. */
  lemma EncodingsEqualIff(fields: seq<Bytes>, others: seq<Bytes>)
    ensures Encode(fields) == Encode(others) <==> Short(fields) == Short(others)
  {
    DecodeEncode(fields);
    DecodeEncode(others);
    ShortIsEnough(fields);
    ShortIsEnough(others);
  }

  ghost predicate AllShort(fields: seq<Bytes>) {
    forall i :: 0 <= i < |fields| ==> |fields[i]| < LIMIT
  }

  lemma {:induction false} ShortKeepsAll(fields: seq<Bytes>)
    ensures AllShort(fields) <==> Short(fields) == fields
  {
    if fields != [] {
      ShortKeepsAll(fields[1..]);
      ShortShrinks(fields[1..]);
      if AllShort(fields[1..]) && |fields[0]| < LIMIT {
        forall i | 0 <= i < |fields| ensures |fields[i]| < LIMIT {
          if i > 0 { assert fields[i] == fields[1..][i - 1]; }
        }
      }
      if AllShort(fields) {
        forall i | 0 <= i < |fields[1..]| ensures |fields[1..][i]| < LIMIT { assert fields[1..][i] == fields[i + 1]; }
      }
      if Short(fields) == fields {
        assert |Short(fields)| == |fields|;
        assert Short(fields)[1..] == fields[1..];
      }
    }
  }

  lemma {:induction false} ShortShrinks(fields: seq<Bytes>)
    ensures |Short(fields)| <= |fields|
  {
    if fields != [] { ShortShrinks(fields[1..]); }
  }

  lemma Injective(fields: seq<Bytes>, others: seq<Bytes>)
    requires AllShort(fields) && AllShort(others) && Encode(fields) == Encode(others)
    ensures fields == others
  {
    EncodingsEqualIff(fields, others);
    ShortKeepsAll(fields);
    ShortKeepsAll(others);
  }

  // ---- the message of the entry HMAC ----

  const INT64 := 0x8000_0000_0000_0000

  function EncodeUint64(n: nat): Bytes { BigEndian(n, 8) }

  /** A negative key version counts as 0. */
  function Version(kv: int): nat { if kv < 0 then 0 else kv }

  function EntryMessage(entry: Bytes, group: Bytes, kv: int, nonce: Bytes, ct: Bytes): Bytes {
    Encode([entry, group, EncodeUint64(Version(kv)), nonce, ct])
  }

  /** Messages coincide exactly when entry, group, (clamped) version, nonce and ciphertext do. */
  lemma EntryMessagesEqualIff(entry: Bytes, group: Bytes, kv: int, nonce: Bytes, ct: Bytes,
                              entry': Bytes, group': Bytes, kv': int, nonce': Bytes, ct': Bytes)
    requires AllShort([entry, group, nonce, ct]) && AllShort([entry', group', nonce', ct'])
    requires kv < INT64 && kv' < INT64
    ensures EntryMessage(entry, group, kv, nonce, ct) == EntryMessage(entry', group', kv', nonce', ct') <==>
            entry == entry' && group == group' && Version(kv) == Version(kv') && nonce == nonce' && ct == ct'
  {
    FitsVersion(kv);
    FitsVersion(kv');
    var a := [entry, group, EncodeUint64(Version(kv)), nonce, ct];
    var b := [entry', group', EncodeUint64(Version(kv')), nonce', ct'];
    FiveShort(entry, group, EncodeUint64(Version(kv)), nonce, ct);
    FiveShort(entry', group', EncodeUint64(Version(kv')), nonce', ct');
    if Encode(a) == Encode(b) {
      Injective(a, b);
      assert a[0] == b[0] && a[1] == b[1] && a[2] == b[2] && a[3] == b[3] && a[4] == b[4];
    }
  }

  /** The five parts in the order in which every client must feed them to the HMAC, the version as eight bytes. */
  lemma EntryMessageParts(entry: Bytes, group: Bytes, kv: int, nonce: Bytes, ct: Bytes)
    requires AllShort([entry, group, nonce, ct]) && kv < INT64
    ensures var parts := Decode(EntryMessage(entry, group, kv, nonce, ct));
      && parts.Some? && |parts.value| == 5
      && parts.value[0] == entry && parts.value[1] == group && parts.value[3] == nonce && parts.value[4] == ct
      && |parts.value[2]| == 8 && Value(parts.value[2]) == if kv < 0 then 0 else kv
  {
    FitsVersion(kv);
    var a := [entry, group, EncodeUint64(Version(kv)), nonce, ct];
    FiveShort(entry, group, EncodeUint64(Version(kv)), nonce, ct);
    ShortKeepsAll(a);
    DecodeEncode(a);
  }

  lemma FitsVersion(kv: int)
    requires kv < INT64
    ensures |EncodeUint64(Version(kv))| == 8 && Value(EncodeUint64(Version(kv))) == Version(kv)
  {
    Power4();
    assert Power(6) == 65536 * LIMIT;
    assert Power(8) == 65536 * Power(6);
    ValueOfBigEndian(Version(kv), 8);
  }

  lemma FiveShort(entry: Bytes, group: Bytes, kv: Bytes, nonce: Bytes, ct: Bytes)
    requires AllShort([entry, group, nonce, ct]) && |kv| == 8
    ensures AllShort([entry, group, kv, nonce, ct])
  {
    var four := [entry, group, nonce, ct];
    assert |four[0]| < LIMIT && |four[1]| < LIMIT && |four[2]| < LIMIT && |four[3]| < LIMIT;
  }

  /** A field of 2^32 bytes or more vanishes: with it and without it the encoding is the same. */
  lemma LongFieldVanishes(before: seq<Bytes>, field: Bytes)
    requires |field| >= LIMIT
    ensures Encode(before + [field]) == Encode(before)
  {
    assert (before + [field])[..|before|] == before;
  }
}

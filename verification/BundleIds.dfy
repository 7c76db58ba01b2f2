/** Bundle ids: the hash of a bundle's canonical encoding. */
module BundleIds {
  import opened Octets
  import opened Repo
  import opened CanonicalCbor
  import opened SignedPayload

  function TextKey(caption: string): Bytes
    requires |caption| < 100
  {
    Encode(TextString(Ascii(caption)))
  }

  predicate BundleSized(b: ObjectBundle) {
    match b
    case SinglePack(hash, _) => |hash| == 32
    case ChunkedPack(hash, _, _) => |hash| == 32
  }

  function EntriesOf(b: ObjectBundle): seq<MapEntry> {
    match b
    case SinglePack(hash, size) =>
      Inserted(Inserted(Inserted([],
        TextKey("kind"), TextString(Ascii("single-pack"))),
        TextKey("pack_hash"), ByteString(hash)),
        TextKey("size_bytes"), UInt(size))
    case ChunkedPack(hash, size, count) =>
      Inserted(Inserted(Inserted(Inserted([],
        TextKey("kind"), TextString(Ascii("chunked-pack"))),
        TextKey("manifest_hash"), ByteString(hash)),
        TextKey("total_size"), UInt(size)),
        TextKey("chunk_count"), UInt(count))
  }

  /** The bytes that are hashed. */
  method Preimage(b: ObjectBundle) returns (bytes: Bytes)
    requires BundleSized(b)
    ensures WellFormed(Map(EntriesOf(b)))
    ensures bytes == Encode(Map(EntriesOf(b)))
  {
    var m := new MapBuilder();
    match b {
      case SinglePack(hash, size) =>
        m.Add(TextString(Ascii("kind")), TextString(Ascii("single-pack")));
        m.Add(TextString(Ascii("pack_hash")), ByteString(hash));
        m.Add(TextString(Ascii("size_bytes")), UInt(size));
      case ChunkedPack(hash, size, count) =>
        m.Add(TextString(Ascii("kind")), TextString(Ascii("chunked-pack")));
        m.Add(TextString(Ascii("manifest_hash")), ByteString(hash));
        m.Add(TextString(Ascii("total_size")), UInt(size));
        m.Add(TextString(Ascii("chunk_count")), UInt(count));
    }
    var v := m.Build();
    var out := new Buffer();
    EncodeInto(v, out);
    bytes := out.bytes;
    assert [] + Encode(v) == Encode(v);
  }

  lemma BundleWellFormed(b: ObjectBundle)
    requires BundleSized(b)
    ensures WellFormed(Map(EntriesOf(b)))
  {
    match b {
      case SinglePack(hash, size) =>
        var e1 := AddLabel([], "kind", TextString(Ascii("single-pack")));
        var e2 := AddLabel(e1, "pack_hash", ByteString(hash));
        var e3 := AddLabel(e2, "size_bytes", UInt(size));
      case ChunkedPack(hash, size, count) =>
        var e1 := AddLabel([], "kind", TextString(Ascii("chunked-pack")));
        var e2 := AddLabel(e1, "manifest_hash", ByteString(hash));
        var e3 := AddLabel(e2, "total_size", UInt(size));
        var e4 := AddLabel(e3, "chunk_count", UInt(count));
    }
  }

  lemma AddLabel(entries: seq<MapEntry>, caption: string, value: Value) returns (more: seq<MapEntry>)
    requires EntriesWellFormed(entries) && |entries| < 10 && |caption| < 100 && WellFormed(value)
    ensures more == Inserted(entries, TextKey(caption), value) && EntriesWellFormed(more) && |more| <= |entries| + 1
  {
    EncodedIsItem(TextString(Ascii(caption)));
    InsertedWellFormed(entries, TextKey(caption), value);
    more := Inserted(entries, TextKey(caption), value);
  }

  /** A label as it goes over the wire: its length, then its letters. */
  function Labelled(caption: string): Bytes
    requires |caption| < 24
  {
    [0x60 + |caption|] + Ascii(caption)
  }

  lemma LabelBytes(caption: string)
    requires |caption| < 24
    ensures Encode(TextString(Ascii(caption))) == TextKey(caption) == Labelled(caption)
  {
  }

  lemma EncodeOne(e: MapEntry, rest: seq<MapEntry>)
    requires CanonicalCbor.Sized(e.value) && forall i :: 0 <= i < |rest| ==> CanonicalCbor.Sized(rest[i].value)
    ensures EncodeEntries([e] + rest) == e.key + Encode(e.value) + EncodeEntries(rest)
  {
    assert ([e] + rest)[1..] == rest;
  }

  /** A 32-byte hash as it goes over the wire. */
  lemma HashBytes(hash: Bytes)
    requires |hash| == 32
    ensures Encode(ByteString(hash)) == [0x58, 0x20] + hash
  {
    assert BigEndian(32, 1) == [32];
  }

  /** The bytes hashed for a single pack: three entries, the labels in the
      order of their encoded bytes. */
  lemma SinglePackBytes(hash: Bytes, size: u64)
    requires |hash| == 32 && WellFormed(Map(EntriesOf(SinglePack(hash, size))))
    ensures Encode(Map(EntriesOf(SinglePack(hash, size)))) ==
            [0xA3] + (Labelled("kind") + Labelled("single-pack")
            + (Labelled("pack_hash") + ([0x58, 0x20] + hash)
            + (Labelled("size_bytes") + Encode(UInt(size)))))
  {
    var e1 := MapEntry(TextKey("kind"), TextString(Ascii("single-pack")));
    var e2 := MapEntry(TextKey("pack_hash"), ByteString(hash));
    var e3 := MapEntry(TextKey("size_bytes"), UInt(size));
    InsertedBetween([e1], [], e2.key, e2.value);
    InsertedBetween([e1, e2], [], e3.key, e3.value);
    assert [e1] + [] == [e1] && [e1, e2] + [] == [e1, e2];
    assert EntriesOf(SinglePack(hash, size)) == [e1] + ([e2] + ([e3] + []));
    EncodeOne(e1, [e2] + ([e3] + []));
    EncodeOne(e2, [e3] + []);
    EncodeOne(e3, []);
    HashBytes(hash);
    LabelBytes("single-pack");
  }

  /** The bytes hashed for a chunked pack. */
  lemma ChunkedPackBytes(hash: Bytes, size: u64, count: u32)
    requires |hash| == 32 && WellFormed(Map(EntriesOf(ChunkedPack(hash, size, count))))
    ensures Encode(Map(EntriesOf(ChunkedPack(hash, size, count)))) ==
            [0xA4] + (Labelled("kind") + Labelled("chunked-pack")
            + (Labelled("total_size") + Encode(UInt(size))
            + (Labelled("chunk_count") + Encode(UInt(count))
            + (Labelled("manifest_hash") + ([0x58, 0x20] + hash)))))
  {
    var e1 := MapEntry(TextKey("kind"), TextString(Ascii("chunked-pack")));
    var e2 := MapEntry(TextKey("total_size"), UInt(size));
    var e3 := MapEntry(TextKey("chunk_count"), UInt(count));
    var e4 := MapEntry(TextKey("manifest_hash"), ByteString(hash));
    InsertedBetween([e1], [], e4.key, e4.value);
    InsertedBetween([e1], [e4], e2.key, e2.value);
    InsertedBetween([e1, e2], [e4], e3.key, e3.value);
    assert [e1] + [] == [e1] && [e1] + [e4] + [] == [e1] + [e4];
    assert [e1] + [e2] + [e4] == [e1, e2] + [e4];
    assert EntriesOf(ChunkedPack(hash, size, count)) == [e1, e2, e3, e4];
    HashBytes(hash);
    LabelBytes("chunked-pack");
    FourEntries(e1, e2, e3, e4);
  }

  lemma FourEntries(e1: MapEntry, e2: MapEntry, e3: MapEntry, e4: MapEntry)
    requires CanonicalCbor.Sized(e1.value) && CanonicalCbor.Sized(e2.value)
    requires CanonicalCbor.Sized(e3.value) && CanonicalCbor.Sized(e4.value)
    ensures Encode(Map([e1, e2, e3, e4])) ==
            [0xA4] + (e1.key + Encode(e1.value) + (e2.key + Encode(e2.value)
            + (e3.key + Encode(e3.value) + (e4.key + Encode(e4.value)))))
  {
    EncodeOne(e1, [e2, e3, e4]);
    EncodeOne(e2, [e3, e4]);
    EncodeOne(e3, [e4]);
    EncodeOne(e4, []);
    assert [e1] + [e2, e3, e4] == [e1, e2, e3, e4] && [e2] + [e3, e4] == [e2, e3, e4] && [e3] + [e4] == [e3, e4];
  }

  /** The labels themselves. */
  lemma LabelLetters()
    ensures Labelled("kind") == [0x64, 0x6B, 0x69, 0x6E, 0x64]
    ensures Labelled("single-pack") == [0x6B, 0x73, 0x69, 0x6E, 0x67, 0x6C, 0x65, 0x2D, 0x70, 0x61, 0x63, 0x6B]
    ensures Labelled("pack_hash") == [0x69, 0x70, 0x61, 0x63, 0x6B, 0x5F, 0x68, 0x61, 0x73, 0x68]
    ensures Labelled("size_bytes") == [0x6A, 0x73, 0x69, 0x7A, 0x65, 0x5F, 0x62, 0x79, 0x74, 0x65, 0x73]
  {
  }

  /** Labels of different lengths have different keys. */
  lemma KeysDiffer(caption: string, other: string)
    requires |caption| < 100 && |other| < 100 && |caption| != |other|
    ensures TextKey(caption) != TextKey(other)
  {
    if TextKey(caption) == TextKey(other) {
      EncodeInjective(TextString(Ascii(caption)), TextString(Ascii(other)));
    }
  }

  lemma SinglePackGet(hash: Bytes, size: u64)
    ensures var es := EntriesOf(SinglePack(hash, size));
            && Get(es, TextKey("kind")) == Some(TextString(Ascii("single-pack")))
            && Get(es, TextKey("pack_hash")) == Some(ByteString(hash))
            && Get(es, TextKey("size_bytes")) == Some(UInt(size))
  {
    KeysDiffer("kind", "pack_hash");
    KeysDiffer("kind", "size_bytes");
    KeysDiffer("pack_hash", "size_bytes");
    var e1 := Inserted([], TextKey("kind"), TextString(Ascii("single-pack")));
    var e2 := Inserted(e1, TextKey("pack_hash"), ByteString(hash));
    GetAfter([], TextKey("kind"), TextString(Ascii("single-pack")));
    GetAfter(e1, TextKey("pack_hash"), ByteString(hash));
    GetAfter(e2, TextKey("size_bytes"), UInt(size));
  }

  lemma ChunkedPackGet(hash: Bytes, size: u64, count: u32)
    ensures var es := EntriesOf(ChunkedPack(hash, size, count));
            && Get(es, TextKey("kind")) == Some(TextString(Ascii("chunked-pack")))
            && Get(es, TextKey("manifest_hash")) == Some(ByteString(hash))
            && Get(es, TextKey("total_size")) == Some(UInt(size))
            && Get(es, TextKey("chunk_count")) == Some(UInt(count))
  {
    KeysDiffer("kind", "manifest_hash");
    KeysDiffer("kind", "total_size");
    KeysDiffer("kind", "chunk_count");
    KeysDiffer("manifest_hash", "total_size");
    KeysDiffer("manifest_hash", "chunk_count");
    KeysDiffer("total_size", "chunk_count");
    var e1 := Inserted([], TextKey("kind"), TextString(Ascii("chunked-pack")));
    var e2 := Inserted(e1, TextKey("manifest_hash"), ByteString(hash));
    var e3 := Inserted(e2, TextKey("total_size"), UInt(size));
    GetAfter([], TextKey("kind"), TextString(Ascii("chunked-pack")));
    GetAfter(e1, TextKey("manifest_hash"), ByteString(hash));
    GetAfter(e2, TextKey("total_size"), UInt(size));
    GetAfter(e3, TextKey("chunk_count"), UInt(count));
  }

  lemma GetAfter(entries: seq<MapEntry>, key: Bytes, value: Value)
    ensures forall k :: Get(Inserted(entries, key, value), k) == if k == key then Some(value) else Get(entries, k)
  {
    forall k ensures Get(Inserted(entries, key, value), k) == if k == key then Some(value) else Get(entries, k) {
      InsertedGet(entries, key, value, k);
    }
  }

  lemma BundleGet(b: ObjectBundle)
    ensures match b
            case SinglePack(hash, size) =>
              && Get(EntriesOf(b), TextKey("kind")) == Some(TextString(Ascii("single-pack")))
              && Get(EntriesOf(b), TextKey("pack_hash")) == Some(ByteString(hash))
              && Get(EntriesOf(b), TextKey("size_bytes")) == Some(UInt(size))
            case ChunkedPack(hash, size, count) =>
              && Get(EntriesOf(b), TextKey("kind")) == Some(TextString(Ascii("chunked-pack")))
              && Get(EntriesOf(b), TextKey("manifest_hash")) == Some(ByteString(hash))
              && Get(EntriesOf(b), TextKey("total_size")) == Some(UInt(size))
              && Get(EntriesOf(b), TextKey("chunk_count")) == Some(UInt(count))
  {
    match b
    case SinglePack(hash, size) => SinglePackGet(hash, size);
    case ChunkedPack(hash, size, count) => ChunkedPackGet(hash, size, count);
  }

  /** Different bundles hash different bytes, across both variants. */
  lemma PreimageInjective(b: ObjectBundle, b': ObjectBundle)
    requires BundleSized(b) && BundleSized(b') && WellFormed(Map(EntriesOf(b))) && WellFormed(Map(EntriesOf(b')))
    requires Encode(Map(EntriesOf(b))) == Encode(Map(EntriesOf(b')))
    ensures b == b'
  {
    EncodeInjective(Map(EntriesOf(b)), Map(EntriesOf(b')));
    BundleGet(b);
    BundleGet(b');
    assert |Ascii("single-pack")| != |Ascii("chunked-pack")|;
  }

  /** `ObjectBundle::id`. */
  function IdOf(hash: Bytes -> Bytes, b: ObjectBundle): BundleId
    requires BundleSized(b)
  {
    BundleWellFormed(b);
    hash(Encode(Map(EntriesOf(b))))
  }

  lemma IdInjective(hash: Bytes -> Bytes, b: ObjectBundle, b': ObjectBundle)
    requires CollisionFree(hash) && BundleSized(b) && BundleSized(b') && IdOf(hash, b) == IdOf(hash, b')
    ensures b == b'
  {
    BundleWellFormed(b);
    BundleWellFormed(b');
    PreimageInjective(b, b');
  }
}

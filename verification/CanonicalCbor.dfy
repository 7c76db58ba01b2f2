/** The deterministic CBOR encoder behind bundle ids (section 4.2.1 of RFC 8949). */
module CanonicalCbor {
  import opened Octets

  /** A map's entries are held as the source holds them: by encoded key, in
      key order. */
  datatype Value =
    | UInt(n: u64)
    | ByteString(bytes: Bytes)
    | TextString(text: Bytes)
    | Array(items: seq<Value>)
    | Map(entries: seq<MapEntry>)

  datatype MapEntry = MapEntry(key: Bytes, value: Value)

  const MAX := 0x1_0000_0000_0000_0000

  // ----- encoding -----

  /** The initial byte and argument of a data item. */
  function Head(major: nat, v: u64): Bytes
    requires major < 8
  {
    if v < 24 then [major * 32 + v]
    else if v < 0x100 then [major * 32 + 24] + BigEndian(v, 1)
    else if v < 0x1_0000 then [major * 32 + 25] + BigEndian(v, 2)
    else if v < 0x1_0000_0000 then [major * 32 + 26] + BigEndian(v, 4)
    else [major * 32 + 27] + BigEndian(v, 8)
  }

  predicate Sized(v: Value) {
    match v
    case UInt(_) => true
    case ByteString(b) => |b| < MAX
    case TextString(t) => |t| < MAX
    case Array(items) => |items| < MAX && forall i :: 0 <= i < |items| ==> Sized(items[i])
    case Map(entries) => |entries| < MAX && forall i :: 0 <= i < |entries| ==> Sized(entries[i].value)
  }

  function Encode(v: Value): (b: Bytes)
    requires Sized(v)
    ensures b != []
    decreases v
  {
    match v
    case UInt(n) => Head(0, n)
    case ByteString(b) => Head(2, |b|) + b
    case TextString(t) => Head(3, |t|) + t
    case Array(items) => Head(4, |items|) + EncodeItems(items)
    case Map(entries) => Head(5, |entries|) + EncodeEntries(entries)
  }

  function EncodeItems(items: seq<Value>): Bytes
    requires forall i :: 0 <= i < |items| ==> Sized(items[i])
    decreases items
  {
    if items == [] then [] else Encode(items[0]) + EncodeItems(items[1..])
  }

  function EncodeEntries(entries: seq<MapEntry>): Bytes
    requires forall i :: 0 <= i < |entries| ==> Sized(entries[i].value)
    decreases entries
  {
    if entries == [] then [] else entries[0].key + Encode(entries[0].value) + EncodeEntries(entries[1..])
  }

  // ----- a reader for it -----

  function Argument(b: Bytes): (v: u64)
    requires |b| == 1 || |b| == 2 || |b| == 4 || |b| == 8
    ensures v == FromBigEndian(b)
  {
    Pow256Values();
    FromBigEndian(b)
  }

  function ArgumentLength(ai: nat): (n: nat)
    ensures n == 0 || n == 1 || n == 2 || n == 4 || n == 8
  {
    if ai == 24 then 1 else if ai == 25 then 2 else if ai == 26 then 4 else if ai == 27 then 8 else 0
  }

  /** Any well-formed head, shortest or not: major type, argument, rest. */
  function ReadAnyHead(b: Bytes): (r: Option<(nat, u64, Bytes)>)
    ensures r.Some? ==> r.value.0 < 8 && |r.value.2| < |b|
  {
    if b == [] then None
    else
      var major, ai := b[0] / 32, b[0] % 32;
      var n := ArgumentLength(ai);
      if ai < 24 then Some((major, ai, b[1..]))
      else if n == 0 || |b| < 1 + n then None
      else
        Some((major, Argument(b[1..1 + n]), b[1 + n..]))
  }

  /** A head in its shortest form. */
  function ReadHead(b: Bytes): (r: Option<(nat, u64, Bytes)>)
    ensures r.Some? ==> r.value.0 < 8 && |r.value.2| < |b|
  {
    var r := ReadAnyHead(b);
    if r.Some? && |Head(r.value.0, r.value.1)| == |b| - |r.value.2| then r else None
  }

  /** One data item and what follows it. */
  function Decode(b: Bytes): (r: Option<(Value, Bytes)>)
    ensures r.Some? ==> |r.value.1| < |b|
    decreases |b|, 0
  {
    match ReadHead(b)
    case None => None
    case Some((major, v, rest)) =>
      if major == 0 then Some((UInt(v), rest))
      else if major == 2 && v <= |rest| then Some((ByteString(rest[..v]), rest[v..]))
      else if major == 3 && v <= |rest| then Some((TextString(rest[..v]), rest[v..]))
      else if major == 4 then
        (match DecodeItems(rest, v)
         case None => None
         case Some((items, after)) => Some((Array(items), after)))
      else if major == 5 then
        (match DecodeEntries(rest, v)
         case None => None
         case Some((entries, after)) => Some((Map(entries), after)))
      else None
  }

  function DecodeItems(b: Bytes, n: nat): (r: Option<(seq<Value>, Bytes)>)
    ensures r.Some? ==> |r.value.1| <= |b|
    decreases |b|, n + 1
  {
    if n == 0 then Some(([], b))
    else
      match Decode(b)
      case None => None
      case Some((item, rest)) =>
        match DecodeItems(rest, n - 1)
        case None => None
        case Some((items, after)) => Some(([item] + items, after))
  }

  function DecodeEntries(b: Bytes, n: nat): (r: Option<(seq<MapEntry>, Bytes)>)
    ensures r.Some? ==> |r.value.1| <= |b|
    decreases |b|, n + 1
  {
    if n == 0 then Some(([], b))
    else
      match Decode(b)
      case None => None
      case Some((_, afterKey)) =>
        var key := b[..|b| - |afterKey|];
        match Decode(afterKey)
        case None => None
        case Some((value, rest)) =>
          match DecodeEntries(rest, n - 1)
          case None => None
          case Some((entries, after)) => Some(([MapEntry(key, value)] + entries, after))
  }

  /** `b` is exactly one encoded item. */
  predicate IsItem(b: Bytes) {
    Decode(b).Some? && Decode(b).value.1 == []
  }

  ghost predicate SortedKeys(entries: seq<MapEntry>) {
    forall i, j :: 0 <= i < j < |entries| ==> LexLt(entries[i].key, entries[j].key)
  }

  /** Values as `MapBuilder` leaves them: map keys are encoded items in
      strictly increasing byte order. */
  ghost predicate WellFormed(v: Value) {
    && Sized(v)
    && match v
       case Array(items) => forall i :: 0 <= i < |items| ==> WellFormed(items[i])
       case Map(entries) =>
         && SortedKeys(entries)
         && forall i :: 0 <= i < |entries| ==> IsItem(entries[i].key) && WellFormed(entries[i].value)
       case _ => true
  }

  // ----- heads -----

  lemma HeadRead(major: nat, v: u64, tail: Bytes)
    requires major < 8
    ensures ReadHead(Head(major, v) + tail) == Some((major, v, tail))
  {
    Pow256Values();
    var h := Head(major, v);
    var b := h + tail;
    var n := |h| - 1;
    assert b[0] == h[0] && b[1 + n..] == tail;
    assert b[0] / 32 == major;
    if n > 0 {
      assert b[1..1 + n] == h[1..] == BigEndian(v, n);
      BigEndianInverse(v, n);
    } else {
      assert b[1..] == tail;
    }
  }

  /** No well-formed head for the same argument is shorter. */
  lemma HeadShortest(b: Bytes)
    requires ReadAnyHead(b).Some?
    ensures |Head(ReadAnyHead(b).value.0, ReadAnyHead(b).value.1)| <= |b| - |ReadAnyHead(b).value.2|
  {
    Pow256Values();
  }

  // ----- more input after an item changes nothing -----

  lemma SliceOfPrefix(b: Bytes, tail: Bytes, i: nat, j: nat)
    requires i <= j <= |b|
    ensures (b + tail)[i..j] == b[i..j]
  {
    assert b + tail == b[..i] + (b[i..j] + (b[j..] + tail));
  }

  lemma HeadExtends(b: Bytes, tail: Bytes)
    requires ReadHead(b).Some?
    ensures ReadHead(b + tail) == Some((ReadHead(b).value.0, ReadHead(b).value.1, ReadHead(b).value.2 + tail))
  {
    var (major, v, rest) := ReadHead(b).value;
    var n := |b| - |rest|;
    assert (b + tail)[0] == b[0];
    assert b[n..] == rest && (b + tail)[n..] == rest + tail;
    if n > 1 {
      SliceOfPrefix(b, tail, 1, n);
    }
  }

  lemma {:induction false} DecodeExtends(b: Bytes, tail: Bytes)
    requires Decode(b).Some?
    ensures Decode(b + tail) == Some((Decode(b).value.0, Decode(b).value.1 + tail))
    decreases |b|, 0
  {
    HeadExtends(b, tail);
    var (major, v, rest) := ReadHead(b).value;
    if major == 2 || major == 3 {
      assert (rest + tail)[..v] == rest[..v] && (rest + tail)[v..] == rest[v..] + tail;
    } else if major == 4 {
      ItemsExtend(rest, v, tail);
    } else if major == 5 {
      var (entries, after) := DecodeEntries(rest, v).value;
      EntriesExtend(rest, v, tail, entries, after);
    }
  }

  lemma {:induction false} ItemsExtend(b: Bytes, n: nat, tail: Bytes)
    requires DecodeItems(b, n).Some?
    ensures DecodeItems(b + tail, n) == Some((DecodeItems(b, n).value.0, DecodeItems(b, n).value.1 + tail))
    decreases |b|, n + 1
  {
    if n > 0 {
      DecodeExtends(b, tail);
      ItemsExtend(Decode(b).value.1, n - 1, tail);
    }
  }

  /** What reading one map entry yields: key bytes, value, rest. */
  function DecodeEntry(b: Bytes): (r: Option<(MapEntry, Bytes)>)
    ensures r.Some? ==> |r.value.1| < |b|
  {
    match Decode(b)
    case None => None
    case Some((_, afterKey)) =>
      match Decode(afterKey)
      case None => None
      case Some((value, rest)) => Some((MapEntry(b[..|b| - |afterKey|], value), rest))
  }

  lemma DecodeEntriesStep(b: Bytes, n: nat)
    requires n > 0
    ensures DecodeEntries(b, n) ==
            if DecodeEntry(b).None? || DecodeEntries(DecodeEntry(b).value.1, n - 1).None? then None
            else Some(([DecodeEntry(b).value.0] + DecodeEntries(DecodeEntry(b).value.1, n - 1).value.0,
                       DecodeEntries(DecodeEntry(b).value.1, n - 1).value.1))
  {
  }

  lemma {:induction false} EntryExtends(b: Bytes, tail: Bytes, e: MapEntry, rest: Bytes)
    requires DecodeEntry(b) == Some((e, rest))
    ensures DecodeEntry(b + tail) == Some((e, rest + tail))
    decreases |b|, 1
  {
    DecodeExtends(b, tail);
    var afterKey := Decode(b).value.1;
    assert (b + tail)[..|b + tail| - |afterKey + tail|] == b[..|b| - |afterKey|];
    DecodeExtends(afterKey, tail);
  }

  ghost predicate Reads(b: Bytes, n: nat, entries: seq<MapEntry>, after: Bytes) {
    DecodeEntries(b, n) == Some((entries, after))
  }

  lemma DecodeEntriesAs(b: Bytes, n: nat, e: MapEntry, rest: Bytes, entries: seq<MapEntry>, after: Bytes)
    requires n > 0 && DecodeEntry(b) == Some((e, rest)) && Reads(rest, n - 1, entries, after)
    ensures Reads(b, n, [e] + entries, after)
  {
    DecodeEntriesStep(b, n);
  }

  lemma DecodeEntriesParts(b: Bytes, n: nat, all: seq<MapEntry>, after: Bytes)
    returns (e: MapEntry, rest: Bytes, entries: seq<MapEntry>)
    requires n > 0 && Reads(b, n, all, after)
    ensures DecodeEntry(b) == Some((e, rest)) && |rest| < |b|
    ensures Reads(rest, n - 1, entries, after) && all == [e] + entries
  {
    DecodeEntriesStep(b, n);
    e, rest := DecodeEntry(b).value.0, DecodeEntry(b).value.1;
    entries := DecodeEntries(rest, n - 1).value.0;
  }

  lemma {:induction false} EntriesExtend(b: Bytes, n: nat, tail: Bytes, all: seq<MapEntry>, after: Bytes)
    requires Reads(b, n, all, after)
    ensures Reads(b + tail, n, all, after + tail)
    decreases |b|, n + 2
  {
    if n > 0 {
      var e, rest, entries := DecodeEntriesParts(b, n, all, after);
      EntryExtends(b, tail, e, rest);
      EntriesExtend(rest, n - 1, tail, entries, after);
      DecodeEntriesAs(b + tail, n, e, rest + tail, entries, after + tail);
    }
  }

  // ----- reading back what was written -----

  lemma StringInverse(major: nat, s: Bytes, tail: Bytes)
    requires (major == 2 || major == 3) && |s| < MAX
    ensures Decode(Head(major, |s|) + s + tail) == Some((if major == 2 then ByteString(s) else TextString(s), tail))
  {
    HeadRead(major, |s|, s + tail);
    assert Head(major, |s|) + s + tail == Head(major, |s|) + (s + tail);
    assert (s + tail)[..|s|] == s && (s + tail)[|s|..] == tail;
  }

  lemma Assoc(a: Bytes, b: Bytes, c: Bytes)
    ensures a + b + c == a + (b + c)
  {
  }

  lemma ArrayDecodes(n: u64, body: Bytes, tail: Bytes, items: seq<Value>)
    requires DecodeItems(body + tail, n) == Some((items, tail))
    ensures Decode(Head(4, n) + body + tail) == Some((Array(items), tail))
  {
    HeadRead(4, n, body + tail);
    Assoc(Head(4, n), body, tail);
  }

  lemma MapDecodes(n: u64, body: Bytes, tail: Bytes, entries: seq<MapEntry>)
    requires DecodeEntries(body + tail, n) == Some((entries, tail))
    ensures Decode(Head(5, n) + body + tail) == Some((Map(entries), tail))
  {
    HeadRead(5, n, body + tail);
    Assoc(Head(5, n), body, tail);
  }

  lemma {:induction false} EncodeInverse(v: Value, tail: Bytes)
    requires WellFormed(v)
    ensures Decode(Encode(v) + tail) == Some((v, tail))
    decreases v
  {
    match v {
      case UInt(n) => HeadRead(0, n, tail);
      case ByteString(b) => StringInverse(2, b, tail);
      case TextString(t) => StringInverse(3, t, tail);
      case Array(items) =>
        ItemsInverse(items, tail);
        ArrayDecodes(|items|, EncodeItems(items), tail, items);
      case Map(entries) =>
        EntriesInverse(entries, tail);
        MapDecodes(|entries|, EncodeEntries(entries), tail, entries);
    }
  }

  lemma DecodeItemsStep(b: Bytes, item: Value, rest: Bytes, items: seq<Value>, after: Bytes)
    requires Decode(b) == Some((item, rest)) && DecodeItems(rest, |items|) == Some((items, after))
    ensures DecodeItems(b, |items| + 1) == Some(([item] + items, after))
  {
  }

  lemma {:induction false} ItemsInverse(items: seq<Value>, tail: Bytes)
    requires forall i :: 0 <= i < |items| ==> Sized(items[i]) && WellFormed(items[i])
    ensures DecodeItems(EncodeItems(items) + tail, |items|) == Some((items, tail))
    decreases items
  {
    if items == [] {
      assert EncodeItems(items) + tail == tail;
    } else {
      var first, rest := Encode(items[0]), EncodeItems(items[1..]);
      EncodeInverse(items[0], rest + tail);
      ItemsInverse(items[1..], tail);
      Assoc(first, rest, tail);
      DecodeItemsStep(first + (rest + tail), items[0], rest + tail, items[1..], tail);
      assert items == [items[0]] + items[1..];
    }
  }

  lemma {:induction false} EntryInverse(e: MapEntry, more: Bytes)
    requires IsItem(e.key) && WellFormed(e.value)
    ensures DecodeEntry(e.key + (Encode(e.value) + more)) == Some((e, more))
    decreases e
  {
    var after := Encode(e.value) + more;
    DecodeExtends(e.key, after);
    assert [] + after == after;
    assert (e.key + after)[..|e.key|] == e.key;
    EncodeInverse(e.value, more);
  }

  lemma {:induction false} EntriesInverse(entries: seq<MapEntry>, tail: Bytes)
    requires forall i :: 0 <= i < |entries| ==>
               Sized(entries[i].value) && IsItem(entries[i].key) && WellFormed(entries[i].value)
    ensures DecodeEntries(EncodeEntries(entries) + tail, |entries|) == Some((entries, tail))
    decreases entries
  {
    if entries == [] {
      assert EncodeEntries(entries) + tail == tail;
    } else {
      var e, rest := entries[0], EncodeEntries(entries[1..]);
      EntryInverse(e, rest + tail);
      EntriesInverse(entries[1..], tail);
      Assoc(e.key + Encode(e.value), rest, tail);
      Assoc(e.key, Encode(e.value), rest + tail);
      DecodeEntriesAs(e.key + (Encode(e.value) + (rest + tail)), |entries|, e, rest + tail, entries[1..], tail);
      assert entries == [e] + entries[1..];
    }
  }

  /** No encoding is a prefix of another, and none stands for two values. */
  lemma PrefixFree(v: Value, t: Bytes, v': Value, t': Bytes)
    requires WellFormed(v) && WellFormed(v') && Encode(v) + t == Encode(v') + t'
    ensures v == v' && t == t'
  {
    EncodeInverse(v, t);
    EncodeInverse(v', t');
  }

  lemma EncodeInjective(v: Value, v': Value)
    requires WellFormed(v) && WellFormed(v') && Encode(v) == Encode(v')
    ensures v == v'
  {
    PrefixFree(v, [], v', []);
  }

  lemma EncodedIsItem(v: Value)
    requires WellFormed(v)
    ensures IsItem(Encode(v))
  {
    EncodeInverse(v, []);
    assert Encode(v) + [] == Encode(v);
  }

  // ----- the encoder -----

  class Buffer {
    var bytes: Bytes

    constructor ()
      ensures bytes == []
    {
      bytes := [];
    }

    method Extend(more: Bytes)
      modifies this
      ensures bytes == old(bytes) + more
    {
      bytes := bytes + more;
    }
  }

  method WriteUint(out: Buffer, major: nat, value: u64)
    requires major < 8
    modifies out
    ensures out.bytes == old(out.bytes) + Head(major, value)
  {
    var prefix := major * 32;
    if value < 24 {
      out.Extend([prefix + value]);
    } else if value < 0x100 {
      out.Extend([prefix + 24]);
      out.Extend(BigEndian(value, 1));
    } else if value < 0x1_0000 {
      out.Extend([prefix + 25]);
      out.Extend(BigEndian(value, 2));
    } else if value < 0x1_0000_0000 {
      out.Extend([prefix + 26]);
      out.Extend(BigEndian(value, 4));
    } else {
      out.Extend([prefix + 27]);
      out.Extend(BigEndian(value, 8));
    }
  }

  method EncodeInto(v: Value, out: Buffer)
    requires Sized(v)
    modifies out
    ensures out.bytes == old(out.bytes) + Encode(v)
    decreases v, 0
  {
    match v {
      case UInt(n) =>
        WriteUint(out, 0, n);
      case ByteString(b) =>
        WriteString(out, 2, b);
      case TextString(t) =>
        WriteString(out, 3, t);
      case Array(items) =>
        WriteUint(out, 4, |items|);
        WriteItems(items, out);
        assert out.bytes == old(out.bytes) + (Head(4, |items|) + EncodeItems(items));
      case Map(entries) =>
        WriteUint(out, 5, |entries|);
        WriteEntries(entries, out);
        assert out.bytes == old(out.bytes) + (Head(5, |entries|) + EncodeEntries(entries));
    }
  }

  method WriteString(out: Buffer, major: nat, s: Bytes)
    requires major < 8 && |s| < MAX
    modifies out
    ensures out.bytes == old(out.bytes) + (Head(major, |s|) + s)
  {
    WriteUint(out, major, |s|);
    out.Extend(s);
  }

  method WriteItems(items: seq<Value>, out: Buffer)
    requires forall i :: 0 <= i < |items| ==> Sized(items[i])
    modifies out
    ensures out.bytes == old(out.bytes) + EncodeItems(items)
    decreases items, 1
  {
    for i := 0 to |items|
      invariant out.bytes + EncodeItems(items[i..]) == old(out.bytes) + EncodeItems(items)
    {
      assert items[i..][1..] == items[i + 1..];
      EncodeInto(items[i], out);
    }
    assert items[|items|..] == [];
  }

  method WriteEntries(entries: seq<MapEntry>, out: Buffer)
    requires forall i :: 0 <= i < |entries| ==> Sized(entries[i].value)
    modifies out
    ensures out.bytes == old(out.bytes) + EncodeEntries(entries)
    decreases entries, 1
  {
    for i := 0 to |entries|
      invariant out.bytes + EncodeEntries(entries[i..]) == old(out.bytes) + EncodeEntries(entries)
    {
      assert entries[i..][1..] == entries[i + 1..];
      out.Extend(entries[i].key);
      EncodeInto(entries[i].value, out);
    }
    assert entries[|entries|..] == [];
  }

  // ----- building maps -----

  function Get(entries: seq<MapEntry>, key: Bytes): Option<Value> {
    if entries == [] then None
    else if entries[0].key == key then Some(entries[0].value)
    else Get(entries[1..], key)
  }

  /** `BTreeMap::insert` on a map kept in key order. */
  function Inserted(entries: seq<MapEntry>, key: Bytes, value: Value): seq<MapEntry> {
    if entries == [] then [MapEntry(key, value)]
    else if entries[0].key == key then [MapEntry(key, value)] + entries[1..]
    else if LexLt(key, entries[0].key) then [MapEntry(key, value)] + entries
    else [entries[0]] + Inserted(entries[1..], key, value)
  }

  lemma {:induction false} InsertedGet(entries: seq<MapEntry>, key: Bytes, value: Value, k: Bytes)
    ensures Get(Inserted(entries, key, value), k) == if k == key then Some(value) else Get(entries, k)
  {
    if entries != [] && entries[0].key != key && !LexLt(key, entries[0].key) {
      InsertedGet(entries[1..], key, value, k);
      assert ([entries[0]] + Inserted(entries[1..], key, value))[1..] == Inserted(entries[1..], key, value);
    } else if entries != [] {
      assert ([MapEntry(key, value)] + entries[1..])[1..] == entries[1..];
      assert ([MapEntry(key, value)] + entries)[1..] == entries;
    }
  }

  ghost predicate EntriesWellFormed(entries: seq<MapEntry>) {
    && SortedKeys(entries)
    && forall i :: 0 <= i < |entries| ==>
         Sized(entries[i].value) && IsItem(entries[i].key) && WellFormed(entries[i].value)
  }

  /** Every key of `entries` comes after `key`. */
  ghost predicate AllAfter(key: Bytes, entries: seq<MapEntry>) {
    forall i :: 0 <= i < |entries| ==> LexLt(key, entries[i].key)
  }

  lemma LtTransitive(a: Bytes, b: Bytes, c: Bytes)
    requires LexLt(a, b) && LexLt(b, c)
    ensures LexLt(a, c)
  {
    LexTransitive(a, b, c);
    LexTotal(a, b);
  }

  lemma {:induction false} InsertedAfter(first: Bytes, entries: seq<MapEntry>, key: Bytes, value: Value)
    requires AllAfter(first, entries) && LexLt(first, key)
    ensures AllAfter(first, Inserted(entries, key, value))
  {
    if entries != [] && entries[0].key != key && !LexLt(key, entries[0].key) {
      InsertedAfter(first, entries[1..], key, value);
    }
  }

  lemma BeforeAll(key: Bytes, entries: seq<MapEntry>)
    requires EntriesWellFormed(entries) && entries != [] && LexLt(key, entries[0].key)
    ensures AllAfter(key, entries)
  {
    forall j | 0 <= j < |entries| ensures LexLt(key, entries[j].key) {
      if j > 0 {
        LtTransitive(key, entries[0].key, entries[j].key);
      }
    }
  }

  /** Inserting keeps the keys encoded items in strictly increasing order. */
  lemma {:induction false} InsertedWellFormed(entries: seq<MapEntry>, key: Bytes, value: Value)
    requires EntriesWellFormed(entries) && IsItem(key) && WellFormed(value)
    ensures EntriesWellFormed(Inserted(entries, key, value))
    ensures |Inserted(entries, key, value)| <= |entries| + 1
  {
    if entries != [] && entries[0].key != key {
      if LexLt(key, entries[0].key) {
        BeforeAll(key, entries);
      } else {
        LexTotal(key, entries[0].key);
        InsertedWellFormed(entries[1..], key, value);
        InsertedAfter(entries[0].key, entries[1..], key, value);
      }
    }
  }

  /** The keys of a built map, byte by byte: of two neighbours the first is a
      proper prefix, or has the smaller byte where they first differ. */
  lemma KeysAscend(entries: seq<MapEntry>, i: nat)
    requires WellFormed(Map(entries)) && i + 1 < |entries|
    ensures var a, b := entries[i].key, entries[i + 1].key;
            ProperPrefix(a, b) || exists j: nat :: SmallerAt(a, b, j)
  {
    LexLtIff(entries[i].key, entries[i + 1].key);
  }

  /** A key goes after the keys with a smaller first byte and before those
      with a larger one. */
  lemma {:induction false} InsertedBetween(before: seq<MapEntry>, after: seq<MapEntry>, key: Bytes, value: Value)
    requires key != [] && forall e :: e in before ==> e.key != [] && e.key[0] < key[0]
    requires after != [] ==> after[0].key != [] && key[0] < after[0].key[0]
    ensures Inserted(before + after, key, value) == before + [MapEntry(key, value)] + after
  {
    if before == [] {
      assert before + after == after;
    } else {
      var all := before + after;
      assert before[0] in before && all[0] == before[0] && all[1..] == before[1..] + after;
      InsertedBetween(before[1..], after, key, value);
      assert before == [before[0]] + before[1..];
    }
  }

  /** Integers as they go over the wire. */
  lemma UintHead(v: u64)
    ensures Encode(UInt(v)) ==
            if v < 24 then [v]
            else if v < 0x100 then [0x18] + BigEndian(v, 1)
            else if v < 0x1_0000 then [0x19] + BigEndian(v, 2)
            else if v < 0x1_0000_0000 then [0x1A] + BigEndian(v, 4)
            else [0x1B] + BigEndian(v, 8)
  {
  }

  /** The initial byte of each kind of item. */
  lemma ItemStart(v: Value)
    requires Sized(v)
    ensures Encode(v)[0] / 32 == match v
                                 case UInt(_) => 0
                                 case ByteString(_) => 2
                                 case TextString(_) => 3
                                 case Array(_) => 4
                                 case Map(_) => 5
  {
  }

  class MapBuilder {
    var entries: seq<MapEntry>

    ghost predicate Valid()
      reads this
    {
      EntriesWellFormed(entries)
    }

    constructor ()
      ensures Valid() && entries == []
    {
      entries := [];
    }

    method Add(key: Value, value: Value)
      requires Valid() && WellFormed(key) && WellFormed(value)
      modifies this
      ensures Valid() && |entries| <= old(|entries|) + 1
      ensures entries == Inserted(old(entries), Encode(key), value)
      ensures forall k :: Get(entries, k) == if k == Encode(key) then Some(value) else Get(old(entries), k)
    {
      var out := new Buffer();
      EncodeInto(key, out);
      assert out.bytes == Encode(key);
      EncodedIsItem(key);
      InsertedWellFormed(entries, out.bytes, value);
      forall k
        ensures Get(Inserted(entries, out.bytes, value), k) == if k == out.bytes then Some(value) else Get(entries, k)
      {
        InsertedGet(entries, out.bytes, value, k);
      }
      entries := Inserted(entries, out.bytes, value);
    }

    method Build() returns (v: Value)
      requires Valid() && |entries| < MAX
      ensures v == Map(entries) && WellFormed(v)
    {
      v := Map(entries);
    }
  }
}
